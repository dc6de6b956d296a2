/** The instruction nodes the builder appends (the node kinds of ASM's tree
    API), with the constant-encoding choices of `int(...)` and `long(...)` and
    what each encoding pushes when the JVM runs it. */
module Nodes {
  import opened Opcodes
  import opened Wrappers

  /** A label is an identity handed out by a `LabelSupply`; in ASM it is a
      `LabelNode` object. */
  type Label = nat

  /** The payload of an `LdcInsnNode`: the builder's own integer constants
      and, for every other `ldc(Any)` payload, an opaque token. */
  datatype Constant = IntValue(i: int32) | LongValue(l: int64) | OtherValue(token: nat)

  /** ASM's `Handle` of a bootstrap method. */
  datatype Handle = Handle(tag: int, owner: string, name: string, desc: string)

  datatype Node =
    | Insn(opcode: int)                                          // InsnNode
    | IntInsn(opcode: int, operand: int32)                       // IntInsnNode
    | TypeInsn(opcode: int, desc: string)                        // TypeInsnNode
    | VarInsn(opcode: int, index: int)                           // VarInsnNode
    | FieldInsn(opcode: int, owner: string, name: string, desc: string)
    | MethodInsn(opcode: int, owner: string, name: string, desc: string, itf: bool)
    | LdcInsn(cst: Constant)
    | JumpInsn(opcode: int, target: Label)
    | LabelMark(id: Label)                                       // a placed LabelNode
    | TableSwitchInsn(min: int32, max: int32, dflt: Label, labels: seq<Label>)
    | LookupSwitchInsn(dflt: Label, keys: seq<int32>, labels: seq<Label>)
    | MultiANewArrayInsn(desc: string, dims: int32)
    | InvokeDynamicInsn(name: string, desc: string, bsm: Handle, bsmArgs: seq<Constant>)

  /** The method being injected into; only its declared-local count matters here. */
  datatype MethodNode = MethodNode(maxLocals: int)

  /** `AsmHelper.remapper`: maps logical field and method names to the names
      to emit. Its two mappings are arbitrary functions. */
  datatype Remapper = Remapper(mapFieldAccess: string -> string, mapInvocation: string -> string)

  // ---------------------------------------------------------------------
  // Integer constants

  /** The node `int(n)` appends. */
  function IntConstant(n: int32): Node {
    if n == -1 then Insn(ICONST_M1)
    else if n == 0 then Insn(ICONST_0)
    else if n == 1 then Insn(ICONST_1)
    else if n == 2 then Insn(ICONST_2)
    else if n == 3 then Insn(ICONST_3)
    else if n == 4 then Insn(ICONST_4)
    else if n == 5 then Insn(ICONST_5)
    else if 6 <= n <= 127 then IntInsn(BIPUSH, n)
    else if -127 <= n <= -2 then IntInsn(BIPUSH, n)
    else if 128 <= n <= 32768 then IntInsn(SIPUSH, n)
    else if -32768 <= n <= -128 then IntInsn(SIPUSH, n)
    else LdcInsn(IntValue(n))
  }

  /** The node `long(n)` appends. */
  function LongConstant(n: int64): Node {
    if n == 0 then Insn(LCONST_0)
    else if n == 1 then Insn(LCONST_1)
    else LdcInsn(LongValue(n))
  }

  /** The low 8 bits of `v` read back as a signed byte: what the JVM makes of
      a `bipush` operand, which ASM writes as one byte. */
  function SignedByte(v: int): (r: int)
    ensures -128 <= r < 128 && (r - v) % 256 == 0
  {
    var low := v % 256;
    if low >= 128 then low - 256 else low
  }

  /** The low 16 bits of `v` read back as a signed short: what the JVM makes
      of a `sipush` operand, which ASM writes as two bytes. */
  function SignedShort(v: int): (r: int)
    ensures -32768 <= r < 32768 && (r - v) % 65536 == 0
  {
    var low := v % 65536;
    if low >= 32768 then low - 65536 else low
  }

  /** The int value a node leaves on the operand stack, following section 6.5
      of the Java Virtual Machine Specification: `iconst_<i>` pushes i, the
      immediate of `bipush` is a sign-extended byte and that of `sipush` a
      sign-extended 16-bit short (ASM writes the low 8 and 16 bits of the
      operand), `ldc` of an int pushes it. None for any other node. */
  function PushedInt(node: Node): Option<int> {
    match node
    case Insn(op) =>
      if ICONST_M1 <= op <= ICONST_5 then Some(op - ICONST_0) else None
    case IntInsn(op, v) =>
      if op == BIPUSH then Some(SignedByte(v))
      else if op == SIPUSH then Some(SignedShort(v))
      else None
    case LdcInsn(IntValue(i)) => Some(i)
    case _ => None
  }

  /** The long value a node leaves on the operand stack. */
  function PushedLong(node: Node): Option<int> {
    match node
    case Insn(op) => if op == LCONST_0 then Some(0) else if op == LCONST_1 then Some(1) else None
    case LdcInsn(LongValue(l)) => Some(l)
    case _ => None
  }

  /** Which encoding `int(n)` picks, range by range, in both directions. */
  lemma {:induction false} IntConstantEncoding(n: int32)
    ensures IntConstant(n).Insn? <==> -1 <= n <= 5
    ensures IntConstant(n).Insn? ==> IntConstant(n).opcode == ICONST_0 + n
    ensures IntConstant(n) == IntInsn(BIPUSH, n) <==> 6 <= n <= 127 || -127 <= n <= -2
    ensures IntConstant(n) == IntInsn(SIPUSH, n) <==> 128 <= n <= 32768 || -32768 <= n <= -128
    ensures IntConstant(n) == LdcInsn(IntValue(n)) <==> n < -32768 || 32768 < n
  {
  }

  /** `int(n)` pushes n for every n except 32768, which it sends to `sipush`
      although 32768 does not fit its signed 16-bit immediate: the JVM then
      pushes -32768. */
  lemma {:induction false} IntConstantPushes(n: int32)
    ensures n != 32768 ==> PushedInt(IntConstant(n)) == Some(n)
    ensures n == 32768 ==> PushedInt(IntConstant(n)) == Some(-32768)
  {
  }

  /** `long(n)` uses `lconst_0`/`lconst_1` exactly for 0 and 1 and always
      pushes n. */
  lemma {:induction false} LongConstantEncoding(n: int64)
    ensures LongConstant(n).Insn? <==> n == 0 || n == 1
    ensures LongConstant(n) == LdcInsn(LongValue(n)) <==> n != 0 && n != 1
    ensures PushedLong(LongConstant(n)) == Some(n)
  {
  }

  // ---------------------------------------------------------------------
  // Label bookkeeping over node sequences

  /** Number of placements of label `l` in `code`. */
  function MarkCount(code: seq<Node>, l: Label): nat {
    if code == [] then 0
    else MarkCount(code[..|code| - 1], l) + (if code[|code| - 1] == LabelMark(l) then 1 else 0)
  }

  /** `code` places no label of the range [lo, hi): each label it places
      was made before a construct drew its labels from `lo` on, or after it
      had drawn them all (up to `hi`), as a label supply hands out ids in
      increasing order. */
  predicate MarksOutside(code: seq<Node>, lo: Label, hi: Label) {
    forall i :: 0 <= i < |code| && code[i].LabelMark? ==> code[i].id < lo || hi <= code[i].id
  }

  lemma {:induction false} MarkCountAppend(a: seq<Node>, b: seq<Node>, l: Label)
    ensures MarkCount(a + b, l) == MarkCount(a, l) + MarkCount(b, l)
    decreases |b|
  {
    if b == [] {
      assert a + b == a;
    } else {
      var b' := b[..|b| - 1];
      assert (a + b)[..|a + b| - 1] == a + b';
      MarkCountAppend(a, b', l);
    }
  }

  lemma {:induction false} MarkCountOutside(code: seq<Node>, lo: Label, hi: Label, l: Label)
    requires MarksOutside(code, lo, hi) && lo <= l < hi
    ensures MarkCount(code, l) == 0
    decreases |code|
  {
    if code != [] {
      MarkCountOutside(code[..|code| - 1], lo, hi, l);
    }
  }

  /** The placement count of a single node. */
  lemma {:induction false} MarkCountSingle(n: Node, l: Label)
    ensures MarkCount([n], l) == if n == LabelMark(l) then 1 else 0
  {
    assert [n][..0] == [];
  }
}
