/** `InsnListBuilder` and its helper builders: an append-only list of
    instruction nodes, a scratch-local counter and the label supply the
    structured constructs draw from. Every DSL call appends to the end of the
    list and leaves the nodes already there as they were. */
module Builder {
  import opened Opcodes
  import opened Nodes
  import opened Layouts
  import opened Wrappers

  /** Hands out label identities: `makeLabel()` creating a fresh `LabelNode`.
      One supply is shared by a builder and the builders nested in it, as
      `LabelNode` objects are unique across them. */
  class LabelSupply {
    var next: Label

    constructor ()
      ensures next == 0
    {
      next := 0;
    }

    method Fresh() returns (l: Label)
      modifies this
      ensures l == old(next) && next == old(next) + 1
    {
      l := next;
      next := next + 1;
    }
  }

  /** `Local`: a scratch local allocated by `astore()`, `istore()`, ... */
  datatype Local = Local(index: int, localType: LocalType)

  /** Why `tableswitch` or `lookupswitch` throws `IllegalStateException`. */
  datatype SwitchError = NoCases | DuplicateCases

  /** The checks both switches make before touching the builder: at least
      one case, and no key used twice. */
  function SwitchCheck(cases: seq<Case>): (r: Option<SwitchError>)
    ensures r == Some(NoCases) <==> cases == []
    ensures r == Some(DuplicateCases) <==> cases != [] && !DistinctKeys(cases)
    ensures r == None <==> cases != [] && DistinctKeys(cases)
  {
    if cases == [] then Some(NoCases)
    else if !DistinctKeys(cases) then Some(DuplicateCases)
    else None
  }

  /** `cases.groupBy { it.index }.any { it.value.size != 1 }`: scans the
      cases once, remembering the keys seen so far. */
  method HasDuplicateKeys(cases: seq<Case>) returns (dup: bool)
    ensures dup <==> !DistinctKeys(cases)
  {
    var seen: set<int32> := {};
    var i := 0;
    while i < |cases|
      invariant 0 <= i <= |cases|
      invariant forall j, k :: 0 <= j < k < i ==> cases[j].index != cases[k].index
      invariant forall x :: x in seen <==> exists j :: 0 <= j < i && cases[j].index == x
    {
      if cases[i].index in seen {
        var j :| 0 <= j < i && cases[j].index == cases[i].index;
        assert !DistinctKeys(cases);
        return true;
      }
      seen := seen + {cases[i].index};
      i := i + 1;
    }
    return false;
  }

  /** `SwitchBuilder`: collects the cases, in call order, and the default body. */
  class SwitchBuilder {
    var cases: seq<Case>
    var defaultCase: Option<seq<Node>>

    constructor ()
      ensures cases == [] && defaultCase == None
    {
      cases := [];
      defaultCase := None;
    }

    /** `case(index, fallthrough, builder)`. */
    method AddCase(index: int32, fallthrough: bool, body: seq<Node>)
      modifies this
      ensures cases == old(cases) + [Case(index, fallthrough, body)]
      ensures defaultCase == old(defaultCase)
    {
      cases := cases + [Case(index, fallthrough, body)];
    }

    /** `default(builder)`: the last call wins. */
    method Default(body: seq<Node>)
      modifies this
      ensures defaultCase == Some(body) && cases == old(cases)
    {
      defaultCase := Some(body);
    }
  }

  /** `IfElseBuilder`: the two branches, each built by a builder of its own on
      the same method (empty until set). */
  class IfElseBuilder {
    const methodNode: MethodNode
    var ifCode: seq<Node>
    var elseCode: seq<Node>

    constructor (methodNode: MethodNode)
      ensures this.methodNode == methodNode && ifCode == [] && elseCode == []
    {
      this.methodNode := methodNode;
      ifCode := [];
      elseCode := [];
    }

    method IfCode(body: seq<Node>)
      modifies this
      ensures ifCode == body && elseCode == old(elseCode)
    {
      ifCode := body;
    }

    method ElseCode(body: seq<Node>)
      modifies this
      ensures elseCode == body && ifCode == old(ifCode)
    {
      elseCode := body;
    }
  }

  class InsnListBuilder {
    const toInjectInto: MethodNode
    /** `AsmHelper.remapper`, fixed for the builder's lifetime. */
    const remapper: Remapper
    const labels: LabelSupply
    var insnList: seq<Node>
    var currentLocalIndex: int

    constructor (toInjectInto: MethodNode, remapper: Remapper, labels: LabelSupply)
      ensures this.toInjectInto == toInjectInto && this.remapper == remapper && this.labels == labels
      ensures insnList == [] && currentLocalIndex == toInjectInto.maxLocals
    {
      this.toInjectInto := toInjectInto;
      this.remapper := remapper;
      this.labels := labels;
      insnList := [];
      currentLocalIndex := toInjectInto.maxLocals;
    }

    /** The fresh builder `invoke`, `invokeDynamic` and `IfElseBuilder` run
        their lambdas on: same method and labels, an empty list, and a local
        counter that starts again at `maxLocals`, not at this builder's.
        Those operations take the nodes such a builder produces as a
        sequence, so this method states the nested builder on its own. */
    method Nested() returns (b: InsnListBuilder)
      ensures fresh(b)
      ensures b.toInjectInto == toInjectInto && b.remapper == remapper && b.labels == labels
      ensures b.insnList == [] && b.currentLocalIndex == toInjectInto.maxLocals
    {
      b := new InsnListBuilder(toInjectInto, remapper, labels);
    }

    // -------------------------------------------------------------------
    // The list itself

    method Insn(node: Node)
      modifies this`insnList
      ensures insnList == old(insnList) + [node]
    {
      insnList := insnList + [node];
    }

    method InsertInsns(list: seq<Node>)
      modifies this`insnList
      ensures insnList == old(insnList) + list
    {
      insnList := insnList + list;
    }

    method Build() returns (list: seq<Node>)
      ensures list == insnList
    {
      list := insnList;
    }

    // -------------------------------------------------------------------
    // One-node primitives

    /** The operand-free instructions (`aaload()`, ..., `swap()`). */
    method Plain(op: PlainOp)
      modifies this`insnList
      ensures insnList == old(insnList) + [Nodes.Insn(PlainOpcode(op))]
    {
      Insn(Nodes.Insn(PlainOpcode(op)));
    }

    /** `aload(index)`, `astore(index)`, ..., `lstore(index)`. */
    method Var(op: VarOp, index: int)
      modifies this`insnList
      ensures insnList == old(insnList) + [VarInsn(VarOpcode(op), index)]
    {
      Insn(VarInsn(VarOpcode(op), index));
    }

    /** `anewarray`, `checkcast`, `instanceof`, `new`. */
    method Type(op: TypeOp, className: string)
      modifies this`insnList
      ensures insnList == old(insnList) + [TypeInsn(TypeOpcode(op), className)]
    {
      Insn(TypeInsn(TypeOpcode(op), className));
    }

    method Bipush(value: int32)
      modifies this`insnList
      ensures insnList == old(insnList) + [IntInsn(BIPUSH, value)]
    {
      Insn(IntInsn(BIPUSH, value));
    }

    method Sipush(value: int32)
      modifies this`insnList
      ensures insnList == old(insnList) + [IntInsn(SIPUSH, value)]
    {
      Insn(IntInsn(SIPUSH, value));
    }

    method Ldc(constant: Constant)
      modifies this`insnList
      ensures insnList == old(insnList) + [LdcInsn(constant)]
    {
      Insn(LdcInsn(constant));
    }

    /** `newarray(type, length)`: any type code is taken as it is, and a
        given length is pushed with `ldc`, whatever its size. */
    method NewArray(typeCode: int32, length: Option<int32>)
      modifies this`insnList
      ensures length.None? ==> insnList == old(insnList) + [IntInsn(NEWARRAY, typeCode)]
      ensures length.Some? ==>
        insnList == old(insnList) + [LdcInsn(IntValue(length.value)), IntInsn(NEWARRAY, typeCode)]
    {
      if length.Some? {
        Ldc(IntValue(length.value));
      }
      Insn(IntInsn(NEWARRAY, typeCode));
    }

    /** `bnewarray`, `cnewarray`, ..., `znewarray`: `newarray` with the
        element type's code (see `Opcodes.ArrayTypeCodesDistinct`). */
    method TypedNewArray(t: PrimitiveType, length: Option<int32>)
      modifies this`insnList
      ensures insnList == old(insnList) + (if length.Some? then [LdcInsn(IntValue(length.value))] else [])
        + [IntInsn(NEWARRAY, ArrayTypeCode(t) as int32)]
    {
      NewArray(ArrayTypeCode(t) as int32, length);
    }

    method MultiANewArray(descriptor: string, dimensions: int32)
      modifies this`insnList
      ensures insnList == old(insnList) + [MultiANewArrayInsn(descriptor, dimensions)]
    {
      Insn(MultiANewArrayInsn(descriptor, dimensions));
    }

    // -------------------------------------------------------------------
    // Constants

    /** `int(number)`: see `Nodes.IntConstantEncoding`. */
    method Int(number: int32)
      modifies this`insnList
      ensures insnList == old(insnList) + [IntConstant(number)]
    {
      if number == -1 { Insn(Nodes.Insn(ICONST_M1)); }
      else if number == 0 { Insn(Nodes.Insn(ICONST_0)); }
      else if number == 1 { Insn(Nodes.Insn(ICONST_1)); }
      else if number == 2 { Insn(Nodes.Insn(ICONST_2)); }
      else if number == 3 { Insn(Nodes.Insn(ICONST_3)); }
      else if number == 4 { Insn(Nodes.Insn(ICONST_4)); }
      else if number == 5 { Insn(Nodes.Insn(ICONST_5)); }
      else if 6 <= number <= 127 { Bipush(number); }
      else if -127 <= number <= -2 { Bipush(number); }
      else if 128 <= number <= 32768 { Sipush(number); }
      else if -32768 <= number <= -128 { Sipush(number); }
      else { Ldc(IntValue(number)); }
    }

    /** `long(number)`: see `Nodes.LongConstantEncoding`. */
    method Long(number: int64)
      modifies this`insnList
      ensures insnList == old(insnList) + [LongConstant(number)]
    {
      if number == 0 { Insn(Nodes.Insn(LCONST_0)); }
      else if number == 1 { Insn(Nodes.Insn(LCONST_1)); }
      else { Ldc(LongValue(number)); }
    }

    // -------------------------------------------------------------------
    // Scratch locals

    /** `astore()`, `fstore()`, `istore()`, `dstore()`, `lstore()`: store into
        the next scratch slot and hand it out. The counter moves on by one
        slot whatever the type, long and double included. */
    method Store(t: LocalType) returns (local: Local)
      modifies this`insnList, this`currentLocalIndex
      ensures local == Local(old(currentLocalIndex), t)
      ensures currentLocalIndex == old(currentLocalIndex) + 1
      ensures insnList == old(insnList) + [VarInsn(StoreOpcode(t), local.index)]
    {
      Insn(VarInsn(StoreOpcode(t), currentLocalIndex));
      local := Local(currentLocalIndex, t);
      currentLocalIndex := currentLocalIndex + 1;
    }

    /** `load(local)`: the load opcode of the local's type, at its index. */
    method Load(local: Local)
      modifies this`insnList
      ensures insnList == old(insnList) + [VarInsn(LoadOpcode(local.localType), local.index)]
    {
      match local.localType
      case Object => Var(Aload, local.index);
      case Float => Var(Fload, local.index);
      case Int => Var(Iload, local.index);
      case Double => Var(Dload, local.index);
      case Long => Var(Lload, local.index);
    }

    // -------------------------------------------------------------------
    // Labels and jumps

    method MakeLabel() returns (l: Label)
      modifies labels
      ensures l == old(labels.next) && labels.next == l + 1
    {
      l := labels.Fresh();
    }

    method PlaceLabel(l: Label)
      modifies this`insnList
      ensures insnList == old(insnList) + [LabelMark(l)]
    {
      Insn(LabelMark(l));
    }

    method Jump(condition: JumpCondition, l: Label)
      modifies this`insnList
      ensures insnList == old(insnList) + [JumpInsn(JumpOpcode(condition), l)]
    {
      Insn(JumpInsn(JumpOpcode(condition), l));
    }

    /** One jump to `l` per condition, in the order given. */
    method JumpAll(conditions: seq<JumpCondition>, l: Label)
      modifies this`insnList
      ensures insnList == old(insnList) + Jumps(conditions, l)
    {
      var i := 0;
      while i < |conditions|
        invariant 0 <= i <= |conditions|
        invariant insnList == old(insnList) + Jumps(conditions[..i], l)
      {
        Jump(conditions[i], l);
        assert conditions[..i + 1][..i] == conditions[..i];
        i := i + 1;
      }
      assert conditions[..i] == conditions;
    }

    // -------------------------------------------------------------------
    // Structured constructs

    /** `ifClause(conditions) { body }`: see `Layouts.IfClauseShape`. */
    method IfClause(conditions: seq<JumpCondition>, body: seq<Node>)
      modifies this`insnList, labels
      ensures labels.next == old(labels.next) + 1
      ensures insnList == old(insnList) + IfClauseLayout(conditions, body, old(labels.next))
    {
      var l := MakeLabel();
      JumpAll(conditions, l);
      InsertInsns(body);
      PlaceLabel(l);
    }

    /** `ifElseClause(conditions) { ... }`: the branches are built first, then
        the if-label and the end label are made. See `Layouts.IfElseShape`. */
    method IfElse(conditions: seq<JumpCondition>, ifElse: IfElseBuilder)
      modifies this`insnList, labels
      ensures labels.next == old(labels.next) + 2
      ensures insnList == old(insnList)
        + IfElseLayout(conditions, ifElse.ifCode, ifElse.elseCode, old(labels.next), old(labels.next) + 1)
    {
      var ifLabel := MakeLabel();
      var endLabel := MakeLabel();
      JumpAll(conditions, ifLabel);
      InsertInsns(ifElse.elseCode);
      Jump(Goto, endLabel);
      PlaceLabel(ifLabel);
      InsertInsns(ifElse.ifCode);
      PlaceLabel(endLabel);
      IfElseAppended(old(insnList), insnList, conditions, ifElse.ifCode, ifElse.elseCode, ifLabel, endLabel);
    }

    /** `synchronized { body }`: see `Layouts.SynchronizedBrackets`. */
    method Synchronized(body: seq<Node>)
      modifies this`insnList, this`currentLocalIndex
      ensures currentLocalIndex == old(currentLocalIndex) + 1
      ensures insnList == old(insnList) + SynchronizedLayout(body, old(currentLocalIndex))
    {
      Insn(Nodes.Insn(DUP));
      var syncObj := Store(Object);
      Insn(Nodes.Insn(MONITORENTER));
      InsertInsns(body);
      Load(syncObj);
      Insn(Nodes.Insn(MONITOREXIT));
    }

    /** `array(size, className) { ... }`: pushes the size, creates the array
        and hands out the element builder, which starts at index 0. */
    method Array(size: int32, className: string) returns (elements: ArrayBuilder)
      modifies this`insnList
      ensures fresh(elements) && elements.insns == this
      ensures elements.currentIndex == 0 && elements.added == []
      ensures insnList == old(insnList) + [IntConstant(size), TypeInsn(ANEWARRAY, className)]
    {
      Int(size);
      Type(Anewarray, className);
      elements := new ArrayBuilder(this);
    }

    // -------------------------------------------------------------------
    // Members, routed through the remapper

    method Field(action: FieldAction, owner: string, name: string, desc: string)
      modifies this`insnList
      ensures insnList == old(insnList) + [FieldInsn(FieldOpcode(action), owner, remapper.mapFieldAccess(name), desc)]
    {
      var realName := remapper.mapFieldAccess(name);
      Insn(FieldInsn(FieldOpcode(action), owner, realName, desc));
    }

    /** `invoke(type, owner, name, desc, arguments)`: the argument code (built
        by a nested builder) comes first, then the call with the remapped
        name, flagged as an interface call exactly for `INTERFACE`. */
    method Invoke(invokeType: InvokeType, owner: string, name: string, desc: string,
                  arguments: Option<seq<Node>>)
      modifies this`insnList
      ensures insnList == old(insnList)
        + (if arguments.Some? then arguments.value else [])
        + [MethodInsn(InvokeOpcode(invokeType), owner, remapper.mapInvocation(name), desc,
                      invokeType == Interface)]
    {
      var realName := remapper.mapInvocation(name);
      if arguments.Some? {
        InsertInsns(arguments.value);
      }
      Insn(MethodInsn(InvokeOpcode(invokeType), owner, realName, desc, invokeType == Interface));
    }

    /** `handle(tag, owner, name, desc)`. */
    method MakeHandle(tag: int, owner: string, name: string, desc: string) returns (h: Handle)
      ensures h == Handle(tag, owner, remapper.mapInvocation(name), desc)
    {
      var realName := remapper.mapInvocation(name);
      h := Handle(tag, owner, realName, desc);
    }

    /** `invokeDynamic(...)`: like `invoke`; the owner is not part of the node. */
    method InvokeDynamic(owner: string, name: string, desc: string, bootstrapMethod: Handle,
                         bootstrapArgs: seq<Constant>, arguments: Option<seq<Node>>)
      modifies this`insnList
      ensures insnList == old(insnList)
        + (if arguments.Some? then arguments.value else [])
        + [InvokeDynamicInsn(remapper.mapInvocation(name), desc, bootstrapMethod, bootstrapArgs)]
    {
      var realName := remapper.mapInvocation(name);
      if arguments.Some? {
        InsertInsns(arguments.value);
      }
      Insn(InvokeDynamicInsn(realName, desc, bootstrapMethod, bootstrapArgs));
    }

    /** `createInstance(className, desc) { parameters }`: `new`, `dup`, the
        parameters, then `invokespecial` of the (remapped) name `<init>`. */
    method CreateInstance(className: string, constructorDesc: string, parameters: seq<Node>)
      modifies this`insnList
      ensures insnList == old(insnList) + [TypeInsn(NEW, className), Nodes.Insn(DUP)] + parameters
        + [MethodInsn(INVOKESPECIAL, className, remapper.mapInvocation("<init>"), constructorDesc, false)]
    {
      Type(New, className);
      Insn(Nodes.Insn(DUP));
      InsertInsns(parameters);
      Invoke(Special, className, "<init>", constructorDesc, None);
    }

    /** `getKObjectInstance(className)`: the `INSTANCE` field of a Kotlin object. */
    method GetKObjectInstance(objectClassName: string)
      modifies this`insnList
      ensures insnList == old(insnList)
        + [FieldInsn(GETSTATIC, objectClassName, remapper.mapFieldAccess("INSTANCE"), "L" + objectClassName + ";")]
    {
      Field(GetStatic, objectClassName, "INSTANCE", "L" + objectClassName + ";");
    }

    /** `invokeKObjectFunction(...)`: the object instance, then a virtual call. */
    method InvokeKObjectFunction(objectClassName: string, methodName: string, methodDesc: string,
                                 arguments: Option<seq<Node>>)
      modifies this`insnList
      ensures insnList == old(insnList)
        + [FieldInsn(GETSTATIC, objectClassName, remapper.mapFieldAccess("INSTANCE"), "L" + objectClassName + ";")]
        + (if arguments.Some? then arguments.value else [])
        + [MethodInsn(INVOKEVIRTUAL, objectClassName, remapper.mapInvocation(methodName), methodDesc, false)]
    {
      GetKObjectInstance(objectClassName);
      Invoke(Virtual, objectClassName, methodName, methodDesc, arguments);
    }

    /** `getLocalField(...)`: a field of `this` (local 0). */
    method GetLocalField(owner: string, name: string, desc: string)
      modifies this`insnList
      ensures insnList == old(insnList)
        + [VarInsn(ALOAD, 0), FieldInsn(GETFIELD, owner, remapper.mapFieldAccess(name), desc)]
    {
      Var(Aload, 0);
      Field(GetField, owner, name, desc);
    }

    /** `updateLocalField(...) { updater }`: `this` twice, the old value, the
        updater, then the store back. */
    method UpdateLocalField(owner: string, name: string, desc: string, updater: seq<Node>)
      modifies this`insnList
      ensures insnList == old(insnList)
        + [VarInsn(ALOAD, 0), VarInsn(ALOAD, 0), FieldInsn(GETFIELD, owner, remapper.mapFieldAccess(name), desc)]
        + updater + [FieldInsn(PUTFIELD, owner, remapper.mapFieldAccess(name), desc)]
    {
      Var(Aload, 0);
      GetLocalField(owner, name, desc);
      InsertInsns(updater);
      Field(PutField, owner, name, desc);
    }

    /** `setLocalField(...) { newValue }`. */
    method SetLocalField(owner: string, name: string, desc: string, newValue: seq<Node>)
      modifies this`insnList
      ensures insnList == old(insnList) + [VarInsn(ALOAD, 0)] + newValue
        + [FieldInsn(PUTFIELD, owner, remapper.mapFieldAccess(name), desc)]
    {
      Var(Aload, 0);
      InsertInsns(newValue);
      Field(PutField, owner, name, desc);
    }

    // -------------------------------------------------------------------
    // Switches

    /** `n` fresh labels, in the order made. */
    method MakeLabels(n: nat) returns (ls: seq<Label>)
      modifies labels
      ensures ls == LabelRange(old(labels.next), n) && labels.next == old(labels.next) + n
    {
      ls := [];
      while |ls| < n
        invariant |ls| <= n && labels.next == old(labels.next) + |ls|
        invariant forall j :: 0 <= j < |ls| ==> ls[j] == old(labels.next) + j
      {
        var l := MakeLabel();
        ls := ls + [l];
      }
    }

    /** `cases.forEachIndexed { index, case -> ... }` of `lookupswitch`: each
        case's label (`ids[index]`) and body in call order, with `GOTO e`
        after the cases that do not fall through. */
    method PlaceCases(cases: seq<Case>, ids: seq<Label>, e: Label)
      requires |ids| == |cases|
      modifies this`insnList
      ensures insnList == old(insnList) + CaseBlocks(cases, ids, e)
    {
      var k := 0;
      while k < |cases|
        invariant 0 <= k <= |cases|
        invariant insnList == old(insnList) + CaseBlocks(cases[..k], ids[..k], e)
      {
        PlaceLabel(ids[k]);
        InsertInsns(cases[k].body);
        if !cases[k].fallthrough {
          Jump(Goto, e);
        }
        assert cases[..k + 1][..k] == cases[..k] && ids[..k + 1][..k] == ids[..k];
        k := k + 1;
      }
      assert cases[..k] == cases && ids[..k] == ids;
    }

    /** `cases.forEach { case -> ... }` of `tableswitch`: like `PlaceCases`,
        each case under the range label of its key, collecting the labels
        used. */
    method PlaceTableCases(cases: seq<Case>, lo: int32, ls: seq<Label>, e: Label)
      returns (used: seq<Label>)
      requires InRange(cases, lo, |ls|)
      modifies this`insnList
      ensures used == TableLabels(cases, lo, ls)
      ensures insnList == old(insnList) + CaseBlocks(cases, used, e)
    {
      ghost var ids := TableLabels(cases, lo, ls);
      used := [];
      var k := 0;
      while k < |cases|
        invariant 0 <= k <= |cases| && used == ids[..k]
        invariant insnList == old(insnList) + CaseBlocks(cases[..k], ids[..k], e)
      {
        var entry := ls[cases[k].index - lo];
        used := used + [entry];
        PlaceLabel(entry);
        InsertInsns(cases[k].body);
        if !cases[k].fallthrough {
          Jump(Goto, e);
        }
        assert cases[..k + 1][..k] == cases[..k] && ids[..k + 1][..k] == ids[..k];
        k := k + 1;
      }
      assert cases[..k] == cases && ids[..k] == ids;
    }

    /** `labels.filter { it !in usedLabels }.forEach { placeLabel(it) }`. */
    method PlaceHoles(ls: seq<Label>, used: seq<Label>)
      modifies this`insnList
      ensures insnList == old(insnList) + HoleMarks(ls, used)
    {
      var j := 0;
      while j < |ls|
        invariant 0 <= j <= |ls|
        invariant insnList == old(insnList) + HoleMarks(ls[..j], used)
      {
        if ls[j] !in used {
          PlaceLabel(ls[j]);
        }
        assert ls[..j + 1][..j] == ls[..j];
        j := j + 1;
      }
      assert ls[..j] == ls;
    }

    /** `tableswitch { ... }`: throws (here: returns the error) without
        touching the builder when there are no cases or a key repeats;
        otherwise appends `TableSwitchLayout`, its labels drawn from the
        supply's next id on. See `Layouts.TableSwitchDispatch`,
        `Layouts.TableSwitchHole`, and `Layouts.TableLayoutLabelsPlacedOnce` with
        `Layouts.TableLabelSupply`. */
    method TableSwitch(sb: SwitchBuilder) returns (err: Option<SwitchError>)
      modifies this`insnList, labels
      ensures err == SwitchCheck(sb.cases)
      ensures err.Some? ==> insnList == old(insnList) && labels.next == old(labels.next)
      ensures err.None? ==> |sb.cases| > 0
      ensures err.None? ==> insnList == old(insnList) + TableSwitchLayout(sb.cases, sb.defaultCase, old(labels.next))
      ensures err.None? ==> labels.next == old(labels.next) + Span(sb.cases) + 2
    {
      var cases := sb.cases;
      if |cases| == 0 {
        return Some(NoCases);
      }
      var dup := HasDuplicateKeys(cases);
      if dup {
        return Some(DuplicateCases);
      }
      EmitTableSwitch(cases, sb.defaultCase);
      err := None;
    }

    /** The part of `tableswitch` after the checks. */
    method EmitTableSwitch(cases: seq<Case>, dflt: Option<seq<Node>>)
      requires |cases| > 0
      modifies this`insnList, labels
      ensures insnList == old(insnList) + TableSwitchLayout(cases, dflt, old(labels.next))
      ensures labels.next == old(labels.next) + Span(cases) + 2
    {
      ghost var b := labels.next;
      var lo, hi := MinKey(cases), MaxKey(cases);
      var ls := MakeLabels(hi as int - lo as int + 1);
      var d := MakeLabel();
      var e := MakeLabel();
      TableSwitchLayoutFrom(cases, dflt, b, ls, d, e);
      Insn(TableSwitchInsn(lo, hi, d, ls));
      var used := PlaceTableCases(cases, lo, ls, e);
      PlaceLabel(d);
      PlaceHoles(ls, used);
      InsertInsns(DefaultBody(dflt));
      PlaceLabel(e);
      TableSwitchAppended(old(insnList), insnList, cases, dflt, lo, hi, ls, d, e, used);
    }

    /** `lookupswitch { ... }`: the same checks as `TableSwitch`, then
        `LookupSwitchLayout`. See `Layouts.LookupSwitchDispatch`,
        `Layouts.LookupSwitchDefault` and `Layouts.LookupSwitchLabelsPlacedOnce`. */
    method LookupSwitch(sb: SwitchBuilder) returns (err: Option<SwitchError>)
      modifies this`insnList, labels
      ensures err == SwitchCheck(sb.cases)
      ensures err.Some? ==> insnList == old(insnList) && labels.next == old(labels.next)
      ensures err.None? ==> insnList == old(insnList) + LookupSwitchLayout(sb.cases, sb.defaultCase, old(labels.next))
      ensures err.None? ==> labels.next == old(labels.next) + |sb.cases| + 2
    {
      var cases := sb.cases;
      if |cases| == 0 {
        return Some(NoCases);
      }
      var dup := HasDuplicateKeys(cases);
      if dup {
        return Some(DuplicateCases);
      }
      EmitLookupSwitch(cases, sb.defaultCase);
      err := None;
    }

    /** The part of `lookupswitch` after the checks. */
    method EmitLookupSwitch(cases: seq<Case>, dflt: Option<seq<Node>>)
      modifies this`insnList, labels
      ensures insnList == old(insnList) + LookupSwitchLayout(cases, dflt, old(labels.next))
      ensures labels.next == old(labels.next) + |cases| + 2
    {
      var ls := MakeLabels(|cases|);
      var d := MakeLabel();
      var e := MakeLabel();
      Insn(LookupSwitchInsn(d, Keys(cases), ls));
      PlaceCases(cases, ls, e);
      PlaceLabel(d);
      InsertInsns(DefaultBody(dflt));
      PlaceLabel(e);
      LookupSwitchAppended(old(insnList), insnList, cases, dflt, ls, d, e);
    }
  }

  /** `ArrayBuilder`: appends one element at a time to the builder's array,
      at indices 0, 1, 2, ... (an `Int` counter, so it wraps past 2^31 - 1). */
  class ArrayBuilder {
    const insns: InsnListBuilder
    var currentIndex: int32
    /** The elements added so far, for stating which index each one gets. */
    ghost var added: seq<(ElementKind, seq<Node>)>

    constructor (insns: InsnListBuilder)
      ensures this.insns == insns && currentIndex == 0 && added == []
    {
      this.insns := insns;
      currentIndex := 0;
      added := [];
    }

    /** `aadd`, `badd`, `cadd`, `dadd`, `fadd`: the element goes to the index
        that counts the elements added before it. */
    method Add(kind: ElementKind, code: seq<Node>)
      requires currentIndex == Wrap32(|added|)
      modifies this, insns`insnList
      ensures added == old(added) + [(kind, code)] && currentIndex == Wrap32(|added|)
      ensures insns.insnList == old(insns.insnList) + ElementLayout(kind, Wrap32(|old(added)|), code)
    {
      insns.Insn(Nodes.Insn(DUP));
      insns.Int(currentIndex);
      insns.InsertInsns(code);
      insns.Insn(Insn(ElementStoreOpcode(kind)));
      currentIndex := Wrap32(currentIndex as int + 1);
      added := added + [(kind, code)];
      WrapSucc(|old(added)|);
    }
  }

  /** The pieces `TableSwitch` appends, one after the other, make up `TableLayout`. */
  lemma {:induction false} TableSwitchAppended(before: seq<Node>, after: seq<Node>, cases: seq<Case>, dflt: Option<seq<Node>>,
                            lo: int32, hi: int32, ls: seq<Label>, d: Label, e: Label, used: seq<Label>)
    requires InRange(cases, lo, |ls|) && used == TableLabels(cases, lo, ls)
    requires after == before + [TableSwitchInsn(lo, hi, d, ls)] + CaseBlocks(cases, used, e) + [LabelMark(d)]
                      + HoleMarks(ls, used) + DefaultBody(dflt) + [LabelMark(e)]
    ensures after == before + TableLayout(cases, dflt, lo, hi, ls, d, e)
  {
  }

  /** The pieces `LookupSwitch` appends make up `LookupLayout`. */
  lemma {:induction false} LookupSwitchAppended(before: seq<Node>, after: seq<Node>, cases: seq<Case>, dflt: Option<seq<Node>>,
                             ls: seq<Label>, d: Label, e: Label)
    requires |ls| == |cases|
    requires after == before + [LookupSwitchInsn(d, Keys(cases), ls)] + CaseBlocks(cases, ls, e) + [LabelMark(d)]
                      + DefaultBody(dflt) + [LabelMark(e)]
    ensures after == before + LookupLayout(cases, dflt, ls, d, e)
  {
  }

  /** `TableSwitchLayout` from `b` is `TableLayout` with the labels `n` calls
      of `makeLabel()` return, then the default and the end label. */
  lemma {:induction false} TableSwitchLayoutFrom(cases: seq<Case>, dflt: Option<seq<Node>>, b: Label, ls: seq<Label>, d: Label, e: Label)
    requires |cases| > 0
    requires ls == LabelRange(b, MaxKey(cases) as int - MinKey(cases) as int + 1)
    requires d == b + |ls| && e == d + 1
    ensures InRange(cases, MinKey(cases), |ls|) && |ls| == Span(cases)
    ensures TableSwitchLayout(cases, dflt, b) == TableLayout(cases, dflt, MinKey(cases), MaxKey(cases), ls, d, e)
  {
    var n := Span(cases);
    assert n == MaxKey(cases) as int - MinKey(cases) as int + 1;
    assert ls == LabelRange(b, n);
    TableSwitchLayoutIs(cases, dflt, b);
  }

  /** The pieces `IfElse` appends make up `IfElseLayout`. */
  lemma {:induction false} IfElseAppended(before: seq<Node>, after: seq<Node>, conds: seq<JumpCondition>,
                                          ifCode: seq<Node>, elseCode: seq<Node>, ifLabel: Label, endLabel: Label)
    requires after == before + Jumps(conds, ifLabel) + elseCode + [JumpInsn(JumpOpcode(Goto), endLabel)]
                      + [LabelMark(ifLabel)] + ifCode + [LabelMark(endLabel)]
    ensures after == before + IfElseLayout(conds, ifCode, elseCode, ifLabel, endLabel)
  {
  }
}
