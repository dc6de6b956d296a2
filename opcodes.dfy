/** Opcode numbers of the Java Virtual Machine (chapter 7 of the Java Virtual
    Machine Specification, "Opcode Mnemonics by Opcode") and the small enums of
    the instruction DSL that map onto them. */
module Opcodes {
  import opened Wrappers

  /** Kotlin's `Int` and `Long`. */
  type int32 = x: int | -0x8000_0000 <= x < 0x8000_0000
  type int64 = x: int | -0x8000_0000_0000_0000 <= x < 0x8000_0000_0000_0000

  /** Two's-complement wrap-around of Kotlin `Int` arithmetic. */
  function Wrap32(x: int): (r: int32)
    ensures -0x8000_0000 <= x < 0x8000_0000 ==> r == x
    ensures (r - x) % 0x1_0000_0000 == 0
  {
    (x + 0x8000_0000) % 0x1_0000_0000 - 0x8000_0000
  }

  /** Incrementing a wrapped value wraps like incrementing the original. */
  lemma {:induction false} WrapSucc(x: int)
    ensures Wrap32(Wrap32(x) + 1) == Wrap32(x + 1)
  {
    var k := (x + 0x8000_0000) / 0x1_0000_0000;
    assert Wrap32(x) == x - k * 0x1_0000_0000;
    assert Wrap32(x) + 1 + 0x8000_0000 == (x + 1 + 0x8000_0000) - k * 0x1_0000_0000;
  }

  const NOP: int := 0
  const ACONST_NULL: int := 1
  const ICONST_M1: int := 2
  const ICONST_0: int := 3
  const ICONST_1: int := 4
  const ICONST_2: int := 5
  const ICONST_3: int := 6
  const ICONST_4: int := 7
  const ICONST_5: int := 8
  const LCONST_0: int := 9
  const LCONST_1: int := 10
  const FCONST_0: int := 11
  const FCONST_1: int := 12
  const FCONST_2: int := 13
  const DCONST_0: int := 14
  const DCONST_1: int := 15
  const BIPUSH: int := 16
  const SIPUSH: int := 17
  const LDC: int := 18
  const ILOAD: int := 21
  const LLOAD: int := 22
  const FLOAD: int := 23
  const DLOAD: int := 24
  const ALOAD: int := 25
  const IALOAD: int := 46
  const LALOAD: int := 47
  const FALOAD: int := 48
  const DALOAD: int := 49
  const AALOAD: int := 50
  const BALOAD: int := 51
  const CALOAD: int := 52
  const SALOAD: int := 53
  const ISTORE: int := 54
  const LSTORE: int := 55
  const FSTORE: int := 56
  const DSTORE: int := 57
  const ASTORE: int := 58
  const IASTORE: int := 79
  const LASTORE: int := 80
  const FASTORE: int := 81
  const DASTORE: int := 82
  const AASTORE: int := 83
  const BASTORE: int := 84
  const CASTORE: int := 85
  const SASTORE: int := 86
  const POP: int := 87
  const POP2: int := 88
  const DUP: int := 89
  const DUP_X1: int := 90
  const DUP_X2: int := 91
  const DUP2: int := 92
  const DUP2_X1: int := 93
  const DUP2_X2: int := 94
  const SWAP: int := 95
  const IADD: int := 96
  const LADD: int := 97
  const FADD: int := 98
  const DADD: int := 99
  const ISUB: int := 100
  const LSUB: int := 101
  const FSUB: int := 102
  const DSUB: int := 103
  const IMUL: int := 104
  const LMUL: int := 105
  const FMUL: int := 106
  const DMUL: int := 107
  const IDIV: int := 108
  const LDIV: int := 109
  const FDIV: int := 110
  const DDIV: int := 111
  const IREM: int := 112
  const LREM: int := 113
  const FREM: int := 114
  const DREM: int := 115
  const INEG: int := 116
  const LNEG: int := 117
  const FNEG: int := 118
  const DNEG: int := 119
  const ISHL: int := 120
  const LSHL: int := 121
  const ISHR: int := 122
  const LSHR: int := 123
  const IUSHR: int := 124
  const LUSHR: int := 125
  const IAND: int := 126
  const LAND: int := 127
  const IOR: int := 128
  const LOR: int := 129
  const IXOR: int := 130
  const LXOR: int := 131
  const IINC: int := 132
  const I2L: int := 133
  const I2F: int := 134
  const I2D: int := 135
  const L2I: int := 136
  const L2F: int := 137
  const L2D: int := 138
  const F2I: int := 139
  const F2L: int := 140
  const F2D: int := 141
  const D2I: int := 142
  const D2L: int := 143
  const D2F: int := 144
  const I2B: int := 145
  const I2C: int := 146
  const I2S: int := 147
  const LCMP: int := 148
  const FCMPL: int := 149
  const FCMPG: int := 150
  const DCMPL: int := 151
  const DCMPG: int := 152
  const IFEQ: int := 153
  const IFNE: int := 154
  const IFLT: int := 155
  const IFGE: int := 156
  const IFGT: int := 157
  const IFLE: int := 158
  const IF_ACMPEQ: int := 165
  const IF_ACMPNE: int := 166
  const GOTO: int := 167
  const TABLESWITCH: int := 170
  const LOOKUPSWITCH: int := 171
  const IRETURN: int := 172
  const LRETURN: int := 173
  const FRETURN: int := 174
  const DRETURN: int := 175
  const ARETURN: int := 176
  const RETURN: int := 177
  const GETSTATIC: int := 178
  const PUTSTATIC: int := 179
  const GETFIELD: int := 180
  const PUTFIELD: int := 181
  const INVOKEVIRTUAL: int := 182
  const INVOKESPECIAL: int := 183
  const INVOKESTATIC: int := 184
  const INVOKEINTERFACE: int := 185
  const INVOKEDYNAMIC: int := 186
  const NEW: int := 187
  const NEWARRAY: int := 188
  const ANEWARRAY: int := 189
  const ARRAYLENGTH: int := 190
  const ATHROW: int := 191
  const CHECKCAST: int := 192
  const INSTANCEOF: int := 193
  const MONITORENTER: int := 194
  const MONITOREXIT: int := 195
  const MULTIANEWARRAY: int := 197
  const IFNULL: int := 198
  const IFNONNULL: int := 199

  /** The `atype` operand of `newarray` (section 6.5 of the Java Virtual
      Machine Specification, Table 6.5.newarray-A). */
  const T_BOOLEAN: int := 4
  const T_CHAR: int := 5
  const T_FLOAT: int := 6
  const T_DOUBLE: int := 7
  const T_BYTE: int := 8
  const T_SHORT: int := 9
  const T_INT: int := 10
  const T_LONG: int := 11

  /** Every zero-operand DSL call of the builder, named after the DSL method. */
  datatype PlainOp =
    | Aaload | Aastore | AconstNull | Areturn | Arraylength | Athrow
    | Baload | Bastore | Caload | Castore
    | D2f | D2i | D2l | Dadd | Daload | Dastore | Dcmpg | Dcmpl | Dconst0 | Dconst1
    | Ddiv | Dmul | Dneg | Drem | Dreturn | Dsub
    | Dup | DupX1 | DupX2 | Dup2 | Dup2X1 | Dup2X2
    | F2d | F2i | F2l | Fadd | Faload | Fastore | Fcmpg | Fcmpl
    | Fconst0 | Fconst1 | Fconst2 | Fdiv | Fmul | Fneg | Frem | Freturn | Fsub
    | I2b | I2c | I2d | I2f | I2l | I2s | Iadd | Iaload | Iand | Iastore
    | IconstM1 | Iconst0 | Iconst1 | Iconst2 | Iconst3 | Iconst4 | Iconst5
    | Idiv | Iinc | Imul | Ineg | Ior | Irem | Ireturn | Ishl | Ishr | Isub | Iushr | Ixor
    | L2d | L2f | L2i | Ladd | Laload | Land | Lastore | Lcmp | Lconst0 | Lconst1
    | Ldiv | Lmul | Lneg | Lor | Lrem | Lreturn | Lshl | Lshr | Lsub | Lushr | Lxor
    | Monitorenter | Monitorexit | Nop | Pop | Pop2 | MethodReturn | Saload | Sastore | Swap
  {
    /** The four array stores whose DSL method emits the matching LOAD opcode. */
    predicate EmitsLoad() {
      this == Bastore || this == Castore || this == Dastore || this == Fastore
    }
  }

  /** The opcode of the `InsnNode` each zero-operand DSL call appends, as
      written in the builder (including the four stores that emit a load). */
  function PlainOpcode(op: PlainOp): int {
    match op
    case Aaload => AALOAD
    case Aastore => AASTORE
    case AconstNull => ACONST_NULL
    case Areturn => ARETURN
    case Arraylength => ARRAYLENGTH
    case Athrow => ATHROW
    case Baload => BALOAD
    case Bastore => BALOAD
    case Caload => CALOAD
    case Castore => CALOAD
    case D2f => D2F
    case D2i => D2I
    case D2l => D2L
    case Dadd => DADD
    case Daload => DALOAD
    case Dastore => DALOAD
    case Dcmpg => DCMPG
    case Dcmpl => DCMPL
    case Dconst0 => DCONST_0
    case Dconst1 => DCONST_1
    case Ddiv => DDIV
    case Dmul => DMUL
    case Dneg => DNEG
    case Drem => DREM
    case Dreturn => DRETURN
    case Dsub => DSUB
    case Dup => DUP
    case DupX1 => DUP_X1
    case DupX2 => DUP_X2
    case Dup2 => DUP2
    case Dup2X1 => DUP2_X1
    case Dup2X2 => DUP2_X2
    case F2d => F2D
    case F2i => F2I
    case F2l => F2L
    case Fadd => FADD
    case Faload => FALOAD
    case Fastore => FALOAD
    case Fcmpg => FCMPG
    case Fcmpl => FCMPL
    case Fconst0 => FCONST_0
    case Fconst1 => FCONST_1
    case Fconst2 => FCONST_2
    case Fdiv => FDIV
    case Fmul => FMUL
    case Fneg => FNEG
    case Frem => FREM
    case Freturn => FRETURN
    case Fsub => FSUB
    case I2b => I2B
    case I2c => I2C
    case I2d => I2D
    case I2f => I2F
    case I2l => I2L
    case I2s => I2S
    case Iadd => IADD
    case Iaload => IALOAD
    case Iand => IAND
    case Iastore => IASTORE
    case IconstM1 => ICONST_M1
    case Iconst0 => ICONST_0
    case Iconst1 => ICONST_1
    case Iconst2 => ICONST_2
    case Iconst3 => ICONST_3
    case Iconst4 => ICONST_4
    case Iconst5 => ICONST_5
    case Idiv => IDIV
    case Iinc => IINC
    case Imul => IMUL
    case Ineg => INEG
    case Ior => IOR
    case Irem => IREM
    case Ireturn => IRETURN
    case Ishl => ISHL
    case Ishr => ISHR
    case Isub => ISUB
    case Iushr => IUSHR
    case Ixor => IXOR
    case L2d => L2D
    case L2f => L2F
    case L2i => L2I
    case Ladd => LADD
    case Laload => LALOAD
    case Land => LAND
    case Lastore => LASTORE
    case Lcmp => LCMP
    case Lconst0 => LCONST_0
    case Lconst1 => LCONST_1
    case Ldiv => LDIV
    case Lmul => LMUL
    case Lneg => LNEG
    case Lor => LOR
    case Lrem => LREM
    case Lreturn => LRETURN
    case Lshl => LSHL
    case Lshr => LSHR
    case Lsub => LSUB
    case Lushr => LUSHR
    case Lxor => LXOR
    case Monitorenter => MONITORENTER
    case Monitorexit => MONITOREXIT
    case Nop => NOP
    case Pop => POP
    case Pop2 => POP2
    case MethodReturn => RETURN
    case Saload => SALOAD
    case Sastore => SASTORE
    case Swap => SWAP
  }

  /** The four array stores of the builder emit the load of the same element
      type instead of the store. */
  lemma {:induction false} ArrayStoresEmitLoads()
    ensures PlainOpcode(Bastore) == BALOAD != BASTORE
    ensures PlainOpcode(Castore) == CALOAD != CASTORE
    ensures PlainOpcode(Dastore) == DALOAD != DASTORE
    ensures PlainOpcode(Fastore) == FALOAD != FASTORE
  {
  }

  /** IINC is emitted, by `iinc` only, as a bare instruction without its
      local-index and increment operands. */
  lemma {:induction false} IincIsBare(op: PlainOp)
    ensures PlainOpcode(op) == IINC <==> op == Iinc
  {
  }

  /** DSL calls that take a local-variable index (`VarInsnNode`). */
  datatype VarOp = Aload | Astore | Dload | Dstore | Fload | Fstore | Iload | Istore | Lload | Lstore

  function VarOpcode(op: VarOp): int {
    match op
    case Aload => ALOAD
    case Astore => ASTORE
    case Dload => DLOAD
    case Dstore => DSTORE
    case Fload => FLOAD
    case Fstore => FSTORE
    case Iload => ILOAD
    case Istore => ISTORE
    case Lload => LLOAD
    case Lstore => LSTORE
  }

  /** DSL calls that take a class name (`TypeInsnNode`). */
  datatype TypeOp = Anewarray | Checkcast | Instanceof | New

  function TypeOpcode(op: TypeOp): int {
    match op
    case Anewarray => ANEWARRAY
    case Checkcast => CHECKCAST
    case Instanceof => INSTANCEOF
    case New => NEW
  }

  /** The element types of `bnewarray`, `cnewarray`, ..., `znewarray`. */
  datatype PrimitiveType = TBoolean | TChar | TFloat | TDouble | TByte | TShort | TInt | TLong

  function ArrayTypeCode(t: PrimitiveType): int {
    match t
    case TBoolean => T_BOOLEAN
    case TChar => T_CHAR
    case TFloat => T_FLOAT
    case TDouble => T_DOUBLE
    case TByte => T_BYTE
    case TShort => T_SHORT
    case TInt => T_INT
    case TLong => T_LONG
  }

  /** Each element type has its own `atype` code, one of 4..11 that section
      6.5 of the Java Virtual Machine Specification (newarray) allows. */
  lemma {:induction false} ArrayTypeCodesDistinct(t1: PrimitiveType, t2: PrimitiveType)
    ensures 4 <= ArrayTypeCode(t1) <= 11
    ensures ArrayTypeCode(t1) == ArrayTypeCode(t2) <==> t1 == t2
  {
  }

  /** `JumpCondition`: the jump opcode behind each condition name. */
  datatype JumpCondition =
    | True | False | Equal | NotEqual | LessThan | GreaterOrEqual | GreaterThan
    | LessOrEqual | Null | NonNull | Goto | RefsEqual | RefsNotEqual

  function JumpOpcode(c: JumpCondition): int {
    match c
    case True => IFNE
    case False => IFEQ
    case Equal => IFEQ
    case NotEqual => IFNE
    case LessThan => IFLT
    case GreaterOrEqual => IFGE
    case GreaterThan => IFGT
    case LessOrEqual => IFLE
    case Null => IFNULL
    case NonNull => IFNONNULL
    case Goto => GOTO
    case RefsEqual => IF_ACMPEQ
    case RefsNotEqual => IF_ACMPNE
  }

  /** `FieldAction`. */
  datatype FieldAction = GetStatic | PutStatic | GetField | PutField

  function FieldOpcode(a: FieldAction): int {
    match a
    case GetStatic => GETSTATIC
    case PutStatic => PUTSTATIC
    case GetField => GETFIELD
    case PutField => PUTFIELD
  }

  /** `InvokeType`. */
  datatype InvokeType = Virtual | Special | Static | Interface

  function InvokeOpcode(t: InvokeType): int {
    match t
    case Virtual => INVOKEVIRTUAL
    case Special => INVOKESPECIAL
    case Static => INVOKESTATIC
    case Interface => INVOKEINTERFACE
  }

  /** `LocalType`: the type tag of a scratch local. */
  datatype LocalType = Object | Float | Int | Double | Long

  function LoadOpcode(t: LocalType): int {
    match t
    case Object => ALOAD
    case Float => FLOAD
    case Int => ILOAD
    case Double => DLOAD
    case Long => LLOAD
  }

  function StoreOpcode(t: LocalType): int {
    match t
    case Object => ASTORE
    case Float => FSTORE
    case Int => ISTORE
    case Double => DSTORE
    case Long => LSTORE
  }

  /** The type family of a load or store opcode (section 2.11.1 of the Java
      Virtual Machine Specification: the letter in front of the mnemonic). */
  function VarFamily(opcode: int): Option<LocalType> {
    if opcode == ALOAD || opcode == ASTORE then Some(Object)
    else if opcode == FLOAD || opcode == FSTORE then Some(Float)
    else if opcode == ILOAD || opcode == ISTORE then Some(Int)
    else if opcode == DLOAD || opcode == DSTORE then Some(Double)
    else if opcode == LLOAD || opcode == LSTORE then Some(Long)
    else None
  }

  /** A local stored with `StoreOpcode(t)` is read back by `LoadOpcode(t)`: both
      belong to family `t`, one is a load and the other a store. */
  lemma {:induction false} LoadStoreSameFamily(t: LocalType)
    ensures VarFamily(LoadOpcode(t)) == Some(t) && VarFamily(StoreOpcode(t)) == Some(t)
    ensures LoadOpcode(t) in {ILOAD, LLOAD, FLOAD, DLOAD, ALOAD}
    ensures StoreOpcode(t) in {ISTORE, LSTORE, FSTORE, DSTORE, ASTORE}
  {
  }

  /** The element kinds of `ArrayBuilder`'s `aadd`, `badd`, `cadd`, `dadd`, `fadd`. */
  datatype ElementKind = RefElement | ByteElement | CharElement | DoubleElement | FloatElement

  /** `ArrayBuilder` passes the real store opcodes, unlike the builder's own
      `bastore`/`castore`/`dastore`/`fastore`. */
  function ElementStoreOpcode(k: ElementKind): int {
    match k
    case RefElement => AASTORE
    case ByteElement => BASTORE
    case CharElement => CASTORE
    case DoubleElement => DASTORE
    case FloatElement => FASTORE
  }
}
