# AsmHelper instruction builder and class transformer, modelled in Dafny

This project models two parts of AsmHelper, a Kotlin library for editing JVM
bytecode with ASM.

The first part is the instruction DSL, `InsnListBuilder`. A builder holds an
append-only list of ASM instruction nodes and a counter of scratch locals that
starts at the method's `maxLocals`. Every DSL call appends nodes to the end of
the list. The structured calls (`ifClause`, `ifElseClause`, `synchronized`,
`array`, `tableswitch`, `lookupswitch`) lay out several nodes and fresh labels
at a time. The helper builders `ArrayBuilder`, `SwitchBuilder` and
`IfElseBuilder` collect what those calls need.

The second part is `InstrumentationClassTransformer.transform`, which decides
what to do with each class the JVM loads:

- a null class gives null;
- protected packages pass through unchanged;
- `makeTransformers` runs once, on the first eligible class;
- a class can be replaced outright by a resource;
- otherwise the matching writers are applied in registration order, the class
  is re-serialized, and the result is optionally exported to a file.

Files:

- `wrappers.dfy`: the `Option` type the other modules share.
- `opcodes.dfy`: JVM opcode numbers, the DSL's enums (`JumpCondition`,
  `FieldAction`, `InvokeType`, `LocalType`) and Kotlin `Int` wrap-around.
- `nodes.dfy`: the node kinds of ASM's tree API, the constant encodings of
  `int(...)` and `long(...)` with what each node pushes on the JVM, and label
  placement counts.
- `layouts.dfy`: the node sequences the structured calls lay out, as functions
  of their inputs and of the first fresh label, with lemmas about where each
  jump and dispatch entry leads and how often each label is placed.
- `builder.dfy`: the builder classes, as Dafny classes whose methods append to
  a `seq<Node>` field. Each method is proved against the layout functions.
- `transformer.dfy`: the transformer. `TransformSpec` is a function of the
  state and the inputs. The class `InstrumentationClassTransformer` holds the
  `calledSetup` flag, the export switch and a copy of the `AsmHelper`
  registry (its class replacers and writers), and its `Transform` method is
  proved equal to that function.

Modelling choices:

- A `LabelNode` is a natural-number identity drawn from a `LabelSupply`. One
  supply is shared by a builder and every builder nested in it, so labels are
  unique across them, as `LabelNode` objects are.
- `AsmHelper.remapper` is a constructor parameter of the builder, fixed for its
  lifetime. Its two mappings are arbitrary functions.
- A Kotlin lambda that builds code (a case body, an if branch, invocation
  arguments) is modelled as the node sequence it appends. The label lemmas
  require that such a body places no label of the construct's own range. A
  case body runs after `tableswitch` or `lookupswitch` has made its labels, so
  any label it makes comes later. The branches of `ifElseClause` are built
  before it makes its two labels, so any label they make comes earlier.
- The transformer's I/O and foreign code are fields of an `Environment` value:
  `makeTransformers` acting on the registry and on the protected
  `exportTransformed` switch, the resource loader, ASM's reader and writer,
  the export directory and the file separator.
- The written export files are a sequence field of the transformer object.

When serializing a transformed class throws part-way, the source still
returns `classWriter.toByteArray()`. It does not fall back to the original
bytes, and the model follows the source here (`WritersInRegistrationOrder`).

The source's quirks are modelled as written and stated as lemmas:

- `bastore`, `castore`, `dastore` and `fastore` emit the matching load opcode
  (`ArrayStoresEmitLoads`).
- `iinc` emits a bare `IINC` with no operands (`IincIsBare`).
- `int(32768)` is encoded with `sipush`, whose immediate is a signed 16-bit
  value, so the JVM pushes -32768 (`IntConstantPushes`, `ElementStoredAt`).
- `lookupswitch` keeps its keys in call order, not in the increasing order the
  JVM requires (`LookupSwitchKeysInCallOrder`).
- Every scratch local takes one slot, even a `long` or `double` (`Store`).

## Model

| member | source | states |
|---|---|---|
| Opcodes.Wrap32 | src/main/kotlin/dev/falsehonesty/asmhelper/dsl/instructions/insnList.kt:839-849 | Kotlin `Int` arithmetic: the identity on the 32-bit range, and always congruent to the input modulo 2^32 |
| Opcodes.WrapSucc | src/main/kotlin/dev/falsehonesty/asmhelper/dsl/instructions/insnList.kt:849 | incrementing a wrapped counter gives the wrap of the incremented count, so `currentIndex++` counts elements modulo 2^32 |
| Opcodes.PlainOpcode | src/main/kotlin/dev/falsehonesty/asmhelper/dsl/instructions/insnList.kt:14-288 | the opcode of the single node each operand-free DSL call appends, as the source writes it, quirks included (see `ArrayStoresEmitLoads`, `IincIsBare`) |
| Opcodes.VarOpcode | src/main/kotlin/dev/falsehonesty/asmhelper/dsl/instructions/insnList.kt:14-288 | the opcode of each `aload(index)` … `lstore(index)` call |
| Opcodes.TypeOpcode | src/main/kotlin/dev/falsehonesty/asmhelper/dsl/instructions/insnList.kt:14-288 | the opcode of `anewarray`, `checkcast`, `instanceof` and `new` |
| Opcodes.ArrayTypeCode | src/main/kotlin/dev/falsehonesty/asmhelper/dsl/instructions/insnList.kt:38-288 | the `atype` code `bnewarray` … `znewarray` pass to `newarray` |
| Opcodes.ArrayTypeCodesDistinct | src/main/kotlin/dev/falsehonesty/asmhelper/dsl/instructions/insnList.kt:38-288 | each element type has a different `atype` code, each in the range 4..11 the JVM allows |
| Opcodes.JumpOpcode | src/main/kotlin/dev/falsehonesty/asmhelper/dsl/instructions/insnList.kt:816-836 | the jump opcode behind each `JumpCondition` |
| Opcodes.FieldOpcode | src/main/kotlin/dev/falsehonesty/asmhelper/dsl/instructions/insnList.kt:895-900 | the opcode behind each `FieldAction` |
| Opcodes.InvokeOpcode | src/main/kotlin/dev/falsehonesty/asmhelper/dsl/instructions/insnList.kt:902-907 | the opcode behind each `InvokeType` |
| Opcodes.LoadOpcode | src/main/kotlin/dev/falsehonesty/asmhelper/dsl/instructions/insnList.kt:795-803 | the load opcode `load(local)` uses for each `LocalType` |
| Opcodes.StoreOpcode | src/main/kotlin/dev/falsehonesty/asmhelper/dsl/instructions/insnList.kt:765-793 | the store opcode `astore()`, …, `lstore()` use |
| Opcodes.ElementStoreOpcode | src/main/kotlin/dev/falsehonesty/asmhelper/dsl/instructions/insnList.kt:841-845 | the real store opcode `aadd`, …, `fadd` pass to `add` |
| Opcodes.ArrayStoresEmitLoads | src/main/kotlin/dev/falsehonesty/asmhelper/dsl/instructions/insnList.kt:34-108 | `bastore`, `castore`, `dastore` and `fastore` append BALOAD, CALOAD, DALOAD and FALOAD, and not the store opcodes |
| Opcodes.IincIsBare | src/main/kotlin/dev/falsehonesty/asmhelper/dsl/instructions/insnList.kt:174 | exactly one operand-free DSL call, `iinc`, emits IINC |
| Opcodes.LoadStoreSameFamily | src/main/kotlin/dev/falsehonesty/asmhelper/dsl/instructions/insnList.kt:765-803 | the store opcode `astore()`/…/`lstore()` uses and the load opcode `load(local)` uses for a local type belong to that type's family, one a store and one a load |
| Nodes.IntConstantEncoding | src/main/kotlin/dev/falsehonesty/asmhelper/dsl/instructions/insnList.kt:348-363 | `int(n)` picks `iconst_n` exactly for -1..5, `bipush` exactly for 6..127 and -127..-2, `sipush` exactly for 128..32768 and -32768..-128, and `ldc` for everything else |
| Nodes.IntConstantPushes | src/main/kotlin/dev/falsehonesty/asmhelper/dsl/instructions/insnList.kt:348-363 | the node `int(n)` appends pushes n on the JVM for every n except 32768, for which it pushes -32768 |
| Nodes.IntConstant | src/main/kotlin/dev/falsehonesty/asmhelper/dsl/instructions/insnList.kt:348-363 | the node `int(n)` appends (properties in `IntConstantEncoding`, `IntConstantPushes`) |
| Nodes.LongConstantEncoding | src/main/kotlin/dev/falsehonesty/asmhelper/dsl/instructions/insnList.kt:394-400 | `long(n)` uses `lconst_0`/`lconst_1` exactly for 0 and 1, `ldc` otherwise, and always pushes n |
| Nodes.LongConstant | src/main/kotlin/dev/falsehonesty/asmhelper/dsl/instructions/insnList.kt:394-400 | the node `long(n)` appends (properties in `LongConstantEncoding`) |
| Layouts.IfClauseLayout | src/main/kotlin/dev/falsehonesty/asmhelper/dsl/instructions/insnList.kt:428-438 | what `ifClause` appends (properties in `IfClauseShape`) |
| Layouts.IfElseLayout | src/main/kotlin/dev/falsehonesty/asmhelper/dsl/instructions/insnList.kt:460-481 | what `ifElseClause` appends (properties in `IfElseShape`, `IfElseLabelsPlacedOnce`) |
| Layouts.SynchronizedLayout | src/main/kotlin/dev/falsehonesty/asmhelper/dsl/instructions/insnList.kt:408-415 | what `synchronized` appends (properties in `SynchronizedBrackets`) |
| Layouts.ElementLayout | src/main/kotlin/dev/falsehonesty/asmhelper/dsl/instructions/insnList.kt:847-852 | what one `ArrayBuilder` element appends (properties in `ElementStoredAt`) |
| Layouts.TableLayout | src/main/kotlin/dev/falsehonesty/asmhelper/dsl/instructions/insnList.kt:698-718 | the table node, the case blocks, the default label, the hole labels, the default body and the end label (properties in `TableSwitchDispatch`, `TableSwitchHole`, `TableLayoutLabelsPlacedOnce`) |
| Layouts.TableSwitchLayout | src/main/kotlin/dev/falsehonesty/asmhelper/dsl/instructions/insnList.kt:679-719 | `TableLayout` with the labels `tableswitch` draws from a given id (see `TableSwitchLayoutIs`, `TableLabelSupply`) |
| Layouts.LookupLayout | src/main/kotlin/dev/falsehonesty/asmhelper/dsl/instructions/insnList.kt:748-762 | the lookup node, the case blocks, the default label, the default body and the end label (properties in `LookupSwitchDispatch`, `LookupSwitchDefault`, `LookupLayoutLabelsPlacedOnce`) |
| Layouts.LookupSwitchLayout | src/main/kotlin/dev/falsehonesty/asmhelper/dsl/instructions/insnList.kt:732-763 | `LookupLayout` with the labels `lookupswitch` draws from a given id (see `LookupSwitchLabelsPlacedOnce`) |
| Layouts.Jumps | src/main/kotlin/dev/falsehonesty/asmhelper/dsl/instructions/insnList.kt:431-433 | one jump per condition, in the order given, each to the given label |
| Layouts.IfClauseShape | src/main/kotlin/dev/falsehonesty/asmhelper/dsl/instructions/insnList.kt:428-438 | every condition jumps to the label placed right after the body, the body sits between the jumps and that label, and the label is placed exactly once |
| Layouts.IfElseShape | src/main/kotlin/dev/falsehonesty/asmhelper/dsl/instructions/insnList.kt:460-481 | the conditions jump to the if-label; with no jump the else code runs and then GOTO end; the if-label is followed by the if code and then the end label |
| Layouts.IfElseLabelsPlacedOnce | src/main/kotlin/dev/falsehonesty/asmhelper/dsl/instructions/insnList.kt:465-480 | the if-label and the end label are each placed exactly once, when the branches place neither of them |
| Layouts.SynchronizedBrackets | src/main/kotlin/dev/falsehonesty/asmhelper/dsl/instructions/insnList.kt:408-415 | the body runs between one `monitorenter` and one `monitorexit`, and the monitor exited is the object stored to, and reloaded from, the same scratch local with a reference store and load |
| Layouts.ElementStoredAt | src/main/kotlin/dev/falsehonesty/asmhelper/dsl/instructions/insnList.kt:847-852 | an array element block is `dup`, the index push, the element code and the kind's store opcode, and the index pushed is the index itself, except that 32768 becomes -32768 |
| Layouts.Keys | src/main/kotlin/dev/falsehonesty/asmhelper/dsl/instructions/insnList.kt:748 | the key array holds the case keys in the order the cases were added |
| Layouts.MinKey | src/main/kotlin/dev/falsehonesty/asmhelper/dsl/instructions/insnList.kt:691 | the smallest key: a key of some case, and no larger than any case's key |
| Layouts.MaxKey | src/main/kotlin/dev/falsehonesty/asmhelper/dsl/instructions/insnList.kt:692 | the largest key: a key of some case, and no smaller than any case's key |
| Layouts.LabelRange | src/main/kotlin/dev/falsehonesty/asmhelper/dsl/instructions/insnList.kt:694 | n successive `makeLabel()` calls starting at id b give b, b+1, …, b+n-1 |
| Layouts.TableLabels | src/main/kotlin/dev/falsehonesty/asmhelper/dsl/instructions/insnList.kt:702-704 | the label placed in front of case i is the range entry of its key, `labels[index - min]` |
| Layouts.TableLabelsDistinct | src/main/kotlin/dev/falsehonesty/asmhelper/dsl/instructions/insnList.kt:700-712 | with distinct keys, the used labels are distinct and all of them are range labels |
| Layouts.TableLabelSupply | src/main/kotlin/dev/falsehonesty/asmhelper/dsl/instructions/insnList.kt:691-696 | the Span range labels cover every key, are distinct, fill exactly [b, b+Span), and differ from the default and end labels |
| Layouts.MarkCountCaseBlocks | src/main/kotlin/dev/falsehonesty/asmhelper/dsl/instructions/insnList.kt:702-712 | the case blocks place each case label once, and no other label of the construct's range |
| Layouts.HoleMarksFacts | src/main/kotlin/dev/falsehonesty/asmhelper/dsl/instructions/insnList.kt:715 | the hole run holds only label placements, and places exactly the range labels no case used, each once |
| Layouts.CaseIn | src/main/kotlin/dev/falsehonesty/asmhelper/dsl/instructions/insnList.kt:702-712 | case i's label, then its body, then GOTO end unless it falls through, in which case the next case's label (or nothing) follows |
| Layouts.TableSwitchDispatch | src/main/kotlin/dev/falsehonesty/asmhelper/dsl/instructions/insnList.kt:698-718 | the table node comes first; each case's key entry is the label placed in front of its body; GOTO end follows unless the case falls through into the next case's label or the default label; the end label comes last |
| Layouts.TableSwitchHole | src/main/kotlin/dev/falsehonesty/asmhelper/dsl/instructions/insnList.kt:713-718 | a key of the range that no case has dispatches to a label placed after the default label, in a run of label placements that leads straight into the default body |
| Layouts.TableLayoutLabelsPlacedOnce | src/main/kotlin/dev/falsehonesty/asmhelper/dsl/instructions/insnList.kt:694-718 | every range, default and end label of a tableswitch is placed exactly once, when the keys and labels are distinct and the bodies place none of its labels |
| Layouts.TableSwitchLayoutIs | src/main/kotlin/dev/falsehonesty/asmhelper/dsl/instructions/insnList.kt:691-696 | the tableswitch layout from label b is the table layout over [MinKey, MaxKey] with labels b…b+Span-1, default label b+Span and end label b+Span+1 |
| Layouts.LookupSwitchDispatch | src/main/kotlin/dev/falsehonesty/asmhelper/dsl/instructions/insnList.kt:748-762 | the lookup node pairs case i's key with the label placed in front of case i's body, which is followed by GOTO end unless the case falls through |
| Layouts.LookupSwitchDefault | src/main/kotlin/dev/falsehonesty/asmhelper/dsl/instructions/insnList.kt:760-762 | the default label is placed right in front of the default body, which is followed by the end label |
| Layouts.LookupLabelSupply | src/main/kotlin/dev/falsehonesty/asmhelper/dsl/instructions/insnList.kt:744-746 | one label per case, all distinct, filling [b, b+m), and differing from the default and end labels |
| Layouts.LookupLayoutLabelsPlacedOnce | src/main/kotlin/dev/falsehonesty/asmhelper/dsl/instructions/insnList.kt:748-762 | every case, default and end label of a lookup layout is placed exactly once, when the labels are distinct and the bodies place none of them |
| Layouts.LookupSwitchLabelsPlacedOnce | src/main/kotlin/dev/falsehonesty/asmhelper/dsl/instructions/insnList.kt:744-762 | each of the labels lookupswitch draws (one per case, the default and the end label) is placed exactly once in what it appends |
| Layouts.LookupSwitchKeysInCallOrder | src/main/kotlin/dev/falsehonesty/asmhelper/dsl/instructions/insnList.kt:748 | cases added as 2 then 1 give the key array [2, 1], which is not in the increasing order the JVM requires |
| Builder.LabelSupply.Fresh | src/main/kotlin/dev/falsehonesty/asmhelper/dsl/instructions/insnList.kt:294 | returns an id never handed out before, and moves the supply on by one |
| Builder.LabelSupply.constructor | src/main/kotlin/dev/falsehonesty/asmhelper/dsl/instructions/insnList.kt:294 | a supply that has handed out no label yet |
| Builder.SwitchCheck | src/main/kotlin/dev/falsehonesty/asmhelper/dsl/instructions/insnList.kt:683-689 | no cases gives NoCases; otherwise a repeated key gives DuplicateCases; otherwise no error, each as an if-and-only-if |
| Builder.HasDuplicateKeys | src/main/kotlin/dev/falsehonesty/asmhelper/dsl/instructions/insnList.kt:687 | true exactly when two cases share a key |
| Builder.SwitchBuilder.constructor | src/main/kotlin/dev/falsehonesty/asmhelper/dsl/instructions/insnList.kt:855-857 | no cases and no default |
| Builder.SwitchBuilder.AddCase | src/main/kotlin/dev/falsehonesty/asmhelper/dsl/instructions/insnList.kt:859-861 | appends the case to the list, keeping the call order, and leaves the default as it was |
| Builder.SwitchBuilder.Default | src/main/kotlin/dev/falsehonesty/asmhelper/dsl/instructions/insnList.kt:863-865 | sets the default body, the last call winning, and leaves the cases |
| Builder.IfElseBuilder.constructor | src/main/kotlin/dev/falsehonesty/asmhelper/dsl/instructions/insnList.kt:874-876 | both branches empty, on the given method |
| Builder.IfElseBuilder.IfCode | src/main/kotlin/dev/falsehonesty/asmhelper/dsl/instructions/insnList.kt:878-884 | sets the if branch and leaves the else branch |
| Builder.IfElseBuilder.ElseCode | src/main/kotlin/dev/falsehonesty/asmhelper/dsl/instructions/insnList.kt:886-892 | sets the else branch and leaves the if branch |
| Builder.InsnListBuilder.constructor | src/main/kotlin/dev/falsehonesty/asmhelper/dsl/instructions/insnList.kt:10-12 | an empty list, with the local counter at the method's `maxLocals` |
| Builder.InsnListBuilder.Nested | src/main/kotlin/dev/falsehonesty/asmhelper/dsl/instructions/insnList.kt:647-650 | a fresh builder on the same method with an empty list, whose counter restarts at `maxLocals`; stated on its own, because `Invoke`, `InvokeDynamic`, `IfCode` and `ElseCode` take the code their lambdas build as a node sequence and do not run a nested builder |
| Builder.InsnListBuilder.Insn | src/main/kotlin/dev/falsehonesty/asmhelper/dsl/instructions/insnList.kt:811-813 | appends the node and keeps every node already there |
| Builder.InsnListBuilder.InsertInsns | src/main/kotlin/dev/falsehonesty/asmhelper/dsl/instructions/insnList.kt:805-807 | appends the whole list after the existing nodes |
| Builder.InsnListBuilder.Build | src/main/kotlin/dev/falsehonesty/asmhelper/dsl/instructions/insnList.kt:809 | returns the list built so far |
| Builder.InsnListBuilder.Plain | src/main/kotlin/dev/falsehonesty/asmhelper/dsl/instructions/insnList.kt:14-288 | appends the one operand-free node of the call, with the opcode the source gives it |
| Builder.InsnListBuilder.Var | src/main/kotlin/dev/falsehonesty/asmhelper/dsl/instructions/insnList.kt:20-28 | appends one local-variable node with the call's opcode and index |
| Builder.InsnListBuilder.Type | src/main/kotlin/dev/falsehonesty/asmhelper/dsl/instructions/insnList.kt:22 | appends one type node with the call's opcode and class name |
| Builder.InsnListBuilder.Bipush | src/main/kotlin/dev/falsehonesty/asmhelper/dsl/instructions/insnList.kt:36 | appends `bipush` with the value unchanged |
| Builder.InsnListBuilder.Sipush | src/main/kotlin/dev/falsehonesty/asmhelper/dsl/instructions/insnList.kt:282 | appends `sipush` with the value unchanged |
| Builder.InsnListBuilder.Ldc | src/main/kotlin/dev/falsehonesty/asmhelper/dsl/instructions/insnList.kt:224 | appends `ldc` of the constant |
| Builder.InsnListBuilder.NewArray | src/main/kotlin/dev/falsehonesty/asmhelper/dsl/instructions/insnList.kt:264-268 | any type code is used as given; a given length is pushed with `ldc`, whatever its size, before `newarray` |
| Builder.InsnListBuilder.TypedNewArray | src/main/kotlin/dev/falsehonesty/asmhelper/dsl/instructions/insnList.kt:38-288 | `bnewarray` … `znewarray`: `newarray` with the element type's code, after the optional `ldc` of the length |
| Builder.InsnListBuilder.MultiANewArray | src/main/kotlin/dev/falsehonesty/asmhelper/dsl/instructions/insnList.kt:258-260 | appends one `multianewarray` node with the descriptor and dimensions |
| Builder.InsnListBuilder.Int | src/main/kotlin/dev/falsehonesty/asmhelper/dsl/instructions/insnList.kt:348-363 | appends the node `IntConstant` chooses, whose encoding and pushed value the lemmas above state |
| Builder.InsnListBuilder.Long | src/main/kotlin/dev/falsehonesty/asmhelper/dsl/instructions/insnList.kt:394-400 | appends the node `LongConstant` chooses |
| Builder.InsnListBuilder.Store | src/main/kotlin/dev/falsehonesty/asmhelper/dsl/instructions/insnList.kt:765-793 | stores into the next scratch slot, returns that slot with the type, and moves the counter on by exactly one |
| Builder.InsnListBuilder.Load | src/main/kotlin/dev/falsehonesty/asmhelper/dsl/instructions/insnList.kt:795-803 | appends the load opcode of the local's type at the local's index |
| Builder.InsnListBuilder.MakeLabel | src/main/kotlin/dev/falsehonesty/asmhelper/dsl/instructions/insnList.kt:294 | returns a fresh label and leaves the list alone |
| Builder.InsnListBuilder.PlaceLabel | src/main/kotlin/dev/falsehonesty/asmhelper/dsl/instructions/insnList.kt:310 | appends the placement of the label |
| Builder.InsnListBuilder.Jump | src/main/kotlin/dev/falsehonesty/asmhelper/dsl/instructions/insnList.kt:312-314 | appends a jump with the condition's opcode to the label |
| Builder.InsnListBuilder.JumpAll | src/main/kotlin/dev/falsehonesty/asmhelper/dsl/instructions/insnList.kt:431-433 | the loop appends exactly `Jumps`: one jump per condition, in order |
| Builder.InsnListBuilder.IfClause | src/main/kotlin/dev/falsehonesty/asmhelper/dsl/instructions/insnList.kt:428-438 | appends `IfClauseLayout` with one fresh label (see `IfClauseShape`) |
| Builder.InsnListBuilder.IfElse | src/main/kotlin/dev/falsehonesty/asmhelper/dsl/instructions/insnList.kt:460-481 | appends `IfElseLayout` with two fresh labels, the if-label first (see `IfElseShape`, `IfElseLabelsPlacedOnce`) |
| Builder.InsnListBuilder.Synchronized | src/main/kotlin/dev/falsehonesty/asmhelper/dsl/instructions/insnList.kt:408-415 | appends `SynchronizedLayout` with the next scratch slot, and moves the counter on by one (see `SynchronizedBrackets`) |
| Builder.InsnListBuilder.Array | src/main/kotlin/dev/falsehonesty/asmhelper/dsl/instructions/insnList.kt:316-322 | pushes the size with `int`, appends `anewarray`, and hands out an element builder at index 0 |
| Builder.InsnListBuilder.Field | src/main/kotlin/dev/falsehonesty/asmhelper/dsl/instructions/insnList.kt:501-510 | appends the field node with the action's opcode and the remapped field name |
| Builder.InsnListBuilder.Invoke | src/main/kotlin/dev/falsehonesty/asmhelper/dsl/instructions/insnList.kt:638-662 | the argument code (if any) and then the call with the remapped name, marked as an interface call exactly for INTERFACE |
| Builder.InsnListBuilder.MakeHandle | src/main/kotlin/dev/falsehonesty/asmhelper/dsl/instructions/insnList.kt:600-603 | a handle with the remapped method name, and the other parts unchanged |
| Builder.InsnListBuilder.InvokeDynamic | src/main/kotlin/dev/falsehonesty/asmhelper/dsl/instructions/insnList.kt:606-628 | the argument code (if any) and then the invokedynamic node with the remapped name (the owner is not used) |
| Builder.InsnListBuilder.CreateInstance | src/main/kotlin/dev/falsehonesty/asmhelper/dsl/instructions/insnList.kt:446-458 | `new`, `dup`, the parameters, then a non-interface `invokespecial` of the remapped `<init>` |
| Builder.InsnListBuilder.GetKObjectInstance | src/main/kotlin/dev/falsehonesty/asmhelper/dsl/instructions/insnList.kt:327-329 | `getstatic` of the remapped `INSTANCE` field, typed as the object class |
| Builder.InsnListBuilder.InvokeKObjectFunction | src/main/kotlin/dev/falsehonesty/asmhelper/dsl/instructions/insnList.kt:338-342 | the object instance, the arguments, then `invokevirtual` of the remapped method name |
| Builder.InsnListBuilder.GetLocalField | src/main/kotlin/dev/falsehonesty/asmhelper/dsl/instructions/insnList.kt:534-537 | `aload 0`, then `getfield` with the remapped name |
| Builder.InsnListBuilder.UpdateLocalField | src/main/kotlin/dev/falsehonesty/asmhelper/dsl/instructions/insnList.kt:539-546 | `aload 0` twice, `getfield`, the updater, then `putfield` of the same remapped field |
| Builder.InsnListBuilder.SetLocalField | src/main/kotlin/dev/falsehonesty/asmhelper/dsl/instructions/insnList.kt:548-554 | `aload 0`, the new value, then `putfield` with the remapped name |
| Builder.InsnListBuilder.MakeLabels | src/main/kotlin/dev/falsehonesty/asmhelper/dsl/instructions/insnList.kt:694 | n fresh labels in the order made, which is `LabelRange` from the supply's next id |
| Builder.InsnListBuilder.PlaceCases | src/main/kotlin/dev/falsehonesty/asmhelper/dsl/instructions/insnList.kt:750-758 | the loop appends exactly `CaseBlocks` with case i under label i |
| Builder.InsnListBuilder.PlaceTableCases | src/main/kotlin/dev/falsehonesty/asmhelper/dsl/instructions/insnList.kt:700-711 | the loop appends `CaseBlocks` under each key's range entry, and collects exactly those labels as the used labels |
| Builder.InsnListBuilder.PlaceHoles | src/main/kotlin/dev/falsehonesty/asmhelper/dsl/instructions/insnList.kt:715 | the loop places exactly the labels no case used, in range order (`HoleMarks`) |
| Builder.InsnListBuilder.TableSwitch | src/main/kotlin/dev/falsehonesty/asmhelper/dsl/instructions/insnList.kt:679-719 | the error exactly as `SwitchCheck` gives it, and then nothing appended and no label drawn; otherwise appends `TableSwitchLayout` from the supply's next id and draws Span+2 labels |
| Builder.InsnListBuilder.EmitTableSwitch | src/main/kotlin/dev/falsehonesty/asmhelper/dsl/instructions/insnList.kt:691-718 | appends `TableSwitchLayout` from the supply's next id and draws Span+2 labels |
| Builder.InsnListBuilder.LookupSwitch | src/main/kotlin/dev/falsehonesty/asmhelper/dsl/instructions/insnList.kt:732-763 | the error exactly as `SwitchCheck` gives it, and then nothing appended and no label drawn; otherwise appends `LookupSwitchLayout` and draws one label per case plus two |
| Builder.InsnListBuilder.EmitLookupSwitch | src/main/kotlin/dev/falsehonesty/asmhelper/dsl/instructions/insnList.kt:744-762 | appends `LookupSwitchLayout` from the supply's next id and draws one label per case plus two |
| Builder.ArrayBuilder.constructor | src/main/kotlin/dev/falsehonesty/asmhelper/dsl/instructions/insnList.kt:838-839 | an element builder on the given builder, at index 0 |
| Builder.ArrayBuilder.Add | src/main/kotlin/dev/falsehonesty/asmhelper/dsl/instructions/insnList.kt:847-852 | appends the element block at the index that counts the elements added before (modulo 2^32), and keeps the counter equal to that count (see `ElementStoredAt`) |
| Transformer.Replace | src/main/kotlin/dev/falsehonesty/asmhelper/InstrumentationClassTransformer.kt:68 | same length, each `from` character replaced by `to`, every other character kept |
| Transformer.ReplaceRoundTrip | src/main/kotlin/dev/falsehonesty/asmhelper/InstrumentationClassTransformer.kt:104 | replacing `/` by the separator is undone by the reverse replacement, when the name holds no separator |
| Transformer.PackagePrefixes | src/main/kotlin/dev/falsehonesty/asmhelper/InstrumentationClassTransformer.kt:20-21 | the protected prefixes are `kotlin/` and `dev/falsehonesty/asmhelper/` |
| Transformer.IsProtected | src/main/kotlin/dev/falsehonesty/asmhelper/InstrumentationClassTransformer.kt:47 | the three prefix tests of `transform` (see `ProtectedPassThrough`) |
| Transformer.MatchingWriters | src/main/kotlin/dev/falsehonesty/asmhelper/InstrumentationClassTransformer.kt:67-69 | the registered writers for the class, in order (properties in `MatchingWritersMembers`, `MatchingWritersAppend`) |
| Transformer.ApplyAll | src/main/kotlin/dev/falsehonesty/asmhelper/InstrumentationClassTransformer.kt:77-81 | every writer applied to the one shared tree, in order (properties in `ApplyAllAppend`) |
| Transformer.MatchingWritersMembers | src/main/kotlin/dev/falsehonesty/asmhelper/InstrumentationClassTransformer.kt:67-69 | a writer is kept exactly when it is registered and its dotted class name, read with `/`, is the class name |
| Transformer.MatchingWritersAppend | src/main/kotlin/dev/falsehonesty/asmhelper/InstrumentationClassTransformer.kt:67-69 | filtering keeps registration order: the matches of an extended list are the earlier matches followed by the new ones |
| Transformer.ApplyAllAppend | src/main/kotlin/dev/falsehonesty/asmhelper/InstrumentationClassTransformer.kt:77-81 | the writers run in order, each on the tree the ones before it left |
| Transformer.RunWriters | src/main/kotlin/dev/falsehonesty/asmhelper/InstrumentationClassTransformer.kt:77-81 | the loop over the writers computes exactly `ApplyAll` |
| Transformer.ExportPath | src/main/kotlin/dev/falsehonesty/asmhelper/InstrumentationClassTransformer.kt:103-104 | the export file is inside the export directory and ends in `.class`, and its length is fixed by the name's length |
| Transformer.ExportPathInjective | src/main/kotlin/dev/falsehonesty/asmhelper/InstrumentationClassTransformer.kt:103-104 | distinct classes are exported to distinct files, when the separator is `/` or does not occur in class names |
| Transformer.AfterSetup | src/main/kotlin/dev/falsehonesty/asmhelper/InstrumentationClassTransformer.kt:51-59 | after the setup step the flag is set; the registrations and the export switch are what `makeTransformers` left if it had not run yet, even if it threw, and the state is unchanged otherwise |
| Transformer.TransformSpec | src/main/kotlin/dev/falsehonesty/asmhelper/InstrumentationClassTransformer.kt:44-128 | what one `transform` call returns, writes and leaves as the next state (properties in the lemmas after it) |
| Transformer.NullInNullOut | src/main/kotlin/dev/falsehonesty/asmhelper/InstrumentationClassTransformer.kt:45 | a null class or class name gives null and leaves the state unchanged |
| Transformer.ProtectedPassThrough | src/main/kotlin/dev/falsehonesty/asmhelper/InstrumentationClassTransformer.kt:47-49 | a class under `kotlin/`, under `dev/falsehonesty/asmhelper/` or under the transformer's own name comes back unchanged, and setup is not triggered |
| Transformer.SetupRunsOnce | src/main/kotlin/dev/falsehonesty/asmhelper/InstrumentationClassTransformer.kt:51-59 | any other class sets the flag, and `makeTransformers` has run, its registrations and export switch taken over, exactly when it had not before |
| Transformer.SetupNotRepeated | src/main/kotlin/dev/falsehonesty/asmhelper/InstrumentationClassTransformer.kt:51-59 | after one eligible call, a second call of any kind leaves the state as it is |
| Transformer.ThrowingSetupNotRetried | src/main/kotlin/dev/falsehonesty/asmhelper/InstrumentationClassTransformer.kt:51-59 | a `makeTransformers` that throws still sets the flag and keeps what it registered; the next call does not run it again |
| Transformer.ReplacementIgnoresInput | src/main/kotlin/dev/falsehonesty/asmhelper/InstrumentationClassTransformer.kt:61-65 | a class with a replacement gets the resource's bytes, whatever its own bytes were, and nothing is exported |
| Transformer.NoWriterPassThrough | src/main/kotlin/dev/falsehonesty/asmhelper/InstrumentationClassTransformer.kt:67-69 | with no replacement and no writer targeting the class, its bytes come back unchanged |
| Transformer.WritersInRegistrationOrder | src/main/kotlin/dev/falsehonesty/asmhelper/InstrumentationClassTransformer.kt:73-91 | the result is the serialization of the parsed tree after the earlier registrations' writers and then the later ones |
| Transformer.FaultedSerializationKeepsWriterBytes | src/main/kotlin/dev/falsehonesty/asmhelper/InstrumentationClassTransformer.kt:83-91 | when serializing throws part-way, the result is still the class writer's bytes |
| Transformer.ExportOnlyTransformed | src/main/kotlin/dev/falsehonesty/asmhelper/InstrumentationClassTransformer.kt:102-125 | a file is written exactly for a transformed class when the export switch is on after setup, and it holds the returned bytes at the class's export path |
| Transformer.ExportDoesNotChangeResult | src/main/kotlin/dev/falsehonesty/asmhelper/InstrumentationClassTransformer.kt:102-128 | once setup has run, flipping the export switch changes neither the result nor the registrations |
| Transformer.InstrumentationClassTransformer.constructor | src/main/kotlin/dev/falsehonesty/asmhelper/InstrumentationClassTransformer.kt:24-27 | own class name with `.` read as `/`, setup not yet called, export off |
| Transformer.InstrumentationClassTransformer.SetExportTransformed | src/main/kotlin/dev/falsehonesty/asmhelper/InstrumentationClassTransformer.kt:27 | a subclass setting the protected export switch |
| Transformer.InstrumentationClassTransformer.Transform | src/main/kotlin/dev/falsehonesty/asmhelper/InstrumentationClassTransformer.kt:44-128 | the result, the new flag, registry and export switch (all three possibly set by setup), and the file exported are exactly those of `TransformSpec` |

## Left out

- `findLabel(n)`: it sorts the labels of the target method by their bytecode offset, which exists only once ASM has written the method. The model has no offsets.
- The `double`/`float` constant helpers and every floating-point value: `ldc` of them is an opaque `OtherValue` constant.
- The `Descriptor` overloads and the fixed-kind wrappers (`getStatic`, `putField`, `invokeStatic`, `invokeVirtual`, `invokeInterface` and the like) only forward to `field` and `invoke`. They are covered by `Field` and `Invoke` with the matching `FieldAction` or `InvokeType`.
- Lambdas are pre-built node sequences. So the model does not capture a lambda that calls `astore()` on the builder it runs on, which moves that builder's counter, nor a lambda that makes labels inside a construct. The label lemmas take as a premise that bodies place none of the construct's labels.
- Builder.InsnListBuilder.Store: the local counter is an unbounded integer. Kotlin `Int` wrap-around past 2^31 - 1 locals is not modelled, because the JVM limits a method to 65535 locals long before that.
- Builder.InsnListBuilder.TableSwitch: a key range so wide that `(min..max).map` cannot allocate it, or that `case.index - min` overflows, is not modelled. The model builds the range for any pair of 32-bit keys.
- Exceptions thrown by an `AsmWriter`, by ASM's class reader or by the resource loader (a missing resource gives a null stream in the source) are not modelled. These are foreign code, modelled as total functions of the `Environment`.
- The registries `classReplacers` and `asmWriters` are global in `AsmHelper`. Every transformer shares them, and any code may add to them at any time, including between two `transform` calls. The model gives each transformer a private copy that only its own `makeTransformers` changes. So it does not capture one transformer applying writers that another registered, nor registrations made outside setup. `SetupNotRepeated` and the frame of `Transform` hold only for that private copy.
- A throwing `makeTransformers` is modelled only through the registry it leaves. The flag is set either way, as in the source.
- Logging, `e.printStackTrace()` and the `CheckClassAdapter` verification pass only write to the log, so they are left out.
- Deleting the export directory, `mkdirs`, deleting an old file and an I/O failure while writing are left out. The model records each file written as a (path, bytes) pair.
- The `classLoader`, `p2` and `p3` parameters of `transform` are never read by the source, so the model omits them.
- Concurrency: the JVM may call `transform` from several threads, and `calledSetup` is not synchronized. The model is sequential.
- Layouts.TableLayoutLabelsPlacedOnce: placing tableswitch labels is proved on the general `TableLayout` (`TableLayoutLabelsPlacedOnce`); `TableLabelSupply` shows that the labels `tableswitch` draws meet its premises. For `lookupswitch` the two are combined in `LookupSwitchLabelsPlacedOnce`.
