/** The node sequences the structured constructs of the builder lay out
    (`ifClause`, `ifElseClause`, `tableswitch`, `lookupswitch`), as functions
    of their inputs and of the first fresh label id, with what those layouts
    guarantee: where each jump and dispatch entry leads and that every label
    they create is placed exactly once. */
module Layouts {
  import opened Opcodes
  import opened Nodes
  import opened Wrappers

  // ---------------------------------------------------------------------
  // Conditional layouts

  /** One jump per condition, in the order given, all to `target`. */
  function Jumps(conds: seq<JumpCondition>, target: Label): (r: seq<Node>)
    ensures |r| == |conds|
    ensures forall i :: 0 <= i < |conds| ==> r[i] == JumpInsn(JumpOpcode(conds[i]), target)
  {
    if conds == [] then []
    else Jumps(conds[..|conds| - 1], target) + [JumpInsn(JumpOpcode(conds[|conds| - 1]), target)]
  }

  /** `ifClause`: the condition jumps, the body, then the label they all jump to. */
  function IfClauseLayout(conds: seq<JumpCondition>, body: seq<Node>, l: Label): seq<Node> {
    Jumps(conds, l) + body + [LabelMark(l)]
  }

  /** `ifElseClause`: jumps to the if-label, the else code, `GOTO end`, the
      if-label, the if code, the end label. */
  function IfElseLayout(conds: seq<JumpCondition>, ifCode: seq<Node>, elseCode: seq<Node>,
                        ifLabel: Label, endLabel: Label): seq<Node> {
    Jumps(conds, ifLabel) + elseCode + [JumpInsn(GOTO, endLabel), LabelMark(ifLabel)]
      + ifCode + [LabelMark(endLabel)]
  }

  /** Each condition jumps over the body to the label placed right after it;
      that label is placed nowhere else when the body does not place it (the
      body runs after the label is made and cannot reach it). */
  lemma {:induction false} IfClauseShape(conds: seq<JumpCondition>, body: seq<Node>, l: Label)
    requires MarksOutside(body, l, l + 1)
    ensures var code := IfClauseLayout(conds, body, l);
      && |code| == |conds| + |body| + 1
      && (forall i :: 0 <= i < |conds| ==> code[i] == JumpInsn(JumpOpcode(conds[i]), l))
      && code[|conds|..|conds| + |body|] == body
      && code[|code| - 1] == LabelMark(l)
      && MarkCount(code, l) == 1
  {
    var code := IfClauseLayout(conds, body, l);
    assert code[|conds|..|conds| + |body|] == body;
    MarkCountJumps(conds, l, l);
    MarkCountOutside(body, l, l + 1, l);
    MarkCountSingle(LabelMark(l), l);
    MarkCountAppend(Jumps(conds, l), body, l);
    MarkCountAppend(Jumps(conds, l) + body, [LabelMark(l)], l);
  }

  /** The else code runs when no condition jumps and is followed by
      `GOTO endLabel`; every jump lands on the if-label, which is followed by
      the if code and then the end label. */
  lemma {:induction false} IfElseShape(conds: seq<JumpCondition>, ifCode: seq<Node>, elseCode: seq<Node>,
                    ifLabel: Label, endLabel: Label)
    ensures var code := IfElseLayout(conds, ifCode, elseCode, ifLabel, endLabel);
      var n, e := |conds|, |elseCode|;
      && |code| == n + e + |ifCode| + 3
      && (forall i :: 0 <= i < n ==> code[i] == JumpInsn(JumpOpcode(conds[i]), ifLabel))
      && code[n..n + e] == elseCode
      && code[n + e] == JumpInsn(GOTO, endLabel)
      && code[n + e + 1] == LabelMark(ifLabel)
      && code[n + e + 2..n + e + 2 + |ifCode|] == ifCode
      && code[|code| - 1] == LabelMark(endLabel)
  {
    var code := IfElseLayout(conds, ifCode, elseCode, ifLabel, endLabel);
    var n, e := |conds|, |elseCode|;
    var js := Jumps(conds, ifLabel);
    var mid := [JumpInsn(GOTO, endLabel), LabelMark(ifLabel)];
    assert code == js + elseCode + mid + ifCode + [LabelMark(endLabel)];
    assert code[n..n + e] == elseCode;
    assert code[n + e + 2..n + e + 2 + |ifCode|] == ifCode;
  }

  /** With two distinct labels from [b, t) and clauses that place no label
      of that range, each of the two labels is placed exactly once. */
  lemma {:induction false} IfElseLabelsPlacedOnce(conds: seq<JumpCondition>, ifCode: seq<Node>, elseCode: seq<Node>,
                               ifLabel: Label, endLabel: Label, b: Label, t: Label, l: Label)
    requires MarksOutside(ifCode, b, t) && MarksOutside(elseCode, b, t)
    requires b <= ifLabel < t && b <= endLabel < t && ifLabel != endLabel
    requires l == ifLabel || l == endLabel
    ensures MarkCount(IfElseLayout(conds, ifCode, elseCode, ifLabel, endLabel), l) == 1
  {
    var js := Jumps(conds, ifLabel);
    var g, m, z := JumpInsn(GOTO, endLabel), LabelMark(ifLabel), LabelMark(endLabel);
    assert IfElseLayout(conds, ifCode, elseCode, ifLabel, endLabel)
        == js + elseCode + [g] + [m] + ifCode + [z];
    MarkCountJumps(conds, ifLabel, l);
    MarkCountOutside(elseCode, b, t, l);
    MarkCountOutside(ifCode, b, t, l);
    MarkCountSingle(g, l);
    MarkCountSingle(m, l);
    MarkCountSingle(z, l);
    MarkCountAppend(js, elseCode, l);
    MarkCountAppend(js + elseCode, [g], l);
    MarkCountAppend(js + elseCode + [g], [m], l);
    MarkCountAppend(js + elseCode + [g] + [m], ifCode, l);
    MarkCountAppend(js + elseCode + [g] + [m] + ifCode, [z], l);
  }

  lemma {:induction false} MarkCountJumps(conds: seq<JumpCondition>, target: Label, l: Label)
    ensures MarkCount(Jumps(conds, target), l) == 0
    decreases |conds|
  {
    if conds != [] {
      var last := JumpInsn(JumpOpcode(conds[|conds| - 1]), target);
      MarkCountJumps(conds[..|conds| - 1], target, l);
      MarkCountSingle(last, l);
      MarkCountAppend(Jumps(conds[..|conds| - 1], target), [last], l);
    }
  }

  // ---------------------------------------------------------------------
  // Helper layouts

  /** `synchronized`: keep a copy of the monitor object in local `k`, enter
      its monitor, run the body, reload the copy and exit the monitor. */
  function SynchronizedLayout(body: seq<Node>, k: int): seq<Node> {
    [Insn(DUP), VarInsn(ASTORE, k), Insn(MONITORENTER)] + body + [VarInsn(ALOAD, k), Insn(MONITOREXIT)]
  }

  /** The body runs between one `monitorenter` and one `monitorexit`, and the
      monitor exited is the object read back from the very local the copy
      was stored to, with a load of the same (reference) family. */
  lemma {:induction false} SynchronizedBrackets(body: seq<Node>, k: int)
    ensures var code := SynchronizedLayout(body, k);
      var last := |code| - 1;
      && |code| == |body| + 5
      && code[0] == Insn(DUP) && code[2] == Insn(MONITORENTER) && code[last] == Insn(MONITOREXIT)
      && code[3..3 + |body|] == body
      && code[1].VarInsn? && code[last - 1].VarInsn?
      && code[1].index == code[last - 1].index == k
      && VarFamily(code[1].opcode) == VarFamily(code[last - 1].opcode) == Some(Object)
      && code[1].opcode == StoreOpcode(Object) && code[last - 1].opcode == LoadOpcode(Object)
  {
    var code := SynchronizedLayout(body, k);
    assert code == [Insn(DUP), VarInsn(ASTORE, k), Insn(MONITORENTER)] + body
                   + [VarInsn(ALOAD, k), Insn(MONITOREXIT)];
    assert code[3..3 + |body|] == body;
  }

  /** One `ArrayBuilder` element: duplicate the array reference, push the
      index, run the element code, store with the element kind's opcode. */
  function ElementLayout(kind: ElementKind, index: int32, code: seq<Node>): seq<Node> {
    [Insn(DUP), IntConstant(index)] + code + [Insn(ElementStoreOpcode(kind))]
  }

  /** The element is stored at the index pushed by `int(index)`: the index
      itself, except that index 32768 goes through `sipush` and the JVM
      stores the element at -32768. */
  lemma {:induction false} ElementStoredAt(kind: ElementKind, index: int32, code: seq<Node>)
    ensures var block := ElementLayout(kind, index, code);
      && |block| == |code| + 3
      && block[0] == Insn(DUP)
      && block[2..2 + |code|] == code
      && block[|block| - 1] == Insn(ElementStoreOpcode(kind))
      && PushedInt(block[1]) == Some(if index == 32768 then -32768 else index as int)
  {
    var block := ElementLayout(kind, index, code);
    assert block == [Insn(DUP), IntConstant(index)] + code + [Insn(ElementStoreOpcode(kind))];
    assert block[2..2 + |code|] == code;
    IntConstantPushes(index);
  }

  // ---------------------------------------------------------------------
  // Switch cases

  /** A `SwitchBuilder.Case`: its key, whether it falls through into the next
      case, and the code its builder appends. */
  datatype Case = Case(index: int32, fallthrough: bool, body: seq<Node>)

  /** The keys in the order the cases were added. */
  function Keys(cases: seq<Case>): (r: seq<int32>)
    ensures |r| == |cases| && forall i :: 0 <= i < |cases| ==> r[i] == cases[i].index
  {
    seq(|cases|, i requires 0 <= i < |cases| => cases[i].index)
  }

  /** No two cases share a key (the source's `groupBy { it.index }` finding
      every group of size one). */
  predicate DistinctKeys(cases: seq<Case>) {
    forall i, j :: 0 <= i < j < |cases| ==> cases[i].index != cases[j].index
  }

  /** `cases.minOf { it.index }`. */
  function MinKey(cases: seq<Case>): (r: int32)
    requires |cases| > 0
    ensures exists i :: 0 <= i < |cases| && cases[i].index == r
    ensures forall i :: 0 <= i < |cases| ==> r <= cases[i].index
  {
    if |cases| == 1 then cases[0].index
    else
      var m := MinKey(cases[..|cases| - 1]);
      if cases[|cases| - 1].index < m then cases[|cases| - 1].index else m
  }

  /** `cases.maxOf { it.index }`. */
  function MaxKey(cases: seq<Case>): (r: int32)
    requires |cases| > 0
    ensures exists i :: 0 <= i < |cases| && cases[i].index == r
    ensures forall i :: 0 <= i < |cases| ==> cases[i].index <= r
  {
    if |cases| == 1 then cases[0].index
    else
      var m := MaxKey(cases[..|cases| - 1]);
      if cases[|cases| - 1].index > m then cases[|cases| - 1].index else m
  }

  /** Number of labels in the dense range of `tableswitch`: one per key from
      the smallest to the largest. */
  function Span(cases: seq<Case>): (n: nat)
    requires |cases| > 0
  {
    MaxKey(cases) - MinKey(cases) + 1
  }

  /** Every key has an entry in the range of `n` entries from `lo`. */
  predicate InRange(cases: seq<Case>, lo: int, n: nat) {
    forall i :: 0 <= i < |cases| ==> lo <= cases[i].index < lo + n
  }

  /** No label occurs twice. */
  predicate DistinctLabels(ls: seq<Label>) {
    forall i, j :: 0 <= i < j < |ls| ==> ls[i] != ls[j]
  }

  /** `n` consecutive fresh labels starting at `b`: what `n` calls of
      `makeLabel()` return. */
  function LabelRange(b: Label, n: nat): (r: seq<Label>)
    ensures |r| == n && forall i :: 0 <= i < n ==> r[i] == b + i
  {
    seq(n, i requires 0 <= i < n => b + i)
  }

  /** The label, its body and (unless it falls through) `GOTO end` of one case. */
  function CaseBlock(c: Case, l: Label, end: Label): seq<Node> {
    [LabelMark(l)] + c.body + (if c.fallthrough then [] else [JumpInsn(GOTO, end)])
  }

  /** The case blocks in the order the cases were added, case `i` under label `ids[i]`. */
  function CaseBlocks(cases: seq<Case>, ids: seq<Label>, end: Label): seq<Node>
    requires |ids| == |cases|
  {
    if cases == [] then []
    else CaseBlocks(cases[..|cases| - 1], ids[..|ids| - 1], end)
         + CaseBlock(cases[|cases| - 1], ids[|ids| - 1], end)
  }

  /** The hole labels: those of `ls` that no case used, in label order. */
  function HoleMarks(ls: seq<Label>, used: seq<Label>): seq<Node> {
    if ls == [] then []
    else HoleMarks(ls[..|ls| - 1], used)
         + (if ls[|ls| - 1] in used then [] else [LabelMark(ls[|ls| - 1])])
  }

  function DefaultBody(dflt: Option<seq<Node>>): seq<Node> {
    if dflt.Some? then dflt.value else []
  }

  /** The label `tableswitch` places in front of each case: the entry of its
      key in the dense label range `ls` that starts at key `lo`. */
  function TableLabels(cases: seq<Case>, lo: int, ls: seq<Label>): (r: seq<Label>)
    requires InRange(cases, lo, |ls|)
    ensures |r| == |cases| && forall i :: 0 <= i < |cases| ==> r[i] == ls[cases[i].index - lo]
  {
    seq(|cases|, i requires 0 <= i < |cases| && InRange(cases, lo, |ls|) => ls[cases[i].index - lo])
  }

  /** The shape both switches share: the dispatch node, the case blocks, the
      default label, the hole labels (none for `lookupswitch`), the default
      body and the end label. */
  function SwitchLayout(head: Node, blocks: seq<Node>, d: Label, holes: seq<Node>,
                        body: seq<Node>, e: Label): seq<Node> {
    [head] + blocks + [LabelMark(d)] + holes + body + [LabelMark(e)]
  }

  /** `tableswitch` over the key range from `lo` (up to `hi`) with entry labels
      `ls`, default label `d` and end label `e`. */
  function TableLayout(cases: seq<Case>, dflt: Option<seq<Node>>, lo: int32, hi: int32,
                       ls: seq<Label>, d: Label, e: Label): seq<Node>
    requires InRange(cases, lo, |ls|)
  {
    var ids := TableLabels(cases, lo, ls);
    SwitchLayout(TableSwitchInsn(lo, hi, d, ls), CaseBlocks(cases, ids, e), d,
                 HoleMarks(ls, ids), DefaultBody(dflt), e)
  }

  /** What `tableswitch` appends, with its labels drawn from `b` on: the range
      from the smallest to the largest key has labels b..b+n-1, then come the
      default label b+n and the end label b+n+1. */
  function TableSwitchLayout(cases: seq<Case>, dflt: Option<seq<Node>>, b: Label): seq<Node>
    requires |cases| > 0
  {
    var n := Span(cases);
    TableLayout(cases, dflt, MinKey(cases), MaxKey(cases), LabelRange(b, n), b + n, b + n + 1)
  }

  /** `lookupswitch` with one label of `ls` per case, default label `d` and
      end label `e`. */
  function LookupLayout(cases: seq<Case>, dflt: Option<seq<Node>>, ls: seq<Label>, d: Label, e: Label): seq<Node>
    requires |ls| == |cases|
  {
    SwitchLayout(LookupSwitchInsn(d, Keys(cases), ls), CaseBlocks(cases, ls, e), d, [], DefaultBody(dflt), e)
  }

  /** What `lookupswitch` appends, with its labels drawn from `b` on: one
      label per case (b..b+m-1), then the default label b+m and the end label
      b+m+1. */
  function LookupSwitchLayout(cases: seq<Case>, dflt: Option<seq<Node>>, b: Label): seq<Node> {
    var m := |cases|;
    LookupLayout(cases, dflt, LabelRange(b, m), b + m, b + m + 1)
  }

  // ---------------------------------------------------------------------
  // Lemmas about the case blocks

  lemma {:induction false} CaseBlocksAppend(c1: seq<Case>, i1: seq<Label>, c2: seq<Case>, i2: seq<Label>, end: Label)
    requires |i1| == |c1| && |i2| == |c2|
    ensures CaseBlocks(c1 + c2, i1 + i2, end) == CaseBlocks(c1, i1, end) + CaseBlocks(c2, i2, end)
    decreases |c2|
  {
    if c2 == [] {
      assert c1 + c2 == c1 && i1 + i2 == i1;
    } else {
      var k := |c2| - 1;
      var cs, ls := c1 + c2, i1 + i2;
      assert cs[..|cs| - 1] == c1 + c2[..k] && cs[|cs| - 1] == c2[k];
      assert ls[..|ls| - 1] == i1 + i2[..k] && ls[|ls| - 1] == i2[k];
      var last := CaseBlock(c2[k], i2[k], end);
      calc {
        CaseBlocks(cs, ls, end);
        CaseBlocks(c1 + c2[..k], i1 + i2[..k], end) + last;
        { CaseBlocksAppend(c1, i1, c2[..k], i2[..k], end); }
        (CaseBlocks(c1, i1, end) + CaseBlocks(c2[..k], i2[..k], end)) + last;
        CaseBlocks(c1, i1, end) + (CaseBlocks(c2[..k], i2[..k], end) + last);
      }
    }
  }

  /** Case `i`'s block sits at offset `|CaseBlocks(cases[..i], ids[..i], end)|`,
      and the block of case `i + 1` (when there is one) starts right after it. */
  lemma {:induction false} CaseBlocksSplit(cases: seq<Case>, ids: seq<Label>, end: Label, i: nat)
    requires |ids| == |cases| && i < |cases|
    ensures CaseBlocks(cases, ids, end)
         == CaseBlocks(cases[..i], ids[..i], end) + CaseBlock(cases[i], ids[i], end)
            + CaseBlocks(cases[i + 1..], ids[i + 1..], end)
  {
    assert cases == cases[..i + 1] + cases[i + 1..];
    assert ids == ids[..i + 1] + ids[i + 1..];
    CaseBlocksAppend(cases[..i + 1], ids[..i + 1], cases[i + 1..], ids[i + 1..], end);
    assert cases[..i + 1][..i] == cases[..i];
    assert ids[..i + 1][..i] == ids[..i];
  }

  /** One case block inside a longer sequence: its label, its body, then
      `GOTO end` or, when the case falls through, whatever follows the block. */
  lemma {:induction false} BlockAt(code: seq<Node>, a: seq<Node>, c: Case, l: Label, end: Label, z: seq<Node>)
    requires code == a + CaseBlock(c, l, end) + z
    ensures var p := |a|;
      var q := p + 1 + |c.body|;
      && q <= |code|
      && code[p] == LabelMark(l)
      && code[p + 1..q] == c.body
      && (!c.fallthrough ==> q < |code| && code[q] == JumpInsn(GOTO, end))
      && (c.fallthrough ==> code[q..] == z)
  {
    var q := |a| + 1 + |c.body|;
    assert code[|a| + 1..q] == c.body;
    if c.fallthrough {
      assert code[q..] == z;
    }
  }

  /** The case blocks open with the first case's label. */
  lemma {:induction false} CaseBlocksFirst(cases: seq<Case>, ids: seq<Label>, end: Label)
    requires |ids| == |cases| && |cases| > 0
    ensures |CaseBlocks(cases, ids, end)| > 0
    ensures CaseBlocks(cases, ids, end)[0] == LabelMark(ids[0])
  {
    CaseBlocksSplit(cases, ids, end, 0);
    assert cases[..0] == [] && ids[..0] == [];
  }

  /** Where case `i` lives in the case blocks: its label at `p`, then its
      body, then `GOTO end` unless it falls through; a falling-through case is
      followed by the next case's label, or ends the blocks. */
  lemma {:induction false} CaseIn(cases: seq<Case>, ids: seq<Label>, end: Label, i: nat)
    returns (p: nat)
    requires |ids| == |cases| && i < |cases|
    ensures var bl := CaseBlocks(cases, ids, end);
      var q := p + 1 + |cases[i].body|;
      && q <= |bl|
      && bl[p] == LabelMark(ids[i])
      && bl[p + 1..q] == cases[i].body
      && (!cases[i].fallthrough ==> q < |bl| && bl[q] == JumpInsn(GOTO, end))
      && (cases[i].fallthrough && i + 1 < |cases| ==> q < |bl| && bl[q] == LabelMark(ids[i + 1]))
      && (cases[i].fallthrough && i + 1 == |cases| ==> q == |bl|)
  {
    var before := CaseBlocks(cases[..i], ids[..i], end);
    var after := CaseBlocks(cases[i + 1..], ids[i + 1..], end);
    CaseBlocksSplit(cases, ids, end, i);
    BlockAt(CaseBlocks(cases, ids, end), before, cases[i], ids[i], end, after);
    p := |before|;
    if i + 1 < |cases| {
      CaseBlocksFirst(cases[i + 1..], ids[i + 1..], end);
    } else {
      assert cases[i + 1..] == [];
    }
  }

  /** With distinct labels and bodies that place no label of [b, t), each
      label of that range is placed by the case blocks once if it is a case
      label and not at all otherwise. */
  lemma {:induction false} MarkCountCaseBlocks(cases: seq<Case>, ids: seq<Label>, end: Label, b: Label, t: Label, l: Label)
    requires |ids| == |cases| && b <= l < t
    requires DistinctLabels(ids)
    requires forall i :: 0 <= i < |cases| ==> MarksOutside(cases[i].body, b, t)
    ensures MarkCount(CaseBlocks(cases, ids, end), l) == if l in ids then 1 else 0
    decreases |cases|
  {
    if cases != [] {
      var k := |cases| - 1;
      MarkCountCaseBlocks(cases[..k], ids[..k], end, b, t, l);
      MarkCountCaseBlock(cases[k], ids[k], end, b, t, l);
      MarkCountAppend(CaseBlocks(cases[..k], ids[..k], end), CaseBlock(cases[k], ids[k], end), l);
      assert ids == ids[..k] + [ids[k]];
      if l == ids[k] {
        assert l !in ids[..k];
      }
    }
  }

  /** One case block places its own label once and no other label of [b, t). */
  lemma {:induction false} MarkCountCaseBlock(c: Case, id: Label, end: Label, b: Label, t: Label, l: Label)
    requires b <= l < t && MarksOutside(c.body, b, t)
    ensures MarkCount(CaseBlock(c, id, end), l) == if l == id then 1 else 0
  {
    var tail := if c.fallthrough then [] else [JumpInsn(GOTO, end)];
    MarkCountSingle(LabelMark(id), l);
    MarkCountOutside(c.body, b, t, l);
    if !c.fallthrough { MarkCountSingle(JumpInsn(GOTO, end), l); }
    MarkCountAppend([LabelMark(id)], c.body, l);
    MarkCountAppend([LabelMark(id)] + c.body, tail, l);
    assert MarkCount([], l) == 0;
  }

  /** Every node of the hole run is a label placement, and it places exactly
      the labels of `ls` that are not in `used`, each once when `ls` is
      duplicate-free. */
  lemma {:induction false} HoleMarksFacts(ls: seq<Label>, used: seq<Label>, l: Label)
    requires DistinctLabels(ls)
    ensures forall j :: 0 <= j < |HoleMarks(ls, used)| ==> HoleMarks(ls, used)[j].LabelMark?
    ensures MarkCount(HoleMarks(ls, used), l) == if l in ls && l !in used then 1 else 0
    ensures l in ls && l !in used ==> LabelMark(l) in HoleMarks(ls, used)
  {
    HoleMarksOnlyMarks(ls, used);
    HoleMarksCount(ls, used, l);
    if l in ls && l !in used {
      HoleMarksPlaced(ls, used, l);
    }
  }

  lemma {:induction false} HoleMarksOnlyMarks(ls: seq<Label>, used: seq<Label>)
    ensures forall j :: 0 <= j < |HoleMarks(ls, used)| ==> HoleMarks(ls, used)[j].LabelMark?
    decreases |ls|
  {
    if ls != [] {
      HoleMarksOnlyMarks(ls[..|ls| - 1], used);
    }
  }

  lemma {:induction false} HoleMarksCount(ls: seq<Label>, used: seq<Label>, l: Label)
    requires DistinctLabels(ls)
    ensures MarkCount(HoleMarks(ls, used), l) == if l in ls && l !in used then 1 else 0
    decreases |ls|
  {
    if ls != [] {
      var k := |ls| - 1;
      var init, x := ls[..k], ls[k];
      LastOfDistinct(ls, l);
      HoleMarksCount(init, used, l);
      var last := if x in used then [] else [LabelMark(x)];
      assert MarkCount(last, l) == if x !in used && x == l then 1 else 0 by {
        if x !in used { MarkCountSingle(LabelMark(x), l); } else { assert last == []; }
      }
      MarkCountAppend(HoleMarks(init, used), last, l);
    }
  }

  /** Membership in a duplicate-free sequence, split at its last element. */
  lemma {:induction false} LastOfDistinct(ls: seq<Label>, l: Label)
    requires DistinctLabels(ls) && |ls| > 0
    ensures DistinctLabels(ls[..|ls| - 1])
    ensures l in ls <==> l in ls[..|ls| - 1] || l == ls[|ls| - 1]
    ensures l == ls[|ls| - 1] ==> l !in ls[..|ls| - 1]
  {
    assert ls == ls[..|ls| - 1] + [ls[|ls| - 1]];
  }

  lemma {:induction false} HoleMarksPlaced(ls: seq<Label>, used: seq<Label>, l: Label)
    requires l in ls && l !in used
    ensures LabelMark(l) in HoleMarks(ls, used)
    decreases |ls|
  {
    var k := |ls| - 1;
    if ls[k] != l {
      assert ls == ls[..k] + [ls[k]];
      HoleMarksPlaced(ls[..k], used, l);
    }
  }

  // ---------------------------------------------------------------------
  // The shared switch shape

  /** Label placements of a switch layout, piece by piece. */
  lemma {:induction false} SwitchMarkCount(head: Node, blocks: seq<Node>, d: Label, holes: seq<Node>,
                        body: seq<Node>, e: Label, l: Label)
    requires !head.LabelMark?
    ensures MarkCount(SwitchLayout(head, blocks, d, holes, body, e), l)
         == MarkCount(blocks, l) + (if d == l then 1 else 0) + MarkCount(holes, l)
            + MarkCount(body, l) + (if e == l then 1 else 0)
  {
    MarkCountSingle(head, l);
    MarkCountSingle(LabelMark(d), l);
    MarkCountSingle(LabelMark(e), l);
    MarkCountAppend([head], blocks, l);
    MarkCountAppend([head] + blocks, [LabelMark(d)], l);
    MarkCountAppend([head] + blocks + [LabelMark(d)], holes, l);
    MarkCountAppend([head] + blocks + [LabelMark(d)] + holes, body, l);
    MarkCountAppend([head] + blocks + [LabelMark(d)] + holes + body, [LabelMark(e)], l);
  }

  /** The ends of a switch layout: the dispatch node first, the default label
      right after the case blocks, the end label last. */
  lemma {:induction false} SwitchEnds(head: Node, blocks: seq<Node>, d: Label, holes: seq<Node>, body: seq<Node>, e: Label)
    ensures var code := SwitchLayout(head, blocks, d, holes, body, e);
      && |code| == 3 + |blocks| + |holes| + |body|
      && code[0] == head
      && code[1 + |blocks|] == LabelMark(d)
      && code[|code| - 1] == LabelMark(e)
  {
  }

  /** Hole `h` of a switch layout sits `h + 1` places after the default label. */
  lemma {:induction false} SwitchHoleAt(head: Node, blocks: seq<Node>, d: Label, holes: seq<Node>, body: seq<Node>, e: Label, h: nat)
    requires h < |holes|
    ensures SwitchLayout(head, blocks, d, holes, body, e)[2 + |blocks| + h] == holes[h]
  {
  }

  /** The default body of a switch layout sits between the holes and the end label. */
  lemma {:induction false} SwitchBody(head: Node, blocks: seq<Node>, d: Label, holes: seq<Node>, body: seq<Node>, e: Label)
    ensures var code := SwitchLayout(head, blocks, d, holes, body, e);
      |code| == 3 + |blocks| + |holes| + |body|
      && code[2 + |blocks| + |holes|..|code| - 1] == body
  {
    var code := SwitchLayout(head, blocks, d, holes, body, e);
    assert code == ([head] + blocks + [LabelMark(d)] + holes) + body + [LabelMark(e)];
  }

  /** When the hole run holds nothing but label placements, so does the whole
      stretch from the default label to the default body. */
  lemma {:induction false} SwitchMarkRun(head: Node, blocks: seq<Node>, d: Label, holes: seq<Node>, body: seq<Node>, e: Label)
    requires forall j :: 0 <= j < |holes| ==> holes[j].LabelMark?
    ensures var code := SwitchLayout(head, blocks, d, holes, body, e);
      forall j :: 1 + |blocks| <= j < 2 + |blocks| + |holes| ==> code[j].LabelMark?
  {
    var code := SwitchLayout(head, blocks, d, holes, body, e);
    SwitchEnds(head, blocks, d, holes, body, e);
    forall j | 1 + |blocks| < j < 2 + |blocks| + |holes|
      ensures code[j].LabelMark?
    {
      SwitchHoleAt(head, blocks, d, holes, body, e, j - 2 - |blocks|);
    }
  }

  /** The case blocks of a switch layout start right after the dispatch node. */
  lemma {:induction false} SwitchBlocks(head: Node, blocks: seq<Node>, d: Label, holes: seq<Node>, body: seq<Node>, e: Label,
                     x: nat, y: nat)
    requires x <= y <= |blocks|
    ensures var code := SwitchLayout(head, blocks, d, holes, body, e);
      && (y < |blocks| ==> code[1 + y] == blocks[y])
      && code[1 + x..1 + y] == blocks[x..y]
  {
    var code := SwitchLayout(head, blocks, d, holes, body, e);
    assert code == [head] + blocks + ([LabelMark(d)] + holes + body + [LabelMark(e)]);
    assert code[1 + x..1 + y] == blocks[x..y];
  }

  /** Case `i` of a switch layout: see `CaseIn`; after the last case comes
      the default label. */
  lemma {:induction false} SwitchCaseAt(head: Node, cases: seq<Case>, ids: seq<Label>, d: Label, holes: seq<Node>,
                     body: seq<Node>, e: Label, i: nat)
    returns (p: nat)
    requires |ids| == |cases| && i < |cases|
    ensures var code := SwitchLayout(head, CaseBlocks(cases, ids, e), d, holes, body, e);
      var q := p + 1 + |cases[i].body|;
      && 0 < p && q < |code|
      && code[p] == LabelMark(ids[i])
      && code[p + 1..q] == cases[i].body
      && (!cases[i].fallthrough ==> code[q] == JumpInsn(GOTO, e))
      && (cases[i].fallthrough && i + 1 < |cases| ==> code[q] == LabelMark(ids[i + 1]))
      && (cases[i].fallthrough && i + 1 == |cases| ==> code[q] == LabelMark(d))
  {
    var blocks := CaseBlocks(cases, ids, e);
    var k := CaseIn(cases, ids, e, i);
    var r := k + 1 + |cases[i].body|;
    SwitchBlocks(head, blocks, d, holes, body, e, k, k);
    SwitchBlocks(head, blocks, d, holes, body, e, k + 1, r);
    if r < |blocks| {
      SwitchBlocks(head, blocks, d, holes, body, e, r, r);
    } else {
      SwitchEnds(head, blocks, d, holes, body, e);
    }
    p := 1 + k;
  }

  // ---------------------------------------------------------------------
  // tableswitch

  /** Distinct keys over a duplicate-free range give distinct case labels,
      all of them range labels. */
  lemma {:induction false} TableLabelsDistinct(cases: seq<Case>, lo: int, ls: seq<Label>)
    requires InRange(cases, lo, |ls|) && DistinctKeys(cases) && DistinctLabels(ls)
    ensures DistinctLabels(TableLabels(cases, lo, ls))
    ensures forall l :: l in TableLabels(cases, lo, ls) ==> l in ls
  {
    var ids := TableLabels(cases, lo, ls);
    forall l | l in ids
      ensures l in ls
    {
      var i :| 0 <= i < |ids| && ids[i] == l;
      assert ls[cases[i].index - lo] == l;
    }
  }

  /** The labels `tableswitch` draws from `b` on (see `TableSwitchLayout`):
      `Span` entry labels that cover every key, all distinct, followed by the
      default and end labels, all from `b` on. */
  lemma {:induction false} TableLabelSupply(cases: seq<Case>, b: Label)
    requires |cases| > 0
    ensures var n := Span(cases);
      var ls := LabelRange(b, n);
      && |ls| == n == MaxKey(cases) - MinKey(cases) + 1
      && InRange(cases, MinKey(cases), |ls|)
      && DistinctLabels(ls) && b + n !in ls && b + n + 1 !in ls
      && (forall l :: b <= l < b + n ==> l in ls)
      && (forall l :: l in ls ==> b <= l)
  {
    var ls := LabelRange(b, Span(cases));
    forall l | b <= l < b + Span(cases)
      ensures l in ls
    {
      assert ls[l - b] == l;
    }
  }

  /** The dispatch node of `tableswitch` records the key range and one entry
      label per key of it (key `k` at entry `k - lo`); for every case, the
      entry of its key is the label placed right in front of that case's body,
      which is followed by `GOTO` to the end label unless the case falls
      through, and then by the next case's entry label (or, after the last
      case, by the default label). */
  lemma {:induction false} TableSwitchDispatch(cases: seq<Case>, dflt: Option<seq<Node>>, lo: int32, hi: int32,
                        ls: seq<Label>, d: Label, e: Label, i: nat)
    returns (p: nat)
    requires InRange(cases, lo, |ls|) && i < |cases|
    ensures var code := TableLayout(cases, dflt, lo, hi, ls, d, e);
      var q := p + 1 + |cases[i].body|;
      && code[0] == TableSwitchInsn(lo, hi, d, ls)
      && 0 < p && q < |code|
      && code[p] == LabelMark(ls[cases[i].index - lo])
      && code[p + 1..q] == cases[i].body
      && code[|code| - 1] == LabelMark(e)
      && (!cases[i].fallthrough ==> code[q] == JumpInsn(GOTO, e))
      && (cases[i].fallthrough && i + 1 < |cases| ==> code[q] == LabelMark(ls[cases[i + 1].index - lo]))
      && (cases[i].fallthrough && i + 1 == |cases| ==> code[q] == LabelMark(d))
  {
    var ids := TableLabels(cases, lo, ls);
    var sw := TableSwitchInsn(lo, hi, d, ls);
    var holes := HoleMarks(ls, ids);
    var body := DefaultBody(dflt);
    p := SwitchCaseAt(sw, cases, ids, d, holes, body, e, i);
    SwitchEnds(sw, CaseBlocks(cases, ids, e), d, holes, body, e);
  }

  /** A key of the range that no case has (a hole) dispatches to an entry
      label placed, after the default label, in a run of label placements that
      leads straight into the default body; the default body is followed by
      the end label. */
  lemma {:induction false} TableSwitchHole(cases: seq<Case>, dflt: Option<seq<Node>>, lo: int32, hi: int32,
                    ls: seq<Label>, d: Label, e: Label, key: int)
    returns (s: nat, p: nat, q: nat)
    requires InRange(cases, lo, |ls|) && DistinctLabels(ls) && lo <= key < lo + |ls|
    requires forall i :: 0 <= i < |cases| ==> cases[i].index != key
    ensures var code := TableLayout(cases, dflt, lo, hi, ls, d, e);
      && code[0] == TableSwitchInsn(lo, hi, d, ls)
      && 0 < s < p < q && q + |DefaultBody(dflt)| == |code| - 1
      && code[s] == LabelMark(d)
      && code[p] == LabelMark(ls[key - lo])
      && (forall j :: s <= j < q ==> code[j].LabelMark?)
      && code[q..|code| - 1] == DefaultBody(dflt)
  {
    var ids := TableLabels(cases, lo, ls);
    var sw := TableSwitchInsn(lo, hi, d, ls);
    var blocks := CaseBlocks(cases, ids, e);
    var holes := HoleMarks(ls, ids);
    var body := DefaultBody(dflt);
    SwitchEnds(sw, blocks, d, holes, body, e);
    SwitchBody(sw, blocks, d, holes, body, e);
    var l := ls[key - lo];
    forall i | 0 <= i < |cases|
      ensures ids[i] != l
    {
      assert ids[i] == ls[cases[i].index - lo];
    }
    HoleMarksFacts(ls, ids, l);
    SwitchMarkRun(sw, blocks, d, holes, body, e);
    var h :| 0 <= h < |holes| && holes[h] == LabelMark(l);
    s := 1 + |blocks|;
    p := s + 1 + h;
    q := s + 1 + |holes|;
    SwitchHoleAt(sw, blocks, d, holes, body, e, h);
  }

  /** Every label of a table layout is placed exactly once, when the keys
      are distinct, the labels are distinct and drawn from [b, t), and the
      bodies place no label of that range. `TableLabelSupply` shows that the
      labels `tableswitch` draws meet these conditions with t = b + Span + 2. */
  lemma {:induction false} TableLayoutLabelsPlacedOnce(cases: seq<Case>, dflt: Option<seq<Node>>, lo: int32, hi: int32,
                          ls: seq<Label>, d: Label, e: Label, b: Label, t: Label, l: Label)
    requires InRange(cases, lo, |ls|) && DistinctKeys(cases)
    requires DistinctLabels(ls) && d !in ls && e !in ls && d != e
    requires forall i :: 0 <= i < |cases| ==> MarksOutside(cases[i].body, b, t)
    requires MarksOutside(DefaultBody(dflt), b, t)
    requires b <= l < t && (l in ls || l == d || l == e)
    ensures MarkCount(TableLayout(cases, dflt, lo, hi, ls, d, e), l) == 1
  {
    var ids := TableLabels(cases, lo, ls);
    var sw := TableSwitchInsn(lo, hi, d, ls);
    var holes := HoleMarks(ls, ids);
    SwitchMarkCount(sw, CaseBlocks(cases, ids, e), d, holes, DefaultBody(dflt), e, l);
    TableLabelsDistinct(cases, lo, ls);
    MarkCountCaseBlocks(cases, ids, e, b, t, l);
    HoleMarksFacts(ls, ids, l);
    MarkCountOutside(DefaultBody(dflt), b, t, l);
  }

  // ---------------------------------------------------------------------
  // lookupswitch

  /** The dispatch node of `lookupswitch` pairs the keys, in the order the
      cases were added, with one label each; the label paired with case `i`'s
      key is the one placed right in front of that case's body, which is
      followed by `GOTO` to the end label unless the case falls through. */
  lemma {:induction false} LookupSwitchDispatch(cases: seq<Case>, dflt: Option<seq<Node>>, ls: seq<Label>, d: Label, e: Label, i: nat)
    returns (p: nat)
    requires |ls| == |cases| && i < |cases|
    ensures var code := LookupLayout(cases, dflt, ls, d, e);
      var q := p + 1 + |cases[i].body|;
      && code[0] == LookupSwitchInsn(d, Keys(cases), ls)
      && 0 < p && q < |code|
      && code[p] == LabelMark(ls[i])
      && code[p + 1..q] == cases[i].body
      && code[|code| - 1] == LabelMark(e)
      && (!cases[i].fallthrough ==> code[q] == JumpInsn(GOTO, e))
      && (cases[i].fallthrough && i + 1 < |cases| ==> code[q] == LabelMark(ls[i + 1]))
      && (cases[i].fallthrough && i + 1 == |cases| ==> code[q] == LabelMark(d))
  {
    var sw := LookupSwitchInsn(d, Keys(cases), ls);
    var body := DefaultBody(dflt);
    p := SwitchCaseAt(sw, cases, ls, d, [], body, e, i);
    SwitchEnds(sw, CaseBlocks(cases, ls, e), d, [], body, e);
  }

  /** A key no case has goes to the default label, which is placed right in
      front of the default body, itself followed by the end label. */
  lemma {:induction false} LookupSwitchDefault(cases: seq<Case>, dflt: Option<seq<Node>>, ls: seq<Label>, d: Label, e: Label)
    requires |ls| == |cases|
    ensures var code := LookupLayout(cases, dflt, ls, d, e);
      var s := |code| - 2 - |DefaultBody(dflt)|;
      && 0 < s && code[0] == LookupSwitchInsn(d, Keys(cases), ls)
      && code[s] == LabelMark(d)
      && code[s + 1..|code| - 1] == DefaultBody(dflt)
      && code[|code| - 1] == LabelMark(e)
  {
    var sw := LookupSwitchInsn(d, Keys(cases), ls);
    var blocks := CaseBlocks(cases, ls, e);
    SwitchEnds(sw, blocks, d, [], DefaultBody(dflt), e);
    SwitchBody(sw, blocks, d, [], DefaultBody(dflt), e);
  }

  /** Every label of a lookup layout is placed exactly once, when the labels
      are distinct and drawn from [b, t), and the bodies place no label of
      that range. */
  lemma {:induction false} LookupLayoutLabelsPlacedOnce(cases: seq<Case>, dflt: Option<seq<Node>>, ls: seq<Label>, d: Label, e: Label,
                           b: Label, t: Label, l: Label)
    requires |ls| == |cases| && DistinctLabels(ls) && d !in ls && e !in ls && d != e
    requires forall i :: 0 <= i < |cases| ==> MarksOutside(cases[i].body, b, t)
    requires MarksOutside(DefaultBody(dflt), b, t)
    requires b <= l < t && (l in ls || l == d || l == e)
    ensures MarkCount(LookupLayout(cases, dflt, ls, d, e), l) == 1
  {
    var sw := LookupSwitchInsn(d, Keys(cases), ls);
    SwitchMarkCount(sw, CaseBlocks(cases, ls, e), d, [], DefaultBody(dflt), e, l);
    MarkCountCaseBlocks(cases, ls, e, b, t, l);
    MarkCountOutside(DefaultBody(dflt), b, t, l);
    assert MarkCount([], l) == 0;
  }

  /** The labels `lookupswitch` draws from `b` on (see `LookupSwitchLayout`):
      one per case, all distinct, followed by the default and end labels. */
  lemma {:induction false} LookupLabelSupply(cases: seq<Case>, b: Label)
    ensures var m := |cases|;
      var ls := LabelRange(b, m);
      && |ls| == m && DistinctLabels(ls) && b + m !in ls && b + m + 1 !in ls
      && (forall l :: b <= l < b + m ==> l in ls)
      && (forall l :: l in ls ==> b <= l)
  {
    var ls := LabelRange(b, |cases|);
    forall l | b <= l < b + |cases|
      ensures l in ls
    {
      assert ls[l - b] == l;
    }
  }

  /** `TableSwitchLayout` spelled out as the table layout it stands for. */
  lemma {:induction false} TableSwitchLayoutIs(cases: seq<Case>, dflt: Option<seq<Node>>, b: Label)
    requires |cases| > 0
    ensures var n := Span(cases);
      InRange(cases, MinKey(cases), |LabelRange(b, n)|)
      && TableSwitchLayout(cases, dflt, b)
         == TableLayout(cases, dflt, MinKey(cases), MaxKey(cases), LabelRange(b, n), b + n, b + n + 1)
  {
    TableLabelSupply(cases, b);
  }

  /** Each of the `|cases| + 2` labels `lookupswitch` draws from `b` on is
      placed exactly once in what it appends, when the bodies place none of
      them. */
  lemma {:induction false} LookupSwitchLabelsPlacedOnce(cases: seq<Case>, dflt: Option<seq<Node>>, b: Label, l: Label)
    requires forall i :: 0 <= i < |cases| ==> MarksOutside(cases[i].body, b, b + |cases| + 2)
    requires MarksOutside(DefaultBody(dflt), b, b + |cases| + 2)
    requires b <= l < b + |cases| + 2
    ensures MarkCount(LookupSwitchLayout(cases, dflt, b), l) == 1
  {
    var m := |cases|;
    LookupLabelSupply(cases, b);
    LookupLayoutLabelsPlacedOnce(cases, dflt, LabelRange(b, m), b + m, b + m + 1, b, b + m + 2, l);
  }

  /** The keys of the lookup node are not sorted: cases added as 2 then 1 give
      the key array [2, 1], which section 6.5 of the Java Virtual Machine
      Specification (lookupswitch) requires to be in increasing order. */
  lemma {:induction false} LookupSwitchKeysInCallOrder()
    ensures var code := LookupSwitchLayout([Case(2, false, []), Case(1, false, [])], None, 0);
      code[0].LookupSwitchInsn? && code[0].keys == [2, 1]
  {
    var cases := [Case(2, false, []), Case(1, false, [])];
    assert Keys(cases) == [2, 1];
    LookupSwitchDefault(cases, None, LabelRange(0, 2), 2, 3);
  }
}
