/** The compiler object: operations are appended, and operands are filled in when their labels are known. */
module ToraEmit {
  import opened Basics
  import opened ToraMachine
  import opened ToraSyntax
  import opened ToraCompiler

  // ----- filling in the operands of `last` -----

  /** `*n = label` for one waiting operand. */
  function Filled(op: Op, v: int): Op { if op.LastOp? then LastOp(v) else op }

  function PatchAll(ops: seq<Op>, labels: seq<nat>, v: int): (r: seq<Op>)
    ensures |r| == |ops|
    decreases |labels|
  {
    if labels == [] then ops
    else PatchAll(if labels[0] < |ops| then ops[labels[0] := Filled(ops[labels[0]], v)] else ops, labels[1..], v)
  }

  ghost predicate Below(labels: seq<nat>, n: nat) {
    forall k :: 0 <= k < |labels| ==> labels[k] < n
  }

  lemma BelowMore(labels: seq<nat>, n: nat, m: nat)
    requires Below(labels, n) && n <= m
    ensures Below(labels, m)
  {
  }

  lemma {:induction false} PatchTwice(ops: seq<Op>, a: seq<nat>, b: seq<nat>, v: int)
    ensures PatchAll(ops, a + b, v) == PatchAll(PatchAll(ops, a, v), b, v)
    decreases |a|
  {
    if a == [] {
      assert a + b == b;
    } else {
      assert (a + b)[0] == a[0] && (a + b)[1..] == a[1..] + b;
      PatchTwice(if a[0] < |ops| then ops[a[0] := Filled(ops[a[0]], v)] else ops, a[1..], b, v);
    }
  }

  lemma {:induction false} PatchPrefix(ops: seq<Op>, rest: seq<Op>, labels: seq<nat>, v: int)
    requires Below(labels, |ops|)
    ensures PatchAll(ops + rest, labels, v) == PatchAll(ops, labels, v) + rest
    decreases |labels|
  {
    if labels != [] {
      var op := Filled(ops[labels[0]], v);
      assert (ops + rest)[labels[0] := op] == ops[labels[0] := op] + rest;
      PatchPrefix(ops[labels[0] := op], rest, labels[1..], v);
    }
  }

  lemma {:induction false} PatchElsewhere(ops: seq<Op>, labels: seq<nat>, v: int, k: nat, op: Op)
    requires k < |ops| && forall i :: 0 <= i < |labels| ==> labels[i] != k
    ensures PatchAll(ops, labels, v)[k := op] == PatchAll(ops[k := op], labels, v)
    decreases |labels|
  {
    if labels != [] {
      var l := labels[0];
      if l < |ops| {
        var f := Filled(ops[l], v);
        assert ops[l := f][k := op] == ops[k := op][l := f];
        PatchElsewhere(ops[l := f], labels[1..], v, k, op);
      } else {
        PatchElsewhere(ops, labels[1..], v, k, op);
      }
    }
  }

  // ----- what compiling a statement adds -----

  /** The `last`s of `s` that still wait for an operand when `s` has been compiled at `base`. */
  function Waits(s: Stmt, blocks: Blocks, base: nat): seq<nat>
    requires blocks != []
    decreases s, 1
  {
    match s
    case Last => [base]
    case Next(s1, rest) =>
      (if HasLoop(rest) then [] else Waits(s1, blocks, base + 1))
          + Waits(rest, DeclS(s1, blocks), base + 1 + LenS(s1, blocks))
    case Block(body) => if CountS(body) > 0 then Waits(body, Inner(blocks), base + 1) else Waits(body, blocks, base)
    case If(c, y, n) =>
      if OwnScope(c) then IfWaits(c, y, n, Inner(blocks), base + 1) else IfWaits(c, y, n, blocks, base)
    case _ => []
  }

  function IfWaits(c: Expr, y: Stmt, n: Stmt, blocks: Blocks, base: nat): seq<nat>
    requires blocks != []
    decreases If(c, y, n), 0
  {
    var b := DeclE(c, blocks);
    var yes := base + LenE(c, blocks) + 1;
    (if HasLoop(n) then [] else Waits(y, b, yes)) + Waits(n, DeclS(y, b), yes + LenS(y, b) + 1)
  }

  /** Filling in the waiting operands of the code of `s` gives the code with that operand. */
  ghost predicate Fills(s: Stmt, blocks: Blocks, v: int, pre: seq<Op>, suf: seq<Op>)
    requires blocks != []
  {
    PatchAll(pre + Gen(s, blocks, |pre|, 0, true) + suf, Waits(s, blocks, |pre|), v) ==
        pre + Gen(s, blocks, |pre|, v, true) + suf
  }

  /** Two pieces of code `x` and `y` with something before, between and behind; the first waits only if the second has
      no loop. */
  lemma FillsTwo(pre: seq<Op>, x0: seq<Op>, x1: seq<Op>, mid: seq<Op>, y0: seq<Op>, y1: seq<Op>, suf: seq<Op>,
      wx: seq<nat>, wy: seq<nat>, v: int)
    requires PatchAll(pre + x0 + (mid + y0 + suf), wx, v) == pre + x1 + (mid + y0 + suf)
    requires PatchAll((pre + x1 + mid) + y0 + suf, wy, v) == (pre + x1 + mid) + y1 + suf
    ensures PatchAll(pre + (x0 + mid + y0) + suf, wx + wy, v) == pre + (x1 + mid + y1) + suf
  {
    hide PatchAll;
    PatchTwice(pre + (x0 + mid + y0) + suf, wx, wy, v);
    assert pre + (x0 + mid + y0) + suf == pre + x0 + (mid + y0 + suf);
    assert pre + x1 + (mid + y0 + suf) == (pre + x1 + mid) + y0 + suf;
    assert (pre + x1 + mid) + y1 + suf == pre + (x1 + mid + y1) + suf;
  }

  lemma NothingToPatch(ops: seq<Op>, v: int)
    ensures PatchAll(ops, [], v) == ops
  {
  }

  /** The codes of a pair of statements compiled one after the other, the first at `base`. */
  function PairCode(s1: Stmt, b1: Blocks, mid: seq<Op>, s2: Stmt, b2: Blocks, base: nat, brk: int): seq<Op>
    requires b1 != [] && b2 != []
  {
    var at := base + LenS(s1, b1) + |mid|;
    Gen(s1, b1, base, Waiting(s2, b2, at, brk, true), true) + mid + Gen(s2, b2, at, brk, true)
  }

  function PairWaits(s1: Stmt, b1: Blocks, mid: seq<Op>, s2: Stmt, b2: Blocks, base: nat): seq<nat>
    requires b1 != [] && b2 != []
  {
    (if HasLoop(s2) then [] else Waits(s1, b1, base)) + Waits(s2, b2, base + LenS(s1, b1) + |mid|)
  }

  lemma {:induction false} FillsPair(whole: Stmt, s1: Stmt, s2: Stmt, b1: Blocks, b2: Blocks, v: int, pre: seq<Op>,
      mid: seq<Op>, suf: seq<Op>)
    requires b1 != [] && b2 != [] && s1 < whole && s2 < whole
    ensures PatchAll(pre + PairCode(s1, b1, mid, s2, b2, |pre|, 0) + suf, PairWaits(s1, b1, mid, s2, b2, |pre|), v)
      == pre + PairCode(s1, b1, mid, s2, b2, |pre|, v) + suf
    decreases whole, 0, 0
  {
    hide Gen, LenS, Waits, PatchAll, HasLoop, FirstLabel;
    var at := |pre| + LenS(s1, b1) + |mid|;
    var (x0, x1) := (Gen(s1, b1, |pre|, Waiting(s2, b2, at, 0, true), true),
        Gen(s1, b1, |pre|, Waiting(s2, b2, at, v, true), true));
    var (y0, y1) := (Gen(s2, b2, at, 0, true), Gen(s2, b2, at, v, true));
    GenLength(s1, b1, |pre|, Waiting(s2, b2, at, v, true), true);
    assert |pre + x1 + mid| == at;
    FillsAll(s2, b2, v, pre + x1 + mid, suf);
    var wx := if HasLoop(s2) then [] else Waits(s1, b1, |pre|);
    if HasLoop(s2) { NothingToPatch(pre + x0 + (mid + y0 + suf), v); }
    else { FillsAll(s1, b1, v, pre, mid + y0 + suf); }
    FillsTwo(pre, x0, x1, mid, y0, y1, suf, wx, Waits(s2, b2, at), v);
  }

  /** Code in a frame: what is before and behind it does not matter. */
  lemma FillsFramed(pre: seq<Op>, a: seq<Op>, x0: seq<Op>, x1: seq<Op>, c: seq<Op>, suf: seq<Op>, w: seq<nat>, v: int)
    requires PatchAll((pre + a) + x0 + (c + suf), w, v) == (pre + a) + x1 + (c + suf)
    ensures PatchAll(pre + (a + x0 + c) + suf, w, v) == pre + (a + x1 + c) + suf
  {
    hide PatchAll;
    assert (pre + a) + x0 + (c + suf) == pre + (a + x0 + c) + suf;
    assert (pre + a) + x1 + (c + suf) == pre + (a + x1 + c) + suf;
  }

  lemma {:induction false} FillsAll(s: Stmt, blocks: Blocks, v: int, pre: seq<Op>, suf: seq<Op>)
    requires blocks != []
    ensures Fills(s, blocks, v, pre, suf)
    decreases s, 1, 0
  {
    hide PatchAll, GenE, NamesE, NamesS, LenE, DeclE, DeclS, Inner, PairCode, PairWaits, IfCode, IfWaits, ForCode;
    match s
    case Next(s1, rest) =>
      FillsPair(s, s1, rest, blocks, DeclS(s1, blocks), v, pre + [NextState], [], suf);
      assert |pre + [NextState]| == |pre| + 1 && [] + suf == suf;
      NextIsPair(s1, rest, blocks, |pre|, 0);
      NextIsPair(s1, rest, blocks, |pre|, v);
      FillsFramed(pre, [NextState], PairCode(s1, blocks, [], rest, DeclS(s1, blocks), |pre| + 1, 0),
                  PairCode(s1, blocks, [], rest, DeclS(s1, blocks), |pre| + 1, v), [], suf, Waits(s, blocks, |pre|), v);
    case Block(body) =>
      if CountS(body) > 0 {
        var enter := [Enter(|NamesS(body, [])|)];
        FillsAll(body, Inner(blocks), v, pre + enter, [Op.Leave] + suf);
        FillsFramed(pre, enter, Gen(body, Inner(blocks), |pre| + 1, 0, true),
            Gen(body, Inner(blocks), |pre| + 1, v, true), [Op.Leave], suf,
                    Waits(s, blocks, |pre|), v);
      } else {
        FillsAll(body, blocks, v, pre, suf);
      }
    case If(c, y, n) =>
      if OwnScope(c) {
        var enter := [Enter(|NamesS(n, NamesS(y, NamesE(c, [])))|)];
        FillsIf(s, c, y, n, Inner(blocks), v, pre + enter, [Op.Leave] + suf);
        FillsFramed(pre, enter, IfCode(c, y, n, Inner(blocks), |pre| + 1, 0, true),
            IfCode(c, y, n, Inner(blocks), |pre| + 1, v, true),
                    [Op.Leave], suf, Waits(s, blocks, |pre|), v);
      } else {
        FillsIf(s, c, y, n, blocks, v, pre, suf);
      }
    case Last =>
      PatchOne(pre, suf, v);
    case _ => NothingToPatch(pre + Gen(s, blocks, |pre|, 0, true) + suf, v);
  }

  lemma PatchOne(pre: seq<Op>, suf: seq<Op>, v: int)
    ensures PatchAll(pre + [LastOp(0)] + suf, [|pre|], v) == pre + [LastOp(v)] + suf
  {
    var ops := pre + [LastOp(0)] + suf;
    assert ops[|pre|] == LastOp(0) && ops[|pre| := LastOp(v)] == pre + [LastOp(v)] + suf;
    NothingToPatch(ops[|pre| := LastOp(v)], v);
  }

  lemma NextIsPair(s1: Stmt, rest: Stmt, blocks: Blocks, base: nat, brk: int)
    requires blocks != []
    ensures Gen(Next(s1, rest), blocks, base, brk, true) ==
        [NextState] + PairCode(s1, blocks, [], rest, DeclS(s1, blocks), base + 1, brk) + []
    ensures Waits(Next(s1, rest), blocks, base) == PairWaits(s1, blocks, [], rest, DeclS(s1, blocks), base + 1)
  {
    hide DeclS, DeclE, FirstLabel, HasLoop, LenS, LenE, GenE, NamesE, NamesS, IfCode, ForCode, IfWaits, CountS, CountE;
    hide OwnScope, Find, PatchAll;
    var next := base + 1 + LenS(s1, blocks);
    var (x, y) := (Gen(s1, blocks, base + 1, Waiting(rest, DeclS(s1, blocks), next, brk, true), true),
        Gen(rest, DeclS(s1, blocks), next, brk, true));
    assert [NextState] + x + y == [NextState] + (x + [] + y) + [];
  }

  lemma IfIsPair(c: Expr, y: Stmt, n: Stmt, blocks: Blocks, base: nat, brk: int)
    requires blocks != []
    ensures
      var b := DeclE(c, blocks);
      var yes := base + LenE(c, blocks) + 1;
      var no := yes + LenS(y, b) + 1;
      var mid := [Jump(no + LenS(n, DeclS(y, b)))];
      && IfCode(c, y, n, blocks, base, brk, true) ==
          (GenE(c, blocks, base) + [JumpIfFalse(no)]) + PairCode(y, b, mid, n, DeclS(y, b), yes, brk) + []
      && IfWaits(c, y, n, blocks, base) == PairWaits(y, b, mid, n, DeclS(y, b), yes)
  {
    hide GenE, Gen, LenE, LenS, DeclE, DeclS, Waiting, Waits, HasLoop;
    var b := DeclE(c, blocks);
    var yes := base + LenE(c, blocks) + 1;
    var no := yes + LenS(y, b) + 1;
    IfParts(c, y, n, blocks, base, brk, true);
  }

  lemma {:induction false} FillsIf(whole: Stmt, c: Expr, y: Stmt, n: Stmt, blocks: Blocks, v: int, pre: seq<Op>,
      suf: seq<Op>)
    requires blocks != [] && y < whole && n < whole
    ensures PatchAll(pre + IfCode(c, y, n, blocks, |pre|, 0, true) + suf, IfWaits(c, y, n, blocks, |pre|), v)
      == pre + IfCode(c, y, n, blocks, |pre|, v, true) + suf
    decreases whole, 0, 1
  {
    hide *;
    var b := DeclE(c, blocks);
    var yes := |pre| + LenE(c, blocks) + 1;
    var no := yes + LenS(y, b) + 1;
    var (head, mid) := (GenE(c, blocks, |pre|) + [JumpIfFalse(no)], [Jump(no + LenS(n, DeclS(y, b)))]);
    GenELen(c, blocks, |pre|);
    assert |pre + head| == yes && [] + suf == suf;
    IfIsPair(c, y, n, blocks, |pre|, 0);
    IfIsPair(c, y, n, blocks, |pre|, v);
    FillsPair(whole, y, n, b, DeclS(y, b), v, pre + head, mid, suf);
    FillsFramed(pre, head, PairCode(y, b, mid, n, DeclS(y, b), yes, 0), PairCode(y, b, mid, n, DeclS(y, b), yes, v), [],
        suf,
                PairWaits(y, b, mid, n, DeclS(y, b), yes), v);
  }

  // ----- the vectors of the compiler around one statement -----

  datatype Emitted = Emitted(ops: seq<Op>, labels: seq<nat>)

  /** The operations and the waiting labels after `s`, from those before it. */
  function Emit(ops: seq<Op>, labels: seq<nat>, s: Stmt, blocks: Blocks): Emitted
    requires blocks != []
  {
    Emitted(
      (if HasLoop(s) then PatchAll(ops, labels, FirstLabel(s, blocks, |ops|)) else ops)
          + Gen(s, blocks, |ops|, 0, true),
      (if HasLoop(s) then [] else labels) + Waits(s, blocks, |ops|))
  }

  /** Filling in everything that waits after `s`. */
  lemma EmitClose(z: seq<Op>, labels: seq<nat>, s: Stmt, blocks: Blocks, tail: seq<Op>, v: int)
    requires blocks != [] && Below(labels, |z|)
    ensures PatchAll(Emit(z, labels, s, blocks).ops + tail, Emit(z, labels, s, blocks).labels, v)
      == PatchAll(z, labels, if HasLoop(s) then FirstLabel(s, blocks, |z|) else v) + Gen(s, blocks, |z|, v, true) + tail
  {
    hide Gen, LenS, Waits, PatchAll, HasLoop, FirstLabel;
    var (pre, g, w) := (if HasLoop(s) then PatchAll(z, labels, FirstLabel(s, blocks, |z|)) else z,
        Gen(s, blocks, |z|, 0, true), Waits(s, blocks, |z|));
    var l := if HasLoop(s) then [] else labels;
    PatchTwice(pre + g + tail, l, w, v);
    if HasLoop(s) {
      NothingToPatch(pre + g + tail, v);
      FillsAll(s, blocks, v, pre, tail);
    } else {
      assert pre + g + tail == pre + (g + tail);
      PatchPrefix(pre, g + tail, labels, v);
      assert PatchAll(z, labels, v) + (g + tail) == PatchAll(z, labels, v) + g + tail;
      FillsAll(s, blocks, v, PatchAll(z, labels, v), tail);
    }
  }

  /** Two statements with something in between, the second with a loop, which fills in what waits. */
  lemma EmitThenLoop(z: seq<Op>, labels: seq<nat>, s1: Stmt, b1: Blocks, mid: seq<Op>, s2: Stmt, b2: Blocks)
    requires b1 != [] && b2 != [] && Below(labels, |z|) && HasLoop(s2)
    requires |Emit(z, labels, s1, b1).ops + mid| == |z| + LenS(s1, b1) + |mid|
    ensures
      var e1 := Emit(z, labels, s1, b1);
      var e2 := Emit(e1.ops + mid, e1.labels, s2, b2);
      var v := FirstLabel(s2, b2, |z| + LenS(s1, b1) + |mid|);
      && e2.ops == PatchAll(z, labels, if HasLoop(s1) then FirstLabel(s1, b1, |z|) else v)
                   + PairCode(s1, b1, mid, s2, b2, |z|, 0)
      && e2.labels == PairWaits(s1, b1, mid, s2, b2, |z|)
  {
    hide *;
    var e1 := Emit(z, labels, s1, b1);
    var at := |z| + LenS(s1, b1) + |mid|;
    var v := FirstLabel(s2, b2, at);
    EmitIs(e1.ops + mid, e1.labels, s2, b2);
    PairCodeIs(s1, b1, mid, s2, b2, |z|, 0);
    EmitClose(z, labels, s1, b1, mid, v);
    Assoc4(PatchAll(z, labels, if HasLoop(s1) then FirstLabel(s1, b1, |z|) else v), Gen(s1, b1, |z|, v, true), mid,
        Gen(s2, b2, at, 0, true));
  }

  /** The second without a loop: what waits goes on waiting. */
  lemma EmitThenPlain(z: seq<Op>, labels: seq<nat>, s1: Stmt, b1: Blocks, mid: seq<Op>, s2: Stmt, b2: Blocks)
    requires b1 != [] && b2 != [] && !HasLoop(s2)
    requires |Emit(z, labels, s1, b1).ops + mid| == |z| + LenS(s1, b1) + |mid|
    ensures
      var e1 := Emit(z, labels, s1, b1);
      var e2 := Emit(e1.ops + mid, e1.labels, s2, b2);
      && e2.ops == (if HasLoop(s1) then PatchAll(z, labels, FirstLabel(s1, b1, |z|)) else z)
                   + PairCode(s1, b1, mid, s2, b2, |z|, 0)
      && e2.labels == (if HasLoop(s1) then [] else labels) + PairWaits(s1, b1, mid, s2, b2, |z|)
  {
    hide *;
    var e1 := Emit(z, labels, s1, b1);
    var at := |z| + LenS(s1, b1) + |mid|;
    EmitIs(z, labels, s1, b1);
    EmitIs(e1.ops + mid, e1.labels, s2, b2);
    PairCodeIs(s1, b1, mid, s2, b2, |z|, 0);
    Assoc4(if HasLoop(s1) then PatchAll(z, labels, FirstLabel(s1, b1, |z|)) else z, Gen(s1, b1, |z|, 0, true), mid,
        Gen(s2, b2, at, 0, true));
    AppendNil(if HasLoop(s1) then [] else labels, Waits(s1, b1, |z|), Waits(s2, b2, at));
  }

  /** Two statements with something in between. */
  lemma EmitThen(z: seq<Op>, labels: seq<nat>, s1: Stmt, b1: Blocks, mid: seq<Op>, s2: Stmt, b2: Blocks)
    requires b1 != [] && b2 != [] && Below(labels, |z|)
    ensures
      var e1 := Emit(z, labels, s1, b1);
      var e2 := Emit(e1.ops + mid, e1.labels, s2, b2);
      var at := |z| + LenS(s1, b1) + |mid|;
      && |e1.ops| == |z| + LenS(s1, b1)
      && e2.ops == (if HasLoop(s1) then PatchAll(z, labels, FirstLabel(s1, b1, |z|))
                    else if HasLoop(s2) then PatchAll(z, labels, FirstLabel(s2, b2, at)) else z)
                   + PairCode(s1, b1, mid, s2, b2, |z|, 0)
      && e2.labels == (if HasLoop(s1) || HasLoop(s2) then [] else labels) + PairWaits(s1, b1, mid, s2, b2, |z|)
  {
    hide *;
    EmitSize(z, labels, s1, b1);
    if HasLoop(s2) {
      EmitThenLoop(z, labels, s1, b1, mid, s2, b2);
      NoneBefore(PairWaits(s1, b1, mid, s2, b2, |z|));
    } else {
      EmitThenPlain(z, labels, s1, b1, mid, s2, b2);
    }
  }

  lemma NoneBefore<T>(a: seq<T>)
    ensures [] + a == a
  {
  }

  lemma Assoc4<T>(a: seq<T>, b: seq<T>, c: seq<T>, d: seq<T>)
    ensures ((a + b) + c) + d == a + (b + c + d)
  {
  }

  lemma AppendNil<T>(a: seq<T>, b: seq<T>, c: seq<T>)
    ensures (a + b) + c == a + (b + c)
  {
  }

  lemma EmitIs(ops: seq<Op>, labels: seq<nat>, s: Stmt, blocks: Blocks)
    requires blocks != []
    ensures Emit(ops, labels, s, blocks).ops ==
      (if HasLoop(s) then PatchAll(ops, labels, FirstLabel(s, blocks, |ops|)) else ops) + Gen(s, blocks, |ops|, 0, true)
    ensures Emit(ops, labels, s, blocks).labels == (if HasLoop(s) then [] else labels) + Waits(s, blocks, |ops|)
  {
    hide Gen, Waits, HasLoop, FirstLabel, PatchAll;
  }

  lemma PairCodeIs(s1: Stmt, b1: Blocks, mid: seq<Op>, s2: Stmt, b2: Blocks, base: nat, brk: int)
    requires b1 != [] && b2 != []
    ensures
      var at := base + LenS(s1, b1) + |mid|;
      PairCode(s1, b1, mid, s2, b2, base, brk) ==
        Gen(s1, b1, base, if HasLoop(s2) then FirstLabel(s2, b2, at) else brk, true) + mid + Gen(s2, b2, at, brk, true)
    ensures
      var at := base + LenS(s1, b1) + |mid|;
      PairWaits(s1, b1, mid, s2, b2, base) == (if HasLoop(s2) then [] else Waits(s1, b1, base)) + Waits(s2, b2, at)
  {
    hide Gen, Waits, HasLoop, FirstLabel, LenS;
  }

  lemma EmitUpdate(z: seq<Op>, labels: seq<nat>, s: Stmt, blocks: Blocks, k: nat, op: Op)
    requires blocks != [] && k < |z| && Below(labels, k)
    ensures k < |Emit(z, labels, s, blocks).ops|
    ensures Emit(z, labels, s, blocks).ops[k := op] == Emit(z[k := op], labels, s, blocks).ops
    ensures Emit(z, labels, s, blocks).labels == Emit(z[k := op], labels, s, blocks).labels
  {
    hide Gen, LenS, Waits, PatchAll, HasLoop, FirstLabel;
    if HasLoop(s) { PatchElsewhere(z, labels, FirstLabel(s, blocks, |z|), k, op); }
  }

  lemma EmitSize(z: seq<Op>, labels: seq<nat>, s: Stmt, blocks: Blocks)
    requires blocks != [] && Below(labels, |z|)
    ensures |Emit(z, labels, s, blocks).ops| == |z| + LenS(s, blocks)
    ensures Below(Emit(z, labels, s, blocks).labels, |z| + LenS(s, blocks))
  {
    hide *;
    EmitIs(z, labels, s, blocks);
    GenLength(s, blocks, |z|, 0, true);
    WaitsBelow(s, blocks, |z|);
    BelowBoth(if HasLoop(s) then [] else labels, Waits(s, blocks, |z|), |z|, |z| + LenS(s, blocks));
  }

  lemma BelowBoth(a: seq<nat>, b: seq<nat>, n: nat, m: nat)
    requires (a == [] || Below(a, n)) && n <= m && Below(b, m)
    ensures Below(a + b, m)
  {
  }

  lemma {:induction false} WaitsBelow(s: Stmt, blocks: Blocks, base: nat)
    requires blocks != []
    ensures Below(Waits(s, blocks, base), base + LenS(s, blocks))
    decreases s, 1
  {
    hide *;
    match s
    case Next(s1, rest) =>
      WaitsNext(s1, rest, blocks, base);
      var next := base + 1 + LenS(s1, blocks);
      WaitsBelow(s1, blocks, base + 1);
      WaitsBelow(rest, DeclS(s1, blocks), next);
      BelowBoth(if HasLoop(rest) then [] else Waits(s1, blocks, base + 1), Waits(rest, DeclS(s1, blocks), next), next,
          base + LenS(s, blocks));
    case Block(body) =>
      WaitsBlock(body, blocks, base);
      if CountS(body) > 0 {
        WaitsBelow(body, Inner(blocks), base + 1);
        BelowMore(Waits(s, blocks, base), base + 1 + LenS(body, Inner(blocks)), base + LenS(s, blocks));
      } else {
        WaitsBelow(body, blocks, base);
      }
    case If(c, y, n) =>
      WaitsIf(c, y, n, blocks, base);
      var b := if OwnScope(c) then Inner(blocks) else blocks;
      var at := if OwnScope(c) then base + 1 else base;
      IfWaitsBelow(c, y, n, b, at);
      BelowMore(Waits(s, blocks, base), at + LenE(c, b) + LenS(y, DeclE(c, b)) + LenS(n, DeclS(y, DeclE(c, b))) + 2,
          base + LenS(s, blocks));
    case Last => LastWaits(blocks, base);
    case _ => OthersWaitNot(s, blocks, base);
  }

  lemma LastWaits(blocks: Blocks, base: nat)
    requires blocks != []
    ensures Below(Waits(Last, blocks, base), base + LenS(Last, blocks))
  {
  }

  lemma OthersWaitNot(s: Stmt, blocks: Blocks, base: nat)
    requires blocks != [] && (s.Do? || s.Void? || s.While? || s.For?)
    ensures Below(Waits(s, blocks, base), base + LenS(s, blocks))
  {
    hide LenS;
  }

  lemma WaitsNext(s1: Stmt, rest: Stmt, blocks: Blocks, base: nat)
    requires blocks != []
    ensures LenS(Next(s1, rest), blocks) == 1 + LenS(s1, blocks) + LenS(rest, DeclS(s1, blocks))
    ensures Waits(Next(s1, rest), blocks, base) ==
      (if HasLoop(rest) then [] else Waits(s1, blocks, base + 1))
          + Waits(rest, DeclS(s1, blocks), base + 1 + LenS(s1, blocks))
  {
    hide NamesE, NamesS, LenE, DeclE, DeclS, Inner, HasLoop, IfWaits, CountS, OwnScope;
  }

  lemma WaitsBlock(body: Stmt, blocks: Blocks, base: nat)
    requires blocks != []
    ensures LenS(Block(body), blocks) == if CountS(body) > 0 then 2 + LenS(body, Inner(blocks)) else LenS(body, blocks)
    ensures Waits(Block(body), blocks, base) ==
      if CountS(body) > 0 then Waits(body, Inner(blocks), base + 1) else Waits(body, blocks, base)
  {
    hide NamesE, NamesS, LenE, DeclE, DeclS, Inner, HasLoop, IfWaits, CountS, OwnScope;
  }

  lemma WaitsIf(c: Expr, y: Stmt, n: Stmt, blocks: Blocks, base: nat)
    requires blocks != []
    ensures
      var b := if OwnScope(c) then Inner(blocks) else blocks;
      LenS(If(c, y, n), blocks) ==
          (if OwnScope(c) then 4 else 2) + LenE(c, b) + LenS(y, DeclE(c, b)) + LenS(n, DeclS(y, DeclE(c, b)))
    ensures Waits(If(c, y, n), blocks, base) ==
      if OwnScope(c) then IfWaits(c, y, n, Inner(blocks), base + 1) else IfWaits(c, y, n, blocks, base)
  {
    hide NamesE, NamesS, LenE, DeclE, DeclS, Inner, HasLoop, IfWaits, CountS, OwnScope;
  }

  lemma {:induction false} IfWaitsBelow(c: Expr, y: Stmt, n: Stmt, blocks: Blocks, base: nat)
    requires blocks != []
    ensures Below(IfWaits(c, y, n, blocks, base), base + LenE(c, blocks) + LenS(y, DeclE(c, blocks))
        + LenS(n, DeclS(y, DeclE(c, blocks))) + 2)
    decreases If(c, y, n), 0
  {
    hide LenE, DeclE, DeclS, HasLoop, LenS, Waits;
    var b := DeclE(c, blocks);
    var yes := base + LenE(c, blocks) + 1;
    WaitsBelow(y, b, yes);
    WaitsBelow(n, DeclS(y, b), yes + LenS(y, b) + 1);
  }

  // ----- whole statements from their parts -----

  lemma EmitNext(ops: seq<Op>, labels: seq<nat>, s1: Stmt, rest: Stmt, blocks: Blocks)
    requires blocks != [] && Below(labels, |ops|)
    ensures
      var e1 := Emit(ops + [NextState], labels, s1, blocks);
      Emit(e1.ops, e1.labels, rest, DeclS(s1, blocks)) == Emit(ops, labels, Next(s1, rest), blocks)
  {
    hide *;
    var z := ops + [NextState];
    BelowMore(labels, |ops|, |z|);
    EmitThen(z, labels, s1, blocks, [], rest, DeclS(s1, blocks));
    NextIsPair(s1, rest, blocks, |ops|, 0);
    EmitIs(ops, labels, Next(s1, rest), blocks);
    NextLabel(s1, rest, blocks, |ops|);
    var e1 := Emit(z, labels, s1, blocks);
    assert e1.ops + [] == e1.ops;
    var pair := PairCode(s1, blocks, [], rest, DeclS(s1, blocks), |z|, 0);
    if HasLoop(Next(s1, rest)) {
      var v := FirstLabel(Next(s1, rest), blocks, |ops|);
      PatchPrefix(ops, [NextState], labels, v);
      Assoc4(PatchAll(ops, labels, v), [NextState], pair, []);
      assert (PatchAll(ops, labels, v) + [NextState] + pair) + [] == PatchAll(ops, labels, v) + [NextState] + pair;
    } else {
      Assoc4(ops, [NextState], pair, []);
      assert (z + pair) + [] == z + pair;
    }
  }

  lemma EmitBlock(ops: seq<Op>, labels: seq<nat>, body: Stmt, blocks: Blocks)
    requires blocks != [] && Below(labels, |ops|)
    ensures
      var e := Emit(ops + [Enter(|NamesS(body, [])|)], labels, body, Inner(blocks));
      CountS(body) > 0 ==> Emitted(e.ops + [Op.Leave], e.labels) == Emit(ops, labels, Block(body), blocks)
    ensures CountS(body) == 0 ==> Emit(ops, labels, body, blocks) == Emit(ops, labels, Block(body), blocks)
  {
    hide *;
    var enter := [Enter(|NamesS(body, [])|)];
    BlockIs(body, blocks, |ops|);
    EmitIs(ops, labels, Block(body), blocks);
    EmitIs(ops, labels, body, blocks);
    EmitIs(ops + enter, labels, body, Inner(blocks));
    if CountS(body) > 0 {
      var g := Gen(body, Inner(blocks), |ops| + 1, 0, true);
      if HasLoop(body) {
        var v := FirstLabel(body, Inner(blocks), |ops| + 1);
        PatchPrefix(ops, enter, labels, v);
        Assoc4(PatchAll(ops, labels, v), enter, g, [Op.Leave]);
      } else {
        Assoc4(ops, enter, g, [Op.Leave]);
      }
    }
  }

  lemma BlockIs(body: Stmt, blocks: Blocks, base: nat)
    requires blocks != []
    ensures HasLoop(Block(body)) == HasLoop(body)
    ensures CountS(body) > 0 ==>
      && (HasLoop(body) ==> FirstLabel(Block(body), blocks, base) == FirstLabel(body, Inner(blocks), base + 1))
      && Gen(Block(body), blocks, base, 0, true) ==
          [Enter(|NamesS(body, [])|)] + Gen(body, Inner(blocks), base + 1, 0, true) + [Op.Leave]
      && Waits(Block(body), blocks, base) == Waits(body, Inner(blocks), base + 1)
    ensures CountS(body) == 0 ==>
      && (HasLoop(body) ==> FirstLabel(Block(body), blocks, base) == FirstLabel(body, blocks, base))
      && Gen(Block(body), blocks, base, 0, true) == Gen(body, blocks, base, 0, true)
      && Waits(Block(body), blocks, base) == Waits(body, blocks, base)
  {
    hide CountS, NamesS, Inner;
  }

  /** An `if` without its scope, at the end of `ops`. */
  lemma EmitIf(ops: seq<Op>, labels: seq<nat>, c: Expr, y: Stmt, n: Stmt, blocks: Blocks)
    requires blocks != [] && Below(labels, |ops|)
    ensures
      var b := DeclE(c, blocks);
      var no := |ops| + LenE(c, blocks) + LenS(y, b) + 2;
      var end := no + LenS(n, DeclS(y, b));
      var e1 := Emit(ops + GenE(c, blocks, |ops|) + [JumpIfFalse(no)], labels, y, b);
      Emit(e1.ops + [Jump(end)], e1.labels, n, DeclS(y, b)) == IfEmitted(ops, labels, c, y, n, blocks)
  {
    hide *;
    var b := DeclE(c, blocks);
    var no := |ops| + LenE(c, blocks) + LenS(y, b) + 2;
    var end := no + LenS(n, DeclS(y, b));
    var head := GenE(c, blocks, |ops|) + [JumpIfFalse(no)];
    var z := ops + head;
    GenELen(c, blocks, |ops|);
    assert ops + GenE(c, blocks, |ops|) + [JumpIfFalse(no)] == z;
    BelowMore(labels, |ops|, |z|);
    EmitThen(z, labels, y, b, [Jump(end)], n, DeclS(y, b));
    IfIsPair(c, y, n, blocks, |ops|, 0);
    IfEmittedIs(ops, labels, c, y, n, blocks);
    var pair := PairCode(y, b, [Jump(end)], n, DeclS(y, b), |z|, 0);
    var v := if HasLoop(y) then FirstLabel(y, b, |z|) else if HasLoop(n) then FirstLabel(n, DeclS(y, b), no) else 0;
    PatchPrefix(ops, head, labels, v);
    Assoc4(PatchAll(ops, labels, v), head, pair, []);
    Assoc4(ops, head, pair, []);
    assert (PatchAll(ops, labels, v) + head + pair) + [] == PatchAll(ops, labels, v) + head + pair;
    assert (z + pair) + [] == z + pair;
  }

  lemma IfEmittedIs(ops: seq<Op>, labels: seq<nat>, c: Expr, y: Stmt, n: Stmt, blocks: Blocks)
    requires blocks != []
    ensures
      var b := DeclE(c, blocks);
      var yes := |ops| + LenE(c, blocks) + 1;
      var v := if HasLoop(y) then FirstLabel(y, b, yes)
          else if HasLoop(n) then FirstLabel(n, DeclS(y, b), yes + LenS(y, b) + 1) else 0;
      IfEmitted(ops, labels, c, y, n, blocks) == Emitted(
        (if HasLoop(y) || HasLoop(n) then PatchAll(ops, labels, v) else ops) + IfCode(c, y, n, blocks, |ops|, 0, true),
        (if HasLoop(y) || HasLoop(n) then [] else labels) + IfWaits(c, y, n, blocks, |ops|))
  {
    hide Gen, LenS, PatchAll, DeclS, DeclE, LenE, HasLoop, FirstLabel, IfCode, IfWaits;
  }

  function IfEmitted(ops: seq<Op>, labels: seq<nat>, c: Expr, y: Stmt, n: Stmt, blocks: Blocks): Emitted
    requires blocks != []
  {
    var b := DeclE(c, blocks);
    var yes := |ops| + LenE(c, blocks) + 1;
    var first := if HasLoop(y) then FirstLabel(y, b, yes)
        else if HasLoop(n) then FirstLabel(n, DeclS(y, b), yes + LenS(y, b) + 1) else 0;
    Emitted(
      (if HasLoop(y) || HasLoop(n) then PatchAll(ops, labels, first) else ops)
          + IfCode(c, y, n, blocks, |ops|, 0, true),
      (if HasLoop(y) || HasLoop(n) then [] else labels) + IfWaits(c, y, n, blocks, |ops|))
  }

  lemma EmitIfScope(ops: seq<Op>, labels: seq<nat>, c: Expr, y: Stmt, n: Stmt, blocks: Blocks)
    requires blocks != [] && Below(labels, |ops|)
    ensures OwnScope(c) ==>
      var e := IfEmitted(ops + [Enter(|NamesS(n, NamesS(y, NamesE(c, [])))|)], labels, c, y, n, Inner(blocks));
      Emitted(e.ops + [Op.Leave], e.labels) == Emit(ops, labels, If(c, y, n), blocks)
    ensures !OwnScope(c) ==> IfEmitted(ops, labels, c, y, n, blocks) == Emit(ops, labels, If(c, y, n), blocks)
  {
    hide *;
    IfIs(c, y, n, blocks, |ops|);
    IfLabel(c, y, n, blocks, |ops|);
    WaitsIf(c, y, n, blocks, |ops|);
    EmitIs(ops, labels, If(c, y, n), blocks);
    if OwnScope(c) {
      var enter := [Enter(|NamesS(n, NamesS(y, NamesE(c, [])))|)];
      IfEmittedIs(ops + enter, labels, c, y, n, Inner(blocks));
      var code := IfCode(c, y, n, Inner(blocks), |ops| + 1, 0, true);
      if HasLoop(If(c, y, n)) {
        var v := FirstLabel(If(c, y, n), blocks, |ops|);
        PatchPrefix(ops, enter, labels, v);
        Assoc4(PatchAll(ops, labels, v), enter, code, [Op.Leave]);
      } else {
        Assoc4(ops, enter, code, [Op.Leave]);
      }
    } else {
      IfEmittedIs(ops, labels, c, y, n, blocks);
    }
  }

  lemma IfIs(c: Expr, y: Stmt, n: Stmt, blocks: Blocks, base: nat)
    requires blocks != []
    ensures Gen(If(c, y, n), blocks, base, 0, true) ==
      if OwnScope(c) then
        [Enter(|NamesS(n, NamesS(y, NamesE(c, [])))|)] + IfCode(c, y, n, Inner(blocks), base + 1, 0, true) + [Op.Leave]
      else IfCode(c, y, n, blocks, base, 0, true)
  {
    hide NamesE, NamesS, LenE, LenS, DeclE, DeclS, Inner, HasLoop, IfCode, ForCode, GenE, CountS, OwnScope, FirstLabel;
    hide Waiting;
  }

  lemma EmitWhile(ops: seq<Op>, labels: seq<nat>, c: Expr, body: Stmt, blocks: Blocks)
    requires blocks != [] && Below(labels, |ops|)
    ensures
      var s := While(c, body);
      var end := |ops| + LenS(s, blocks);
      var z := ops + GenE(c, blocks, |ops|) + [JumpIfFalse(end), EnterWhile(|NamesS(body, [])|)];
      var e := Emit(z, labels, body, Inner(DeclE(c, blocks)));
      && |z| == |ops| + LenE(c, blocks) + 2 && end == |e.ops| + 2
      && Emitted(PatchAll(e.ops + [Op.Leave, Jump(|ops|)], e.labels, end - 1), []) == Emit(ops, labels, s, blocks)
  {
    hide *;
    var s := While(c, body);
    var end := |ops| + LenS(s, blocks);
    var b := Inner(DeclE(c, blocks));
    var head := GenE(c, blocks, |ops|) + [JumpIfFalse(end), EnterWhile(|NamesS(body, [])|)];
    var z := ops + head;
    GenELen(c, blocks, |ops|);
    assert ops + GenE(c, blocks, |ops|) + [JumpIfFalse(end), EnterWhile(|NamesS(body, [])|)] == z;
    BelowMore(labels, |ops|, |z|);
    EmitSize(z, labels, body, b);
    EmitClose(z, labels, body, b, [Op.Leave, Jump(|ops|)], end - 1);
    PatchPrefix(ops, head, labels, if HasLoop(body) then FirstLabel(body, b, |z|) else end - 1);
    NoWaits(s, blocks, |ops|);
    WhileGen(c, body, blocks, |ops|);
    EmitIs(ops, labels, s, blocks);
    Assoc4(PatchAll(ops, labels, FirstLabel(s, blocks, |ops|)), head, Gen(body, b, |z|, end - 1, true),
        [Op.Leave, Jump(|ops|)]);
  }

  lemma WhileGen(c: Expr, body: Stmt, blocks: Blocks, base: nat)
    requires blocks != []
    ensures
      var s := While(c, body);
      var end := base + LenS(s, blocks);
      var b := Inner(DeclE(c, blocks));
      var start := base + LenE(c, blocks) + 2;
      && HasLoop(s) && end == start + LenS(body, b) + 2
      && FirstLabel(s, blocks, base) == (if HasLoop(body) then FirstLabel(body, b, start) else end - 1)
      && Gen(s, blocks, base, 0, true) == (GenE(c, blocks, base) + [JumpIfFalse(end), EnterWhile(|NamesS(body, [])|)])
           + Gen(body, b, start, end - 1, true) + [Op.Leave, Jump(base)]
  {
    hide *;
    WhileCodeIs(c, body, blocks, base);
    WhileLabel(c, body, blocks, base);
  }

  lemma WhileCodeIs(c: Expr, body: Stmt, blocks: Blocks, base: nat)
    requires blocks != []
    ensures
      var s := While(c, body);
      var end := base + LenS(s, blocks);
      var start := base + LenE(c, blocks) + 2;
      && end == start + LenS(body, Inner(DeclE(c, blocks))) + 2
      && Gen(s, blocks, base, 0, true) == (GenE(c, blocks, base) + [JumpIfFalse(end), EnterWhile(|NamesS(body, [])|)])
           + Gen(body, Inner(DeclE(c, blocks)), start, end - 1, true) + [Op.Leave, Jump(base)]
  {
    hide *;
    WhileLen(c, body, blocks);
    WhileUnfolds(c, body, blocks, base, 0, true);
    WhileParts(c, body, blocks, base, base + LenS(While(c, body), blocks), true);
  }

  lemma NoWaits(s: Stmt, blocks: Blocks, base: nat)
    requires blocks != [] && (s.While? || s.For?)
    ensures Waits(s, blocks, base) == []
  {
  }

  /** The code of a `for` in front of its body: where it ends, and where the whole code does. */
  lemma ForHead(ops: seq<Op>, i: Expr, c: Expr, p: Expr, body: Stmt, blocks: Blocks, n: nat, end: int)
    requires blocks != []
    ensures
      var b0 := Inner(blocks);
      var b1 := DeclE(i, b0);
      var b2 := DeclE(c, b1);
      var again := |ops| + 1 + LenE(i, b0);
      var head := [EnterFor(n)] + GenE(i, b0, |ops| + 1) + GenE(c, b1, again) + [JumpIfFalse(end)];
      && ops + [EnterFor(n)] + GenE(i, b0, |ops| + 1) + GenE(c, b1, again) + [JumpIfFalse(end)] == ops + head
      && |ops + head| == again + LenE(c, b1) + 1
      && |ops| + LenS(For(i, c, p, body), blocks) - 1
           == |ops + head| + LenS(body, b2) + LenE(p, DeclS(body, b2)) + 1
  {
    hide *;
    var b0 := Inner(blocks);
    var b1 := DeclE(i, b0);
    var again := |ops| + 1 + LenE(i, b0);
    HeadOf(ops, [EnterFor(n)], GenE(i, b0, |ops| + 1), GenE(c, b1, again), [JumpIfFalse(end)]);
    GenELen(i, b0, |ops| + 1);
    GenELen(c, b1, again);
    ForLen(i, c, p, body, blocks);
  }

  lemma EmitFor(ops: seq<Op>, labels: seq<nat>, i: Expr, c: Expr, p: Expr, body: Stmt, blocks: Blocks)
    requires blocks != [] && Below(labels, |ops|)
    ensures
      var s := For(i, c, p, body);
      var end := |ops| + LenS(s, blocks) - 1;
      var b0 := Inner(blocks);
      var b1 := DeclE(i, b0);
      var b2 := DeclE(c, b1);
      var b3 := DeclS(body, b2);
      var again := |ops| + 1 + LenE(i, b0);
      var z := ops + [EnterFor(|NamesE(p, NamesS(body, NamesE(c, NamesE(i, []))))|)] + GenE(i, b0, |ops| + 1)
          + GenE(c, b1, again) + [JumpIfFalse(end)];
      var e := Emit(z, labels, body, b2);
      var tail := GenE(p, b3, |e.ops|) + [Jump(again), Op.Leave];
      && |z| == again + LenE(c, b1) + 1 && end == |e.ops| + LenE(p, b3) + 1
      && Emitted(PatchAll(e.ops + tail, e.labels, end), []) == Emit(ops, labels, s, blocks)
  {
    hide *;
    var s := For(i, c, p, body);
    var end := |ops| + LenS(s, blocks) - 1;
    var b0 := Inner(blocks);
    var b1 := DeclE(i, b0);
    var b2 := DeclE(c, b1);
    var b3 := DeclS(body, b2);
    var again := |ops| + 1 + LenE(i, b0);
    var n := |NamesE(p, NamesS(body, NamesE(c, NamesE(i, []))))|;
    var head := [EnterFor(n)] + GenE(i, b0, |ops| + 1) + GenE(c, b1, again) + [JumpIfFalse(end)];
    ForHead(ops, i, c, p, body, blocks, n, end);
    var z := ops + head;
    BelowMore(labels, |ops|, |z|);
    EmitSize(z, labels, body, b2);
    var post := |z| + LenS(body, b2);
    GenELen(p, b3, post);
    var tail := GenE(p, b3, post) + [Jump(again), Op.Leave];
    EmitClose(z, labels, body, b2, tail, end);
    var v := if HasLoop(body) then FirstLabel(body, b2, |z|) else end;
    PatchPrefix(ops, head, labels, v);
    NoWaits(s, blocks, |ops|);
    ForLabel(i, c, p, body, blocks, |ops|);
    ForGen(i, c, p, body, blocks, |ops|);
    EmitIs(ops, labels, s, blocks);
    Assoc4(PatchAll(ops, labels, v), head, Gen(body, b2, |z|, end, true), tail);
  }

  lemma HeadOf(ops: seq<Op>, a: seq<Op>, b: seq<Op>, c: seq<Op>, d: seq<Op>)
    ensures ops + a + b + c + d == ops + (a + b + c + d)
  {
  }

  /** The code of a `for` in the order it is emitted. */
  lemma ForGen(i: Expr, c: Expr, p: Expr, body: Stmt, blocks: Blocks, base: nat)
    requires blocks != []
    ensures
      var end := base + LenS(For(i, c, p, body), blocks) - 1;
      var b0 := Inner(blocks);
      var b1 := DeclE(i, b0);
      var b2 := DeclE(c, b1);
      var b3 := DeclS(body, b2);
      var again := base + 1 + LenE(i, b0);
      var start := again + LenE(c, b1) + 1;
      Gen(For(i, c, p, body), blocks, base, 0, true) ==
        ([EnterFor(|NamesE(p, NamesS(body, NamesE(c, NamesE(i, []))))|)] + GenE(i, b0, base + 1) + GenE(c, b1, again)
            + [JumpIfFalse(end)])
        + Gen(body, b2, start, end, true) + (GenE(p, b3, start + LenS(body, b2)) + [Jump(again), Op.Leave])
  {
    hide *;
    ForUnfold(i, c, p, body, blocks, base);
    var end := base + LenS(For(i, c, p, body), blocks) - 1;
    var b0 := Inner(blocks);
    var b1 := DeclE(i, b0);
    var b2 := DeclE(c, b1);
    var b3 := DeclS(body, b2);
    var again := base + 1 + LenE(i, b0);
    var start := again + LenE(c, b1) + 1;
    ForParts(i, c, p, body, b0, base + 1, end, true);
    Regroup([EnterFor(|NamesE(p, NamesS(body, NamesE(c, NamesE(i, []))))|)], GenE(i, b0, base + 1), GenE(c, b1, again),
        JumpIfFalse(end),
            Gen(body, b2, start, end, true), GenE(p, b3, start + LenS(body, b2)), Jump(again), Op.Leave);
  }

  lemma ForUnfold(i: Expr, c: Expr, p: Expr, body: Stmt, blocks: Blocks, base: nat)
    requires blocks != []
    ensures LenS(For(i, c, p, body), blocks) > 0
    ensures Gen(For(i, c, p, body), blocks, base, 0, true) ==
      [EnterFor(|NamesE(p, NamesS(body, NamesE(c, NamesE(i, []))))|)]
      + ForCode(i, c, p, body, Inner(blocks), base + 1, base + LenS(For(i, c, p, body), blocks) - 1, true) + [Op.Leave]
  {
    hide GenE, LenE, NamesS, NamesE, Inner, DeclE, DeclS, ForCode;
  }

  lemma Regroup(e: seq<Op>, gi: seq<Op>, gc: seq<Op>, j: Op, gb: seq<Op>, gp: seq<Op>, k: Op, l: Op)
    ensures e + ((gi + gc + [j]) + gb + (gp + [k])) + [l] == (e + gi + gc + [j]) + gb + (gp + [k, l])
  {
  }

  // ----- operands filled in after the code around them -----

  lemma UpdateAppend(a: seq<Op>, b: seq<Op>, k: nat, op: Op)
    requires k < |a|
    ensures (a + b)[k := op] == a[k := op] + b
  {
  }

  lemma UpdateLast(a: seq<Op>, op: Op, op': Op)
    ensures (a + [op])[|a| := op'] == a + [op']
  {
  }

  /** An operation before the statement gets its operand after it. */
  lemma LateOperand(x: seq<Op>, op: Op, op': Op, rest: seq<Op>, labels: seq<nat>, s: Stmt, blocks: Blocks,
      tail: seq<Op>)
    requires blocks != [] && Below(labels, |x|)
    ensures
      var (e, e') := (Emit(x + [op] + rest, labels, s, blocks), Emit(x + [op'] + rest, labels, s, blocks));
      |x| < |e.ops + tail| && (e.ops + tail)[|x| := op'] == e'.ops + tail && e.labels == e'.labels
        && |e.ops| == |e'.ops|
  {
    hide Emit;
    EmitUpdate(x + [op] + rest, labels, s, blocks, |x|, op');
    assert (x + [op] + rest)[|x| := op'] == x + [op'] + rest;
    UpdateAppend(Emit(x + [op] + rest, labels, s, blocks).ops, tail, |x|, op');
  }

  lemma IfEmittedUpdate(x: seq<Op>, op: Op, op': Op, labels: seq<nat>, c: Expr, y: Stmt, n: Stmt, blocks: Blocks,
      tail: seq<Op>)
    requires blocks != [] && Below(labels, |x|)
    ensures
      var (e, e') := (IfEmitted(x + [op], labels, c, y, n, blocks), IfEmitted(x + [op'], labels, c, y, n, blocks));
      |x| < |e.ops + tail| && (e.ops + tail)[|x| := op'] == e'.ops + tail && e.labels == e'.labels
  {
    hide *;
    IfEmittedIs(x + [op], labels, c, y, n, blocks);
    IfEmittedIs(x + [op'], labels, c, y, n, blocks);
    var yes := |x| + 1 + LenE(c, blocks) + 1;
    var b := DeclE(c, blocks);
    var v := if HasLoop(y) then FirstLabel(y, b, yes)
        else if HasLoop(n) then FirstLabel(n, DeclS(y, b), yes + LenS(y, b) + 1) else 0;
    BelowApart(labels, |x|);
    PatchElsewhere(x + [op], labels, v, |x|, op');
    UpdateLast(x, op, op');
    var p := if HasLoop(y) || HasLoop(n) then PatchAll(x + [op], labels, v) else x + [op];
    UpdateAppend(p, IfCode(c, y, n, blocks, |x| + 1, 0, true) + tail, |x|, op');
    assert p + (IfCode(c, y, n, blocks, |x| + 1, 0, true) + tail) ==
        p + IfCode(c, y, n, blocks, |x| + 1, 0, true) + tail;
  }

  lemma BelowApart(labels: seq<nat>, n: nat)
    requires Below(labels, n)
    ensures forall i :: 0 <= i < |labels| ==> labels[i] != n
  {
  }

  /** The emission of an `if` with both jumps filled in. */
  lemma IfDone(ops: seq<Op>, labels: seq<nat>, c: Expr, y: Stmt, n: Stmt, blocks: Blocks)
    requires blocks != [] && Below(labels, |ops|)
    ensures
      var b := DeclE(c, blocks);
      var x := ops + GenE(c, blocks, |ops|);
      var e1 := Emit(x + [JumpIfFalse(0)], labels, y, b);
      var o1 := e1.ops + [Jump(0)];
      && |x| < |o1| && Below(e1.labels, |e1.ops|)
      && var e2 := Emit(o1[|x| := JumpIfFalse(|o1|)], e1.labels, n, DeclS(y, b));
         |e1.ops| < |e2.ops| && Below(e2.labels, |e2.ops|)
         && Emitted(e2.ops[|e1.ops| := Jump(|e2.ops|)], e2.labels) == IfEmitted(ops, labels, c, y, n, blocks)
  {
    hide *;
    var b := DeclE(c, blocks);
    var x := ops + GenE(c, blocks, |ops|);
    var z := x + [JumpIfFalse(0)];
    GenELen(c, blocks, |ops|);
    BelowMore(labels, |ops|, |x|);
    BelowMore(labels, |ops|, |z|);
    EmitSize(z, labels, y, b);
    var e1 := Emit(z, labels, y, b);
    var no := |e1.ops| + 1;
    LateOperand(x, JumpIfFalse(0), JumpIfFalse(no), [], labels, y, b, [Jump(0)]);
    assert x + [JumpIfFalse(0)] + [] == z && x + [JumpIfFalse(no)] + [] == x + [JumpIfFalse(no)];
    var e1' := Emit(x + [JumpIfFalse(no)], labels, y, b);
    BelowMore(e1'.labels, |e1'.ops|, |e1'.ops| + 1);
    EmitSize(e1'.ops + [Jump(0)], e1'.labels, n, DeclS(y, b));
    var end := no + LenS(n, DeclS(y, b));
    LateOperand(e1'.ops, Jump(0), Jump(end), [], e1'.labels, n, DeclS(y, b), []);
    assert e1'.ops + [Jump(0)] + [] == e1'.ops + [Jump(0)] && e1'.ops + [Jump(end)] + [] == e1'.ops + [Jump(end)];
    var e2 := Emit(e1'.ops + [Jump(0)], e1'.labels, n, DeclS(y, b));
    assert e2.ops + [] == e2.ops;
    assert Emit(e1'.ops + [Jump(end)], e1'.labels, n, DeclS(y, b)).ops + [] ==
        Emit(e1'.ops + [Jump(end)], e1'.labels, n, DeclS(y, b)).ops;
    EmitIf(ops, labels, c, y, n, blocks);
  }

  lemma WhileDone(ops: seq<Op>, labels: seq<nat>, c: Expr, body: Stmt, blocks: Blocks)
    requires blocks != [] && Below(labels, |ops|)
    ensures
      var x := ops + GenE(c, blocks, |ops|);
      var e := Emit(x + [JumpIfFalse(0)] + [EnterWhile(0)], labels, body, Inner(DeclE(c, blocks)));
      && |x| + 1 < |e.ops|
      && var o1 := (e.ops + [Op.Leave])[|x| + 1 := EnterWhile(|NamesS(body, [])|)] + [Jump(|ops|)];
         Emitted(PatchAll(o1[|x| := JumpIfFalse(|o1|)], e.labels, |o1| - 1), []) ==
             Emit(ops, labels, While(c, body), blocks)
  {
    hide *;
    var x := ops + GenE(c, blocks, |ops|);
    var b := Inner(DeclE(c, blocks));
    var n := |NamesS(body, [])|;
    var z := x + [JumpIfFalse(0)] + [EnterWhile(0)];
    GenELen(c, blocks, |ops|);
    BelowMore(labels, |ops|, |x|);
    BelowMore(labels, |ops|, |x + [JumpIfFalse(0)]|);
    BelowMore(labels, |ops|, |z|);
    EmitSize(z, labels, body, b);
    var e := Emit(z, labels, body, b);
    LateOperand(x + [JumpIfFalse(0)], EnterWhile(0), EnterWhile(n), [], labels, body, b, [Op.Leave]);
    assert z + [] == z && x + [JumpIfFalse(0)] + [EnterWhile(n)] + [] == x + [JumpIfFalse(0)] + [EnterWhile(n)];
    var e1 := Emit(x + [JumpIfFalse(0)] + [EnterWhile(n)], labels, body, b);
    var end := |e1.ops| + 2;
    assert (e1.ops + [Op.Leave]) + [Jump(|ops|)] == e1.ops + [Op.Leave, Jump(|ops|)];
    LateOperand(x, JumpIfFalse(0), JumpIfFalse(end), [EnterWhile(n)], labels, body, b, [Op.Leave, Jump(|ops|)]);
    WhileGen(c, body, blocks, |ops|);
    assert end == |ops| + LenS(While(c, body), blocks);
    EmitWhile(ops, labels, c, body, blocks);
    assert x + [JumpIfFalse(end)] + [EnterWhile(n)] == x + [JumpIfFalse(end), EnterWhile(n)];
  }

  /** The exit jump and the number of names of a `for`, filled in after the body is compiled. */
  lemma ForPatched(ops: seq<Op>, labels: seq<nat>, gi: seq<Op>, gc: seq<Op>, gp: seq<Op>, again: Op, body: Stmt,
      b2: Blocks, n: nat, end: int)
    requires b2 != [] && Below(labels, |ops|)
    ensures
      var x := ops + [EnterFor(0)] + gi + gc;
      var e := Emit(x + [JumpIfFalse(0)], labels, body, b2);
      var o2 := e.ops + gp + [again];
      && |x| < |o2|
      && var o3 := o2[|x| := JumpIfFalse(end)] + [Op.Leave];
         && |ops| < |o3|
         && var e' := Emit(ops + [EnterFor(n)] + gi + gc + [JumpIfFalse(end)], labels, body, b2);
            && o3[|ops| := EnterFor(n)] == e'.ops + (gp + [again, Op.Leave])
            && e'.labels == e.labels && |e'.ops| == |e.ops|
  {
    hide *;
    var x := ops + [EnterFor(0)] + gi + gc;
    var rest := gi + gc + [JumpIfFalse(end)];
    BelowMore(labels, |ops|, |x|);
    var e := Emit(x + [JumpIfFalse(0)], labels, body, b2);
    var e1 := Emit(x + [JumpIfFalse(end)], labels, body, b2);
    assert e.ops + gp + [again] == e.ops + (gp + [again]);
    LateOperand(x, JumpIfFalse(0), JumpIfFalse(end), [], labels, body, b2, gp + [again]);
    assert x + [JumpIfFalse(0)] + [] == x + [JumpIfFalse(0)] && x + [JumpIfFalse(end)] + [] == x + [JumpIfFalse(end)];
    assert x + [JumpIfFalse(end)] == ops + [EnterFor(0)] + rest;
    assert (e1.ops + (gp + [again])) + [Op.Leave] == e1.ops + (gp + [again, Op.Leave]);
    LateOperand(ops, EnterFor(0), EnterFor(n), rest, labels, body, b2, gp + [again, Op.Leave]);
    assert ops + [EnterFor(n)] + gi + gc + [JumpIfFalse(end)] == ops + [EnterFor(n)] + rest;
  }

  lemma ForDone(ops: seq<Op>, labels: seq<nat>, i: Expr, c: Expr, p: Expr, body: Stmt, blocks: Blocks)
    requires blocks != [] && Below(labels, |ops|)
    ensures
      var b0 := Inner(blocks);
      var b1 := DeclE(i, b0);
      var b2 := DeclE(c, b1);
      var o1 := ops + [EnterFor(0)] + GenE(i, b0, |ops| + 1);
      var x := o1 + GenE(c, b1, |o1|);
      var e := Emit(x + [JumpIfFalse(0)], labels, body, b2);
      var o2 := e.ops + GenE(p, DeclS(body, b2), |e.ops|) + [Jump(|o1|)];
      && |x| < |o2|
      && var o3 := o2[|x| := JumpIfFalse(|o2|)] + [Op.Leave];
         && |ops| < |o3|
         && Emitted(PatchAll(o3[|ops| := EnterFor(|NamesE(p, NamesS(body, NamesE(c, NamesE(i, []))))|)], e.labels,
             |o2|), [])
              == Emit(ops, labels, For(i, c, p, body), blocks)
  {
    hide *;
    var b0 := Inner(blocks);
    var b1 := DeclE(i, b0);
    var b2 := DeclE(c, b1);
    var b3 := DeclS(body, b2);
    var n := |NamesE(p, NamesS(body, NamesE(c, NamesE(i, []))))|;
    GenELen(i, b0, |ops| + 1);
    var gi := GenE(i, b0, |ops| + 1);
    var again := |ops| + 1 + |gi|;
    GenELen(c, b1, again);
    var gc := GenE(c, b1, again);
    var x := ops + [EnterFor(0)] + gi + gc;
    BelowMore(labels, |ops|, |x| + 1);
    EmitSize(x + [JumpIfFalse(0)], labels, body, b2);
    var e := Emit(x + [JumpIfFalse(0)], labels, body, b2);
    GenELen(p, b3, |e.ops|);
    var gp := GenE(p, b3, |e.ops|);
    ForLen(i, c, p, body, blocks);
    var end := |ops| + LenS(For(i, c, p, body), blocks) - 1;
    assert |e.ops + gp + [Jump(again)]| == end;
    ForPatched(ops, labels, gi, gc, gp, Jump(again), body, b2, n, end);
    EmitFor(ops, labels, i, c, p, body, blocks);
  }

  // ----- find_localvar -----

  lemma {:induction false} FirstIndex(names: seq<string>, x: string, i: nat)
    requires i < |names| && names[i] == x && x !in names[..i]
    ensures IndexOf(names, x) == i
  {
    if i > 0 {
      assert names[..i][0] == names[0] && names[1..][..i - 1] == names[..i][1..];
      FirstIndex(names[1..], x, i - 1);
    }
  }

  /** The search has passed `level` blocks without success. */
  ghost predicate Passed(blocks: Blocks, x: string, level: nat)
    requires level <= |blocks|
  {
    match Find(blocks[..|blocks| - level], x)
    case Some((l, no)) => Find(blocks, x) == Some((l + level, no))
    case None => Find(blocks, x) == None
  }

  lemma PassOne(blocks: Blocks, x: string, level: nat)
    requires level < |blocks| && Passed(blocks, x, level) && x !in blocks[|blocks| - 1 - level]
    ensures Passed(blocks, x, level + 1)
  {
    var front := blocks[..|blocks| - level];
    assert Back(front) == blocks[|blocks| - 1 - level] && Front(front) == blocks[..|blocks| - level - 1];
  }

  // ----- the compiler -----

  class Compiler {
    var ops: seq<Op>
    var blocks: Blocks
    var error: nat
    var inLoopContext: bool
    var lastLabels: seq<nat>   // positions of the operations whose operands wait

    constructor ()
      ensures ops == [] && blocks == [] && error == 0 && !inLoopContext && lastLabels == []
    {
      ops, blocks, error, inLoopContext, lastLabels := [], [], 0, false, [];
    }

    /** find_localvar, without functions. */
    method FindLocalvar(name: string) returns (no: int, level: nat)
      ensures match Find(blocks, name)
        case Some((l, n)) => no == n && level == l
        case None => no == -1
    {
      level := 0;
      assert blocks[..|blocks|] == blocks;
      while level < |blocks|
        invariant level <= |blocks| && Passed(blocks, name, level)
      {
        var vars := blocks[|blocks| - 1 - level];
        var i := 0;
        while i < |vars|
          invariant i <= |vars| && name !in vars[..i]
        {
          if vars[i] == name {
            FirstIndex(vars, name, i);
            assert Back(blocks[..|blocks| - level]) == vars;
            return i, level;
          }
          i := i + 1;
        }
        PassOne(blocks, name, level);
        level := level + 1;
      }
      no := -1;
    }

    method DefineLocalvar(name: string)
      requires blocks != []
      modifies this`blocks, this`error
      ensures blocks == WithBack(old(blocks), AddName(Back(old(blocks)), name))
      ensures error == old(error) + if name in Back(old(blocks)) then 1 else 0
    {
      var vars := blocks[|blocks| - 1];
      for i := 0 to |vars|
        invariant name !in vars[..i] && blocks == old(blocks) && error == old(error)
      {
        if vars[i] == name {
          error := error + 1;
          return;
        }
      }
      blocks := blocks[..|blocks| - 1] + [vars + [name]];
    }

    method SetVariable(name: string)
      modifies this`ops, this`error
      ensures ops == old(ops) + SetCode(name, blocks) && error == old(error) + MissE(name, blocks)
    {
      var no, level := FindLocalvar(name);
      if no < 0 { error := error + 1; }
      else if level == 0 { ops := ops + [SetLocal(no)]; }
      else { ops := ops + [SetDynamic(Pack(level, no))]; }
    }

    method GetVariable(name: string)
      modifies this`ops, this`error
      ensures ops == old(ops) + GetCode(name, blocks) && error == old(error) + MissE(name, blocks)
    {
      var no, level := FindLocalvar(name);
      if no < 0 { error := error + 1; }
      else if level == 0 { ops := ops + [GetLocal(no)]; }
      else { ops := ops + [GetDynamic(Pack(level, no))]; }
    }

    /** Compiler::compile for expressions. */
    method CompileE(e: Expr)
      requires blocks != []
      modifies this`ops, this`blocks, this`error
      ensures ops == old(ops) + GenE(e, old(blocks), |old(ops)|)
      ensures blocks == DeclE(e, old(blocks)) && error == old(error) + ErrE(e, old(blocks))
      decreases e, 1
    {
      hide *;
      if e.Int? || e.True? || e.False? || e.Undef? { ConstIs(e, blocks, |ops|); }
      match e
      case Int(n) => ops := ops + [PushInt(n)];
      case True => ops := ops + [PushTrue];
      case False => ops := ops + [PushFalse];
      case Undef => ops := ops + [PushUndef];
      case Var(x) =>
        VarIs(x, blocks, |ops|);
        GetVariable(x);
      case Assign(x, e1) =>
        AssignIs(x, e1, blocks, |ops|);
        CompileE(e1);
        SetVariable(x);
      case MyAssign(x, e1) =>
        MyAssignIs(x, e1, blocks, |ops|);
        CompileE(e1);
        DefineLocalvar(x);
        SetVariable(x);
      case My(x) =>
        MyIs(x, blocks, |ops|);
        DefineLocalvar(x);
        ops := ops + [PushUndef];
        SetVariable(x);
      case Binary(op, l, r) => CompileBinary(op, l, r);
      case Negate(e1) =>
        NegateIs(e1, blocks, |ops|);
        CompileE(e1);
        ops := ops + [Op.Not];
      case And(l, r) => CompileLogical(e, l, r);
      case Or(l, r) => CompileLogical(e, l, r);
    }

    method CompileBinary(op: BinOp, l: Expr, r: Expr)
      requires blocks != []
      modifies this`ops, this`blocks, this`error
      ensures ops == old(ops) + GenE(Binary(op, l, r), old(blocks), |old(ops)|)
      ensures blocks == DeclE(Binary(op, l, r), old(blocks))
      ensures error == old(error) + ErrE(Binary(op, l, r), old(blocks))
      decreases Binary(op, l, r), 0
    {
      hide *;
      BinaryIs(op, l, r, blocks, |ops|);
      CompileE(l);
      CompileE(r);
      ops := ops + [Bin(op)];
    }

    method CompileLogical(e: Expr, l: Expr, r: Expr)
      requires blocks != [] && (e == And(l, r) || e == Or(l, r))
      modifies this`ops, this`blocks, this`error
      ensures ops == old(ops) + GenE(e, old(blocks), |old(ops)|)
      ensures blocks == DeclE(e, old(blocks)) && error == old(error) + ErrE(e, old(blocks))
      decreases e, 0
    {
      hide *;
      LogicalIs(e, l, r, blocks, |ops|);
      CompileE(l);
      ghost var x := ops;
      var jumpElse := |ops|;
      ops := ops + [if e.And? then JumpIfFalse(0) else JumpIfTrue(0)];
      ops := ops + [PopTop];
      CompileE(r);
      ghost var b := ops[|x| + 2..];
      assert ops == x + [if e.And? then JumpIfFalse(0) else JumpIfTrue(0), PopTop] + b;
      ops := ops[jumpElse := if e.And? then JumpIfFalse(|ops|) else JumpIfTrue(|ops|)];
      assert ops == x + [if e.And? then JumpIfFalse(|ops|) else JumpIfTrue(|ops|), PopTop] + b;
    }

    /** The loop at the end of a loop: all waiting operands get their label. */
    method FillLabels(target: int)
      requires Below(lastLabels, |ops|)
      modifies this`ops, this`lastLabels
      ensures ops == PatchAll(old(ops), old(lastLabels), target) && lastLabels == []
    {
      for k := 0 to |lastLabels|
        invariant lastLabels == old(lastLabels) && |ops| == |old(ops)|
        invariant PatchAll(ops, lastLabels[k..], target) == PatchAll(old(ops), lastLabels, target)
      {
        assert lastLabels[k..][1..] == lastLabels[k + 1..];
        ops := ops[lastLabels[k] := Filled(ops[lastLabels[k]], target)];
      }
      lastLabels := [];
    }

    method PushBlock()
      modifies this`blocks
      ensures blocks == Inner(old(blocks))
    {
      blocks := blocks + [[]];
    }

    method PopBlock()
      requires blocks != []
      modifies this`blocks
      ensures blocks == Front(old(blocks))
    {
      blocks := blocks[..|blocks| - 1];
    }

    /** Compiler::compile for statements: the blocks, the errors, and without errors all operations and waiting
        labels. */
    method CompileS(s: Stmt)
      requires blocks != [] && Below(lastLabels, |ops|)
      modifies this
      ensures |old(ops)| <= |ops| && Below(lastLabels, |ops|) && inLoopContext == old(inLoopContext)
      ensures blocks == DeclS(s, old(blocks)) && error == old(error) + ErrS(s, old(blocks), old(inLoopContext))
      ensures error == old(error) ==> Emitted(ops, lastLabels) == Emit(old(ops), old(lastLabels), s, old(blocks))
      decreases s, 2
    {
      hide *;
      match s
      case Do(e) =>
        DoIs(e, ops, lastLabels, blocks, inLoopContext);
        CompileE(e);
        BelowMore(lastLabels, |old(ops)|, |ops|);
      case Void => VoidIs(ops, lastLabels, blocks, inLoopContext);
      case Next(s1, rest) =>
        NextIs(s1, rest, blocks, inLoopContext);
        EmitNext(ops, lastLabels, s1, rest, blocks);
        ops := ops + [NextState];
        BelowMore(lastLabels, |old(ops)|, |ops|);
        CompileS(s1);
        CompileS(rest);
      case Block(body) => CompileBlock(body);
      case If(c, y, n) => CompileIf(c, y, n);
      case While(c, body) => CompileWhile(c, body);
      case For(i, c, p, body) => CompileFor(i, c, p, body);
      case Last =>
        LastIs(ops, lastLabels, blocks, inLoopContext);
        if !inLoopContext {
          error := error + 1;
        } else {
          lastLabels := lastLabels + [|ops|];
          ops := ops + [LastOp(0)];
          LastBelow(old(lastLabels), |old(ops)|);
        }
    }

    /** NODE_ROOT: the block of the file, and in it the block of the program. */
    method CompileRoot(s: Stmt)
      requires ops == [] && blocks == [] && lastLabels == [] && !inLoopContext && error == 0
      modifies this
      ensures blocks == [] && error == ErrS(s, [[], []], false)
      ensures error == 0 ==> ops == RootCode(s) && lastLabels == Waits(s, [[], []], 2)
    {
      hide *;
      PushBlock();
      ops := ops + [PackageEnter];
      PushBlock();
      InnerTwice();
      var enter := |ops|;
      ops := ops + [Enter(0)];
      NoneBelow(1);
      NoneBelow(|ops|);
      assert ops == [PackageEnter] + [Enter(0)];
      CompileS(s);
      RootNames(s);
      ghost var code := ops;
      ops := ops + [End];
      ops := ops[enter := Enter(|blocks[|blocks| - 1]|)];
      PopBlock();
      ops := ops + [PackageLeave];
      PopBlock();
      if error == 0 {
        LateOperand([PackageEnter], Enter(0), Enter(|NamesS(s, [])|), [], [], s, [[], []], [End]);
        assert [PackageEnter] + [Enter(0)] + [] == [PackageEnter] + [Enter(0)];
        assert [PackageEnter] + [Enter(|NamesS(s, [])|)] + [] == [PackageEnter, Enter(|NamesS(s, [])|)];
        assert ops == Emit([PackageEnter, Enter(|NamesS(s, [])|)], [], s, [[], []]).ops + [End] + [PackageLeave];
        RootEmitted(s);
      }
    }

    /** NODE_BLOCK, with its OptimizableEnterScope. */
    method CompileBlock(body: Stmt)
      requires blocks != [] && Below(lastLabels, |ops|)
      modifies this
      ensures |old(ops)| <= |ops| && Below(lastLabels, |ops|) && inLoopContext == old(inLoopContext)
      ensures blocks == DeclS(Block(body), old(blocks))
      ensures error == old(error) + ErrS(Block(body), old(blocks), old(inLoopContext))
      ensures error == old(error) ==>
        Emitted(ops, lastLabels) == Emit(old(ops), old(lastLabels), Block(body), old(blocks))
      decreases Block(body), 0
    {
      hide *;
      BlockErr(body, blocks, inLoopContext);
      EmitBlock(ops, lastLabels, body, blocks);
      if CountS(body) > 0 {
        var enter := |ops|;
        ops := ops + [Enter(0)];
        PushBlock();
        BelowMore(lastLabels, |old(ops)|, |ops|);
        LateOperand(old(ops), Enter(0), Enter(|NamesS(body, [])|), [], lastLabels, body, blocks, [Op.Leave]);
        assert old(ops) + [Enter(0)] + [] == ops;
        assert old(ops) + [Enter(|NamesS(body, [])|)] + [] == old(ops) + [Enter(|NamesS(body, [])|)];
        CompileS(body);
        InnerNames(body, old(blocks));
        BelowMore(lastLabels, |ops|, |ops| + 1);
        ops := ops + [Op.Leave];
        ops := ops[enter := Enter(|blocks[|blocks| - 1]|)];
        PopBlock();
      } else {
        CompileS(body);
      }
    }

    /** NODE_IF. */
    method CompileIf(c: Expr, y: Stmt, n: Stmt)
      requires blocks != [] && Below(lastLabels, |ops|)
      modifies this
      ensures |old(ops)| <= |ops| && Below(lastLabels, |ops|) && inLoopContext == old(inLoopContext)
      ensures blocks == DeclS(If(c, y, n), old(blocks))
      ensures error == old(error) + ErrS(If(c, y, n), old(blocks), old(inLoopContext))
      ensures error == old(error) ==>
        Emitted(ops, lastLabels) == Emit(old(ops), old(lastLabels), If(c, y, n), old(blocks))
      decreases If(c, y, n), 1
    {
      hide *;
      IfErr(c, y, n, blocks, inLoopContext);
      EmitIfScope(ops, lastLabels, c, y, n, blocks);
      OwnScopeIs(c);
      if CountE(c) > 0 {
        var enter := |ops|;
        ops := ops + [Enter(0)];
        PushBlock();
        BelowMore(lastLabels, |old(ops)|, |ops|);
        var count := |NamesS(n, NamesS(y, NamesE(c, [])))|;
        IfEmittedUpdate(old(ops), Enter(0), Enter(count), lastLabels, c, y, n, blocks, [Op.Leave]);
        CompileBranches(c, y, n);
        BelowMore(lastLabels, |ops|, |ops| + 1);
        ops := ops + [Op.Leave];
        ops := ops[enter := Enter(|blocks[|blocks| - 1]|)];
        PopBlock();
      } else {
        CompileBranches(c, y, n);
      }
    }

    method CompileBranches(c: Expr, y: Stmt, n: Stmt)
      requires blocks != [] && Below(lastLabels, |ops|)
      modifies this
      ensures |old(ops)| <= |ops| && Below(lastLabels, |ops|) && inLoopContext == old(inLoopContext)
      ensures
        var b := DeclE(c, old(blocks));
        && blocks == DeclS(n, DeclS(y, b))
        && error == old(error) + ErrE(c, old(blocks)) + ErrS(y, b, inLoopContext) + ErrS(n, DeclS(y, b), inLoopContext)
      ensures error == old(error) ==>
        Emitted(ops, lastLabels) == IfEmitted(old(ops), old(lastLabels), c, y, n, old(blocks))
      decreases If(c, y, n), 0
    {
      hide *;
      IfDone(ops, lastLabels, c, y, n, blocks);
      CompileE(c);
      var jumpElse := |ops|;
      ops := ops + [JumpIfFalse(0)];
      BelowMore(lastLabels, |old(ops)|, |ops|);
      CompileS(y);
      var jumpEnd := |ops|;
      ops := ops + [Jump(0)];
      BelowMore(lastLabels, jumpEnd, |ops|);
      ops := ops[jumpElse := JumpIfFalse(|ops|)];
      CompileS(n);
      ops := ops[jumpEnd := Jump(|ops|)];
    }

    /** NODE_WHILE. */
    method CompileWhile(c: Expr, body: Stmt)
      requires blocks != [] && Below(lastLabels, |ops|)
      modifies this
      ensures |old(ops)| <= |ops| && Below(lastLabels, |ops|) && inLoopContext == old(inLoopContext)
      ensures blocks == DeclS(While(c, body), old(blocks))
      ensures error == old(error) + ErrS(While(c, body), old(blocks), old(inLoopContext))
      ensures error == old(error) ==>
        Emitted(ops, lastLabels) == Emit(old(ops), old(lastLabels), While(c, body), old(blocks))
      decreases While(c, body), 0
    {
      hide *;
      WhileErr(c, body, blocks, inLoopContext);
      WhileDone(ops, lastLabels, c, body, blocks);
      InnerNames(body, DeclE(c, blocks));
      var label1 := |ops|;
      CompileE(c);
      var orig := inLoopContext;
      inLoopContext := true;
      var jumpIfFalse := |ops|;
      ops := ops + [JumpIfFalse(0)];
      var enter := |ops|;
      ops := ops + [EnterWhile(0)];
      PushBlock();
      BelowMore(lastLabels, label1, |ops|);
      CompileS(body);
      assert error == old(error) + ErrS(While(c, body), old(blocks), old(inLoopContext));
      BelowMore(lastLabels, |ops|, |ops| + 2);
      ghost var e := ops;
      var n := |blocks[|blocks| - 1]|;
      ops := ops + [Op.Leave];
      ops := ops[enter := EnterWhile(n)];
      PopBlock();
      ops := ops + [Jump(label1)];
      var label2 := |ops|;
      ops := ops[jumpIfFalse := JumpIfFalse(label2)];
      assert ops == ((e + [Op.Leave])[enter := EnterWhile(n)] + [Jump(label1)])[jumpIfFalse := JumpIfFalse(label2)];
      ghost var whole := Emit(old(ops), old(lastLabels), While(c, body), old(blocks));
      assert error == old(error) ==> Emitted(PatchAll(ops, lastLabels, label2 - 1), []) == whole;
      FillLabels(label2 - 1);
      inLoopContext := orig;
      NoneBelow(|ops|);
    }

    /** NODE_FOR. */
    method CompileFor(i: Expr, c: Expr, p: Expr, body: Stmt)
      requires blocks != [] && Below(lastLabels, |ops|)
      modifies this
      ensures |old(ops)| <= |ops| && Below(lastLabels, |ops|) && inLoopContext == old(inLoopContext)
      ensures blocks == DeclS(For(i, c, p, body), old(blocks))
      ensures error == old(error) + ErrS(For(i, c, p, body), old(blocks), old(inLoopContext))
      ensures error == old(error) ==>
        Emitted(ops, lastLabels) == Emit(old(ops), old(lastLabels), For(i, c, p, body), old(blocks))
      decreases For(i, c, p, body), 1
    {
      hide *;
      ForErr(i, c, p, body, blocks, inLoopContext);
      ForDone(ops, lastLabels, i, c, p, body, blocks);
      ForNames(i, c, p, body, blocks);
      var enter := |ops|;
      ops := ops + [EnterFor(0)];
      PushBlock();
      BelowMore(lastLabels, enter, |ops|);
      CompileIterations(i, c, p, body);
      var label2 := |ops|;
      BelowMore(lastLabels, label2, label2 + 1);
      ops := ops + [Op.Leave];
      ops := ops[enter := EnterFor(|blocks[|blocks| - 1]|)];
      PopBlock();
      FillLabels(label2);
      NoneBelow(|ops|);
    }

    /** From the initialisation to the jump back. */
    method CompileIterations(i: Expr, c: Expr, p: Expr, body: Stmt)
      requires blocks != [] && Below(lastLabels, |ops|)
      modifies this
      ensures |old(ops)| <= |ops| && Below(lastLabels, |ops|) && inLoopContext == old(inLoopContext)
      ensures
        var b1 := DeclE(i, old(blocks));
        var b2 := DeclE(c, b1);
        && blocks == DeclE(p, DeclS(body, b2))
        && error == old(error) + ErrE(i, old(blocks)) + ErrE(c, b1) + ErrS(body, b2, true) + ErrE(p, DeclS(body, b2))
      ensures error == old(error) ==>
        var b1 := DeclE(i, old(blocks));
        var b2 := DeclE(c, b1);
        var o1 := old(ops) + GenE(i, old(blocks), |old(ops)|);
        var x := o1 + GenE(c, b1, |o1|);
        var e := Emit(x + [JumpIfFalse(0)], old(lastLabels), body, b2);
        var o2 := e.ops + GenE(p, DeclS(body, b2), |e.ops|) + [Jump(|o1|)];
        |x| < |o2| && ops == o2[|x| := JumpIfFalse(|o2|)] && lastLabels == e.labels
      decreases For(i, c, p, body), 0
    {
      hide *;
      CompileE(i);
      var label1 := |ops|;
      CompileE(c);
      var jumpLabel2 := |ops|;
      ops := ops + [JumpIfFalse(0)];
      var orig := inLoopContext;
      inLoopContext := true;
      BelowMore(lastLabels, |old(ops)|, |ops|);
      CompileS(body);
      inLoopContext := orig;
      ghost var inside := |ops|;
      CompileE(p);
      ops := ops + [Jump(label1)];
      BelowMore(lastLabels, inside, |ops|);
      ops := ops[jumpLabel2 := JumpIfFalse(|ops|)];
    }
  }

  /** The code of a whole program. */
  function RootCode(s: Stmt): seq<Op> {
    [PackageEnter, Enter(|NamesS(s, [])|)] + Gen(s, [[], []], 2, 0, true) + [End, PackageLeave]
  }

  lemma InnerTwice()
    ensures Inner(Inner([])) == [[], []]
  {
  }

  lemma RootNames(s: Stmt)
    ensures var b := DeclS(s, [[], []]); |b| == 2 && b[1] == NamesS(s, []) && |Front(b)| == 1 && Front(Front(b)) == []
  {
    hide NamesS;
  }

  lemma RootEmitted(s: Stmt)
    ensures
      var e := Emit([PackageEnter, Enter(|NamesS(s, [])|)], [], s, [[], []]);
      e.ops + [End] + [PackageLeave] == RootCode(s) && e.labels == Waits(s, [[], []], 2)
  {
    hide Gen, HasLoop, FirstLabel, Waits, NamesS;
    if HasLoop(s) { NothingToPatch([PackageEnter, Enter(|NamesS(s, [])|)], FirstLabel(s, [[], []], 2)); }
  }

  lemma NoneBelow(n: nat)
    ensures Below([], n)
  {
  }

  lemma LastBelow(labels: seq<nat>, n: nat)
    requires Below(labels, n)
    ensures Below(labels + [n], n + 1)
  {
  }

  lemma OwnScopeIs(c: Expr)
    ensures OwnScope(c) <==> CountE(c) > 0
  {
  }

  lemma DoIs(e: Expr, ops: seq<Op>, labels: seq<nat>, blocks: Blocks, inLoop: bool)
    requires blocks != []
    ensures Emit(ops, labels, Do(e), blocks) == Emitted(ops + GenE(e, blocks, |ops|), labels)
    ensures DeclS(Do(e), blocks) == DeclE(e, blocks) && ErrS(Do(e), blocks, inLoop) == ErrE(e, blocks)
  {
  }

  lemma VoidIs(ops: seq<Op>, labels: seq<nat>, blocks: Blocks, inLoop: bool)
    requires blocks != []
    ensures Emit(ops, labels, Void, blocks) == Emitted(ops, labels)
    ensures DeclS(Void, blocks) == blocks && ErrS(Void, blocks, inLoop) == 0
  {
  }

  lemma LastIs(ops: seq<Op>, labels: seq<nat>, blocks: Blocks, inLoop: bool)
    requires blocks != []
    ensures Emit(ops, labels, Last, blocks) == Emitted(ops + [LastOp(0)], labels + [|ops|])
    ensures DeclS(Last, blocks) == blocks && ErrS(Last, blocks, inLoop) == if inLoop then 0 else 1
  {
  }

  lemma NextIs(s1: Stmt, rest: Stmt, blocks: Blocks, inLoop: bool)
    requires blocks != []
    ensures DeclS(Next(s1, rest), blocks) == DeclS(rest, DeclS(s1, blocks))
    ensures ErrS(Next(s1, rest), blocks, inLoop) == ErrS(s1, blocks, inLoop) + ErrS(rest, DeclS(s1, blocks), inLoop)
  {
  }

  lemma BlockErr(body: Stmt, blocks: Blocks, inLoop: bool)
    requires blocks != []
    ensures DeclS(Block(body), blocks) == blocks
    ensures ErrS(Block(body), blocks, inLoop) == ErrS(body, if CountS(body) > 0 then Inner(blocks) else blocks, inLoop)
    ensures Front(Inner(blocks)) == blocks
    ensures CountS(body) == 0 ==> DeclS(body, blocks) == blocks
  {
    if CountS(body) == 0 { NoDeclS(body, Back(blocks)); }
  }

  /** The block of a scope when its body has been compiled. */
  lemma InnerNames(body: Stmt, blocks: Blocks)
    requires blocks != []
    ensures var b := DeclS(body, Inner(blocks)); |b| > 0 && b[|b| - 1] == NamesS(body, []) && Front(b) == blocks
  {
    hide NamesS;
  }

  lemma IfErr(c: Expr, y: Stmt, n: Stmt, blocks: Blocks, inLoop: bool)
    requires blocks != []
    ensures
      var b := DeclE(c, if OwnScope(c) then Inner(blocks) else blocks);
      && ErrS(If(c, y, n), blocks, inLoop) ==
           ErrE(c, if OwnScope(c) then Inner(blocks) else blocks) + ErrS(y, b, inLoop) + ErrS(n, DeclS(y, b), inLoop)
      && var b3 := DeclS(n, DeclS(y, b));
         if OwnScope(c) then |b3| > 0 && b3[|b3| - 1] == NamesS(n, NamesS(y, NamesE(c, [])))
           && Front(b3) == blocks == DeclS(If(c, y, n), blocks)
         else DeclS(If(c, y, n), blocks) == b3
  {
    IfErrs(c, y, n, blocks, inLoop);
    IfNamesAfter(c, y, n, blocks);
    hide *;
  }

  lemma IfErrs(c: Expr, y: Stmt, n: Stmt, blocks: Blocks, inLoop: bool)
    requires blocks != []
    ensures
      var b := DeclE(c, if OwnScope(c) then Inner(blocks) else blocks);
      ErrS(If(c, y, n), blocks, inLoop) ==
        ErrE(c, if OwnScope(c) then Inner(blocks) else blocks) + ErrS(y, b, inLoop) + ErrS(n, DeclS(y, b), inLoop)
  {
    hide NamesE, NamesS, ErrE, DeclE, DeclS, Inner, OwnScope, CountS;
  }

  lemma IfNamesAfter(c: Expr, y: Stmt, n: Stmt, blocks: Blocks)
    requires blocks != []
    ensures
      var b := DeclE(c, if OwnScope(c) then Inner(blocks) else blocks);
      var b3 := DeclS(n, DeclS(y, b));
      if OwnScope(c) then |b3| > 0 && b3[|b3| - 1] == NamesS(n, NamesS(y, NamesE(c, [])))
        && Front(b3) == blocks == DeclS(If(c, y, n), blocks)
      else DeclS(If(c, y, n), blocks) == b3
  {
    assert NamesS(If(c, y, n), Back(blocks)) ==
        if OwnScope(c) then Back(blocks) else NamesS(n, NamesS(y, NamesE(c, Back(blocks))));
    assert Front(Inner(blocks)) == blocks && Back(Inner(blocks)) == [] && WithBack(blocks, Back(blocks)) == blocks;
    hide NamesE, NamesS, OwnScope, Inner;
  }

  lemma WhileErr(c: Expr, body: Stmt, blocks: Blocks, inLoop: bool)
    requires blocks != []
    ensures DeclS(While(c, body), blocks) == DeclE(c, blocks)
    ensures ErrS(While(c, body), blocks, inLoop) == ErrE(c, blocks) + ErrS(body, Inner(DeclE(c, blocks)), true)
  {
    hide NamesE, ErrE, Inner;
  }

  lemma ForErr(i: Expr, c: Expr, p: Expr, body: Stmt, blocks: Blocks, inLoop: bool)
    requires blocks != []
    ensures DeclS(For(i, c, p, body), blocks) == blocks
    ensures
      var b1 := DeclE(i, Inner(blocks));
      var b2 := DeclE(c, b1);
      ErrS(For(i, c, p, body), blocks, inLoop) ==
          ErrE(i, Inner(blocks)) + ErrE(c, b1) + ErrS(body, b2, true) + ErrE(p, DeclS(body, b2))
  {
    hide NamesE, ErrE, DeclE, Inner, OwnScope, CountS;
    ForErrs(i, c, p, body, blocks, inLoop);
    hide ErrS;
  }

  lemma ForErrs(i: Expr, c: Expr, p: Expr, body: Stmt, blocks: Blocks, inLoop: bool)
    requires blocks != []
    ensures
      var b1 := DeclE(i, Inner(blocks));
      var b2 := DeclE(c, b1);
      ErrS(For(i, c, p, body), blocks, inLoop) ==
          ErrE(i, Inner(blocks)) + ErrE(c, b1) + ErrS(body, b2, true) + ErrE(p, DeclS(body, b2))
  {
    hide NamesE, NamesS, ErrE, DeclE, DeclS, Inner, OwnScope, CountS;
  }

  lemma ForNames(i: Expr, c: Expr, p: Expr, body: Stmt, blocks: Blocks)
    requires blocks != []
    ensures
      var b := DeclE(p, DeclS(body, DeclE(c, DeclE(i, Inner(blocks)))));
      |b| > 0 && b[|b| - 1] == NamesE(p, NamesS(body, NamesE(c, NamesE(i, [])))) && Front(b) == blocks
  {
    hide NamesE, NamesS;
  }

  lemma BinaryIs(op: BinOp, l: Expr, r: Expr, blocks: Blocks, base: nat)
    requires blocks != []
    ensures
      var (e, b1, a) := (Binary(op, l, r), DeclE(l, blocks), GenE(l, blocks, base));
      && GenE(e, blocks, base) == a + GenE(r, b1, base + |a|) + [Bin(op)]
      && DeclE(e, blocks) == DeclE(r, b1) && ErrE(e, blocks) == ErrE(l, blocks) + ErrE(r, b1)
  {
  }

  lemma LogicalIs(e: Expr, l: Expr, r: Expr, blocks: Blocks, base: nat)
    requires blocks != [] && (e == And(l, r) || e == Or(l, r))
    ensures
      var (b1, a) := (DeclE(l, blocks), GenE(l, blocks, base));
      var b := GenE(r, b1, base + |a| + 2);
      && GenE(e, blocks, base) == a
          + [if e.And? then JumpIfFalse(base + |a| + 2 + |b|) else JumpIfTrue(base + |a| + 2 + |b|), PopTop] + b
      && DeclE(e, blocks) == DeclE(r, b1) && ErrE(e, blocks) == ErrE(l, blocks) + ErrE(r, b1)
  {
    hide *;
    LogicalNames(e, l, r, blocks);
    LogicalErr(e, l, r, blocks);
    LogicalGen(e, l, r, blocks, base);
  }

  lemma LogicalErr(e: Expr, l: Expr, r: Expr, blocks: Blocks)
    requires blocks != [] && (e == And(l, r) || e == Or(l, r))
    ensures ErrE(e, blocks) == ErrE(l, blocks) + ErrE(r, DeclE(l, blocks))
  {
    hide NamesE, DeclE, MissE;
  }

  lemma LogicalNames(e: Expr, l: Expr, r: Expr, blocks: Blocks)
    requires blocks != [] && (e == And(l, r) || e == Or(l, r))
    ensures DeclE(e, blocks) == DeclE(r, DeclE(l, blocks))
  {
    assert NamesE(e, Back(blocks)) == NamesE(r, NamesE(l, Back(blocks)));
    hide NamesE;
  }

  // ----- one step of the functions on expressions -----

  lemma ConstIs(e: Expr, blocks: Blocks, base: nat)
    requires blocks != [] && (e.Int? || e.True? || e.False? || e.Undef?)
    ensures DeclE(e, blocks) == blocks && ErrE(e, blocks) == 0
    ensures GenE(e, blocks, base) ==
      [if e.Int? then PushInt(e.n) else if e.True? then PushTrue else if e.False? then PushFalse else PushUndef]
  {
  }

  lemma VarIs(x: string, blocks: Blocks, base: nat)
    requires blocks != []
    ensures GenE(Var(x), blocks, base) == GetCode(x, blocks)
    ensures DeclE(Var(x), blocks) == blocks && ErrE(Var(x), blocks) == MissE(x, blocks)
  {
    hide GetCode, MissE;
  }

  lemma AssignIs(x: string, e1: Expr, blocks: Blocks, base: nat)
    requires blocks != []
    ensures DeclE(Assign(x, e1), blocks) == DeclE(e1, blocks)
    ensures GenE(Assign(x, e1), blocks, base) == GenE(e1, blocks, base) + SetCode(x, DeclE(e1, blocks))
    ensures ErrE(Assign(x, e1), blocks) == ErrE(e1, blocks) + MissE(x, DeclE(e1, blocks))
  {
    hide SetCode, MissE;
  }

  lemma MyAssignIs(x: string, e1: Expr, blocks: Blocks, base: nat)
    requires blocks != []
    ensures
      var b := WithBack(DeclE(e1, blocks), AddName(Back(DeclE(e1, blocks)), x));
      && DeclE(MyAssign(x, e1), blocks) == b
      && GenE(MyAssign(x, e1), blocks, base) == GenE(e1, blocks, base) + SetCode(x, b)
      && ErrE(MyAssign(x, e1), blocks) ==
           ErrE(e1, blocks) + (if x in Back(DeclE(e1, blocks)) then 1 else 0) + MissE(x, b)
  {
    assert Back(DeclE(e1, blocks)) == NamesE(e1, Back(blocks));
    assert NamesE(MyAssign(x, e1), Back(blocks)) == AddName(NamesE(e1, Back(blocks)), x);
    hide SetCode, MissE, NamesE, AddName;
  }

  lemma MyIs(x: string, blocks: Blocks, base: nat)
    requires blocks != []
    ensures
      var b := WithBack(blocks, AddName(Back(blocks), x));
      && DeclE(My(x), blocks) == b && GenE(My(x), blocks, base) == [PushUndef] + SetCode(x, b)
      && ErrE(My(x), blocks) == (if x in Back(blocks) then 1 else 0) + MissE(x, b)
  {
    hide SetCode, MissE;
  }

  lemma NegateIs(e1: Expr, blocks: Blocks, base: nat)
    requires blocks != []
    ensures DeclE(Negate(e1), blocks) == DeclE(e1, blocks) && ErrE(Negate(e1), blocks) == ErrE(e1, blocks)
    ensures GenE(Negate(e1), blocks, base) == GenE(e1, blocks, base) + [Op.Not]
  {
  }
}
