/** CompressTables: the most frequent reduce of a state becomes its default. */
module LemonCompress {
  import opened Basics
  import opened LemonGrammar
  import opened LemonConflicts
  import opened LemonActions

  predicate IsReduceBy(a: Action, r: nat) {
    a.kind == Reduce && a.arg == r
  }

  /** Reduces by rule `r` from position `k` on. */
  function CountFrom(ap: seq<Action>, k: nat, r: nat): nat
    requires k <= |ap|
    decreases |ap| - k
  {
    if k == |ap| then 0 else (if IsReduceBy(ap[k], r) then 1 else 0) + CountFrom(ap, k + 1, r)
  }

  ghost predicate IsStartRule(g: Grammar, r: nat) {
    r < |g.rules| && g.rules[r].lhs == g.start
  }

  /** The first reduce by `best` stands before all reduces by `r`. */
  ghost predicate Earlier(ap: seq<Action>, best: nat, r: nat) {
    forall k :: 0 <= k < |ap| && IsReduceBy(ap[k], r) ==> exists j :: 0 <= j < k && IsReduceBy(ap[j], best)
  }

  /** No rule except those of the start symbol is reduced more often than `best`, and those that are reduced as often
      come later in the list. */
  ghost predicate MostFrequent(g: Grammar, ap: seq<Action>, best: nat) {
    && best < |g.rules| && !IsStartRule(g, best) && CountFrom(ap, 0, best) > 0
    && forall r: nat :: !IsStartRule(g, r) && r != best ==>
         CountFrom(ap, 0, r) < CountFrom(ap, 0, best)
         || (CountFrom(ap, 0, r) == CountFrom(ap, 0, best) && Earlier(ap, best, r))
  }

  lemma {:induction false} CountDrops(ap: seq<Action>, k: nat, l: nat, r: nat)
    requires k <= l <= |ap|
    ensures CountFrom(ap, l, r) <= CountFrom(ap, k, r)
    decreases l - k
  {
    if k < l { CountDrops(ap, k + 1, l, r); }
  }

  lemma {:induction false} CountSkips(ap: seq<Action>, k: nat, r: nat)
    requires k <= |ap| && forall j :: 0 <= j < k ==> !IsReduceBy(ap[j], r)
    ensures CountFrom(ap, k, r) == CountFrom(ap, 0, r)
    decreases k
  {
    if k > 0 { CountSkips(ap, k - 1, r); }
  }

  lemma {:induction false} CountPositive(ap: seq<Action>, k: nat, j: nat, r: nat)
    requires k <= j < |ap| && IsReduceBy(ap[j], r)
    ensures CountFrom(ap, k, r) > 0
    decreases j - k
  {
    if k < j { CountPositive(ap, k + 1, j, r); }
  }

  lemma {:induction false} CountWitness(ap: seq<Action>, k: nat, r: nat) returns (j: nat)
    requires k <= |ap| && CountFrom(ap, k, r) > 0
    ensures k <= j < |ap| && IsReduceBy(ap[j], r)
    decreases |ap| - k
  {
    if IsReduceBy(ap[k], r) { j := k; } else { j := CountWitness(ap, k + 1, r); }
  }

  /** As far as the rules of the first `k` actions go, `best` is the most frequent one, with count `nbest`. */
  ghost predicate BestOf(g: Grammar, ap: seq<Action>, k: nat, best: Option<nat>, nbest: nat)
    requires k <= |ap|
  {
    && (forall j :: 0 <= j < k && ap[j].kind == Reduce && !IsStartRule(g, ap[j].arg) && best != Some(ap[j].arg) ==>
          CountFrom(ap, 0, ap[j].arg) < nbest
          || (best.Some? && CountFrom(ap, 0, ap[j].arg) == nbest && Earlier(ap, best.value, ap[j].arg)))
    && match best
       case None => nbest == 0
       case Some(r) =>
         r < |g.rules| && !IsStartRule(g, r) && nbest == CountFrom(ap, 0, r) > 0
         && exists j :: 0 <= j < k && IsReduceBy(ap[j], r)
  }

  /** A rule that was met before is counted from too late a place to be better. */
  lemma CountedLate(g: Grammar, ap: seq<Action>, k: nat, best: Option<nat>, nbest: nat)
    requires k < |ap| && BestOf(g, ap, k, best, nbest) && ap[k].kind == Reduce && !IsStartRule(g, ap[k].arg)
    requires best != Some(ap[k].arg)
    ensures CountFrom(ap, k, ap[k].arg) > nbest ==>
      CountFrom(ap, k, ap[k].arg) == CountFrom(ap, 0, ap[k].arg)
      && forall j :: 0 <= j < k ==> !IsReduceBy(ap[j], ap[k].arg)
    ensures CountFrom(ap, k, ap[k].arg) <= nbest && (forall j :: 0 <= j < k ==> !IsReduceBy(ap[j], ap[k].arg)) ==>
      CountFrom(ap, 0, ap[k].arg) <= nbest
  {
    CountDrops(ap, 0, k, ap[k].arg);
    if forall j :: 0 <= j < k ==> !IsReduceBy(ap[j], ap[k].arg) { CountSkips(ap, k, ap[k].arg); }
  }

  /** The rule of action `k` becomes the best one. */
  lemma BetterFound(g: Grammar, ap: seq<Action>, k: nat, best: Option<nat>, nbest: nat)
    requires k < |ap| && BestOf(g, ap, k, best, nbest) && ap[k].kind == Reduce && !IsStartRule(g, ap[k].arg)
    requires best != Some(ap[k].arg) && ap[k].arg < |g.rules| && CountFrom(ap, k, ap[k].arg) > nbest
    ensures BestOf(g, ap, k + 1, Some(ap[k].arg), CountFrom(ap, k, ap[k].arg))
  {
    CountedLate(g, ap, k, best, nbest);
    hide CountFrom, Earlier;
    assert IsReduceBy(ap[k], ap[k].arg);
  }

  /** It does not: it is counted again, or not more frequent than the best one, which came before. */
  lemma NotBetter(g: Grammar, ap: seq<Action>, k: nat, best: Option<nat>, nbest: nat)
    requires k < |ap| && BestOf(g, ap, k, best, nbest)
    requires ap[k].kind == Reduce && !IsStartRule(g, ap[k].arg) && best != Some(ap[k].arg) ==>
      CountFrom(ap, k, ap[k].arg) <= nbest
    ensures BestOf(g, ap, k + 1, best, nbest)
  {
    if ap[k].kind == Reduce && !IsStartRule(g, ap[k].arg) && best != Some(ap[k].arg) {
      CountedLate(g, ap, k, best, nbest);
      CountPositive(ap, 0, k, ap[k].arg);
      hide CountFrom;
      if !exists j :: 0 <= j < k && IsReduceBy(ap[j], ap[k].arg) {
        if best.Some? { assert Earlier(ap, best.value, ap[k].arg); }
      }
    }
  }

  lemma AllMet(g: Grammar, ap: seq<Action>, best: Option<nat>, nbest: nat)
    requires BestOf(g, ap, |ap|, best, nbest)
    ensures best.Some? ==> MostFrequent(g, ap, best.value)
    ensures best.None? ==> forall a :: a in ap && a.kind == Reduce ==> IsStartRule(g, a.arg)
  {
    if best.Some? {
      forall r: nat | !IsStartRule(g, r) && r != best.value
        ensures CountFrom(ap, 0, r) < nbest || (CountFrom(ap, 0, r) == nbest && Earlier(ap, best.value, r))
      {
        if CountFrom(ap, 0, r) > 0 { var j := CountWitness(ap, 0, r); }
      }
    }
  }

  /** The counting loops: the best rule so far is skipped, and every other one is counted from its first place on. */
  method FindBest(g: Grammar, ap: seq<Action>) returns (best: Option<nat>)
    requires forall k :: 0 <= k < |ap| ==> ap[k].kind == Reduce ==> ap[k].arg < |g.rules|
    ensures best.Some? ==> MostFrequent(g, ap, best.value)
    ensures best.None? ==> forall a :: a in ap && a.kind == Reduce ==> IsStartRule(g, a.arg)
  {
    best := None;
    var nbest := 0;
    hide BestOf, MostFrequent;
    NothingMet(g, ap);
    for k := 0 to |ap|
      invariant BestOf(g, ap, k, best, nbest)
    {
      if ap[k].kind != Reduce || g.rules[ap[k].arg].lhs == g.start || best == Some(ap[k].arg) {
        NotBetter(g, ap, k, best, nbest);
      }
      if ap[k].kind != Reduce { continue; }
      var rp := ap[k].arg;
      if g.rules[rp].lhs == g.start { continue; }
      if best == Some(rp) { continue; }
      var n := 1;
      for l := k + 1 to |ap|
        invariant n + CountFrom(ap, l, rp) == CountFrom(ap, k, rp)
      {
        if ap[l].kind != Reduce { continue; }
        if best == Some(ap[l].arg) { continue; }
        if ap[l].arg == rp { n := n + 1; }
      }
      if n > nbest {
        BetterFound(g, ap, k, best, nbest);
        nbest, best := n, Some(rp);
      } else {
        NotBetter(g, ap, k, best, nbest);
      }
    }
    AllMet(g, ap, best, nbest);
  }

  lemma NothingMet(g: Grammar, ap: seq<Action>)
    ensures BestOf(g, ap, 0, None, 0)
  {
  }

  // ----- folding the best rule into one default -----

  /** The first reduce by `best` moves to the symbol `{default}`, the others are not used. */
  function Fold(g: Grammar, ap: seq<Action>, best: nat): seq<Action> {
    if ap == [] then []
    else if IsReduceBy(ap[0], best) then [ap[0].(sp := g.nsymbol)] + Drop(ap[1..], best)
    else [ap[0]] + Fold(g, ap[1..], best)
  }

  function Drop(ap: seq<Action>, best: nat): seq<Action> {
    seq(|ap|, i requires 0 <= i < |ap| => if IsReduceBy(ap[i], best) then ap[i].(kind := NotUsed) else ap[i])
  }

  lemma FoldSkips(g: Grammar, ap: seq<Action>, i: nat, best: nat)
    requires i < |ap| && !IsReduceBy(ap[i], best)
    ensures ap[..i] + Fold(g, ap[i..], best) == ap[..i + 1] + Fold(g, ap[i + 1..], best)
  {
    assert ap[i..][0] == ap[i] && ap[i..][1..] == ap[i + 1..];
    assert ap[..i] + ([ap[i]] + Fold(g, ap[i + 1..], best)) == ap[..i + 1] + Fold(g, ap[i + 1..], best);
  }

  lemma FoldHere(g: Grammar, ap: seq<Action>, i: nat, best: nat)
    requires i < |ap| && IsReduceBy(ap[i], best)
    ensures ap[..i] + Fold(g, ap[i..], best) == ap[i := ap[i].(sp := g.nsymbol)][..i + 1] + Drop(ap[i + 1..], best)
  {
    assert ap[i..][0] == ap[i] && ap[i..][1..] == ap[i + 1..];
    assert ap[..i] + ([ap[i].(sp := g.nsymbol)] + Drop(ap[i + 1..], best)) ==
      ap[..i] + [ap[i].(sp := g.nsymbol)] + Drop(ap[i + 1..], best);
    assert ap[i := ap[i].(sp := g.nsymbol)][..i + 1] == ap[..i] + [ap[i].(sp := g.nsymbol)];
  }

  /** The two loops that combine the reduces by `best`. */
  method Combine(g: Grammar, ap: seq<Action>, best: nat) returns (ap': seq<Action>)
    requires CountFrom(ap, 0, best) > 0
    ensures ap' == Fold(g, ap, best)
  {
    ghost var w := CountWitness(ap, 0, best);
    hide CountFrom, Fold, Drop;
    var i := 0;
    assert ap[..0] + Fold(g, ap[0..], best) == Fold(g, ap, best) by { assert ap[0..] == ap; }
    while !IsReduceBy(ap[i], best)
      invariant 0 <= i <= w
      decreases w - i
      invariant Fold(g, ap, best) == ap[..i] + Fold(g, ap[i..], best)
    {
      FoldSkips(g, ap, i, best);
      i := i + 1;
    }
    FoldHere(g, ap, i, best);
    ap' := ap[i := ap[i].(sp := g.nsymbol)];
    assert ap'[i + 1..] == ap[i + 1..];
    ap' := DropRest(ap', i + 1, best);
  }

  /** The second loop: the later reduces by `best` are not used. */
  method DropRest(ap: seq<Action>, from: nat, best: nat) returns (ap': seq<Action>)
    requires from <= |ap|
    ensures ap' == ap[..from] + Drop(ap[from..], best)
  {
    ap' := ap;
    var j := from;
    while j < |ap|
      invariant from <= j <= |ap| == |ap'| && ap'[..from] == ap[..from]
      invariant forall k :: from <= k < j ==>
          ap'[k] == if IsReduceBy(ap[k], best) then ap[k].(kind := NotUsed) else ap[k]
      invariant forall k :: j <= k < |ap| ==> ap'[k] == ap[k]
    {
      if IsReduceBy(ap'[j], best) { ap' := ap'[j := ap[j].(kind := NotUsed)]; }
      j := j + 1;
    }
  }

  /** What compressing a list leaves: the live actions without the reduces by the default rule, and the default. */
  ghost predicate Compressed(g: Grammar, ap: seq<Action>, dflt: Option<nat>, ap': seq<Action>) {
    && Deterministic(ap')
    && (dflt.None? ==> forall a :: a in ap && a.kind == Reduce ==> IsStartRule(g, a.arg))
    && (dflt.Some? ==> MostFrequent(g, ap, dflt.value))
    && (forall a :: a in ap' && Live(a) <==>
          (a in ap && Live(a) && !(dflt.Some? && IsReduceBy(a, dflt.value)))
          || (dflt.Some? && a == Action(g.nsymbol, Reduce, dflt.value)))
  }

  lemma {:induction false} FoldLive(g: Grammar, ap: seq<Action>, best: nat, a: Action)
    requires CountFrom(ap, 0, best) > 0 && forall k :: 0 <= k < |ap| && Live(ap[k]) ==> ap[k].sp < g.nsymbol
    ensures a in Fold(g, ap, best) && Live(a) <==>
      (a in ap && Live(a) && !IsReduceBy(a, best)) || a == Action(g.nsymbol, Reduce, best)
  {
    if IsReduceBy(ap[0], best) {
      DropLive(ap[1..], best, a);
      assert ap == [ap[0]] + ap[1..];
    } else {
      CountTail(ap, 0, best);
      FoldLive(g, ap[1..], best, a);
      assert ap == [ap[0]] + ap[1..];
    }
  }

  lemma {:induction false} CountTail(ap: seq<Action>, k: nat, r: nat)
    requires k < |ap|
    ensures CountFrom(ap[1..], k, r) == CountFrom(ap, k + 1, r)
    decreases |ap| - k
  {
    if k + 1 < |ap| { CountTail(ap, k + 1, r); }
  }

  lemma DropLive(ap: seq<Action>, best: nat, a: Action)
    ensures a in Drop(ap, best) && Live(a) <==> a in ap && Live(a) && !IsReduceBy(a, best)
  {
    var d := Drop(ap, best);
    if a in d && Live(a) {
      var k :| 0 <= k < |d| && d[k] == a;
      assert ap[k] == a;
    }
    if a in ap && Live(a) && !IsReduceBy(a, best) {
      var k :| 0 <= k < |ap| && ap[k] == a;
      assert d[k] == a;
    }
  }

  /** `f` keeps the live actions of `ap` where they are, except that one may have moved to the symbol `{default}`. */
  ghost predicate Folded(g: Grammar, ap: seq<Action>, f: seq<Action>) {
    && |f| == |ap| && Deterministic(f)
    && forall k :: 0 <= k < |ap| && Live(f[k]) ==> Live(ap[k]) && (f[k] == ap[k] || f[k].sp == g.nsymbol)
  }

  lemma FoldedMore(g: Grammar, a: Action, rest: seq<Action>, f: seq<Action>)
    requires Folded(g, rest, f) && Deterministic([a] + rest) && (Live(a) ==> a.sp < g.nsymbol)
    ensures Folded(g, [a] + rest, [a] + f)
  {
    var (ap, all) := ([a] + rest, [a] + f);
    hide Live;
    forall k, l | 0 <= k < l < |all| && Live(all[k]) && Live(all[l]) ensures all[k].sp != all[l].sp {
      assert all[l] == f[l - 1] && ap[l] == rest[l - 1];
      if k > 0 { assert all[k] == f[k - 1]; } else { assert ap[0] == a; }
    }
    forall k | 0 <= k < |ap| && Live(all[k]) ensures Live(ap[k]) && (all[k] == ap[k] || all[k].sp == g.nsymbol) {
      if k > 0 { assert all[k] == f[k - 1] && ap[k] == rest[k - 1]; }
    }
  }

  lemma FoldedHere(g: Grammar, a: Action, rest: seq<Action>, best: nat)
    requires IsReduceBy(a, best) && Deterministic([a] + rest)
    requires forall k :: 0 <= k < |rest| && Live(rest[k]) ==> rest[k].sp < g.nsymbol
    ensures Folded(g, [a] + rest, [a.(sp := g.nsymbol)] + Drop(rest, best))
  {
    var (ap, all) := ([a] + rest, [a.(sp := g.nsymbol)] + Drop(rest, best));
    assert forall k :: 1 <= k < |ap| ==> ap[k] == rest[k - 1] && (Live(all[k]) ==> all[k] == rest[k - 1]);
  }

  lemma {:induction false} FoldDeterministic(g: Grammar, ap: seq<Action>, best: nat)
    requires Deterministic(ap) && forall k :: 0 <= k < |ap| && Live(ap[k]) ==> ap[k].sp < g.nsymbol
    ensures Folded(g, ap, Fold(g, ap, best))
  {
    if ap != [] {
      var rest := ap[1..];
      assert ap == [ap[0]] + rest && forall k :: 0 <= k < |rest| ==> rest[k] == ap[k + 1];
      assert Deterministic(rest);
      hide Deterministic, Folded, Live;
      if IsReduceBy(ap[0], best) {
        FoldedHere(g, ap[0], rest, best);
      } else {
        FoldDeterministic(g, rest, best);
        FoldedMore(g, ap[0], rest, Fold(g, rest, best));
      }
    }
  }

  /** CompressTables for one state (no `%wildcard`). */
  method CompressState(g: Grammar, ap: seq<Action>) returns (ap': seq<Action>, ghost dflt: Option<nat>)
    requires Deterministic(ap) && Sortable(ap)
    requires forall k :: 0 <= k < |ap| ==> (Live(ap[k]) ==> ap[k].sp < g.nsymbol) && (ap[k].kind == Reduce ==>
        ap[k].arg < |g.rules|)
    ensures Compressed(g, ap, dflt, ap')
  {
    var best := FindBest(g, ap);
    dflt := best;
    if best.None? { return ap, best; }
    var folded := Combine(g, ap, best.value);
    forall a ensures a in folded && Live(a) <==>
      (a in ap && Live(a) && !IsReduceBy(a, best.value)) || a == Action(g.nsymbol, Reduce, best.value)
    {
      FoldLive(g, ap, best.value, a);
    }
    FoldDeterministic(g, ap, best.value);
    ap' := ActionSort(folded);
    SameElements(ap', folded);
    SortedDeterministic(folded, ap');
  }

  lemma SortedDeterministic(ap: seq<Action>, ap': seq<Action>)
    requires Deterministic(ap) && multiset(ap') == multiset(ap)
    ensures Deterministic(ap')
  {
    forall k, l | 0 <= k < l < |ap'| && Live(ap'[k]) && Live(ap'[l]) ensures ap'[k].sp != ap'[l].sp {
      SameElements(ap', ap);
      assert ap'[k] in ap' && ap'[l] in ap';
      var i :| 0 <= i < |ap| && ap[i] == ap'[k];
      var j :| 0 <= j < |ap| && ap[j] == ap'[l];
      if i == j {
        TwiceCounts(ap', k, l);
        var i' := AnotherOne(ap, i);
      }
    }
  }

  // ----- the default, said of lookaheads -----

  /** The lookaheads on which the list reduces by rule `r`. */
  function ReducedOn(ap: seq<Action>, r: nat): set<nat> {
    set k | 0 <= k < |ap| && IsReduceBy(ap[k], r) :: ap[k].sp
  }

  function ReducedFrom(ap: seq<Action>, from: nat, r: nat): set<nat> {
    set k | from <= k < |ap| && IsReduceBy(ap[k], r) :: ap[k].sp
  }

  lemma {:induction false} CountIsSize(ap: seq<Action>, from: nat, r: nat)
    requires Deterministic(ap) && from <= |ap|
    ensures CountFrom(ap, from, r) == |ReducedFrom(ap, from, r)|
    decreases |ap| - from
  {
    var (all, less) := (ReducedFrom(ap, from, r), ReducedFrom(ap, from + 1, r));
    if from < |ap| {
      CountIsSize(ap, from + 1, r);
      if IsReduceBy(ap[from], r) {
        assert ap[from].sp !in less;
        assert all == less + {ap[from].sp};
      } else {
        assert all == less;
      }
    } else {
      assert all == {};
    }
  }

  /** The default is the rule, other than a start rule, that is reduced on most lookaheads; of several such rules the
      one
      that is reduced on the least lookahead. */
  lemma DefaultByLookaheads(g: Grammar, ap: seq<Action>, best: nat, r: nat)
    requires Deterministic(ap) && ByLookahead(ap) && MostFrequent(g, ap, best) && !IsStartRule(g, r) && r != best
    ensures ReducedOn(ap, best) != {}
    ensures
      || |ReducedOn(ap, r)| < |ReducedOn(ap, best)|
      || (|ReducedOn(ap, r)| == |ReducedOn(ap, best)|
          && forall t :: t in ReducedOn(ap, r) ==> exists t' :: t' in ReducedOn(ap, best) && t' < t)
  {
    CountIsSize(ap, 0, r);
    CountIsSize(ap, 0, best);
    assert ReducedFrom(ap, 0, r) == ReducedOn(ap, r) && ReducedFrom(ap, 0, best) == ReducedOn(ap, best);
    hide CountFrom;
    if CountFrom(ap, 0, r) == CountFrom(ap, 0, best) {
      forall t | t in ReducedOn(ap, r) ensures exists t' :: t' in ReducedOn(ap, best) && t' < t {
        var k :| 0 <= k < |ap| && IsReduceBy(ap[k], r) && ap[k].sp == t;
        var j :| 0 <= j < k && IsReduceBy(ap[j], best);
        assert ap[j].sp in ReducedOn(ap, best) && ap[j].sp != t;
      }
    }
  }
}
