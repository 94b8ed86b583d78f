/** FindActions and CompressTables: the action list of every state. */
module LemonActions {
  import opened Basics
  import opened LemonGrammar
  import opened LemonAutomaton
  import opened LemonFollowSets
  import opened LemonLookaheads
  import opened LemonConflicts
  import opened LemonMergeSort
  import opened LemonPrecedence

  // ----- sorting actions -----

  lemma ActionCmpIsOrder()
    ensures TotalOrder(ActionCmp)
  {
  }

  /** Lists with fewer actions than msort can handle. */
  ghost predicate Sortable(ap: seq<Action>) {
    |ap| < Pow2(LISTSIZE)
  }

  /** Action_sort. */
  method ActionSort(ap: seq<Action>) returns (r: seq<Action>)
    requires Sortable(ap)
    ensures multiset(r) == multiset(ap) && SortedValues(ActionCmp, r)
  {
    ActionCmpIsOrder();
    r := SortList(ap, ActionCmp);
  }

  lemma SameElements<T>(a: seq<T>, b: seq<T>)
    requires multiset(a) == multiset(b)
    ensures |a| == |b| && forall x :: x in a <==> x in b
  {
    assert |multiset(a)| == |a| && |multiset(b)| == |b|;
    forall x ensures x in a <==> x in b { assert x in multiset(a) <==> x in multiset(b); }
  }

  // ----- FindActions -----

  /** The actions that the state has before conflicts are resolved. */
  ghost predicate IsCandidate(g: Grammar, st: State, i: nat, fws: Family, a: Action) {
    || (a.kind == Shift && a.sp in st.shifts && a.arg == st.shifts[a.sp])
    || (a.kind == Reduce && a.arg < |g.rules| && a.sp < g.nterminal
        && var c := Config(i, Item(a.arg, |g.rules[a.arg].rhs|)); c.item in st.items && c in fws && a.sp in fws[c])
    || (a == Action(g.start, Accept, 0) && i == 0)
  }

  /** Every live action is on a lookahead of its own. */
  ghost predicate Deterministic(ap: seq<Action>) {
    forall k, l :: 0 <= k < l < |ap| && Live(ap[k]) && Live(ap[l]) ==> ap[k].sp != ap[l].sp
  }

  ghost predicate HasLive(ap: seq<Action>, x: nat) {
    exists a :: a in ap && Live(a) && a.sp == x
  }

  /** One of the candidates is left for every lookahead that has any. */
  ghost predicate Resolved(g: Grammar, st: State, i: nat, fws: Family, ap: seq<Action>) {
    && Deterministic(ap)
    && (forall a :: a in ap && Live(a) ==> IsCandidate(g, st, i, fws, a))
    && (forall a :: IsCandidate(g, st, i, fws, a) ==> HasLive(ap, a.sp))
  }

  /** If no action lost a conflict, every candidate is in the list. */
  ghost predicate KeepsAll(g: Grammar, st: State, i: nat, fws: Family, ap: seq<Action>) {
    (forall a :: a in ap ==> Live(a)) ==> forall a :: IsCandidate(g, st, i, fws, a) ==> a in ap
  }

  /** The group that position `k` is in. */
  lemma GroupAround(ap: seq<Action>, k: nat) returns (lo: nat, hi: nat)
    requires k < |ap|
    ensures IsGroup(ap, lo, hi) && lo <= k < hi
  {
    lo, hi := k, k + 1;
    while lo > 0 && ap[lo - 1].sp == ap[k].sp
      invariant lo <= k && forall j :: lo <= j <= k ==> ap[j].sp == ap[k].sp
    {
      lo := lo - 1;
    }
    hi := GroupEnd(ap, lo, k + 1);
  }

  /** In a sorted list everything on one lookahead is in one group. */
  lemma SortedGroup(ap: seq<Action>, lo: nat, hi: nat, k: nat)
    requires SortedValues(ActionCmp, ap) && IsGroup(ap, lo, hi) && k < |ap| && ap[k].sp == ap[lo].sp
    ensures lo <= k < hi
  {
    if k < lo {
      assert false;
    } else if k >= hi {
      assert false;
    }
  }

  lemma DecidedIsResolved(g: Grammar, st: State, i: nat, fws: Family, ap0: seq<Action>, ap: seq<Action>)
    requires WellFormed(g) && Fresh(g, ap0) && SortedValues(ActionCmp, ap0) && Decided(g, ap0, ap, |ap0|)
    requires forall a :: a in ap0 <==> IsCandidate(g, st, i, fws, a)
    ensures Resolved(g, st, i, fws, ap)
  {
    hide WellFormed, Fresh, IsCandidate, Champion;
    forall k, l | 0 <= k < l < |ap| && Live(ap[k]) && Live(ap[l]) ensures ap[k].sp != ap[l].sp {
      var lo, hi := GroupAround(ap0, k);
      if ap[k].sp == ap[l].sp {
        SortedGroup(ap0, lo, hi, l);
        assert false;
      }
    }
    forall a | a in ap && Live(a) ensures IsCandidate(g, st, i, fws, a) {
      var k :| 0 <= k < |ap| && ap[k] == a;
      assert ap0[k] in ap0;
    }
    forall a | IsCandidate(g, st, i, fws, a) ensures HasLive(ap, a.sp) {
      var k :| 0 <= k < |ap0| && ap0[k] == a;
      var lo, hi := GroupAround(ap0, k);
      var c: nat := Champion(g, ap0, lo, hi);
      assert Live(ap[c]) && ap[c].sp == a.sp && ap[c] in ap;
    }
  }

  lemma DecidedKeepsAll(g: Grammar, st: State, i: nat, fws: Family, ap0: seq<Action>, ap: seq<Action>)
    requires WellFormed(g) && Fresh(g, ap0) && Decided(g, ap0, ap, |ap0|)
    requires forall a :: a in ap0 <==> IsCandidate(g, st, i, fws, a)
    ensures KeepsAll(g, st, i, fws, ap) && |ap| == |ap0|
  {
    assert Thinned(ap0, ap);
    hide WellFormed, Fresh, IsCandidate, Champion, Decided;
    if forall a :: a in ap ==> Live(a) {
      forall a | IsCandidate(g, st, i, fws, a) ensures a in ap {
        var k :| 0 <= k < |ap0| && ap0[k] == a;
        assert ap[k] in ap;
      }
    }
  }

  /** The grammar is small enough for every action list to fit into msort's bins. */
  ghost predicate FitsMsort(g: Grammar) {
    |AllItems(g)| * g.nterminal + g.nsymbol + 1 < Pow2(LISTSIZE)
  }

  lemma {:induction false} UniqueSize<T>(s: seq<T>, all: set<T>)
    requires NoDuplicates(s) && forall x :: x in s ==> x in all
    ensures |s| <= |all|
  {
    if s != [] {
      var (last, front) := (s[|s| - 1], s[..|s| - 1]);
      UniqueSize(front, all - {last});
    }
  }

  /** What FindStates guarantees of the shifts of a state. */
  ghost predicate GoodShiftSymbols(g: Grammar, st: State) {
    forall x :: x in st.shifts ==> 1 <= x < g.nsymbol && x != g.start
  }

  lemma ShiftSymbols(g: Grammar, lambda: seq<bool>, first: seq<set<nat>>, states: seq<State>, links: seq<Link>, i: nat)
    requires WellFormed(g) && StartNotInRhs(g) && IsAutomaton(g, lambda, first, states, links) && i < |states|
    ensures GoodShiftSymbols(g, states[i])
  {
    hide StatesInv, LinksInv;
    forall x | x in states[i].shifts ensures 1 <= x < g.nsymbol && x != g.start {
      ShiftIsGoto(g, lambda, first, states, links, i, x);
      var next :| next in Goto(g, Items(states[i].items), x);
      var it :| it in states[i].items && CanShift(g, it) && Next(g, it) == x && Advance(it) == next;
      assert WellFormedRule(g, g.rules[it.rule]);
    }
  }

  method CollectShifts(g: Grammar, st: State) returns (ap: seq<Action>)
    requires GoodShiftSymbols(g, st)
    ensures |ap| <= g.nsymbol && NoDuplicates(ap)
    ensures forall a :: a in ap <==> a.kind == Shift && a.sp in st.shifts && a.arg == st.shifts[a.sp]
  {
    ap := [];
    for x := 0 to g.nsymbol
      invariant |ap| <= x && NoDuplicates(ap)
      invariant forall a :: a in ap <==> a.kind == Shift && a.sp < x && a.sp in st.shifts && a.arg == st.shifts[a.sp]
    {
      if x in st.shifts { ap := ap + [Action(x, Shift, st.shifts[x])]; }
    }
  }

  /** The shifts of the state, its reduces by the complete items and their follow sets, and the accept of state 0. */
  method CollectActions(g: Grammar, st: State, i: nat, fws: Family) returns (ap: seq<Action>)
    requires WellFormed(g) && GoodShiftSymbols(g, st) && NoDuplicates(st.items)
    requires forall it :: it in st.items ==> GoodItem(g, it) && Config(i, it) in fws
    ensures forall a :: a in ap <==> IsCandidate(g, st, i, fws, a)
    ensures |ap| <= |st.items| * g.nterminal + g.nsymbol + 1 && NoDuplicates(ap)
  {
    hide *;
    ap := CollectShifts(g, st);
    ghost var shifts := ap;
    ghost var acc := Action(g.start, Accept, 0);
    var reds := CollectAllReduces(g, st.items, i, fws);
    forall a | a in reds ensures a !in shifts { if a.kind != Reduce { NotAReduce(g, st.items, i, fws, a); } }
    JoinedOnce(shifts, reds);
    ap := ap + reds;
    assert acc !in ap by {
      NotAReduce(g, st.items, i, fws, acc);
      assert acc.kind != Shift;
    }
    if i == 0 {
      AddedOnce(ap, acc);
      ap := ap + [Action(g.start, Accept, 0)];
    }
    CandidatesAre(g, st, i, fws, shifts);
  }

  lemma JoinedOnce<T>(a: seq<T>, b: seq<T>)
    requires NoDuplicates(a) && NoDuplicates(b) && forall x :: x in b ==> x !in a
    ensures NoDuplicates(a + b)
  {
    forall i, j | 0 <= i < j < |a + b| ensures (a + b)[i] != (a + b)[j] {
      if i < |a| <= j { assert b[j - |a|] in b && a[i] in a; }
    }
  }

  lemma AddedOnce<T>(a: seq<T>, x: T)
    requires NoDuplicates(a) && x !in a
    ensures NoDuplicates(a + [x])
  {
  }

  method CollectAllReduces(g: Grammar, items: seq<Item>, i: nat, fws: Family) returns (ap: seq<Action>)
    requires NoDuplicates(items) && forall it :: it in items ==> GoodItem(g, it) && Config(i, it) in fws
    ensures forall a :: a in ap <==> IsReduce(g, items, i, fws, a)
    ensures |ap| <= |items| * g.nterminal && NoDuplicates(ap)
  {
    hide *;
    ap := [];
    NoItems(g, i, fws);
    assert items[..0] == [];
    NoneTwice<Action>();
    for k := 0 to |items|
      invariant |ap| <= k * g.nterminal && NoDuplicates(ap)
      invariant forall a :: a in ap <==> IsReduce(g, items[..k], i, fws, a)
    {
      assert items[k] in items;
      var reds := CollectReduces(g, items[k], i, fws);
      MoreItems(g, items, k, i, fws);
      forall a | a in reds ensures a !in ap { OtherItem(g, items, k, i, fws, a); }
      JoinedOnce(ap, reds);
      ap := ap + reds;
      MulOneMore(k, g.nterminal);
    }
    assert items[..|items|] == items;
  }

  lemma NoneTwice<T>()
    ensures NoDuplicates<T>([])
  {
  }

  /** No two items give the same reduce. */
  lemma OtherItem(g: Grammar, items: seq<Item>, k: nat, i: nat, fws: Family, a: Action)
    requires NoDuplicates(items) && k < |items| && IsReduce(g, [items[k]], i, fws, a)
    ensures !IsReduce(g, items[..k], i, fws, a)
  {
  }

  lemma MulOneMore(k: nat, n: nat)
    ensures (k + 1) * n == k * n + n
  {
  }

  lemma NoItems(g: Grammar, i: nat, fws: Family)
    ensures forall a :: !IsReduce(g, [], i, fws, a)
  {
  }

  lemma MoreItems(g: Grammar, items: seq<Item>, k: nat, i: nat, fws: Family)
    requires k < |items|
    ensures forall a :: IsReduce(g, items[..k + 1], i, fws, a) <==>
        IsReduce(g, items[..k], i, fws, a) || IsReduce(g, [items[k]], i, fws, a)
  {
    assert items[..k + 1] == items[..k] + [items[k]];
  }

  lemma NotAReduce(g: Grammar, items: seq<Item>, i: nat, fws: Family, a: Action)
    requires a.kind != Reduce
    ensures !IsReduce(g, items, i, fws, a)
  {
  }

  lemma CandidatesAre(g: Grammar, st: State, i: nat, fws: Family, shifts: seq<Action>)
    requires forall a :: a in shifts <==> a.kind == Shift && a.sp in st.shifts && a.arg == st.shifts[a.sp]
    ensures forall a :: IsCandidate(g, st, i, fws, a) <==>
      a in shifts || IsReduce(g, st.items, i, fws, a) || (i == 0 && a == Action(g.start, Accept, 0))
  {
  }

  ghost predicate IsReduce(g: Grammar, items: seq<Item>, i: nat, fws: Family, a: Action) {
    && a.kind == Reduce && a.arg < |g.rules| && a.sp < g.nterminal
    && var c := Config(i, Item(a.arg, |g.rules[a.arg].rhs|));
       c.item in items && c in fws && a.sp in fws[c]
  }

  method CollectReduces(g: Grammar, it: Item, i: nat, fws: Family) returns (ap: seq<Action>)
    requires GoodItem(g, it) && Config(i, it) in fws
    ensures forall a :: a in ap <==> IsReduce(g, [it], i, fws, a)
    ensures |ap| <= g.nterminal && NoDuplicates(ap)
  {
    ap := [];
    if it.dot == |g.rules[it.rule].rhs| {
      assert it == Item(it.rule, |g.rules[it.rule].rhs|);
      for t := 0 to g.nterminal
        invariant |ap| <= t && NoDuplicates(ap)
        invariant forall a :: a in ap <==>
          a.kind == Reduce && a.arg == it.rule && a.sp < t && a.sp in fws[Config(i, it)]
      {
        if t in fws[Config(i, it)] { ap := ap + [Action(t, Reduce, it.rule)]; }
      }
    }
  }

  lemma {:induction false} TwiceCounts<T>(s: seq<T>, k: nat, l: nat)
    requires k < l < |s| && s[k] == s[l]
    ensures multiset(s)[s[k]] >= 2
  {
    assert s == s[..l] + s[l..];
    assert s[k] in multiset(s[..l]) by { assert s[..l][k] == s[k]; }
    assert s[l] in multiset(s[l..]) by { assert s[l..][0] == s[l]; }
  }

  lemma SortedCandidatesAreFresh(g: Grammar, st: State, i: nat, fws: Family, ap: seq<Action>)
    requires WellFormed(g) && GoodShiftSymbols(g, st) && SortedValues(ActionCmp, ap) && NoDuplicates(ap)
    requires forall a :: a in ap <==> IsCandidate(g, st, i, fws, a)
    ensures Fresh(g, ap)
  {
    forall k | 0 <= k < |ap|
      ensures InRange(g, ap[k]) && (ap[k].kind == Shift || ap[k].kind == Accept || ap[k].kind == Reduce)
    {
      assert IsCandidate(g, st, i, fws, ap[k]);
    }
    forall k, l | 0 <= k < l < |ap| && ap[k].sp == ap[l].sp
      ensures ap[k].kind != Accept && ap[l].kind != Accept && !(ap[k].kind == Reduce && ap[l].kind == Shift)
    {
      assert IsCandidate(g, st, i, fws, ap[k]) && IsCandidate(g, st, i, fws, ap[l]);
      assert ActionCmp(ap[k], ap[l]) <= 0;
    }
  }

  /** No two different candidates compete for a symbol. */
  ghost predicate NoConflict(g: Grammar, st: State, i: nat, fws: Family) {
    forall a, b :: IsCandidate(g, st, i, fws, a) && IsCandidate(g, st, i, fws, b) && a.sp == b.sp ==> a == b
  }

  /** `ap` is the sorted list of all candidates, of which the champions are left. */
  ghost predicate WellDecided(g: Grammar, st: State, i: nat, fws: Family, cands: seq<Action>, ap: seq<Action>)
    requires WellFormed(g)
  {
    && (forall a :: a in cands <==> IsCandidate(g, st, i, fws, a))
    && SortedValues(ActionCmp, cands) && NoDuplicates(cands)
    && Fresh(g, cands) && Decided(g, cands, ap, |cands|)
  }

  // ----- which action is left -----

  /** The candidate that all its rivals are sorted behind: the shift, or else the reduce by the first rule. */
  ghost predicate Foremost(g: Grammar, st: State, i: nat, fws: Family, a: Action) {
    && IsCandidate(g, st, i, fws, a)
    && forall b :: IsCandidate(g, st, i, fws, b) && b.sp == a.sp && b != a ==>
         b.kind == Reduce && (a.kind == Reduce ==> a.arg < b.arg)
  }

  /** The candidate that is left on its lookahead: the foremost one if that has no precedence, and otherwise the one
      that is over all others with precedence. */
  ghost predicate Chosen(g: Grammar, st: State, i: nat, fws: Family, a: Action) {
    && IsCandidate(g, st, i, fws, a)
    && exists l :: Foremost(g, st, i, fws, l) && l.sp == a.sp
         && if !Ranked(g, l) then a == l
            else
              && Ranked(g, a)
              && forall b :: IsCandidate(g, st, i, fws, b) && b.sp == a.sp && b != a ==> !Ranked(g, b) || Over(g, a, b)
  }

  lemma SameAction(a: Action, b: Action)
    ensures a.sp == b.sp && a.kind == b.kind && a.arg == b.arg ==> a == b
  {
  }

  lemma SortedCandidatesInOrder(g: Grammar, st: State, i: nat, fws: Family, ap: seq<Action>)
    requires SortedValues(ActionCmp, ap) && NoDuplicates(ap) && Fresh(g, ap)
    requires forall a :: a in ap <==> IsCandidate(g, st, i, fws, a)
    ensures InOrder(ap)
  {
    forall k, l | 0 <= k < l < |ap| ensures
      && ap[k].sp <= ap[l].sp
      && (ap[k].sp == ap[l].sp ==>
            && !(ap[k].kind == Shift && ap[l].kind == Shift) && !(ap[k].kind == Reduce && ap[l].kind == Shift)
            && (ap[k].kind == Reduce && ap[l].kind == Reduce ==> ap[k].arg < ap[l].arg))
    {
      assert IsCandidate(g, st, i, fws, ap[k]) && IsCandidate(g, st, i, fws, ap[l]);
      assert ActionCmp(ap[k], ap[l]) <= 0 && ap[k] != ap[l];
      SameAction(ap[k], ap[l]);
    }
  }

  lemma GroupRivals(g: Grammar, st: State, i: nat, fws: Family, cands: seq<Action>, lo: nat, hi: nat, b: Action)
    requires forall a :: a in cands <==> IsCandidate(g, st, i, fws, a)
    requires SortedValues(ActionCmp, cands) && IsGroup(cands, lo, hi)
    ensures IsCandidate(g, st, i, fws, b) && b.sp == cands[lo].sp <==> b in cands[lo..hi]
  {
    hide IsCandidate, SortedValues;
    if b in cands && b.sp == cands[lo].sp {
      var k :| 0 <= k < |cands| && cands[k] == b;
      SortedGroup(cands, lo, hi, k);
      assert cands[lo..hi][k - lo] == b;
    }
    if b in cands[lo..hi] {
      var k :| 0 <= k < hi - lo && cands[lo..hi][k] == b;
      assert cands[lo + k] == b;
    }
  }

  lemma FirstIsForemost(g: Grammar, st: State, i: nat, fws: Family, cands: seq<Action>, lo: nat, hi: nat)
    requires WellFormed(g) && Fresh(g, cands) && InOrder(cands)
    requires forall a :: a in cands <==> IsCandidate(g, st, i, fws, a)
    requires SortedValues(ActionCmp, cands) && IsGroup(cands, lo, hi)
    ensures Foremost(g, st, i, fws, cands[lo])
    ensures forall l :: Foremost(g, st, i, fws, l) && l.sp == cands[lo].sp ==> l == cands[lo]
  {
    hide IsCandidate, SortedValues, WellFormed;
    assert cands[lo] in cands;
    forall b | IsCandidate(g, st, i, fws, b) && b.sp == cands[lo].sp && b != cands[lo]
      ensures b.kind == Reduce && (cands[lo].kind == Reduce ==> cands[lo].arg < b.arg)
    {
      GroupRivals(g, st, i, fws, cands, lo, hi, b);
      var k :| 0 <= k < hi - lo && cands[lo..hi][k] == b;
      KindsOf(g, cands, lo, lo + k);
    }
  }

  /** The condition of `Chosen` inside a group with foremost action `l`. */
  ghost predicate ChosenIn(g: Grammar, group: seq<Action>, l: Action, a: Action) {
    && a in group
    && if !Ranked(g, l) then a == l
       else Ranked(g, a) && forall b :: b in group && b != a ==> !Ranked(g, b) || Over(g, a, b)
  }

  lemma ChosenInGroup(g: Grammar, st: State, i: nat, fws: Family, group: seq<Action>, l: Action, a: Action)
    requires forall b :: b in group <==> IsCandidate(g, st, i, fws, b) && b.sp == l.sp
    requires Foremost(g, st, i, fws, l) && forall k :: Foremost(g, st, i, fws, k) && k.sp == l.sp ==> k == l
    requires a.sp == l.sp
    ensures Chosen(g, st, i, fws, a) <==> ChosenIn(g, group, l, a)
  {
    hide IsCandidate, Foremost, Ranked, Over;
  }

  lemma BestIn(g: Grammar, cands: seq<Action>, lo: nat, hi: nat, c: nat, a: Action)
    requires lo <= c < hi <= |cands| && Best(g, cands, lo, hi, c)
    ensures ChosenIn(g, cands[lo..hi], cands[lo], a) <==> a == cands[c]
  {
    hide Ranked, Over;
    var group := cands[lo..hi];
    assert group[c - lo] == cands[c] && group[0] == cands[lo];
    forall b | b in group && b != cands[c] ensures Ranked(g, cands[lo]) ==> !Ranked(g, b) || Over(g, cands[c], b) {
      var k :| 0 <= k < hi - lo && group[k] == b;
      assert cands[lo + k] == b;
    }
    if ChosenIn(g, group, cands[lo], a) && a != cands[c] {
      NotBothOver(g, a, cands[c]);
      assert false;
    }
  }

  /** In a group the champion is the chosen one. */
  lemma BestIsChosen(g: Grammar, st: State, i: nat, fws: Family, cands: seq<Action>, lo: nat, hi: nat, c: nat,
      a: Action)
    requires WellFormed(g) && Fresh(g, cands) && InOrder(cands)
    requires forall a :: a in cands <==> IsCandidate(g, st, i, fws, a)
    requires SortedValues(ActionCmp, cands) && IsGroup(cands, lo, hi) && a.sp == cands[lo].sp
    requires lo <= c < hi && Best(g, cands, lo, hi, c)
    ensures Chosen(g, st, i, fws, a) <==> a == cands[c]
  {
    FirstIsForemost(g, st, i, fws, cands, lo, hi);
    hide IsCandidate, SortedValues, WellFormed, Fresh, Foremost, Best, Chosen, ChosenIn, InOrder;
    forall b ensures b in cands[lo..hi] <==> IsCandidate(g, st, i, fws, b) && b.sp == cands[lo].sp {
      GroupRivals(g, st, i, fws, cands, lo, hi, b);
    }
    ChosenInGroup(g, st, i, fws, cands[lo..hi], cands[lo], a);
    BestIn(g, cands, lo, hi, c, a);
  }

  /** What FindActions leaves on every lookahead, without the order of the list and without the meetings. */
  lemma DecidedIsChosen(g: Grammar, st: State, i: nat, fws: Family, cands: seq<Action>, ap: seq<Action>, a: Action)
    requires WellFormed(g) && WellDecided(g, st, i, fws, cands, ap)
    ensures a in ap && Live(a) <==> Chosen(g, st, i, fws, a)
  {
    hide WellFormed, Fresh, IsCandidate, Champion, SortedValues, Best, InOrder, Chosen;
    SortedCandidatesInOrder(g, st, i, fws, cands);
    if a in ap && Live(a) {
      var k :| 0 <= k < |ap| && ap[k] == a;
      var lo, hi := GroupAround(cands, k);
      ChampionIsBest(g, cands, lo, hi);
      BestIsChosen(g, st, i, fws, cands, lo, hi, k, a);
    }
    if Chosen(g, st, i, fws, a) {
      ChosenIsCandidate(g, st, i, fws, a);
      var k :| 0 <= k < |cands| && cands[k] == a;
      var lo, hi := GroupAround(cands, k);
      var c: nat := Champion(g, cands, lo, hi);
      ChampionIsBest(g, cands, lo, hi);
      BestIsChosen(g, st, i, fws, cands, lo, hi, c, a);
      assert Live(ap[c]) && ap[c] == a;
    }
  }

  lemma ChosenIsCandidate(g: Grammar, st: State, i: nat, fws: Family, a: Action)
    requires Chosen(g, st, i, fws, a)
    ensures IsCandidate(g, st, i, fws, a)
  {
  }

  /** The list is in the order of the lookaheads. */
  ghost predicate ByLookahead(ap: seq<Action>) {
    forall k, l :: 0 <= k < l < |ap| ==> ap[k].sp <= ap[l].sp
  }

  lemma DecidedByLookahead(g: Grammar, st: State, i: nat, fws: Family, cands: seq<Action>, ap: seq<Action>)
    requires WellFormed(g) && WellDecided(g, st, i, fws, cands, ap)
    ensures ByLookahead(ap)
  {
    SortedCandidatesInOrder(g, st, i, fws, cands);
    hide WellFormed, Fresh, IsCandidate, Champion, SortedValues;
  }

  /** FindActions for one state. */
  method StateActions(g: Grammar, st: State, i: nat, fws: Family)
    returns (ap: seq<Action>, nconflict: nat, ghost cands: seq<Action>)
    requires WellFormed(g) && GoodShiftSymbols(g, st) && FitsMsort(g) && NoDuplicates(st.items)
    requires forall it :: it in st.items ==> GoodItem(g, it) && Config(i, it) in fws
    ensures WellDecided(g, st, i, fws, cands, ap)
    ensures Resolved(g, st, i, fws, ap) && KeepsAll(g, st, i, fws, ap) && Sortable(ap)
    ensures (forall a :: a in ap ==> Live(a)) <==> NoConflict(g, st, i, fws)
    ensures (forall a :: a in ap && Live(a) <==> Chosen(g, st, i, fws, a)) && ByLookahead(ap)
    ensures nconflict == Clashes(g, cands, |cands|)
  {
    hide *;
    var all := CollectActions(g, st, i, fws);
    ItemsFit(g, st.items);
    IsSortable(all);
    var sorted := ActionSort(all);
    SameElements(sorted, all);
    OnceSorted(sorted, all);
    SortedCandidatesAreFresh(g, st, i, fws, sorted);
    ap, nconflict := ResolveConflicts(g, sorted);
    cands := sorted;
    DecidedIsResolved(g, st, i, fws, sorted, ap);
    DecidedKeepsAll(g, st, i, fws, sorted, ap);
    NowWellDecided(g, st, i, fws, sorted, ap);
    LiveIsNoConflict(g, st, i, fws, sorted, ap);
    forall a ensures a in ap && Live(a) <==> Chosen(g, st, i, fws, a) {
      DecidedIsChosen(g, st, i, fws, sorted, ap, a);
    }
    DecidedByLookahead(g, st, i, fws, sorted, ap);
    IsSortable(ap);
  }

  lemma IsSortable(ap: seq<Action>)
    ensures Sortable(ap) <==> |ap| < Pow2(LISTSIZE)
  {
  }

  lemma NowWellDecided(g: Grammar, st: State, i: nat, fws: Family, cands: seq<Action>, ap: seq<Action>)
    requires WellFormed(g) && (forall a :: a in cands <==> IsCandidate(g, st, i, fws, a))
    requires SortedValues(ActionCmp, cands) && NoDuplicates(cands) && Fresh(g, cands) && Decided(g, cands, ap, |cands|)
    ensures WellDecided(g, st, i, fws, cands, ap)
  {
    hide IsCandidate, Fresh, Decided, SortedValues;
  }

  lemma OnceSorted<T>(a: seq<T>, b: seq<T>)
    requires multiset(a) == multiset(b) && NoDuplicates(b)
    ensures NoDuplicates(a)
  {
    SameElements(a, b);
    forall i, j | 0 <= i < j < |a| ensures a[i] != a[j] {
      if a[i] == a[j] {
        TwiceCounts(a, i, j);
        assert a[i] in a;
        var k :| 0 <= k < |b| && b[k] == a[i];
        var l := AnotherOne(b, k);
        assert false;
      }
    }
  }

  /** The list comes out without a loser exactly when no two candidates compete. */
  lemma LiveIsNoConflict(g: Grammar, st: State, i: nat, fws: Family, cands: seq<Action>, ap: seq<Action>)
    requires WellFormed(g) && Resolved(g, st, i, fws, ap) && KeepsAll(g, st, i, fws, ap)
    requires WellDecided(g, st, i, fws, cands, ap)
    ensures (forall a :: a in ap ==> Live(a)) <==> NoConflict(g, st, i, fws)
  {
    hide WellFormed, IsCandidate, Fresh, Champion;
    if forall a :: a in ap ==> Live(a) {
      forall a, b | IsCandidate(g, st, i, fws, a) && IsCandidate(g, st, i, fws, b) && a.sp == b.sp ensures a == b {
        assert a in ap && b in ap;
      }
    }
    if NoConflict(g, st, i, fws) {
      forall a | a in ap ensures Live(a) {
        var k :| 0 <= k < |ap| && ap[k] == a;
        AloneIsLive(g, st, i, fws, cands, ap, k);
      }
    }
  }

  lemma OneForEach(g: Grammar, st: State, i: nat, fws: Family, cands: seq<Action>, ap: seq<Action>, j: nat, k: nat)
    requires WellFormed(g) && NoConflict(g, st, i, fws) && WellDecided(g, st, i, fws, cands, ap) && j < k < |cands|
    ensures cands[j].sp != cands[k].sp
  {
    hide WellFormed, IsCandidate, Fresh, Decided;
    assert cands[j] in cands && cands[k] in cands;
  }

  lemma AloneIsLive(g: Grammar, st: State, i: nat, fws: Family, cands: seq<Action>, ap: seq<Action>, k: nat)
    requires WellFormed(g) && NoConflict(g, st, i, fws) && WellDecided(g, st, i, fws, cands, ap) && k < |ap|
    ensures Live(ap[k])
  {
    hide WellFormed, IsCandidate, Fresh;
    var lo, hi := GroupAround(cands, k);
    if lo + 1 < |cands| { OneForEach(g, st, i, fws, cands, ap, lo, lo + 1); }
    assert hi == lo + 1;
    assert Champion(g, cands, lo, hi) == k;
  }

  lemma ItemsFit(g: Grammar, items: seq<Item>)
    requires FitsMsort(g) && NoDuplicates(items) && forall it :: it in items ==> GoodItem(g, it)
    ensures |items| * g.nterminal + g.nsymbol + 1 < Pow2(LISTSIZE)
  {
    forall it | it in items ensures it in AllItems(g) { assert it == Item(it.rule, it.dot); }
    UniqueSize(items, AllItems(g));
    MulMono(|items|, |AllItems(g)|, g.nterminal);
  }

  lemma MulMono(a: nat, b: nat, c: nat)
    requires a <= b
    ensures a * c <= b * c
  {
  }

  lemma AnotherOne<T>(s: seq<T>, i: nat) returns (j: nat)
    requires i < |s| && multiset(s)[s[i]] >= 2
    ensures j < |s| && j != i && s[j] == s[i]
  {
    var rest := s[..i] + s[i + 1..];
    assert s == s[..i] + [s[i]] + s[i + 1..];
    assert multiset(s) == multiset(rest) + multiset{s[i]};
    assert s[i] in rest by { assert multiset(rest)[s[i]] > 0; }
    var k :| 0 <= k < |rest| && rest[k] == s[i];
    j := if k < i then k else k + 1;
  }
}
