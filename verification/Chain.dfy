/** Grammars with a single rule, whose right-hand side is a string of terminals: what the generator makes of
    them, from the automaton to the rows of the packed table.  It leaves nothing open. */
module LemonChain {
  import opened Basics
  import opened LemonGrammar
  import opened LemonAutomaton
  import opened LemonFollowSets
  import opened LemonLookaheads
  import opened LemonMergeSort
  import opened LemonConflicts
  import opened LemonActions
  import opened LemonCompress
  import opened LemonOverlay
  import opened LemonActTab
  import opened LemonTables
  import opened LemonReport
  import opened LemonDriver
  import opened LemonComplete
  import opened LemonLalr
  import opened LemonPipeline

  ghost predicate IsChain(g: Grammar) {
    && WellFormed(g) && |g.rules| == 1 && g.rules[0].lhs == g.start == g.nterminal && g.nsymbol == g.nterminal + 1
    && |g.rules[0].rhs| > 0 && forall k :: 0 <= k < |g.rules[0].rhs| ==> 1 <= g.rules[0].rhs[k] < g.nterminal
  }

  /** The right-hand side. */
  function Rhs(g: Grammar): seq<nat> {
    if g.rules == [] then [] else g.rules[0].rhs
  }

  /** The kernel with the mark behind `k` symbols. */
  function At(k: nat): set<Item> { {Item(0, k)} }

  // ----- the automaton -----

  /** Nothing stands behind a mark that could be expanded. */
  lemma AllClosed(g: Grammar, d: set<Item>)
    requires IsChain(g)
    ensures Closed(g, d)
  {
    forall a, b ensures !Generates(g, a, b) {
      if CanShift(g, a) { assert Next(g, a) == Rhs(g)[a.dot]; }
    }
  }

  lemma ChainClosure(g: Grammar, k: set<Item>, c: set<Item>)
    requires IsChain(g)
    ensures IsClosure(g, k, c) <==> c == k
  {
    AllClosed(g, k);
    hide IsChain, Closed;
  }

  lemma ChainStart(g: Grammar)
    requires IsChain(g)
    ensures StartKernel(g) == At(0)
  {
  }

  lemma ChainGoto(g: Grammar, k: nat, x: nat)
    requires IsChain(g) && k <= |Rhs(g)|
    ensures Goto(g, At(k), x) == if k < |Rhs(g)| && Rhs(g)[k] == x then At(k + 1) else {}
  {
    assert CanShift(g, Item(0, k)) <==> k < |Rhs(g)|;
    if k < |Rhs(g)| && Rhs(g)[k] == x {
      assert Item(0, k) in At(k) && CanShift(g, Item(0, k)) && Next(g, Item(0, k)) == x;
      assert Advance(Item(0, k)) == Item(0, k + 1);
    }
  }

  lemma {:induction false} ChainLeads(g: Grammar, k: nat)
    requires IsChain(g) && k <= |Rhs(g)|
    ensures Leads(g, Rhs(g)[..k], At(k))
  {
    hide *;
    if k == 0 {
      ChainStart(g);
      StartLeads(g);
    } else {
      ChainLeads(g, k - 1);
      ChainClosure(g, At(k - 1), At(k - 1));
      ChainGoto(g, k - 1, Rhs(g)[k - 1]);
      MarkIn(k);
      LeadsOn(g, Rhs(g)[..k - 1], At(k - 1), At(k - 1), Rhs(g)[k - 1]);
      assert Rhs(g)[..k] == Rhs(g)[..k - 1] + [Rhs(g)[k - 1]];
    }
  }

  lemma StartLeads(g: Grammar)
    ensures Leads(g, [], StartKernel(g)) && Rhs(g)[..0] == []
  {
  }

  lemma MarkIn(k: nat)
    ensures Item(0, k) in At(k) && At(k) != {}
  {
  }

  lemma {:induction false} ChainLr1(g: Grammar, k: nat)
    requires IsChain(g) && k <= |Rhs(g)|
    ensures Lr1(g, Rhs(g)[..k], Item(0, k), 0, k)
  {
    hide *;
    if k == 0 {
      ChainStart(g);
      MarkIn(0);
      StartLr1(g, Item(0, 0));
      StartLeads(g);
    } else {
      ChainLr1(g, k - 1);
      ChainLeads(g, k - 1);
      ChainClosure(g, At(k - 1), At(k - 1));
      MarkIn(k - 1);
      NowCanShift(g, k - 1);
      Lr1On(g, Rhs(g)[..k - 1], At(k - 1), Item(0, k - 1), 0, k - 1);
      assert Rhs(g)[..k] == Rhs(g)[..k - 1] + [Rhs(g)[k - 1]];
    }
  }

  lemma NowCanShift(g: Grammar, k: nat)
    requires IsChain(g) && k < |Rhs(g)|
    ensures CanShift(g, Item(0, k)) && Next(g, Item(0, k)) == Rhs(g)[k] && Advance(Item(0, k)) == Item(0, k + 1)
  {
  }

  lemma StartLr1(g: Grammar, it: Item)
    requires it in StartKernel(g)
    ensures Lr1(g, [], it, 0, 0)
  {
  }

  /** A lookahead moves on with the mark. */
  lemma Lr1On(g: Grammar, path: seq<nat>, k: set<Item>, it: Item, t: nat, n: nat)
    requires Lr1(g, path, it, t, n) && Leads(g, path, k) && IsClosure(g, k, k) && it in k && CanShift(g, it)
    ensures Lr1(g, path + [Next(g, it)], Advance(it), t, n + 1)
  {
    hide Leads, IsClosure, StartKernel;
    var path' := path + [Next(g, it)];
    assert path'[..|path'| - 1] == path;
    assert ItemAfter(g, path, it);
  }

  /** State `i` has read `i` symbols. */
  ghost predicate ChainState(g: Grammar, st: State, i: nat) {
    && st.kernel == At(i) && st.items == [Item(0, i)]
    && st.shifts == if i < |Rhs(g)| then map[Rhs(g)[i] := i + 1] else map[]
  }

  ghost predicate ChainStates(g: Grammar, states: seq<State>) {
    |states| == |Rhs(g)| + 1 && forall i :: 0 <= i < |states| ==> ChainState(g, states[i], i)
  }

  /** What is needed of the automaton here. */
  ghost predicate Numbered(g: Grammar, states: seq<State>) {
    && Canonical(g, states) && Fed(states, 1) && |states| > 0 && states[0].kernel == StartKernel(g)
    && forall i :: 0 <= i < |states| ==> NoDuplicates(states[i].items)
  }

  lemma NowNumbered(b: Built)
    requires Follows(b) && Fed(b.m.states, 1)
    ensures Numbered(b.m.g, b.m.states)
  {
    hide IsInitial, IsLeast, Fed, LinksInv, Complete;
    AutomatonIsCanonical(b.m.g, b.lambda, b.first, b.m.states, b.links);
    hide Canonical, IsClosure, Reached, GoodShifts;
  }

  /** The items and the shifts of a state with such a kernel. */
  lemma ChainStep(g: Grammar, states: seq<State>, i: nat, k: nat, x: nat)
    requires IsChain(g) && Numbered(g, states) && i < |states| && states[i].kernel == At(k) && k <= |Rhs(g)|
    ensures Items(states[i].items) == At(k)
    ensures x in states[i].shifts <==> k < |Rhs(g)| && Rhs(g)[k] == x
    ensures x in states[i].shifts ==> states[i].shifts[x] < |states| && states[states[i].shifts[x]].kernel == At(k + 1)
  {
    ChainClosure(g, At(k), Items(states[i].items));
    ChainGoto(g, k, x);
    hide IsChain, IsClosure, Reached, Goto, Fed;
  }

  /** The states are numbered along the right-hand side. */
  lemma {:induction false} ChainKernel(g: Grammar, states: seq<State>, i: nat)
    requires IsChain(g) && Numbered(g, states) && i < |states|
    ensures i <= |Rhs(g)| && states[i].kernel == At(i)
    decreases i
  {
    hide *;
    ChainStart(g);
    NotEmptyTable(g, states);
    if i > 0 {
      var j, x := FedBy(g, states, i);
      ChainKernel(g, states, j);
      ChainStep(g, states, j, j, x);
      if j + 1 < i {
        ChainKernel(g, states, j + 1);
        SameKernel(g, states, j + 1, i);
      }
    }
  }

  lemma FedBy(g: Grammar, states: seq<State>, i: nat) returns (j: nat, x: nat)
    requires Numbered(g, states) && 1 <= i < |states|
    ensures j < i && x in states[j].shifts && states[j].shifts[x] == i
  {
    hide Canonical;
    assert IsFed(states, i);
    j, x :| 0 <= j < i && j < |states| && x in states[j].shifts && states[j].shifts[x] == i;
  }

  lemma SameKernel(g: Grammar, states: seq<State>, i: nat, j: nat)
    requires Numbered(g, states) && i < |states| && j < |states| && states[i].kernel == states[j].kernel
    ensures i == j
  {
    hide Fed, IsClosure, Reached, Goto, StartKernel;
  }

  lemma {:induction false} ChainReaches(g: Grammar, states: seq<State>, i: nat)
    requires IsChain(g) && Numbered(g, states) && i <= |Rhs(g)|
    ensures i < |states|
  {
    hide *;
    NotEmptyTable(g, states);
    if i > 0 {
      ChainReaches(g, states, i - 1);
      var next := ChainNext(g, states, i - 1);
    }
  }

  lemma NotEmptyTable(g: Grammar, states: seq<State>)
    requires Numbered(g, states)
    ensures |states| > 0 && states[0].kernel == StartKernel(g)
  {
    hide Canonical, Fed;
  }

  lemma ChainNext(g: Grammar, states: seq<State>, i: nat) returns (x: nat)
    requires IsChain(g) && Numbered(g, states) && i < |states| && i < |Rhs(g)|
    ensures x == Rhs(g)[i] && x in states[i].shifts && states[i].shifts[x] == i + 1 < |states|
  {
    hide *;
    x := Rhs(g)[i];
    ChainKernel(g, states, i);
    ChainStep(g, states, i, i, x);
    ChainKernel(g, states, states[i].shifts[x]);
    SameMark(i + 1, states[i].shifts[x]);
  }

  lemma SameMark(i: nat, j: nat)
    requires At(i) == At(j)
    ensures i == j
  {
    assert Item(0, i) in At(j);
  }

  lemma ChainStatesAre(g: Grammar, states: seq<State>)
    requires IsChain(g) && Numbered(g, states)
    ensures ChainStates(g, states)
  {
    hide IsChain, Numbered, At, Rhs;
    ChainReaches(g, states, |Rhs(g)|);
    if |states| > |Rhs(g)| + 1 { ChainKernel(g, states, |Rhs(g)| + 1); }
    forall i | 0 <= i < |states| ensures ChainState(g, states[i], i) {
      ChainStateIs(g, states, i);
    }
  }

  lemma ChainStateIs(g: Grammar, states: seq<State>, i: nat)
    requires IsChain(g) && Numbered(g, states) && i < |states|
    ensures ChainState(g, states[i], i)
  {
    hide IsChain, Canonical, Fed;
    var st := states[i];
    ChainKernel(g, states, i);
    forall x ensures x in st.shifts <==> i < |Rhs(g)| && Rhs(g)[i] == x { ChainStep(g, states, i, i, x); }
    ChainStep(g, states, i, i, 0);
    OneItem(st.items, Item(0, i));
    if i < |Rhs(g)| {
      var x := ChainNext(g, states, i);
      assert st.shifts == map[x := i + 1];
    } else {
      assert st.shifts == map[];
    }
  }

  lemma OneItem(s: seq<Item>, it: Item)
    requires NoDuplicates(s) && Items(s) == {it}
    ensures s == [it]
  {
    assert it in Items(s);
    forall k | 0 <= k < |s| ensures s[k] == it { assert s[k] in Items(s); }
    UniqueSize(s, {it});
  }

  // ----- the action lists -----

  /** The one action of state `i`, and the accept of state 0. */
  predicate ChainAction(g: Grammar, i: nat, a: Action) {
    || (i < |Rhs(g)| && a == Action(Rhs(g)[i], Shift, i + 1))
    || (i == |Rhs(g)| && a == Action(0, Reduce, 0))
    || (i == 0 && a == Action(g.start, Accept, 0))
  }

  ghost predicate ChainList(g: Grammar, ap: seq<Action>, i: nat) {
    forall a :: a in ap && Live(a) <==> ChainAction(g, i, a)
  }

  ghost predicate ChainLists(g: Grammar, acts: seq<seq<Action>>) {
    |acts| == |Rhs(g)| + 1 && forall s :: 0 <= s < |acts| ==> ChainList(g, acts[s], s)
  }

  lemma ChainLast(g: Grammar, states: seq<State>)
    requires IsChain(g) && ChainStates(g, states)
    ensures |g.rules| == 1 && g.rules[0].rhs == Rhs(g) && g.rules[0].lhs == g.start
    ensures |states| == |Rhs(g)| + 1 && var st := states[|Rhs(g)|];
      st.kernel == At(|Rhs(g)|) && Item(0, |Rhs(g)|) in st.items
  {
    assert ChainState(g, states[|Rhs(g)|], |Rhs(g)|);
  }

  lemma NowMerged(g: Grammar, path: seq<nat>, k: set<Item>, it: Item, t: nat, n: nat)
    requires Leads(g, path, k) && Lr1(g, path, it, t, n)
    ensures Merged(g, k, it, t)
  {
    hide Leads, Lr1;
  }

  lemma NowDue(b: Built, s: nat, r: nat, x: nat)
    requires r < |b.m.g.rules| && s < |b.m.states| && Item(r, |b.m.g.rules[r].rhs|) in b.m.states[s].items
    requires Config(s, Item(r, |b.m.g.rules[r].rhs|)) in b.fws && x in b.fws[Config(s, Item(r, |b.m.g.rules[r].rhs|))]
    ensures IsDue(b, s, r, x)
  {
  }

  /** Only the end marker follows the rule. */
  lemma ChainFollow(b: Built, x: nat)
    requires Follows(b) && StartNotInRhs(b.m.g) && IsChain(b.m.g) && ChainStates(b.m.g, b.m.states)
    ensures var n := |Rhs(b.m.g)|;
      Config(n, Item(0, n)) in b.fws && (x in b.fws[Config(n, Item(0, n))] <==> x == 0)
  {
    var (g, n) := (b.m.g, |Rhs(b.m.g)|);
    hide *;
    ChainLeads(g, n);
    ChainLr1(g, n);
    ChainLast(g, b.m.states);
    NowMerged(g, Rhs(g)[..n], At(n), Item(0, n), 0, n);
    FollowOf(b, n, Item(0, n), x);
    if x in b.fws[Config(n, Item(0, n))] {
      NowDue(b, n, 0, x);
      StartLookahead(b, n, 0, x);
    }
  }

  lemma ChainStateAt(g: Grammar, states: seq<State>, i: nat)
    requires ChainStates(g, states) && i < |states|
    ensures |states| == |Rhs(g)| + 1 && ChainState(g, states[i], i)
  {
    hide ChainState;
  }

  lemma StateCandidate(g: Grammar, st: State, i: nat, fws: Family, a: Action)
    requires IsChain(g) && ChainState(g, st, i)
    requires i <= |Rhs(g)| && Config(|Rhs(g)|, Item(0, |Rhs(g)|)) in fws
    requires a.sp in fws[Config(|Rhs(g)|, Item(0, |Rhs(g)|))] <==> a.sp == 0
    ensures IsCandidate(g, st, i, fws, a) <==> ChainAction(g, i, a)
  {
    assert IsCandidate(g, st, i, fws, a) && a.kind == Reduce ==> a.arg == 0;
    assert i < |Rhs(g)| ==> Item(0, |Rhs(g)|) !in st.items;
    hide WellFormed;
  }

  lemma ChainCandidate(b: Built, i: nat, a: Action)
    requires Follows(b) && StartNotInRhs(b.m.g) && IsChain(b.m.g) && ChainStates(b.m.g, b.m.states)
    requires i < |b.m.states|
    ensures IsCandidate(b.m.g, b.m.states[i], i, b.fws, a) <==> ChainAction(b.m.g, i, a)
  {
    hide *;
    ChainFollow(b, a.sp);
    ChainStateAt(b.m.g, b.m.states, i);
    StateCandidate(b.m.g, b.m.states[i], i, b.fws, a);
  }

  /** No two candidates compete, so all of them stay; and the only rule is a start rule, so nothing is folded. */
  lemma ChainListIs(b: Built, i: nat, ap: seq<Action>, dflt: Option<nat>, ap': seq<Action>)
    requires Follows(b) && StartNotInRhs(b.m.g) && IsChain(b.m.g) && ChainStates(b.m.g, b.m.states)
    requires i < |b.m.states| && Resolved(b.m.g, b.m.states[i], i, b.fws, ap) && Compressed(b.m.g, ap, dflt, ap')
    ensures ChainList(b.m.g, ap', i)
  {
    var g := b.m.g;
    hide Follows, StartNotInRhs, ChainStates, IsCandidate, Deterministic;
    forall a ensures a in ap && Live(a) <==> ChainAction(g, i, a) {
      ChainCandidate(b, i, a);
      if ChainAction(g, i, a) {
        assert HasLive(ap, a.sp);
        var c :| c in ap && Live(c) && c.sp == a.sp;
        ChainCandidate(b, i, c);
        assert c == a;
      }
    }
    assert dflt.None?;
  }

  lemma ChainIs(b: Built, w: Work)
    requires Generated(b, w) && IsChain(b.m.g)
    ensures ChainStates(b.m.g, b.m.states) && ChainLists(b.m.g, w.acts)
  {
    var (g, states) := (b.m.g, b.m.states);
    hide *;
    GeneratedParts(b, w);
    NowNumbered(b);
    ChainStatesAre(g, states);
    ChainSize(g, states);
    forall s | 0 <= s < |w.acts| ensures |w.acts| == |states| && ChainList(g, w.acts[s], s) {
      MadeSize(g, states, b.fws, w.raw, w.dflts, w.acts);
      MadeAt(g, states, b.fws, w.raw, w.dflts, w.acts, s);
      ChainListIs(b, s, w.raw[s], w.dflts[s], w.acts[s]);
    }
    MadeSize(g, states, b.fws, w.raw, w.dflts, w.acts);
    NowChainLists(g, w.acts);
  }

  lemma ChainSize(g: Grammar, states: seq<State>)
    requires IsChain(g) && ChainStates(g, states)
    ensures |states| == |Rhs(g)| + 1
  {
  }

  lemma MadeSize(g: Grammar, states: seq<State>, fws: Family, raw: seq<seq<Action>>, dflts: seq<Option<nat>>,
      acts: seq<seq<Action>>)
    requires AllMade(g, states, fws, raw, dflts, acts)
    ensures |acts| == |states|
  {
    hide Made;
  }

  lemma NowChainLists(g: Grammar, acts: seq<seq<Action>>)
    requires |acts| == |Rhs(g)| + 1 && forall s :: 0 <= s < |acts| ==> ChainList(g, acts[s], s)
    ensures ChainLists(g, acts)
  {
    hide ChainList;
  }

  // ----- the rows -----

  lemma RowIs(g: Grammar, row: seq<Entry>, e: Entry)
    requires GoodRow(g, row) && forall x :: x in row <==> x == e
    ensures row == [e]
  {
    forall k | 0 <= k < |row| ensures row[k] == e { assert row[k] in row; }
    assert e in row;
    UniqueSize(row, {e});
  }

  lemma RowEmpty(g: Grammar, row: seq<Entry>)
    requires GoodRow(g, row) && forall x :: x !in row
    ensures row == []
  {
    UniqueSize(row, {});
  }

  /** The number of an action, for `|Rhs(g)| + 1` states numbered by `pos`. */
  function ChainCode(g: Grammar, pos: seq<nat>, i: nat): int
    requires |pos| == |Rhs(g)| + 1 && i < |pos|
  {
    if i < |Rhs(g)| then pos[i + 1] else |Rhs(g)| + 1
  }

  function ChainToken(g: Grammar, i: nat): nat { if i < |Rhs(g)| then Rhs(g)[i] else 0 }

  /** The entries of a row are the codes of the live actions. */
  lemma RowEntryIs(g: Grammar, acts: seq<seq<Action>>, pos: seq<nat>, i: nat, tkn: bool, e: Entry)
    requires IsChain(g) && ChainLists(g, acts) && GoodLists(g, acts) && |pos| == |acts| && i < |acts|
    ensures ArgsInRange(g, |acts|, acts[i])
    ensures e in RowEntries(g, |acts|, pos, acts[i], tkn) <==>
      if tkn then e == Entry(ChainToken(g, i), ChainCode(g, pos, i)) else i == 0 && e == Entry(g.start, |acts| + 2)
  {
    var ap := acts[i];
    assert ChainList(g, ap, i) && ArgsInRange(g, |acts|, ap);
    RowEntriesAre(g, |acts|, pos, ap, tkn, e);
    hide GoodLists, ChainLists, ChainList, RowEntries;
    var (tok, acc) := (if i < |Rhs(g)| then Action(Rhs(g)[i], Shift, i + 1) else Action(0, Reduce, 0),
                       Action(g.start, Accept, 0));
    ChainListHas(g, ap, i, tok);
    ChainListHas(g, ap, i, acc);
    forall k | 0 <= k < |ap| && Live(ap[k]) ensures ap[k] == tok || (i == 0 && ap[k] == acc) {
      ChainListHas(g, ap, i, ap[k]);
    }
    if tok in ap { var k :| 0 <= k < |ap| && ap[k] == tok; }
    if acc in ap { var k :| 0 <= k < |ap| && ap[k] == acc; }
  }

  lemma ChainListHas(g: Grammar, ap: seq<Action>, i: nat, a: Action)
    requires ChainList(g, ap, i)
    ensures a in ap && Live(a) <==> ChainAction(g, i, a)
  {
    hide ChainAction, Live;
  }

  lemma ChainRow(g: Grammar, acts: seq<seq<Action>>, pos: seq<nat>, i: nat)
    requires IsChain(g) && ChainLists(g, acts) && GoodLists(g, acts) && |pos| == |acts| == |Rhs(g)| + 1 && i < |acts|
    ensures ArgsInRange(g, |acts|, acts[i])
    ensures RowEntries(g, |acts|, pos, acts[i], true) == [Entry(ChainToken(g, i), ChainCode(g, pos, i))]
    ensures RowEntries(g, |acts|, pos, acts[i], false) == if i == 0 then [Entry(g.start, |acts| + 2)] else []
  {
    var (tkn, nt) := (RowEntries(g, |acts|, pos, acts[i], true), RowEntries(g, |acts|, pos, acts[i], false));
    RowEntriesGood(g, |acts|, pos, acts[i], true);
    RowEntriesGood(g, |acts|, pos, acts[i], false);
    hide *;
    forall e ensures e in tkn <==> e == Entry(ChainToken(g, i), ChainCode(g, pos, i)) {
      RowEntryIs(g, acts, pos, i, true, e);
    }
    forall e ensures e in nt <==> i == 0 && e == Entry(g.start, |acts| + 2) { RowEntryIs(g, acts, pos, i, false, e); }
    RowIs(g, tkn, Entry(ChainToken(g, i), ChainCode(g, pos, i)));
    if i == 0 { RowIs(g, nt, Entry(g.start, |acts| + 2)); } else { RowEmpty(g, nt); }
  }

  // ----- ResortStates -----

  /** The state at position `p`, and the position of state `p`: all have one action on a terminal, so the latest
      comes first. */
  function Place(n: nat, p: nat): nat
    requires p <= n
  {
    if p == 0 then 0 else n + 1 - p
  }

  lemma ChainKey(g: Grammar, acts: seq<seq<Action>>, s: nat)
    requires IsChain(g) && ChainLists(g, acts) && GoodLists(g, acts) && s < |acts| == |Rhs(g)| + 1
    ensures KeyOf(g, acts, s) == StateKey(if s == 0 then 1 else 0, 1, s)
  {
    var some: seq<nat> := seq(|acts|, _ => 0);
    hide IsChain, ChainLists, GoodLists, RowEntries;
    ChainRow(g, acts, some, s);
  }

  lemma ChainResorted(g: Grammar, acts: seq<seq<Action>>, sorted: seq<nat>, pos: seq<nat>, p: nat, q: nat)
    requires IsChain(g) && ChainLists(g, acts) && GoodLists(g, acts) && |acts| == |Rhs(g)| + 1
    requires Resorted(g, acts, sorted) && Renumbering(|acts|, sorted, pos) && 1 <= p < q < |acts|
    ensures |sorted| == |acts| && sorted[p] > sorted[q] > 0
  {
    hide IsChain, ChainLists, GoodLists, KeyOf;
    assert pos[sorted[p]] == p && pos[sorted[q]] == q && pos[sorted[0]] == 0;
    ChainKey(g, acts, sorted[p]);
    ChainKey(g, acts, sorted[q]);
    assert StateCmp(KeyOf(g, acts, sorted[p]), KeyOf(g, acts, sorted[q])) <= 0;
  }

  /** A decreasing numbering from `1 .. n` to itself. */
  ghost predicate Falling(n: nat, sorted: seq<nat>) {
    && |sorted| == n + 1 && sorted[0] == 0 && (forall p :: 1 <= p <= n ==> 1 <= sorted[p] <= n)
    && forall p, q :: 1 <= p < q <= n ==> sorted[p] > sorted[q]
  }

  lemma {:induction false} FallingLow(n: nat, sorted: seq<nat>, p: nat)
    requires Falling(n, sorted) && 1 <= p <= n
    ensures sorted[p] >= n + 1 - p
    decreases n - p
  {
    if p < n { FallingLow(n, sorted, p + 1); }
  }

  lemma {:induction false} FallingHigh(n: nat, sorted: seq<nat>, p: nat)
    requires Falling(n, sorted) && 1 <= p <= n
    ensures sorted[p] <= n + 1 - p
  {
    if p > 1 { FallingHigh(n, sorted, p - 1); }
  }

  /** What the lists and their numbering are for a chain. */
  ghost predicate ChainInput(g: Grammar, acts: seq<seq<Action>>, sorted: seq<nat>, pos: seq<nat>) {
    && IsChain(g) && ChainLists(g, acts) && Input(g, acts, sorted, pos)
    && |sorted| == |pos| == |acts| == |Rhs(g)| + 1
    && forall p: nat :: p < |acts| ==> sorted[p] == pos[p] == Place(|Rhs(g)|, p)
  }

  lemma ChainPlaces(g: Grammar, acts: seq<seq<Action>>, sorted: seq<nat>, pos: seq<nat>)
    requires IsChain(g) && ChainLists(g, acts) && Input(g, acts, sorted, pos) && Resorted(g, acts, sorted)
    ensures ChainInput(g, acts, sorted, pos)
  {
    var n := |Rhs(g)|;
    assert |acts| == n + 1;
    hide IsChain, ChainLists, WellFormed, GoodLists, Resorted, Rhs;
    forall p, q | 1 <= p < q <= n ensures sorted[p] > sorted[q] { ChainResorted(g, acts, sorted, pos, p, q); }
    forall p | 1 <= p <= n ensures 1 <= sorted[p] <= n { assert pos[sorted[p]] == p && pos[sorted[0]] == 0; }
    forall p: nat | p <= n ensures sorted[p] == Place(n, p) {
      if p > 0 {
        FallingLow(n, sorted, p);
        FallingHigh(n, sorted, p);
      }
    }
    forall p: nat | p <= n ensures pos[p] == Place(n, p) { assert pos[sorted[Place(n, p)]] == Place(n, p); }
  }

  /** The rows by state number. */
  lemma ChainRowFor(g: Grammar, acts: seq<seq<Action>>, sorted: seq<nat>, pos: seq<nat>, p: nat)
    requires ChainInput(g, acts, sorted, pos) && p < |acts|
    ensures Input(g, acts, sorted, pos) && |acts| == |Rhs(g)| + 1
    ensures RowFor(g, acts, sorted, pos, p, false) == if p == 0 then [Entry(g.start, |acts| + 2)] else []
    ensures
      var n := |Rhs(g)|;
      RowFor(g, acts, sorted, pos, p, true) ==
        [if p == 0 then Entry(Rhs(g)[0], n) else if p == 1 then Entry(0, n + 1) else Entry(Rhs(g)[n + 1 - p], p - 1)]
  {
    hide IsChain, ChainLists, GoodLists, WellFormed, RowEntries, Renumbering, Rhs;
    SomeSymbol(g);
    var s := Place(|Rhs(g)|, p);
    assert sorted[p] == s;
    ChainRow(g, acts, pos, s);
    if s < |Rhs(g)| { assert pos[s + 1] == Place(|Rhs(g)|, s + 1); }
  }

  lemma SomeSymbol(g: Grammar)
    requires IsChain(g)
    ensures |Rhs(g)| > 0
  {
  }

  // ----- the order of the rows -----

  /** axset_compare: the terminal rows from the last state to the second, the two rows of state 0, the empty ones. */
  function ChainOrder(n: nat): seq<AxSet> {
    seq(2 * n + 2, i requires 0 <= i < 2 * n + 2 =>
      if i < n then AxSet(n - i, true, 1, 2 * (n - i))
      else if i == n then AxSet(0, false, 1, 1)
      else if i == n + 1 then AxSet(0, true, 1, 0)
      else AxSet(2 * n + 2 - i, false, 0, 2 * (2 * n + 2 - i) + 1))
  }

  lemma ChainAx(g: Grammar, acts: seq<seq<Action>>, sorted: seq<nat>, pos: seq<nat>, p: nat, tkn: bool)
    requires ChainInput(g, acts, sorted, pos) && p < |acts|
    ensures Input(g, acts, sorted, pos)
    ensures AxFor(g, acts, sorted, pos, p, tkn) ==
      AxSet(p, tkn, if tkn || p == 0 then 1 else 0, if tkn then 2 * p else 2 * p + 1)
  {
    ChainRowFor(g, acts, sorted, pos, p);
    hide ChainInput, Input, RowFor;
  }

  /** The place of a row in that order. */
  function RowPlace(n: nat, p: nat, tkn: bool): nat
    requires p <= n
  {
    if p == 0 then (if tkn then n + 1 else n) else if tkn then n - p else 2 * n + 2 - p
  }

  lemma ChainOrderHas(n: nat, p: nat, tkn: bool)
    requires p <= n
    ensures RowPlace(n, p, tkn) < |ChainOrder(n)| && ChainOrder(n)[RowPlace(n, p, tkn)] ==
        AxSet(p, tkn, if tkn || p == 0 then 1 else 0, if tkn then 2 * p else 2 * p + 1)
  {
  }

  lemma ChainOrderOnly(n: nat, k: nat)
    requires k < 2 * n + 2
    ensures |ChainOrder(n)| == 2 * n + 2 && ChainOrder(n)[k].p <= n
    ensures ChainOrder(n)[k] == var (p, tkn) := (ChainOrder(n)[k].p, ChainOrder(n)[k].isTkn);
      AxSet(p, tkn, if tkn || p == 0 then 1 else 0, if tkn then 2 * p else 2 * p + 1)
  {
  }

  lemma ChainOrderSorted(n: nat)
    ensures SortedValues(AxCmp, ChainOrder(n)) && |ChainOrder(n)| == 2 * n + 2
    ensures forall k, l :: 0 <= k < l < 2 * n + 2 ==> ChainOrder(n)[k] != ChainOrder(n)[l]
    ensures forall k :: 0 <= k < n + 2 ==> ChainOrder(n)[k].nAction > 0
    ensures n > 0 ==> ChainOrder(n)[n + 2].nAction == 0
  {
  }

  lemma ChainOrderIs(g: Grammar, acts: seq<seq<Action>>, sorted: seq<nat>, pos: seq<nat>)
    requires ChainInput(g, acts, sorted, pos)
    ensures Input(g, acts, sorted, pos) && IsOrder(g, acts, sorted, pos, ChainOrder(|Rhs(g)|), |Rhs(g)| + 2)
  {
    var (n, order) := (|Rhs(g)|, ChainOrder(|Rhs(g)|));
    assert |acts| == n + 1;
    ChainOrderSorted(n);
    SomeSymbol(g);
    hide ChainInput, Input, AxFor, Rhs, ChainOrder, RowPlace, AxCmp;
    ChainAx(g, acts, sorted, pos, 0, true);
    forall p: nat, tkn | p < |acts| ensures AxFor(g, acts, sorted, pos, p, tkn) in order {
      ChainAx(g, acts, sorted, pos, p, tkn);
      ChainOrderHas(n, p, tkn);
    }
    forall k | 0 <= k < |order|
      ensures order[k].p < |acts| && order[k] == AxFor(g, acts, sorted, pos, order[k].p, order[k].isTkn)
    {
      ChainOrderOnly(n, k);
      ChainAx(g, acts, sorted, pos, order[k].p, order[k].isTkn);
    }
  }

  /** There is no other layout: row number `i` is that of state `i + 1`. */
  lemma ChainLayout(g: Grammar, acts: seq<seq<Action>>, sorted: seq<nat>, pos: seq<nat>, order: seq<AxSet>, k: nat,
      i: nat)
    requires ChainInput(g, acts, sorted, pos) && i < |Rhs(g)|
    requires Input(g, acts, sorted, pos) && IsOrder(g, acts, sorted, pos, order, k)
    ensures AllRows(g, acts, sorted, pos, order) && forall j :: 0 <= j < k <= |order| ==> order[j].nAction > 0
    ensures i < k == |Rhs(g)| + 2 <= |order| && order[i] == AxSet(|Rhs(g)| - i, true, 1, 2 * (|Rhs(g)| - i))
    ensures RowLists(g, acts, sorted, pos, order, k)[i] ==
      [if i + 1 < |Rhs(g)| then Entry(Rhs(g)[i + 1], |Rhs(g)| - 1 - i) else Entry(0, |Rhs(g)| + 1)]
  {
    var n := |Rhs(g)|;
    hide *;
    ChainOrderIs(g, acts, sorted, pos);
    OrderUnique(g, acts, sorted, pos, order, k, ChainOrder(n), n + 2);
    OrderParts(g, acts, sorted, pos, order, k);
    ChainOrderAt(n, i);
    var p := ListIs(g, acts, sorted, pos, order, k, i);
    ChainRowFor(g, acts, sorted, pos, p);
  }

  lemma ChainOrderAt(n: nat, i: nat)
    requires i < n
    ensures |ChainOrder(n)| == 2 * n + 2 && ChainOrder(n)[i] == AxSet(n - i, true, 1, 2 * (n - i))
  {
  }

  // ----- the run over the right-hand side -----

  /** After the calls of Parse for the tokens `w`, each of which ends with a shift at once, the stack is `st`. */
  ghost predicate ShiftsTo(t: Tables, w: seq<nat>, st: seq<StackEntry>) {
    if w == [] then st == Bottom()
    else
      && |st| > 1 && |t.action| == |t.lookahead|
      && var (before, x) := (st[..|st| - 1], w[|w| - 1]);
         && ShiftsTo(t, w[..|w| - 1], before) && Top(before).stateno < |t.dflt|
         && FindShiftAction(t, Top(before).stateno, x) == Top(st).stateno < t.nstate && Top(st).major == x
  }

  function ChainStack(g: Grammar, k: nat): seq<StackEntry>
    requires k <= |Rhs(g)|
  {
    seq(k + 1, i requires 0 <= i <= k =>
      if i == 0 then StackEntry(0, 0) else StackEntry(Place(|Rhs(g)|, i), Rhs(g)[i - 1]))
  }

  /** Its own action is always found, however the rows are packed. */
  lemma ChainLookup(g: Grammar, acts: seq<seq<Action>>, sorted: seq<nat>, pos: seq<nat>, lay: Layout, t: Tables, i: nat)
    requires ChainInput(g, acts, sorted, pos) && Input(g, acts, sorted, pos) && IsReport(g, acts, sorted, pos, lay, t)
    requires i <= |Rhs(g)|
    ensures t.nstate == |Rhs(g)| + 1 == |t.dflt| && |t.action| == |t.lookahead| && Place(|Rhs(g)|, i) < t.nstate
    ensures FindShiftAction(t, Place(|Rhs(g)|, i), ChainToken(g, i)) ==
      if i < |Rhs(g)| then Place(|Rhs(g)|, i + 1) else t.nstate
  {
    hide *;
    var (n, p) := (|Rhs(g)|, Place(|Rhs(g)|, i));
    var a := ChainTokenAction(g, i);
    ReportIs(g, acts, sorted, pos, lay, t);
    FrameParts(g, acts, sorted, t);
    ChainHasAction(g, acts, sorted, pos, i, a);
    OwnShiftLookup(g, acts, sorted, pos, lay, t, p, a);
    FoundShift(t, p, a.sp);
    ChainCodeIs(g, acts, sorted, pos, i, a);
  }

  lemma ChainTokenAction(g: Grammar, i: nat) returns (a: Action)
    requires i <= |Rhs(g)|
    ensures ChainAction(g, i, a) && a.kind != Accept
  {
    a := if i < |Rhs(g)| then Action(Rhs(g)[i], Shift, i + 1) else Action(0, Reduce, 0);
  }

  lemma ChainHasAction(g: Grammar, acts: seq<seq<Action>>, sorted: seq<nat>, pos: seq<nat>, i: nat, a: Action)
    requires ChainInput(g, acts, sorted, pos) && i <= |Rhs(g)| && ChainAction(g, i, a) && a.kind != Accept
    ensures |acts| == |sorted| == |Rhs(g)| + 1 && Place(|Rhs(g)|, i) < |acts| && sorted[Place(|Rhs(g)|, i)] == i
    ensures a in acts[i] && Live(a) && a.sp == ChainToken(g, i) < g.nterminal
  {
    assert ChainList(g, acts[i], i);
    hide Input;
    assert sorted[Place(|Rhs(g)|, i)] == Place(|Rhs(g)|, Place(|Rhs(g)|, i));
  }

  lemma ChainCodeIs(g: Grammar, acts: seq<seq<Action>>, sorted: seq<nat>, pos: seq<nat>, i: nat, a: Action)
    requires ChainInput(g, acts, sorted, pos) && i <= |Rhs(g)| && ChainAction(g, i, a) && a.kind != Accept
    ensures |pos| == |acts| == |Rhs(g)| + 1 && (a.kind == Shift ==> a.arg < |acts|)
    ensures Code(g, |acts|, pos, a) == if i < |Rhs(g)| then Place(|Rhs(g)|, i + 1) else |acts|
  {
    hide Input, IsChain, ChainLists;
  }

  lemma {:induction false} ChainRun(g: Grammar, acts: seq<seq<Action>>, sorted: seq<nat>, pos: seq<nat>, lay: Layout,
      t: Tables, k: nat)
    requires ChainInput(g, acts, sorted, pos) && Input(g, acts, sorted, pos) && IsReport(g, acts, sorted, pos, lay, t)
    requires k <= |Rhs(g)|
    ensures ShiftsTo(t, Rhs(g)[..k], ChainStack(g, k))
  {
    hide *;
    if k == 0 {
      NothingShifted(g, t);
    } else {
      ChainRun(g, acts, sorted, pos, lay, t, k - 1);
      ChainLookup(g, acts, sorted, pos, lay, t, k - 1);
      ChainLookup(g, acts, sorted, pos, lay, t, k);
      OneMoreShift(g, t, k);
    }
  }

  lemma NothingShifted(g: Grammar, t: Tables)
    ensures ShiftsTo(t, Rhs(g)[..0], ChainStack(g, 0))
  {
  }

  lemma OneMoreShift(g: Grammar, t: Tables, k: nat)
    requires 0 < k <= |Rhs(g)| && ShiftsTo(t, Rhs(g)[..k - 1], ChainStack(g, k - 1))
    requires t.nstate == |Rhs(g)| + 1 == |t.dflt| && |t.action| == |t.lookahead| && Place(|Rhs(g)|, k) < t.nstate
    requires Place(|Rhs(g)|, k - 1) < t.nstate
    requires FindShiftAction(t, Place(|Rhs(g)|, k - 1), ChainToken(g, k - 1)) == Place(|Rhs(g)|, k)
    ensures ShiftsTo(t, Rhs(g)[..k], ChainStack(g, k))
  {
    var (w, st) := (Rhs(g)[..k], ChainStack(g, k));
    assert w[..k - 1] == Rhs(g)[..k - 1] && w[k - 1] == Rhs(g)[k - 1];
    assert st[..k] == ChainStack(g, k - 1) && Top(st) == StackEntry(Place(|Rhs(g)|, k), Rhs(g)[k - 1]);
    assert Top(st[..k]).stateno == Place(|Rhs(g)|, k - 1);
    hide FindShiftAction, Rhs, ChainStack;
  }

  // ----- what holds of every chain -----

  /** A chain has no conflicts. */
  lemma ChainIsLalr1(b: Built)
    requires Follows(b) && StartNotInRhs(b.m.g) && IsChain(b.m.g) && ChainStates(b.m.g, b.m.states)
    ensures Lalr1(b.m.g)
  {
    hide *;
    forall s | 0 <= s < |b.m.states| ensures NoConflict(b.m.g, b.m.states[s], s, b.fws) {
      OneCandidateEach(b, s);
    }
    NowNoConflicts(b);
    NoConflictsIsLalr1(b);
  }

  lemma NowNoConflicts(b: Built)
    requires forall s :: 0 <= s < |b.m.states| ==> NoConflict(b.m.g, b.m.states[s], s, b.fws)
    ensures NoConflicts(b)
  {
    hide NoConflict;
  }

  lemma OneCandidateEach(b: Built, s: nat)
    requires Follows(b) && StartNotInRhs(b.m.g) && IsChain(b.m.g) && ChainStates(b.m.g, b.m.states)
    requires s < |b.m.states|
    ensures NoConflict(b.m.g, b.m.states[s], s, b.fws)
  {
    var (g, st) := (b.m.g, b.m.states[s]);
    hide Follows, StartNotInRhs, ChainStates, IsCandidate, WellFormed;
    forall x, y | IsCandidate(g, st, s, b.fws, x) && IsCandidate(g, st, s, b.fws, y) && x.sp == y.sp ensures x == y {
      ChainCandidate(b, s, x);
      ChainCandidate(b, s, y);
    }
  }

  /** Its rule can always be reduced, so it is short exactly if its right-hand side is. */
  lemma ChainIsShort(g: Grammar)
    requires IsChain(g)
    ensures ShortRules(g) <==> |Rhs(g)| < 256
  {
    hide *;
    var n := |Rhs(g)|;
    ChainLeads(g, n);
    ChainClosure(g, At(n), At(n));
    MarkIn(n);
    OnlyRule(g);
    NowReducible(g, Rhs(g)[..n], At(n), At(n), 0);
    OneShort(g);
  }

  lemma OnlyRule(g: Grammar)
    requires IsChain(g)
    ensures |g.rules| == 1 && g.rules[0].rhs == Rhs(g) && g.rules[0].lhs == g.start
  {
  }

  lemma NowReducible(g: Grammar, path: seq<nat>, k: set<Item>, c: set<Item>, r: nat)
    requires Leads(g, path, k) && IsClosure(g, k, c) && r < |g.rules| && Item(r, |g.rules[r].rhs|) in c
    ensures Reducible(g, r)
  {
    hide Leads, IsClosure;
  }

  lemma OneShort(g: Grammar)
    requires |g.rules| == 1 && g.rules[0].rhs == Rhs(g) && Reducible(g, 0)
    ensures ShortRules(g) <==> |Rhs(g)| < 256
  {
    hide Reducible;
  }

  /** The stored length is what is left of it modulo 256; only state 0 has a goto. */
  lemma ChainTables(g: Grammar, acts: seq<seq<Action>>, sorted: seq<nat>, pos: seq<nat>, lay: Layout, t: Tables, p: nat,
      x: nat)
    requires ChainInput(g, acts, sorted, pos) && Input(g, acts, sorted, pos) && IsReport(g, acts, sorted, pos, lay, t)
    requires 1 <= p < |acts|
    ensures t.ruleNrhs == [|Rhs(g)| % 256] && !ReduceActionThere(t, p, x)
  {
    hide *;
    ReportParts(g, acts, sorted, pos, lay, t);
    FrameParts(g, acts, sorted, t);
    ChainParts(g, acts, sorted, pos);
    OnlyRule(g);
    forall q: nat | 1 <= q < |acts| ensures lay.nt[q] == NO_OFFSET {
      ChainRowFor(g, acts, sorted, pos, q);
      EmptyUnplaced(g, acts, sorted, pos, PackedTable(g, acts, sorted, pos, lay), t, lay.nt, lay.mnN, q);
    }
    OneOffset(lay.nt, lay.mnN - 1, t.reduceOfst);
    NoGoto(t, p, x);
  }

  lemma ChainParts(g: Grammar, acts: seq<seq<Action>>, sorted: seq<nat>, pos: seq<nat>)
    requires ChainInput(g, acts, sorted, pos)
    ensures IsChain(g) && Input(g, acts, sorted, pos) && |sorted| == |pos| == |acts| == |Rhs(g)| + 1
    ensures forall p: nat :: p < |acts| ==> sorted[p] == pos[p] == Place(|Rhs(g)|, p)
  {
    hide Input, IsChain, ChainLists;
  }

  lemma EmptyUnplaced(g: Grammar, acts: seq<seq<Action>>, sorted: seq<nat>, pos: seq<nat>, tb: Placing, t: Tables,
      nt: seq<int>, mn: int, q: nat)
    requires Input(g, acts, sorted, pos) && q < |acts| && RowFor(g, acts, sorted, pos, q, false) == []
    requires RowsWritten(g, acts, sorted, pos, tb.tab, tb.n, t.action, t.lookahead, tb.rows, false, nt, mn,
        t.reduceOfst)
    ensures |nt| == |acts| && nt[q] == NO_OFFSET
  {
    hide Input, RowFor, Held, IsEmitted, IsOffsets, IsLeastOffset;
  }

  lemma OneOffset(ofst: seq<int>, useDflt: int, out: seq<int>)
    requires IsOffsets(ofst, useDflt, out) && forall q :: 1 <= q < |ofst| ==> ofst[q] == NO_OFFSET
    ensures |out| <= 1
  {
  }

  lemma NoGoto(t: Tables, p: nat, x: nat)
    requires |t.reduceOfst| <= 1 <= p
    ensures !ReduceActionThere(t, p, x)
  {
  }

  // ----- its language -----

  lemma TerminalsDoNotStep(g: Grammar, u: seq<nat>, v: seq<nat>)
    requires IsChain(g) && forall k :: 0 <= k < |u| ==> u[k] < g.nterminal
    ensures !LemonGrammar.Step(g, u, v)
  {
  }

  lemma OnlyStep(g: Grammar, v: seq<nat>)
    requires IsChain(g) && LemonGrammar.Step(g, [g.start], v)
    ensures v == Rhs(g)
  {
    var i: nat, r: nat :| StepAt(g, [g.start], i, r, v);
    assert v == [] + Rhs(g) + [];
  }

  /** A chain has one sentence. */
  lemma ChainLanguage(g: Grammar, w: seq<nat>)
    requires IsChain(g) && Tokens(g, w)
    ensures Derives(g, [g.start], w) <==> w == Rhs(g)
  {
    hide StepAt, WellFormed;
    assert |w| > 0 ==> w[0] != g.start;
    if w == Rhs(g) {
      RuleStep(g, 0, [], []);
      assert [] + [g.start] + [] == [g.start] && [] + Rhs(g) + [] == Rhs(g);
      DerivesRefl(g, w);
      DerivesStep(g, [g.start], w, w);
    }
    if n: nat :| DerivesIn(g, [g.start], w, n) {
      if n == 0 {
        assert false;
      }
      var u :| LemonGrammar.Step(g, [g.start], u) && DerivesIn(g, u, w, n - 1);
      OnlyStep(g, u);
      if n > 1 {
        var v :| LemonGrammar.Step(g, u, v) && DerivesIn(g, v, w, n - 2);
        TerminalsDoNotStep(g, u, v);
        assert false;
      }
    }
  }
}
