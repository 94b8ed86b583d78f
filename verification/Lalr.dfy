/** When a grammar has no conflicts: said of the grammar alone, and decided by FindActions. */
module LemonLalr {
  import opened LemonGrammar
  import opened LemonFirstSets
  import opened LemonAutomaton
  import opened LemonFollowSets
  import opened LemonLookaheads
  import opened LemonConflicts
  import opened LemonActions
  import opened LemonComplete

  /** In the LR(0) state with kernel `k` and closure `c`, rule `r` is complete and `t` is one of the
      merged LR(1) lookaheads of its item. */
  ghost predicate ReduceOn(g: Grammar, k: set<Item>, c: set<Item>, r: nat, t: nat) {
    r < |g.rules| && t < g.nterminal && Item(r, |g.rules[r].rhs|) in c && Merged(g, k, Item(r, |g.rules[r].rhs|), t)
  }

  ghost predicate ShiftOn(g: Grammar, c: set<Item>, t: nat) {
    exists it :: it in c && CanShift(g, it) && Next(g, it) == t
  }

  /** State `k` never has to choose. */
  ghost predicate ConflictFree(g: Grammar, k: set<Item>, c: set<Item>) {
    forall r, t :: ReduceOn(g, k, c, r, t) ==> !ShiftOn(g, c, t) && forall q :: ReduceOn(g, k, c, q, t) ==> q == r
  }

  /** The grammar is LALR(1), with the lookaheads of `Lr1`: no state of its canonical LR(0) collection has to choose. */
  ghost predicate Lalr1(g: Grammar) {
    forall k, c :: Reached(g, k) && IsClosure(g, k, c) ==> ConflictFree(g, k, c)
  }

  /** No candidates of any state compete. */
  ghost predicate NoConflicts(b: Built) {
    forall s :: 0 <= s < |b.m.states| ==> NoConflict(b.m.g, b.m.states[s], s, b.fws)
  }

  lemma StateHas(b: Built, s: nat)
    requires Follows(b) && StartNotInRhs(b.m.g) && s < |b.m.states|
    ensures IsClosure(b.m.g, b.m.states[s].kernel, Items(b.m.states[s].items)) && Reached(b.m.g, b.m.states[s].kernel)
    ensures GoodShiftSymbols(b.m.g, b.m.states[s]) && b.m.g.nterminal <= b.m.g.start
  {
    ShiftSymbols(b.m.g, b.lambda, b.first, b.m.states, b.links, s);
    hide LinksInv, IsLeast, Linked, IsInitial, Exact, GoodShiftSymbols, StartNotInRhs, Complete;
    assert GoodState(b.m.g, b.lambda, b.first, b.m.states[s], s == 0);
  }

  lemma FollowOf(b: Built, s: nat, it: Item, t: nat)
    requires Follows(b) && s < |b.m.states| && it in b.m.states[s].items
    ensures Config(s, it) in b.fws && (t in b.fws[Config(s, it)] <==> Merged(b.m.g, b.m.states[s].kernel, it, t))
  {
    hide Merged, WellFormed, Exact, IsAutomaton, Linked, IsInitial, IsLeast;
    FollowSetsAreMergedLr1(b.m.g, b.lambda, b.first, b.m.states, b.links, b.fplp, b.low, b.fws, Config(s, it), t);
  }

  /** The candidate reduces are those on merged lookaheads. */
  lemma ReduceCandidate(b: Built, s: nat, r: nat, t: nat)
    requires Follows(b) && s < |b.m.states|
    ensures ReduceOn(b.m.g, b.m.states[s].kernel, Items(b.m.states[s].items), r, t)
      <==> IsCandidate(b.m.g, b.m.states[s], s, b.fws, Action(t, Reduce, r))
  {
    hide Follows, Merged;
    if r < |b.m.g.rules| && Item(r, |b.m.g.rules[r].rhs|) in b.m.states[s].items {
      FollowOf(b, s, Item(r, |b.m.g.rules[r].rhs|), t);
    }
  }

  /** The candidate shifts are those of the symbols behind the marks. */
  lemma ShiftCandidate(b: Built, s: nat, t: nat)
    requires Follows(b) && s < |b.m.states|
    ensures ShiftOn(b.m.g, Items(b.m.states[s].items), t) <==> t in b.m.states[s].shifts
    ensures t in b.m.states[s].shifts ==>
      IsCandidate(b.m.g, b.m.states[s], s, b.fws, Action(t, Shift, b.m.states[s].shifts[t]))
  {
    var (g, st) := (b.m.g, b.m.states[s]);
    hide Exact, IsAutomaton, Linked, IsInitial, IsLeast, WellFormed;
    ShiftIsGoto(g, b.lambda, b.first, b.m.states, b.links, s, t);
    var c := Items(st.items);
    if ShiftOn(g, c, t) {
      var it :| it in c && CanShift(g, it) && Next(g, it) == t;
      assert Advance(it) in Goto(g, c, t);
    }
    if Goto(g, c, t) != {} {
      var next :| next in Goto(g, c, t);
      var it :| it in c && CanShift(g, it) && Next(g, it) == t && Advance(it) == next;
    }
  }

  lemma StateConflictFree(b: Built, s: nat)
    requires Follows(b) && StartNotInRhs(b.m.g) && s < |b.m.states|
    ensures NoConflict(b.m.g, b.m.states[s], s, b.fws)
      <==> ConflictFree(b.m.g, b.m.states[s].kernel, Items(b.m.states[s].items))
  {
    hide *;
    if NoConflict(b.m.g, b.m.states[s], s, b.fws) { NoConflictIsFree(b, s); }
    if ConflictFree(b.m.g, b.m.states[s].kernel, Items(b.m.states[s].items)) { FreeIsNoConflict(b, s); }
  }

  lemma NoConflictIsFree(b: Built, s: nat)
    requires Follows(b) && s < |b.m.states| && NoConflict(b.m.g, b.m.states[s], s, b.fws)
    ensures ConflictFree(b.m.g, b.m.states[s].kernel, Items(b.m.states[s].items))
  {
    var (g, k, c) := (b.m.g, b.m.states[s].kernel, Items(b.m.states[s].items));
    hide Follows, ReduceOn, ShiftOn, IsCandidate, NoConflict, Items;
    forall r: nat, t: nat | ReduceOn(g, k, c, r, t)
      ensures !ShiftOn(g, c, t) && forall q :: ReduceOn(g, k, c, q, t) ==> q == r
    {
      ReduceCandidate(b, s, r, t);
      if ShiftOn(g, c, t) {
        ShiftCandidate(b, s, t);
        SameCandidate(b, s, Action(t, Reduce, r), Action(t, Shift, b.m.states[s].shifts[t]));
        assert false;
      }
      forall q | ReduceOn(g, k, c, q, t) ensures q == r {
        ReduceCandidate(b, s, q, t);
        SameCandidate(b, s, Action(t, Reduce, r), Action(t, Reduce, q));
      }
    }
  }

  lemma SameCandidate(b: Built, s: nat, x: Action, y: Action)
    requires s < |b.m.states| && NoConflict(b.m.g, b.m.states[s], s, b.fws) && x.sp == y.sp
    requires IsCandidate(b.m.g, b.m.states[s], s, b.fws, x) && IsCandidate(b.m.g, b.m.states[s], s, b.fws, y)
    ensures x == y
  {
    hide IsCandidate;
  }

  lemma CandidateCases(g: Grammar, st: State, s: nat, fws: Family, a: Action)
    requires IsCandidate(g, st, s, fws, a) && GoodShiftSymbols(g, st) && g.nterminal <= g.start
    ensures || (a.sp in st.shifts && a.sp != g.start && a == Action(a.sp, Shift, st.shifts[a.sp]))
            || (a.sp < g.nterminal && a == Action(a.sp, Reduce, a.arg))
            || a == Action(g.start, Accept, 0)
  {
  }

  lemma FreeAt(g: Grammar, k: set<Item>, c: set<Item>, r: nat, t: nat)
    requires ConflictFree(g, k, c) && ReduceOn(g, k, c, r, t)
    ensures !ShiftOn(g, c, t) && forall q :: ReduceOn(g, k, c, q, t) ==> q == r
  {
    hide ReduceOn, ShiftOn;
  }

  /** Candidates on one symbol are one candidate. */
  lemma FreePair(b: Built, s: nat, x: Action, y: Action)
    requires Follows(b) && StartNotInRhs(b.m.g) && s < |b.m.states|
    requires ConflictFree(b.m.g, b.m.states[s].kernel, Items(b.m.states[s].items))
    requires IsCandidate(b.m.g, b.m.states[s], s, b.fws, x) && IsCandidate(b.m.g, b.m.states[s], s, b.fws, y)
    requires x.sp == y.sp
    ensures x == y
  {
    hide *;
    var (g, k, c) := (b.m.g, b.m.states[s].kernel, Items(b.m.states[s].items));
    StateHas(b, s);
    CandidateCases(g, b.m.states[s], s, b.fws, x);
    CandidateCases(g, b.m.states[s], s, b.fws, y);
    ShiftCandidate(b, s, x.sp);
    if x.kind == Reduce {
      ReduceCandidate(b, s, x.arg, x.sp);
      FreeAt(g, k, c, x.arg, x.sp);
    }
    if y.kind == Reduce {
      ReduceCandidate(b, s, y.arg, y.sp);
      FreeAt(g, k, c, y.arg, y.sp);
    }
  }

  lemma FreeIsNoConflict(b: Built, s: nat)
    requires Follows(b) && StartNotInRhs(b.m.g) && s < |b.m.states|
    requires ConflictFree(b.m.g, b.m.states[s].kernel, Items(b.m.states[s].items))
    ensures NoConflict(b.m.g, b.m.states[s], s, b.fws)
  {
    hide Follows, StartNotInRhs, ConflictFree, IsCandidate;
    forall x, y | IsCandidate(b.m.g, b.m.states[s], s, b.fws, x) && IsCandidate(b.m.g, b.m.states[s], s, b.fws, y)
      && x.sp == y.sp ensures x == y
    {
      FreePair(b, s, x, y);
    }
  }

  /** FindActions meets no conflict exactly when the grammar is LALR(1). */
  lemma NoConflictsIsLalr1(b: Built)
    requires Follows(b) && StartNotInRhs(b.m.g)
    ensures NoConflicts(b) <==> Lalr1(b.m.g)
  {
    var (g, states) := (b.m.g, b.m.states);
    hide Follows, StartNotInRhs, NoConflict, ConflictFree, Items, IsClosure;
    if NoConflicts(b) {
      forall k, c | Reached(g, k) && IsClosure(g, k, c) ensures ConflictFree(g, k, c) {
        var path :| Leads(g, path, k);
        var s := StateOf(b, path, k);
        StateHas(b, s);
        ClosureUnique(g, k, c, Items(states[s].items));
        StateConflictFree(b, s);
      }
    }
    if Lalr1(g) {
      forall s | 0 <= s < |states| ensures NoConflict(g, states[s], s, b.fws) {
        StateHas(b, s);
        StateConflictFree(b, s);
      }
    }
  }

  lemma StateOf(b: Built, path: seq<nat>, k: set<Item>) returns (s: nat)
    requires Follows(b) && Leads(b.m.g, path, k)
    ensures s < |b.m.states| && b.m.states[s].kernel == k
  {
    hide Leads, Exact, IsAutomaton, Linked, IsInitial, IsLeast;
    s := PathHasState(b.m.g, b.lambda, b.first, b.m.states, b.links, path, k);
  }
}
