/** ResortStates and the table part of ReportTable: from action lists to the arrays of the generated parser. */
module LemonTables {
  import opened LemonGrammar
  import opened LemonMergeSort
  import opened LemonConflicts
  import opened LemonActions
  import opened LemonOverlay
  import opened LemonActTab
  import QSort

  const NO_OFFSET := -2147483647

  /** The generated arrays and constants; `YY_SHIFT_COUNT` and its like are lengths here. */
  datatype Tables = Tables(
    nstate: nat, nrule: nat, nsymbol: nat,
    action: seq<int>, lookahead: seq<int>,
    shiftUseDflt: int, shiftOfst: seq<int>,
    reduceUseDflt: int, reduceOfst: seq<int>,
    dflt: seq<int>,
    ruleLhs: seq<nat>, ruleNrhs: seq<nat>)

  // ----- the lookups of the generated parser -----

  /** yy_find_shift_action, without fallback and wildcard tokens. */
  function FindShiftAction(t: Tables, stateno: nat, la: nat): int
    requires stateno < |t.dflt| && |t.action| == |t.lookahead|
  {
    if stateno >= |t.shiftOfst| || t.shiftOfst[stateno] == t.shiftUseDflt then t.dflt[stateno]
    else
      var i := t.shiftOfst[stateno] + la;
      if i < 0 || i >= |t.action| || t.lookahead[i] != la then t.dflt[stateno] else t.action[i]
  }

  /** What yy_find_reduce_action asserts. */
  predicate ReduceActionThere(t: Tables, stateno: nat, la: nat) {
    && |t.action| == |t.lookahead|
    && stateno < |t.reduceOfst|
    && t.reduceOfst[stateno] != t.reduceUseDflt
    && 0 <= t.reduceOfst[stateno] + la < |t.action|
    && t.lookahead[t.reduceOfst[stateno] + la] == la
  }

  function FindReduceAction(t: Tables, stateno: nat, la: nat): int
    requires ReduceActionThere(t, stateno, la)
  {
    t.action[t.reduceOfst[stateno] + la]
  }

  // ----- numbers of actions -----

  /** compute_action, with the state numbers `pos` and `n` states. */
  function Code(g: Grammar, n: nat, pos: seq<nat>, a: Action): int
    requires |pos| == n && (a.kind == Shift ==> a.arg < n)
  {
    match a.kind
    case Shift => pos[a.arg]
    case Reduce => a.arg + n
    case Error => n + |g.rules|
    case Accept => n + |g.rules| + 1
    case _ => -1
  }

  ghost predicate ArgsInRange(g: Grammar, n: nat, ap: seq<Action>) {
    forall k :: 0 <= k < |ap| ==> (ap[k].kind == Shift ==> ap[k].arg < n)
  }

  predicate IsTkn(g: Grammar, x: nat) { x < g.nterminal }

  predicate IsNt(g: Grammar, x: nat) { g.nterminal <= x < g.nsymbol }

  /** The entries of one row: terminals or nonterminals, without `{default}`. */
  function RowEntries(g: Grammar, n: nat, pos: seq<nat>, ap: seq<Action>, tkn: bool): seq<Entry>
    requires |pos| == n && ArgsInRange(g, n, ap)
  {
    if ap == [] then []
    else
      (if Live(ap[0])
        && (if tkn then IsTkn(g, ap[0].sp) else IsNt(g, ap[0].sp)) then [Entry(ap[0].sp, Code(g, n, pos, ap[0]))]
            else [])
      + RowEntries(g, n, pos, ap[1..], tkn)
  }

  lemma {:induction false} RowEntriesAre(g: Grammar, n: nat, pos: seq<nat>, ap: seq<Action>, tkn: bool, e: Entry)
    requires |pos| == n && ArgsInRange(g, n, ap)
    ensures e in RowEntries(g, n, pos, ap, tkn) <==>
      exists k :: 0 <= k < |ap| && Live(ap[k]) && (if tkn then IsTkn(g, ap[k].sp) else IsNt(g, ap[k].sp))
                  && e == Entry(ap[k].sp, Code(g, n, pos, ap[k]))
  {
    if ap != [] {
      RowEntriesAre(g, n, pos, ap[1..], tkn, e);
      if k :| 0 <= k < |ap[1..]| && Live(ap[1..][k])
              && (if tkn then IsTkn(g, ap[1..][k].sp) else IsNt(g, ap[1..][k].sp))
              && e == Entry(ap[1..][k].sp, Code(g, n, pos, ap[1..][k])) {
        assert ap[k + 1] == ap[1..][k];
      }
      if k :| 0 <= k < |ap| && Live(ap[k]) && (if tkn then IsTkn(g, ap[k].sp) else IsNt(g, ap[k].sp))
              && e == Entry(ap[k].sp, Code(g, n, pos, ap[k])) {
        if k > 0 { assert ap[k] == ap[1..][k - 1]; }
      }
    }
  }

  /** Distinct lookaheads, all of them symbols. */
  ghost predicate GoodRow(g: Grammar, es: seq<Entry>) {
    && (forall k, l :: 0 <= k < l < |es| ==> es[k].lookahead != es[l].lookahead)
    && (forall k :: 0 <= k < |es| ==> 0 <= es[k].lookahead < g.nsymbol)
  }

  lemma GoodRowMore(g: Grammar, e: Entry, es: seq<Entry>)
    requires GoodRow(g, es) && 0 <= e.lookahead < g.nsymbol
    requires forall l :: 0 <= l < |es| ==> es[l].lookahead != e.lookahead
    ensures GoodRow(g, [e] + es)
  {
  }

  lemma {:induction false} RowEntriesGood(g: Grammar, n: nat, pos: seq<nat>, ap: seq<Action>, tkn: bool)
    requires |pos| == n && ArgsInRange(g, n, ap) && Deterministic(ap) && g.nterminal <= g.nsymbol
    ensures GoodRow(g, RowEntries(g, n, pos, ap, tkn))
  {
    if ap != [] {
      assert forall k :: 0 <= k < |ap[1..]| ==> ap[1..][k] == ap[k + 1];
      RowEntriesGood(g, n, pos, ap[1..], tkn);
      var rest := RowEntries(g, n, pos, ap[1..], tkn);
      if Live(ap[0]) && (if tkn then IsTkn(g, ap[0].sp) else IsNt(g, ap[0].sp)) {
        forall l | 0 <= l < |rest| ensures rest[l].lookahead != ap[0].sp {
          RowEntriesAre(g, n, pos, ap[1..], tkn, rest[l]);
          assert rest[l] in rest;
          var k :| 0 <= k < |ap[1..]| && Live(ap[1..][k])
            && rest[l] == Entry(ap[1..][k].sp, Code(g, n, pos, ap[1..][k]));
          assert ap[1..][k] == ap[k + 1];
        }
        GoodRowMore(g, Entry(ap[0].sp, Code(g, n, pos, ap[0])), rest);
      } else {
        assert [] + rest == rest;
      }
    }
  }

  // ----- what the arrays have to say -----

  /** The default of a list: its `{default}` reduce, or the error action. */
  ghost predicate IsDefault(g: Grammar, n: nat, ap: seq<Action>, code: int) {
    if exists a :: a in ap && Live(a) && a.sp == g.nsymbol && a.kind == Reduce
    then exists a :: a in ap && Live(a) && a.sp == g.nsymbol && a.kind == Reduce && code == a.arg + n
    else code == n + |g.rules|
  }

  /** Looking up `x` in state number `p` gives the live action on `x`, or the default. */
  ghost predicate ShiftLookupRight(g: Grammar, pos: seq<nat>, ap: seq<Action>, t: Tables, p: nat, x: nat)
    requires |pos| == t.nstate && ArgsInRange(g, t.nstate, ap) && p < |t.dflt| && |t.action| == |t.lookahead|
  {
    && (forall a :: a in ap && Live(a) && a.sp == x ==> FindShiftAction(t, p, x) == Code(g, t.nstate, pos, a))
    && (!HasLive(ap, x) ==> IsDefault(g, t.nstate, ap, FindShiftAction(t, p, x)))
  }

  ghost predicate ReduceLookupRight(g: Grammar, pos: seq<nat>, ap: seq<Action>, t: Tables, p: nat, x: nat)
    requires |pos| == t.nstate && ArgsInRange(g, t.nstate, ap)
  {
    forall a :: a in ap && Live(a) && a.sp == x ==>
      ReduceActionThere(t, p, x) && FindReduceAction(t, p, x) == Code(g, t.nstate, pos, a)
  }

  /** `sorted` lists all state numbers with 0 first, and `pos` is its inverse. */
  ghost predicate Renumbering(n: nat, sorted: seq<nat>, pos: seq<nat>) {
    && |sorted| == |pos| == n > 0 && sorted[0] == 0
    && (forall p :: 0 <= p < n ==> sorted[p] < n && pos[sorted[p]] == p)
    && (forall s :: 0 <= s < n ==> pos[s] < n && sorted[pos[s]] == s)
  }

  /** The arrays refine the action lists. */
  ghost predicate Refines(g: Grammar, acts: seq<seq<Action>>, sorted: seq<nat>, pos: seq<nat>, t: Tables) {
    && t.nstate == |acts| == |t.dflt| && t.nrule == |g.rules| && t.nsymbol == g.nsymbol && |t.action| == |t.lookahead|
    && Renumbering(t.nstate, sorted, pos)
    && (forall s :: 0 <= s < |acts| ==> ArgsInRange(g, |acts|, acts[s]))
    && (forall p, x :: 0 <= p < t.nstate && 0 <= x < g.nterminal ==> ShiftLookupRight(g, pos, acts[sorted[p]], t, p, x))
    && (forall p, x :: 0 <= p < t.nstate && g.nterminal <= x < g.nsymbol ==>
        ReduceLookupRight(g, pos, acts[sorted[p]], t, p, x))
    && |t.ruleLhs| == |t.ruleNrhs| == |g.rules|
    && (forall r :: 0 <= r < |g.rules| ==> t.ruleLhs[r] == g.rules[r].lhs && t.ruleNrhs[r] == |g.rules[r].rhs| % 256)
  }

  // ----- ResortStates -----

  datatype StateKey = StateKey(nNtAct: nat, nTknAct: nat, statenum: nat)

  /** stateResortCompare: most nonterminal actions first, then most token actions, then the latest state. */
  function StateCmp(a: StateKey, b: StateKey): int {
    if a.nNtAct != b.nNtAct then b.nNtAct - a.nNtAct
    else if a.nTknAct != b.nTknAct then b.nTknAct - a.nTknAct
    else b.statenum - a.statenum
  }

  /** The action lists that the tables are made from. */
  ghost predicate GoodLists(g: Grammar, acts: seq<seq<Action>>) {
    forall s :: 0 <= s < |acts| ==>
      && ArgsInRange(g, |acts|, acts[s]) && Deterministic(acts[s])
      && forall k :: 0 <= k < |acts[s]| && Live(acts[s][k]) ==>
           acts[s][k].sp <= g.nsymbol && (acts[s][k].sp == g.nsymbol ==> acts[s][k].kind == Reduce)
  }

  /** Number of live actions on terminals, or on nonterminals. */
  method CountActions(g: Grammar, ap: seq<Action>, tkn: bool, ghost n: nat, ghost pos: seq<nat>) returns (c: nat)
    requires |pos| == n && ArgsInRange(g, n, ap)
    ensures c == |RowEntries(g, n, pos, ap, tkn)|
  {
    c := 0;
    for k := 0 to |ap|
      invariant c + |RowEntries(g, n, pos, ap[k..], tkn)| == |RowEntries(g, n, pos, ap, tkn)|
    {
      assert ap[k..][1..] == ap[k + 1..];
      if Live(ap[k]) && (if tkn then IsTkn(g, ap[k].sp) else IsNt(g, ap[k].sp)) { c := c + 1; }
    }
  }

  /** What stateResortCompare looks at. */
  ghost function KeyOf(g: Grammar, acts: seq<seq<Action>>, s: nat): StateKey
    requires GoodLists(g, acts) && s < |acts|
  {
    var some: seq<nat> := seq(|acts|, _ => 0);
    StateKey(|RowEntries(g, |acts|, some, acts[s], false)|, |RowEntries(g, |acts|, some, acts[s], true)|, s)
  }

  /** From the second state on, the states are in the order of stateResortCompare. */
  ghost predicate Resorted(g: Grammar, acts: seq<seq<Action>>, sorted: seq<nat>)
    requires GoodLists(g, acts)
  {
    && |sorted| == |acts| && (forall i :: 0 <= i < |acts| ==> sorted[i] < |acts|)
    && forall i, j :: 1 <= i < j < |acts| ==> StateCmp(KeyOf(g, acts, sorted[i]), KeyOf(g, acts, sorted[j])) <= 0
  }

  // ----- the order of the states, said of their actions -----

  /** The terminals, or the nonterminals, on which the list has a live action. */
  function LiveOn(g: Grammar, ap: seq<Action>, tkn: bool): set<nat> {
    set k | 0 <= k < |ap| && Live(ap[k])
            && (if tkn then ap[k].sp < g.nterminal else g.nterminal <= ap[k].sp < g.nsymbol) :: ap[k].sp
  }

  lemma {:induction false} RowSize(g: Grammar, n: nat, pos: seq<nat>, ap: seq<Action>, tkn: bool)
    requires |pos| == n && ArgsInRange(g, n, ap) && Deterministic(ap)
    ensures |RowEntries(g, n, pos, ap, tkn)| == |LiveOn(g, ap, tkn)|
  {
    if ap == [] {
      assert LiveOn(g, ap, tkn) == {};
    } else {
      assert forall k :: 0 <= k < |ap[1..]| ==> ap[1..][k] == ap[k + 1];
      RowSize(g, n, pos, ap[1..], tkn);
      var (all, less) := (LiveOn(g, ap, tkn), LiveOn(g, ap[1..], tkn));
      LiveOnHead(g, ap, tkn);
      if Live(ap[0]) && (if tkn then ap[0].sp < g.nterminal else g.nterminal <= ap[0].sp < g.nsymbol) {
        assert ap[0].sp !in less;
      }
    }
  }

  lemma LiveOnHead(g: Grammar, ap: seq<Action>, tkn: bool)
    requires ap != []
    ensures LiveOn(g, ap, tkn) == LiveOn(g, ap[1..], tkn)
      + if Live(ap[0]) && (if tkn then ap[0].sp < g.nterminal else g.nterminal <= ap[0].sp < g.nsymbol)
        then {ap[0].sp} else {}
  {
    hide Live;
    assert forall k :: 0 <= k < |ap[1..]| ==> ap[1..][k] == ap[k + 1];
    assert forall k :: 0 < k < |ap| ==> ap[k] == ap[1..][k - 1];
  }

  /** From the second on, states with fewer actions come later: those with fewer nonterminals; among equals those with
      fewer terminals; and then those that were found first. */
  ghost predicate FewerLater(g: Grammar, acts: seq<seq<Action>>, sorted: seq<nat>) {
    && |sorted| == |acts| && (forall i :: 0 <= i < |acts| ==> sorted[i] < |acts|)
    && forall i, j :: 1 <= i < j < |acts| ==>
         var (a, b) := (acts[sorted[i]], acts[sorted[j]]);
         var (na, nb) := (|LiveOn(g, a, false)|, |LiveOn(g, b, false)|);
         var (ta, tb) := (|LiveOn(g, a, true)|, |LiveOn(g, b, true)|);
         na > nb || (na == nb && (ta > tb || (ta == tb && sorted[i] > sorted[j])))
  }

  lemma KeySizes(g: Grammar, acts: seq<seq<Action>>, s: nat)
    requires GoodLists(g, acts) && s < |acts|
    ensures KeyOf(g, acts, s) == StateKey(|LiveOn(g, acts[s], false)|, |LiveOn(g, acts[s], true)|, s)
  {
    hide RowEntries, LiveOn;
    var some: seq<nat> := seq(|acts|, _ => 0);
    RowSize(g, |acts|, some, acts[s], false);
    RowSize(g, |acts|, some, acts[s], true);
  }

  lemma ResortedFewerLater(g: Grammar, acts: seq<seq<Action>>, sorted: seq<nat>, pos: seq<nat>)
    requires GoodLists(g, acts) && Renumbering(|acts|, sorted, pos) && Resorted(g, acts, sorted)
    ensures FewerLater(g, acts, sorted)
  {
    hide GoodLists, KeyOf, LiveOn;
    forall i, j | 1 <= i < j < |acts| ensures
      var (a, b) := (acts[sorted[i]], acts[sorted[j]]);
      var (na, nb) := (|LiveOn(g, a, false)|, |LiveOn(g, b, false)|);
      var (ta, tb) := (|LiveOn(g, a, true)|, |LiveOn(g, b, true)|);
      na > nb || (na == nb && (ta > tb || (ta == tb && sorted[i] > sorted[j])))
    {
      KeySizes(g, acts, sorted[i]);
      KeySizes(g, acts, sorted[j]);
      assert pos[sorted[i]] == i && pos[sorted[j]] == j;
    }
  }

  method MakeKeys(g: Grammar, acts: seq<seq<Action>>) returns (keys: seq<StateKey>)
    requires |acts| > 0 && GoodLists(g, acts)
    ensures |keys| == |acts| - 1 && forall k :: 0 <= k < |keys| ==> keys[k] == KeyOf(g, acts, k + 1)
  {
    keys := [];
    ghost var some: seq<nat> := seq(|acts|, _ => 0);
    hide RowEntries, Deterministic;
    for s := 1 to |acts|
      invariant |keys| == s - 1 && forall k :: 0 <= k < |keys| ==> keys[k] == KeyOf(g, acts, k + 1)
    {
      var nNt := CountActions(g, acts[s], false, |acts|, some);
      var nTkn := CountActions(g, acts[s], true, |acts|, some);
      keys := keys + [StateKey(nNt, nTkn, s)];
    }
  }

  /** ResortStates: state 0 stays first, the others are sorted and renumbered. */
  method ResortStates(g: Grammar, acts: seq<seq<Action>>) returns (sorted: seq<nat>, pos: seq<nat>)
    requires |acts| > 0 && GoodLists(g, acts)
    ensures Renumbering(|acts|, sorted, pos) && Resorted(g, acts, sorted)
    ensures FewerLater(g, acts, sorted)
  {
    hide *;
    var keys := MakeKeys(g, acts);
    StateOrder();
    var order := QSort.Sort(keys, StateCmp);
    SameElements(order, keys);
    KeysNumbered(g, acts, keys);
    SortedOnce(keys, order);
    sorted := [0] + seq(|order|, k requires 0 <= k < |order| => order[k].statenum);
    AllSorted(|acts|, keys, order, sorted);
    pos := Inverse(|acts|, sorted);
    NowRenumbering(|acts|, sorted, pos);
    NowResorted(g, acts, keys, order, sorted);
    ResortedFewerLater(g, acts, sorted, pos);
  }

  lemma StateOrder()
    ensures TotalOrder(StateCmp)
  {
  }

  lemma KeysNumbered(g: Grammar, acts: seq<seq<Action>>, keys: seq<StateKey>)
    requires GoodLists(g, acts) && |keys| + 1 == |acts|
    requires forall k :: 0 <= k < |keys| ==> keys[k] == KeyOf(g, acts, k + 1)
    ensures forall k :: 0 <= k < |keys| ==> keys[k].statenum == k + 1
  {
    hide RowEntries, GoodLists;
  }

  lemma AllSorted(n: nat, keys: seq<StateKey>, order: seq<StateKey>, sorted: seq<nat>)
    requires n == |keys| + 1 == |order| + 1 && |sorted| == n && sorted[0] == 0
    requires forall k :: 0 <= k < |order| ==> sorted[k + 1] == order[k].statenum && 1 <= order[k].statenum < n
    requires forall k, l :: 0 <= k < l < |order| ==> order[k].statenum != order[l].statenum
    requires forall k :: 0 <= k < |keys| ==> keys[k].statenum == k + 1
    requires forall key :: key in keys ==> key in order
    ensures forall k :: 0 <= k < n ==> sorted[k] < n
    ensures forall k, l :: 0 <= k < l < n ==> sorted[k] != sorted[l]
    ensures forall s: nat :: s < n ==> s in sorted
  {
    forall k | 0 < k < n ensures sorted[k] ==
        order[k - 1].statenum { assert sorted[(k - 1) + 1] == order[k - 1].statenum; }
    forall s: nat | s < n ensures s in sorted {
      if s == 0 {
        assert sorted[0] == 0;
      } else {
        assert keys[s - 1] in order;
        var k :| 0 <= k < |order| && order[k] == keys[s - 1];
        assert sorted[k + 1] == s;
      }
    }
  }

  lemma NowRenumbering(n: nat, sorted: seq<nat>, pos: seq<nat>)
    requires |sorted| == |pos| == n > 0 && sorted[0] == 0
    requires forall p :: 0 <= p < n ==> sorted[p] < n && pos[sorted[p]] == p
    requires forall s :: 0 <= s < n ==> pos[s] < n && sorted[pos[s]] == s
    ensures Renumbering(n, sorted, pos)
  {
  }

  lemma NowResorted(g: Grammar, acts: seq<seq<Action>>, keys: seq<StateKey>, order: seq<StateKey>, sorted: seq<nat>)
    requires GoodLists(g, acts) && |keys| + 1 == |acts| == |order| + 1 == |sorted| && sorted[0] == 0
    requires forall k :: 0 <= k < |keys| ==> keys[k] == KeyOf(g, acts, k + 1)
    requires multiset(order) == multiset(keys) && SortedValues(StateCmp, order)
    requires forall k :: 0 <= k < |order| ==> sorted[k + 1] == order[k].statenum
    requires forall k :: 0 <= k < |acts| ==> sorted[k] < |acts|
    ensures Resorted(g, acts, sorted)
  {
    SameElements(order, keys);
    KeysNumbered(g, acts, keys);
    hide KeyOf, StateCmp, GoodLists;
    forall k | 1 <= k < |acts| ensures order[k - 1] == KeyOf(g, acts, sorted[k]) {
      assert order[k - 1] in keys;
      assert sorted[(k - 1) + 1] == order[k - 1].statenum;
    }
    forall i, j | 1 <= i < j < |acts| ensures StateCmp(KeyOf(g, acts, sorted[i]), KeyOf(g, acts, sorted[j])) <= 0 {
      assert StateCmp(order[i - 1], order[j - 1]) <= 0;
    }
  }

  lemma SortedOnce(keys: seq<StateKey>, order: seq<StateKey>)
    requires multiset(order) == multiset(keys) && |order| == |keys|
    requires forall k :: 0 <= k < |keys| ==> keys[k].statenum == k + 1
    ensures forall k :: 0 <= k < |order| ==> 1 <= order[k].statenum <= |keys|
    ensures forall k, l :: 0 <= k < l < |order| ==> order[k].statenum != order[l].statenum
    ensures forall key :: key in keys ==> key in order
  {
    SameElements(order, keys);
    forall k | 0 <= k < |order| ensures 1 <= order[k].statenum <= |keys| && keys[order[k].statenum - 1] == order[k] {
      assert order[k] in keys;
    }
    forall k, l | 0 <= k < l < |order| ensures order[k].statenum != order[l].statenum {
      if order[k].statenum == order[l].statenum {
        TwiceCounts(order, k, l);
        var j := AnotherOne(keys, order[k].statenum - 1);
        assert false;
      }
    }
  }

  /** The state numbers: `sorted[i]->statenum = i`. */
  method Inverse(n: nat, sorted: seq<nat>) returns (pos: seq<nat>)
    requires |sorted| == n && forall k :: 0 <= k < n ==> sorted[k] < n
    requires forall k, l :: 0 <= k < l < n ==> sorted[k] != sorted[l]
    requires forall s :: 0 <= s < n ==> s in sorted
    ensures |pos| == n && (forall p :: 0 <= p < n ==> pos[sorted[p]] == p)
    ensures forall s :: 0 <= s < n ==> pos[s] < n && sorted[pos[s]] == s
  {
    pos := seq(n, _ => 0);
    for i := 0 to n
      invariant |pos| == n && forall p :: 0 <= p < i ==> pos[sorted[p]] == p
    {
      pos := pos[sorted[i] := i];
    }
    forall s | 0 <= s < n ensures pos[s] < n && sorted[pos[s]] == s {
      assert s in sorted;
      var k :| 0 <= k < n && sorted[k] == s;
    }
  }
}
