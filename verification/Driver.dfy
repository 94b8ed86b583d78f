/** lempar.c: the shift/reduce machine that runs over the generated arrays. */
module LemonDriver {
  import opened LemonGrammar
  import opened LemonAutomaton
  import opened LemonLookaheads
  import opened LemonTables

  /** The arrays, with the automaton and the state numbering they were made from. */
  datatype Machine = Machine(g: Grammar, states: seq<State>, sorted: seq<nat>, pos: seq<nat>, t: Tables)

  /** What the driver needs to know of an automaton. */
  ghost predicate Skeleton(g: Grammar, states: seq<State>) {
    && |states| > 0 && states[0].kernel == StartKernel(g)
    && (forall s :: 0 <= s < |states| ==>
        IsClosure(g, states[s].kernel, Items(states[s].items)) && Complete(g, states[s]))
    && (forall s, x :: 0 <= s < |states| && x in states[s].shifts ==>
          0 < states[s].shifts[x] < |states|
            && states[states[s].shifts[x]].kernel == Goto(g, Items(states[s].items), x))
  }

  /** The answer of the arrays for state `s` and terminal `x`: a shift, a reduce of a complete item, or an error. */
  ghost predicate ShiftAnswer(m: Machine, s: nat, x: nat)
    requires s < |m.states| == |m.pos| && m.pos[s] < |m.t.dflt| && |m.t.action| == |m.t.lookahead|
    requires |m.g.rules| == m.t.nrule
    requires forall y :: y in m.states[s].shifts ==> m.states[s].shifts[y] < |m.pos|
  {
    var act := FindShiftAction(m.t, m.pos[s], x);
    if act < m.t.nstate then x != 0 && x in m.states[s].shifts && act == m.pos[m.states[s].shifts[x]]
    else if act < m.t.nstate + m.t.nrule then
      var r := act - m.t.nstate;
      Item(r, |m.g.rules[r].rhs|) in m.states[s].items && (m.g.rules[r].lhs == m.g.start ==> x == 0)
    else act == m.t.nstate + m.t.nrule
  }

  /** The answer after a reduce to `x`: the goto, or accept. */
  ghost predicate GotoAnswer(m: Machine, s: nat, x: nat)
    requires s < |m.states| == |m.pos|
    requires forall y :: y in m.states[s].shifts ==> m.states[s].shifts[y] < |m.pos|
  {
    && (x in m.states[s].shifts ==>
          x != m.g.start && ReduceActionThere(m.t, m.pos[s], x)
            && FindReduceAction(m.t, m.pos[s], x) == m.pos[m.states[s].shifts[x]])
    && (s == 0 && x == m.g.start ==>
          ReduceActionThere(m.t, m.pos[s], x) && FindReduceAction(m.t, m.pos[s], x) == m.t.nstate + m.t.nrule + 1)
  }

  /** Some state has the whole right-hand side of the rule behind it. */
  ghost predicate CanReduce(m: Machine, r: nat)
    requires r < |m.g.rules|
  {
    exists s :: 0 <= s < |m.states| && Item(r, |m.g.rules[r].rhs|) in m.states[s].items
  }

  /** The arrays speak for the automaton. */
  ghost predicate Drives(m: Machine) {
    && WellFormed(m.g) && StartNotInRhs(m.g) && Skeleton(m.g, m.states)
    && m.t.nstate == |m.states| == |m.t.dflt| && m.t.nrule == |m.g.rules| && |m.t.action| == |m.t.lookahead|
    && Renumbering(m.t.nstate, m.sorted, m.pos)
    && (forall s, x :: 0 <= s < |m.states| && 0 <= x < m.g.nterminal ==> ShiftAnswer(m, s, x))
    && (forall s, x :: 0 <= s < |m.states| && m.g.nterminal <= x < m.g.nsymbol ==> GotoAnswer(m, s, x))
    && |m.t.ruleLhs| == |m.t.ruleNrhs| == |m.g.rules|
    && (forall r :: 0 <= r < |m.g.rules| ==> m.t.ruleLhs[r] == m.g.rules[r].lhs)
    && (forall r :: 0 <= r < |m.g.rules| && CanReduce(m, r) ==> m.t.ruleNrhs[r] == |m.g.rules[r].rhs|)
  }

  // ----- the stack -----

  datatype StackEntry = StackEntry(stateno: nat, major: nat)

  function Top(st: seq<StackEntry>): StackEntry
    requires st != []
  {
    st[|st| - 1]
  }

  ghost predicate InRange(m: Machine, st: seq<StackEntry>) {
    forall k :: 0 <= k < |st| ==> st[k].stateno < |m.sorted| && m.sorted[st[k].stateno] < |m.states|
  }

  ghost function StateAt(m: Machine, st: seq<StackEntry>, k: nat): State
    requires k < |st| && InRange(m, st)
  {
    m.states[m.sorted[st[k].stateno]]
  }

  /** The states on the stack form a path of shifts from state 0, and the symbols label it. */
  ghost predicate OnStack(m: Machine, st: seq<StackEntry>) {
    && st != [] && InRange(m, st) && m.sorted[st[0].stateno] == 0
    && forall k :: 0 < k < |st| ==>
         st[k].major in StateAt(m, st, k - 1).shifts
           && m.sorted[st[k].stateno] == StateAt(m, st, k - 1).shifts[st[k].major]
  }

  /** The symbols on the stack above the bottom entry. */
  ghost function Symbols(st: seq<StackEntry>): seq<nat>
    requires st != []
  {
    seq(|st| - 1, k requires 0 <= k < |st| - 1 => st[k + 1].major)
  }

  // ----- what is on the stack when an item is in the top state -----

  lemma StackState(m: Machine, st: seq<StackEntry>, k: nat)
    requires Skeleton(m.g, m.states) && OnStack(m, st) && k < |st|
    ensures InRange(m, st)
    ensures IsClosure(m.g, StateAt(m, st, k).kernel, Items(StateAt(m, st, k).items)) && Complete(m.g, StateAt(m, st, k))
    ensures k == 0 ==> StateAt(m, st, k).kernel == StartKernel(m.g)
    ensures k > 0 ==> StateAt(m, st, k).kernel == Goto(m.g, Items(StateAt(m, st, k - 1).items), st[k].major)
  {
    hide IsClosure, Complete, Goto;
  }

  lemma StackBelow(m: Machine, st: seq<StackEntry>, n: nat)
    requires OnStack(m, st) && 0 < n <= |st|
    ensures OnStack(m, st[..n]) && InRange(m, st) && InRange(m, st[..n])
    ensures forall k :: 0 <= k < n ==> StateAt(m, st[..n], k) == StateAt(m, st, k)
  {
    assert forall k :: 0 <= k < n ==> st[..n][k] == st[k];
  }

  /** An item that moved came from the state before. */
  lemma MovedItem(m: Machine, st: seq<StackEntry>, it: Item)
    requires Skeleton(m.g, m.states) && OnStack(m, st) && InRange(m, st) && it in StateAt(m, st, |st| - 1).items
    requires it.dot > 0
    ensures |st| > 1
    ensures var a := Item(it.rule, it.dot - 1);
      && a in StateAt(m, st, |st| - 2).items && CanShift(m.g, a) && Next(m.g, a) == Top(st).major
  {
    var n := |st| - 1;
    StackState(m, st, n);
    NotGenerated(m.g, StateAt(m, st, n), it);
    hide *;
    if n == 0 {
      NotInStart(m.g, it);
    } else {
      InGoto(m.g, Items(StateAt(m, st, n - 1).items), st[n].major, it);
      assert Top(st) == st[n] by { TopIs(st); }
      IsItem(StateAt(m, st, n - 1).items, Item(it.rule, it.dot - 1));
    }
  }

  lemma NotEmpty(m: Machine, st: seq<StackEntry>)
    requires OnStack(m, st)
    ensures st != []
  {
  }

  lemma TopIs(st: seq<StackEntry>)
    requires st != []
    ensures Top(st) == st[|st| - 1]
  {
  }

  lemma NextIs(g: Grammar, it: Item)
    requires CanShift(g, it)
    ensures it.rule < |g.rules| && it.dot < |g.rules[it.rule].rhs| && Next(g, it) == g.rules[it.rule].rhs[it.dot]
  {
  }

  lemma IsItem(s: seq<Item>, it: Item)
    requires it in Items(s)
    ensures it in s
  {
  }

  lemma NotInStart(g: Grammar, it: Item)
    requires it.dot > 0
    ensures it !in StartKernel(g)
  {
  }

  lemma InGoto(g: Grammar, c: set<Item>, x: nat, it: Item)
    requires it in Goto(g, c, x)
    ensures it.dot > 0 && var a := Item(it.rule, it.dot - 1); a in c && CanShift(g, a) && Next(g, a) == x
  {
    var a :| a in c && CanShift(g, a) && Next(g, a) == x && it == Advance(a);
    assert a == Item(it.rule, it.dot - 1);
  }

  /** The closure adds only items with their mark in front. */
  lemma NotGenerated(g: Grammar, st: State, it: Item)
    requires IsClosure(g, st.kernel, Items(st.items)) && it in st.items
    ensures it in st.kernel || (it.dot == 0 && exists a :: a in st.items && Generates(g, a, it))
  {
    var c := Items(st.items);
    var d := c - {it};
    if it !in st.kernel && !exists a :: a in st.items && Generates(g, a, it) {
      forall a, b | a in d && Generates(g, a, b) ensures b in d { }
      assert Closed(g, d) && st.kernel <= d && it in c;
    }
  }

  /** Before the mark of an item of the top state stand the topmost symbols, and below them the item began. */
  lemma {:induction false} HandleOnTop(m: Machine, st: seq<StackEntry>, it: Item)
    requires Skeleton(m.g, m.states) && OnStack(m, st) && InRange(m, st) && it in StateAt(m, st, |st| - 1).items
    requires it.rule < |m.g.rules| && it.dot <= |m.g.rules[it.rule].rhs|
    ensures it.dot < |st| && Item(it.rule, 0) in StateAt(m, st, |st| - 1 - it.dot).items
    ensures forall k :: |st| - it.dot <= k < |st| ==> st[k].major == m.g.rules[it.rule].rhs[k - (|st| - it.dot)]
    decreases it.dot
  {
    hide *;
    NotEmpty(m, st);
    if it.dot > 0 {
      MovedItem(m, st, it);
      var (below, d) := (st[..|st| - 1], it.dot - 1);
      assert Top(st).major == m.g.rules[it.rule].rhs[d] by { NextIs(m.g, Item(it.rule, d)); }
      TopIs(st);
      StackBelow(m, st, |st| - 1);
      HandleOnTop(m, below, Item(it.rule, d));
      forall k | |st| - it.dot <= k < |st| ensures st[k].major == m.g.rules[it.rule].rhs[k - (|st| - it.dot)] {
        if k < |below| { assert below[k] == st[k]; }
      }
    }
  }

  /** Where an item begins, its symbol can be shifted; only the start symbol cannot, and only at the bottom. */
  lemma BeginsHere(m: Machine, st: seq<StackEntry>, k: nat, r: nat)
    requires Skeleton(m.g, m.states) && StartNotInRhs(m.g) && OnStack(m, st) && InRange(m, st) && k < |st|
    requires r < |m.g.rules|
    requires Item(r, 0) in StateAt(m, st, k).items
    ensures if m.g.rules[r].lhs == m.g.start then k == 0 else m.g.rules[r].lhs in StateAt(m, st, k).shifts
  {
    var s := StateAt(m, st, k);
    StackState(m, st, k);
    hide Skeleton, OnStack, IsClosure, StateAt;
    NotGenerated(m.g, s, Item(r, 0));
  }

  // ----- pushing and popping -----

  lemma TopState(m: Machine, st: seq<StackEntry>)
    requires Drives(m) && OnStack(m, st)
    ensures InRange(m, st) && m.sorted[Top(st).stateno] < |m.states|
    ensures m.pos[m.sorted[Top(st).stateno]] == Top(st).stateno
    ensures Top(st).stateno < m.t.nstate
  {
    hide Skeleton, ShiftAnswer, GotoAnswer, WellFormed, StartNotInRhs;
  }

  lemma TargetOf(m: Machine, s: nat, x: nat)
    requires Drives(m) && s < |m.states| && x in m.states[s].shifts
    ensures |m.pos| == |m.sorted| == |m.states|
    ensures m.states[s].shifts[x] < |m.pos| && m.pos[m.states[s].shifts[x]] < |m.sorted|
    ensures m.sorted[m.pos[m.states[s].shifts[x]]] == m.states[s].shifts[x]
  {
    hide ShiftAnswer, GotoAnswer, WellFormed, StartNotInRhs, IsClosure, Complete, Goto;
  }

  /** The state on top is followed by the state that it is shifted to. */
  lemma Pushed(m: Machine, st: seq<StackEntry>, x: nat)
    requires Drives(m) && OnStack(m, st) && InRange(m, st) && x in StateAt(m, st, |st| - 1).shifts
    ensures StateAt(m, st, |st| - 1).shifts[x] < |m.pos|
    ensures var st' := st + [StackEntry(m.pos[StateAt(m, st, |st| - 1).shifts[x]], x)];
      OnStack(m, st') && Symbols(st') == Symbols(st) + [x]
  {
    hide Skeleton, Drives;
    TargetOf(m, m.sorted[st[|st| - 1].stateno], x);
    PushedOn(m, st, x, m.pos[StateAt(m, st, |st| - 1).shifts[x]]);
  }

  lemma PushedOn(m: Machine, st: seq<StackEntry>, x: nat, p: nat)
    requires OnStack(m, st) && InRange(m, st) && x in StateAt(m, st, |st| - 1).shifts
    requires p < |m.sorted| && m.sorted[p] == StateAt(m, st, |st| - 1).shifts[x] < |m.states|
    ensures OnStack(m, st + [StackEntry(p, x)]) && Symbols(st + [StackEntry(p, x)]) == Symbols(st) + [x]
  {
    var st' := st + [StackEntry(p, x)];
    assert forall k :: 0 <= k < |st| ==> st'[k] == st[k];
    assert InRange(m, st');
    assert forall k :: 0 <= k < |st| ==> StateAt(m, st', k) == StateAt(m, st, k);
  }

  lemma SymbolsSplit(st: seq<StackEntry>, n: nat, w: seq<nat>)
    requires n < |st| && |w| == n && forall k :: |st| - n <= k < |st| ==> st[k].major == w[k - (|st| - n)]
    ensures Symbols(st) == Symbols(st[..|st| - n]) + w
  {
    var (all, low) := (Symbols(st), Symbols(st[..|st| - n]));
    forall k | 0 <= k < |all| ensures all[k] == (low + w)[k] {
      assert all[k] == st[k + 1].major;
    }
  }

  /** A complete item of the top state can be reduced: its right-hand side is on top, and below it the arrays have the
      goto. */
  lemma ReduceThere(m: Machine, st: seq<StackEntry>, r: nat)
    requires Drives(m) && OnStack(m, st) && InRange(m, st) && r < |m.g.rules|
    requires Item(r, |m.g.rules[r].rhs|) in StateAt(m, st, |st| - 1).items
    ensures |m.g.rules[r].rhs| < |st|
    ensures
      var (lhs, below) := (m.g.rules[r].lhs, st[..|st| - |m.g.rules[r].rhs|]);
      && OnStack(m, below) && Symbols(st) == Symbols(below) + m.g.rules[r].rhs
      && m.t.ruleLhs[r] == lhs && m.t.ruleNrhs[r] == |m.g.rules[r].rhs|
      && ReduceActionThere(m.t, Top(below).stateno, lhs)
      && var act := FindReduceAction(m.t, Top(below).stateno, lhs);
         if lhs == m.g.start then |below| == 1 && act == m.t.nstate + m.t.nrule + 1
         else 0 <= act < m.t.nstate && OnStack(m, below + [StackEntry(act, lhs)])
              && Symbols(below + [StackEntry(act, lhs)]) == Symbols(below) + [lhs]
  {
    hide *;
    var (lhs, rhs) := (m.g.rules[r].lhs, m.g.rules[r].rhs);
    DrivesParts(m, r);
    DrivesRule(m, st, r);
    HandleOnTop(m, st, Item(r, |rhs|));
    SymbolsSplit(st, |rhs|, rhs);
    var n := |st| - |rhs|;
    var below := st[..n];
    StackBelow(m, st, n);
    BeginsHere(m, below, n - 1, r);
    TopState(m, below);
    TopIs(below);
    var s := m.sorted[below[n - 1].stateno];
    Answered(m, below, lhs);
    if lhs != m.g.start {
      Pushed(m, below, lhs);
    }
  }

  lemma DrivesParts(m: Machine, r: nat)
    requires Drives(m) && r < |m.g.rules|
    ensures Skeleton(m.g, m.states) && StartNotInRhs(m.g)
    ensures m.g.nterminal <= m.g.rules[r].lhs < m.g.nsymbol
    ensures |m.t.ruleLhs| == |m.t.ruleNrhs| == |m.g.rules|
    ensures m.t.ruleLhs[r] == m.g.rules[r].lhs
  {
    hide Skeleton, ShiftAnswer, GotoAnswer, StartNotInRhs, CanReduce;
    assert WellFormedRule(m.g, m.g.rules[r]);
  }

  lemma DrivesRule(m: Machine, st: seq<StackEntry>, r: nat)
    requires Drives(m) && OnStack(m, st) && InRange(m, st) && r < |m.g.rules|
    requires Item(r, |m.g.rules[r].rhs|) in StateAt(m, st, |st| - 1).items
    ensures r < |m.t.ruleNrhs| && m.t.ruleNrhs[r] == |m.g.rules[r].rhs|
  {
    hide Skeleton, ShiftAnswer, GotoAnswer, StartNotInRhs, WellFormed;
    assert CanReduce(m, r);
  }

  /** The goto that the arrays hold for the top of the stack. */
  lemma Answered(m: Machine, st: seq<StackEntry>, x: nat)
    requires Drives(m) && OnStack(m, st) && InRange(m, st) && m.g.nterminal <= x < m.g.nsymbol
    ensures x in StateAt(m, st, |st| - 1).shifts ==>
      && x != m.g.start && StateAt(m, st, |st| - 1).shifts[x] < |m.pos|
      && ReduceActionThere(m.t, Top(st).stateno, x)
      && FindReduceAction(m.t, Top(st).stateno, x) == m.pos[StateAt(m, st, |st| - 1).shifts[x]] < m.t.nstate
    ensures |st| == 1 && x == m.g.start ==>
      ReduceActionThere(m.t, Top(st).stateno, x)
        && FindReduceAction(m.t, Top(st).stateno, x) == m.t.nstate + m.t.nrule + 1
  {
    hide ShiftAnswer, WellFormed, StartNotInRhs, IsClosure, Complete, Goto, ReduceActionThere, FindReduceAction;
    TopState(m, st);
    var s := m.sorted[Top(st).stateno];
    assert GotoAnswer(m, s, x);
  }

  // ----- one turn of the loop in Parse -----

  /** `Unfinished` is for the whole loop: too few turns. */
  datatype Turn = Again(stack: seq<StackEntry>) | Shifted(after: seq<StackEntry>) | Accepted
                | SyntaxError(at: seq<StackEntry>) | Overflow | Unfinished(sofar: seq<StackEntry>)

  /** Everything that the loop body looks up is there, and what the source asserts holds. */
  ghost predicate Safe(m: Machine, st: seq<StackEntry>, x: nat) {
    && st != [] && Top(st).stateno < m.t.nstate == |m.t.dflt| && |m.t.action| == |m.t.lookahead|
    && |m.t.ruleLhs| == |m.t.ruleNrhs| == |m.g.rules| == m.t.nrule
    && var act := FindShiftAction(m.t, Top(st).stateno, x);
       if act < m.t.nstate then
         && act >= 0 && x != 0 && OnStack(m, st + [StackEntry(act, x)])
           && Symbols(st + [StackEntry(act, x)]) == Symbols(st) + [x]
       else if act < m.t.nstate + m.t.nrule then
         var r := act - m.t.nstate;
         var (lhs, rhs) := (m.g.rules[r].lhs, m.g.rules[r].rhs);
         && m.t.ruleLhs[r] == lhs && m.t.ruleNrhs[r] == |rhs| < |st|
         && var below := st[..|st| - |rhs|];
            && OnStack(m, below) && Symbols(st) == Symbols(below) + rhs
            && ReduceActionThere(m.t, Top(below).stateno, lhs)
            && var goto := FindReduceAction(m.t, Top(below).stateno, lhs);
               if lhs == m.g.start then x == 0 && |below| == 1 && goto == m.t.nstate + m.t.nrule + 1
               else 0 <= goto < m.t.nstate && OnStack(m, below + [StackEntry(goto, lhs)])
                    && Symbols(below + [StackEntry(goto, lhs)]) == Symbols(below) + [lhs]
       else act == m.t.nstate + m.t.nrule
  }

  lemma AlwaysSafe(m: Machine, st: seq<StackEntry>, x: nat)
    requires Drives(m) && OnStack(m, st) && x < m.g.nterminal
    ensures Safe(m, st, x)
  {
    hide Drives, OnStack, Skeleton, InRange, StateAt, FindShiftAction, FindReduceAction, ReduceActionThere, Symbols;
    NotEmpty(m, st);
    TopState(m, st);
    ShiftAnswered(m, st, x);
    TableSizes(m);
    var act := FindShiftAction(m.t, Top(st).stateno, x);
    if act < m.t.nstate {
      Pushed(m, st, x);
    } else if act < m.t.nstate + m.t.nrule {
      DrivesParts(m, act - m.t.nstate);
      ReduceThere(m, st, act - m.t.nstate);
    }
  }

  lemma TableSizes(m: Machine)
    requires Drives(m)
    ensures |m.t.ruleLhs| == |m.t.ruleNrhs| == |m.g.rules| == m.t.nrule && |m.t.dflt| == m.t.nstate
    ensures |m.t.action| == |m.t.lookahead|
  {
    hide Skeleton, ShiftAnswer, GotoAnswer, StartNotInRhs, WellFormed;
  }

  lemma ShiftAnswered(m: Machine, st: seq<StackEntry>, x: nat)
    requires Drives(m) && OnStack(m, st) && InRange(m, st) && x < m.g.nterminal
    ensures Top(st).stateno < m.t.nstate == |m.t.dflt| && |m.t.action| == |m.t.lookahead| && m.t.nrule == |m.g.rules|
    ensures
      var (act, s) := (FindShiftAction(m.t, Top(st).stateno, x), StateAt(m, st, |st| - 1));
      if act < m.t.nstate then x != 0 && x in s.shifts && s.shifts[x] < |m.pos| && act == m.pos[s.shifts[x]]
      else if act < m.t.nstate + m.t.nrule then
        Item(act - m.t.nstate,
            |m.g.rules[act - m.t.nstate].rhs|) in s.items && (m.g.rules[act - m.t.nstate].lhs == m.g.start ==> x == 0)
      else act == m.t.nstate + m.t.nrule
  {
    hide GotoAnswer, WellFormed, StartNotInRhs, IsClosure, Complete, Goto, FindShiftAction;
    TopState(m, st);
    assert ShiftAnswer(m, m.sorted[Top(st).stateno], x);
  }

  /** What the loop body makes of the stack when token `x` is due. */
  ghost function OneTurn(m: Machine, depth: nat, st: seq<StackEntry>, x: nat): (r: Turn)
    requires Safe(m, st, x)
    ensures r.Again? ==> OnStack(m, r.stack) && (|st| <= depth ==> |r.stack| <= depth)
    ensures r.Shifted? ==> x != 0 && OnStack(m, r.after) && (|st| <= depth ==> |r.after| <= depth)
    ensures r.SyntaxError? ==> r.at == st
    ensures !r.Unfinished? && (r.Accepted? ==> x == 0)
  {
    var act := FindShiftAction(m.t, Top(st).stateno, x);
    if act < m.t.nstate then
      if |st| >= depth then Overflow else Shifted(st + [StackEntry(act, x)])
    else if act < m.t.nstate + m.t.nrule then
      var r := act - m.t.nstate;
      var below := st[..|st| - m.t.ruleNrhs[r]];
      var goto := FindReduceAction(m.t, Top(below).stateno, m.t.ruleLhs[r]);
      if goto >= m.t.nstate then Accepted
      else if |below| >= depth then Overflow
      else Again(below + [StackEntry(goto, m.t.ruleLhs[r])])
    else SyntaxError(st)
  }

  /** The loop in Parse, for one token and at most `fuel` turns. */
  ghost function Feed(m: Machine, depth: nat, st: seq<StackEntry>, x: nat, fuel: nat): (r: Turn)
    requires Drives(m) && OnStack(m, st) && x < m.g.nterminal && |st| <= depth
    ensures !r.Again? && (r.Accepted? ==> x == 0)
    ensures r.Shifted? ==> x != 0 && OnStack(m, r.after) && |r.after| <= depth
    ensures r.SyntaxError? ==> OnStack(m, r.at) && |r.at| <= depth
    ensures r.Unfinished? ==> OnStack(m, r.sofar) && |r.sofar| <= depth
    decreases fuel
  {
    if fuel == 0 then Unfinished(st)
    else
      AlwaysSafe(m, st, x);
      var r := OneTurn(m, depth, st, x);
      if r.Again? then Feed(m, depth, r.stack, x, fuel - 1) else r
  }

  // ----- soundness -----

  /** The symbols on the stack derive the tokens shifted so far. */
  ghost predicate Stands(m: Machine, st: seq<StackEntry>, w: seq<nat>) {
    OnStack(m, st) && Derives(m.g, Symbols(st), w)
  }

  ghost predicate TurnSound(m: Machine, r: Turn, x: nat, w: seq<nat>) {
    match r
    case Again(st) => Stands(m, st, w)
    case Shifted(st) => Stands(m, st, w + [x])
    case Accepted => x == 0 && Derives(m.g, [m.g.start], w)
    case SyntaxError(st) => Stands(m, st, w)
    case Unfinished(st) => Stands(m, st, w)
    case Overflow => true
  }

  lemma ReduceDerives(g: Grammar, r: nat, below: seq<nat>, w: seq<nat>)
    requires r < |g.rules| && Derives(g, below + g.rules[r].rhs, w)
    ensures Derives(g, below + [g.rules[r].lhs], w)
  {
    RuleStep(g, r, below, []);
    assert below + [g.rules[r].lhs] + [] == below + [g.rules[r].lhs];
    assert below + g.rules[r].rhs + [] == below + g.rules[r].rhs;
    DerivesStep(g, below + [g.rules[r].lhs], below + g.rules[r].rhs, w);
  }

  lemma TurnIsSound(m: Machine, depth: nat, st: seq<StackEntry>, x: nat, w: seq<nat>)
    requires Safe(m, st, x) && Stands(m, st, w)
    ensures TurnSound(m, OneTurn(m, depth, st, x), x, w)
  {
    hide Drives, OnStack, Derives, FindShiftAction, FindReduceAction, ReduceActionThere, Symbols;
    DerivesRefl(m.g, [x]);
    DerivesConcat(m.g, Symbols(st), w, [x], [x]);
    var act := FindShiftAction(m.t, Top(st).stateno, x);
    if m.t.nstate <= act < m.t.nstate + m.t.nrule {
      var r := act - m.t.nstate;
      var below := st[..|st| - m.t.ruleNrhs[r]];
      ReduceDerives(m.g, r, Symbols(below), w);
      if m.g.rules[r].lhs == m.g.start {
        NoSymbols(below);
        assert [] + [m.g.start] == [m.g.start];
      }
    }
  }

  lemma NoSymbols(st: seq<StackEntry>)
    requires |st| == 1
    ensures Symbols(st) == []
  {
  }

  /** Whatever one call of Parse does, the stack stands for the tokens shifted; and when the
      parser accepts, they are a sentence and the token is the end marker. */
  lemma {:induction false} FeedIsSound(m: Machine, depth: nat, st: seq<StackEntry>, x: nat, fuel: nat, w: seq<nat>)
    requires Drives(m) && Stands(m, st, w) && x < m.g.nterminal && |st| <= depth
    ensures TurnSound(m, Feed(m, depth, st, x, fuel), x, w)
    decreases fuel
  {
    hide Drives, OnStack, Derives, Symbols, OneTurn, Safe;
    NotEmpty(m, st);
    if fuel > 0 {
      AlwaysSafe(m, st, x);
      TurnIsSound(m, depth, st, x, w);
      var r := OneTurn(m, depth, st, x);
      if r.Again? { FeedIsSound(m, depth, r.stack, x, fuel - 1, w); }
    }
  }

  // ----- a whole input -----

  ghost predicate Tokens(g: Grammar, w: seq<nat>) {
    forall k :: 0 <= k < |w| ==> 1 <= w[k] < g.nterminal
  }

  /** The stack of a parser that has just been (re)initialised. */
  function Bottom(): seq<StackEntry> { [StackEntry(0, 0)] }

  lemma BottomStands(m: Machine)
    requires Drives(m)
    ensures Stands(m, Bottom(), [])
  {
    hide Skeleton, ShiftAnswer, GotoAnswer, WellFormed, StartNotInRhs;
    assert Symbols(Bottom()) == [];
    DerivesRefl(m.g, []);
  }

  /** All tokens of `w` and then the end marker, each to one call of Parse, as long as the calls end with a shift. */
  ghost function Run(m: Machine, depth: nat, st: seq<StackEntry>, w: seq<nat>, fuel: nat): (r: Turn)
    requires Drives(m) && OnStack(m, st) && Tokens(m.g, w) && |st| <= depth
    ensures !r.Again? && !r.Shifted?
    decreases |w|
  {
    EndMarker(m);
    if w == [] then Feed(m, depth, st, 0, fuel)
    else
      var r := Feed(m, depth, st, w[0], fuel);
      if r.Shifted? then Run(m, depth, r.after, w[1..], fuel) else r
  }

  /** Every call of Parse for the tokens of `w`, and then that for the end marker, comes to an end and without an
      overflow; after a syntax error the tokens behind it are still fed. */
  ghost predicate AllEnd(m: Machine, depth: nat, st: seq<StackEntry>, w: seq<nat>, fuel: nat)
    requires Drives(m) && OnStack(m, st) && Tokens(m.g, w) && |st| <= depth
    decreases |w|
  {
    EndMarker(m);
    if w == [] then Final(Feed(m, depth, st, 0, fuel))
    else
      match Feed(m, depth, st, w[0], fuel)
      case Shifted(next) => AllEnd(m, depth, next, w[1..], fuel)
      case SyntaxError(next) => AllEnd(m, depth, next, w[1..], fuel)
      case _ => false
  }

  predicate Final(r: Turn) { !r.Unfinished? && !r.Overflow? }

  lemma EndMarker(m: Machine)
    requires Drives(m)
    ensures 0 < m.g.nterminal
  {
    hide Skeleton, ShiftAnswer, GotoAnswer, StartNotInRhs;
  }

  lemma {:induction false} RunIsSound(m: Machine, depth: nat, st: seq<StackEntry>, w: seq<nat>, fuel: nat,
      before: seq<nat>)
    requires Drives(m) && Stands(m, st, before) && Tokens(m.g, w) && |st| <= depth
    ensures Run(m, depth, st, w, fuel) == Accepted ==> Derives(m.g, [m.g.start], before + w)
    decreases |w|
  {
    hide Drives, OnStack, Derives, Symbols, Feed;
    EndMarker(m);
    if w == [] {
      FeedIsSound(m, depth, st, 0, fuel, before);
      assert before + w == before;
    } else {
      FeedIsSound(m, depth, st, w[0], fuel, before);
      var r := Feed(m, depth, st, w[0], fuel);
      if r.Shifted? {
        RunIsSound(m, depth, r.after, w[1..], fuel, before + [w[0]]);
        assert before + w == (before + [w[0]]) + w[1..];
      }
    }
  }

  /** What the parser accepts is a sentence. */
  lemma AcceptedIsSentence(m: Machine, depth: nat, w: seq<nat>, fuel: nat)
    requires Drives(m) && Tokens(m.g, w) && depth > 0 && OnStack(m, Bottom())
    ensures Run(m, depth, Bottom(), w, fuel) == Accepted ==> Derives(m.g, [m.g.start], w)
  {
    hide *;
    BottomStands(m);
    BottomSize();
    RunIsSound(m, depth, Bottom(), w, fuel, []);
    assert [] + w == w;
  }

  lemma BottomSize()
    ensures |Bottom()| == 1
  {
  }

  // ----- the parser object -----

  /** yyParser, with what the hooks of the grammar count. */
  class Parser {
    ghost const m: Machine
    const t: Tables
    const yystack: array<StackEntry>
    var yyidx: int
    var yyerrcnt: int
    var errors: nat              // calls of the syntax error and stack overflow hooks
    var failure: bool            // the parse failure hook was called
    var accepts: nat             // calls of yy_accept

    /** The entries in use. */
    ghost function Stack(): seq<StackEntry>
      reads this, yystack
      requires -1 <= yyidx < yystack.Length
    {
      yystack[..yyidx + 1]
    }

    ghost predicate Valid()
      reads this, yystack
    {
      && m.t == t && Drives(m) && yystack.Length > 0 && -1 <= yyidx < yystack.Length
      && (yyidx >= 0 ==> OnStack(m, Stack()))
    }

    /** ParseAlloc, with a stack of `depth` entries. */
    constructor (ghost m: Machine, t: Tables, depth: nat)
      requires m.t == t && Drives(m) && depth > 0
      ensures Valid() && fresh(yystack) && this.m == m && this.t == t && yystack.Length == depth
      ensures yyidx == -1 && errors == 0 && !failure && accepts == 0
    {
      this.m, this.t := m, t;
      yystack := new StackEntry[depth](_ => StackEntry(0, 0));
      yyidx, yyerrcnt, errors, failure, accepts := -1, 0, 0, false, 0;
    }

    /** yy_pop_parser_stack in a loop, until nothing is left. */
    method PopAll()
      requires -1 <= yyidx < yystack.Length
      modifies this`yyidx
      ensures yyidx == -1
    {
      while yyidx >= 0
        invariant -1 <= yyidx < yystack.Length
      {
        yyidx := yyidx - 1;
      }
    }

    /** yyStackOverflow, entered with `yyidx` one too high. */
    method StackOverflow()
      requires yyidx == yystack.Length
      modifies this`yyidx, this`errors
      ensures yyidx == -1 && errors == old(errors) + 1
    {
      yyidx := yyidx - 1;
      PopAll();
      errors := errors + 1;
    }

    /** yy_shift. */
    method Shift(newState: nat, major: nat) returns (ghost fits: bool)
      requires -1 <= yyidx < yystack.Length
      modifies this`yyidx, this`errors, yystack
      ensures fits == (old(yyidx) + 1 < yystack.Length)
      ensures fits ==>
        yyidx == old(yyidx) + 1 && Stack() == old(Stack()) + [StackEntry(newState, major)] && errors == old(errors)
      ensures !fits ==> yyidx == -1 && errors == old(errors) + 1
    {
      yyidx := yyidx + 1;
      fits := yyidx < yystack.Length;
      if yyidx >= yystack.Length {
        StackOverflow();
      } else {
        yystack[yyidx] := StackEntry(newState, major);
      }
    }

    /** yy_reduce: what is below the right-hand side decides on the next state. */
    method Reduce(ruleno: nat)
      requires 0 <= yyidx < yystack.Length && ruleno < |t.ruleLhs| == |t.ruleNrhs| && t.ruleNrhs[ruleno] <= yyidx
      requires ReduceActionThere(t, yystack[yyidx - t.ruleNrhs[ruleno]].stateno, t.ruleLhs[ruleno])
      requires var goto := FindReduceAction(t, yystack[yyidx - t.ruleNrhs[ruleno]].stateno, t.ruleLhs[ruleno]);
        0 <= goto && (goto < t.nstate || goto == t.nstate + t.nrule + 1)
      modifies this`yyidx, this`errors, this`accepts, yystack
      ensures -1 <= yyidx < yystack.Length
      ensures
        var below := old(Stack())[..old(yyidx) + 1 - t.ruleNrhs[ruleno]];
        var goto := old(FindReduceAction(t, yystack[yyidx - t.ruleNrhs[ruleno]].stateno, t.ruleLhs[ruleno]));
        if goto >= t.nstate then yyidx == -1 && errors == old(errors) && accepts == old(accepts) + 1
        else if |below| >= yystack.Length then yyidx == -1 && errors == old(errors) + 1 && accepts == old(accepts)
        else
          && Stack() == below + [StackEntry(goto, t.ruleLhs[ruleno])]
          && errors == old(errors) && accepts == old(accepts)
    {
      hide FindReduceAction, ReduceActionThere;
      var goto := t.ruleLhs[ruleno];
      var size := t.ruleNrhs[ruleno];
      ghost var below := Stack()[..yyidx + 1 - size];
      yyidx := yyidx - size;
      assert Stack() == below;
      var act := FindReduceAction(t, yystack[yyidx].stateno, goto);
      if act < t.nstate {
        var fits := Shift(act, goto);
      } else {
        assert act == t.nstate + t.nrule + 1;
        PopAll();
        accepts := accepts + 1;
      }
    }

    /** What a turn, or all turns for one token, leave of the parser. */
    twostate predicate After(r: Turn, x: nat, errcnt: int)
      requires -1 <= yyidx < yystack.Length
      reads this, yystack
    {
      && accepts == old(accepts) + (if r.Accepted? then 1 else 0)
      && match r
         case Shifted(st) =>
           yyidx >= 0 && Stack() == st && yyerrcnt == errcnt - 1 && errors == old(errors) && failure == old(failure)
         case Accepted => yyidx == -1 && errors == old(errors) && failure == old(failure)
         case SyntaxError(st) =>
           && yyerrcnt == 3 && errors == old(errors) + (if errcnt <= 0 then 1 else 0)
           && (if x == 0 then yyidx == -1 && failure else yyidx >= 0 && Stack() == st && failure == old(failure))
         case Overflow => yyidx == -1 && errors == old(errors) + 1 && failure == old(failure)
         case Again(st) =>
           yyidx >= 0 && Stack() == st && yyerrcnt == errcnt && errors == old(errors) && failure == old(failure)
         case Unfinished(st) => yyidx >= 0 && Stack() == st && errors == old(errors) && failure == old(failure)
    }

    /** The body of the loop in Parse: whether the token is still due. */
    method Turn(yymajor: nat) returns (again: bool, ghost r: Turn)
      requires Valid() && yyidx >= 0 && yymajor < m.g.nterminal
      modifies this`yyidx, this`yyerrcnt, this`errors, this`failure, this`accepts, yystack
      ensures Valid() && Safe(m, old(Stack()), yymajor)
      ensures r == OneTurn(m, yystack.Length, old(Stack()), yymajor) && again == r.Again?
      ensures After(r, yymajor, old(yyerrcnt))
    {
      hide Drives, OnStack, FindShiftAction, FindReduceAction, ReduceActionThere, Safe, OneTurn, ReduceIsDue, Symbols;
      ghost var st := Stack();
      AlwaysSafe(m, st, yymajor);
      r := OneTurn(m, yystack.Length, st, yymajor);
      assert yystack[yyidx] == Top(st);
      TurnCases(m, yystack.Length, st, yymajor);
      var act := FindShiftAction(t, yystack[yyidx].stateno, yymajor);
      again := false;
      if act < t.nstate {
        assert yymajor != 0;
        var fits := Shift(act, yymajor);
        yyerrcnt := yyerrcnt - 1;
      } else if act < t.nstate + t.nrule {
        ReduceCases(m, yystack.Length, st, yymajor, act - t.nstate);
        assert Top(st[..|st| - t.ruleNrhs[act - t.nstate]]) == yystack[yyidx - t.ruleNrhs[act - t.nstate]];
        Reduce(act - t.nstate);
        again := yyidx >= 0;
      } else {
        if yyerrcnt <= 0 { errors := errors + 1; }
        yyerrcnt := 3;
        if yymajor == 0 {
          PopAll();
          failure := true;
        }
      }
    }

    /** Parse: one token, with at most `fuel` turns of the loop. */
    method Parse(yymajor: nat, fuel: nat) returns (finished: bool, ghost turn: Turn)
      requires Valid() && yymajor < m.g.nterminal
      modifies this`yyidx, this`yyerrcnt, this`errors, this`failure, this`accepts, yystack
      ensures Valid()
      ensures OnStack(m, Bottom())
      ensures turn == Feed(m, yystack.Length, if old(yyidx) < 0 then Bottom() else old(Stack()), yymajor, fuel)
      ensures finished == !turn.Unfinished?
      ensures After(turn, yymajor, if old(yyidx) < 0 then -1 else old(yyerrcnt))
    {
      hide Drives, OnStack, FindShiftAction, FindReduceAction, ReduceActionThere, Safe, OneTurn, Symbols;
      BottomStands(m);
      if yyidx < 0 {
        yyidx := 0;
        yyerrcnt := -1;
        yystack[0] := StackEntry(0, 0);
        assert Stack() == Bottom();
      }
      ghost var errcnt := yyerrcnt;
      turn := Feed(m, yystack.Length, Stack(), yymajor, fuel);
      var left: nat := fuel;
      while left > 0
        invariant Valid() && yyidx >= 0 && left <= fuel
        invariant turn == Feed(m, yystack.Length, Stack(), yymajor, left)
        invariant yyerrcnt == errcnt && errors == old(errors) && failure == old(failure) && accepts == old(accepts)
        decreases left
      {
        var again;
        ghost var r;
        again, r := Turn(yymajor);
        if !again { return true, turn; }
        left := left - 1;
      }
      finished := false;
    }

    /** The loop of VM::eval: the tokens of the scanner one by one, the end marker last. */
    method Eval(tokens: seq<nat>, fuel: nat) returns (finished: bool, ok: bool)
      requires Valid() && yyidx == -1 && errors == 0 && !failure && Tokens(m.g, tokens)
      modifies this`yyidx, this`yyerrcnt, this`errors, this`failure, this`accepts, yystack
      ensures Valid()
      ensures OnStack(m, Bottom())
      ensures finished ==> (ok <==> Run(m, yystack.Length, Bottom(), tokens, fuel) == Accepted)
      ensures finished && ok ==> Derives(m.g, [m.g.start], tokens)
      ensures AllEnd(m, yystack.Length, Bottom(), tokens, fuel) ==> finished
    {
      hide Drives, OnStack, Feed;
      BottomStands(m);
      EndMarker(m);
      ghost var (st, at) := (Bottom(), Bottom());
      for i := 0 to |tokens|
        invariant Valid() && OnStack(m, st) && |st| <= yystack.Length
        invariant errors == 0 && !failure ==>
          && (if i == 0 then yyidx == -1 else yyidx >= 0 && Stack() == st && yyerrcnt < 0)
          && Run(m, yystack.Length, Bottom(), tokens, fuel) == Run(m, yystack.Length, st, tokens[i..], fuel)
        invariant errors > 0 || failure ==> Run(m, yystack.Length, Bottom(), tokens, fuel) != Accepted
        invariant AllEnd(m, yystack.Length, Bottom(), tokens, fuel) ==>
          && (if i == 0 then yyidx == -1 && at == Bottom() else yyidx >= 0 && Stack() == at)
          && OnStack(m, at) && |at| <= yystack.Length && AllEnd(m, yystack.Length, at, tokens[i..], fuel)
      {
        ghost var turn;
        finished, turn := Parse(tokens[i], fuel);
        if !finished { return false, false; }
        if turn.Shifted? { st := turn.after; }
        at := if turn.Shifted? then turn.after else if turn.SyntaxError? then turn.at else at;
        assert tokens[i..][1..] == tokens[i + 1..];
      }
      ghost var turn;
      finished, turn := Parse(0, fuel);
      ok := !(failure || errors > 0);
      if finished && ok {
        AcceptedIsSentence(m, yystack.Length, tokens, fuel);
      }
    }
  }

  /** A reduce by rule `r` is what the arrays say. */
  ghost predicate ReduceIsDue(m: Machine, st: seq<StackEntry>, x: nat, r: nat) {
    Safe(m, st, x) && r < m.t.nrule && FindShiftAction(m.t, Top(st).stateno, x) == m.t.nstate + r
  }

  lemma ReduceCases(m: Machine, depth: nat, st: seq<StackEntry>, x: nat, r: nat)
    requires ReduceIsDue(m, st, x, r)
    ensures Safe(m, st, x) && r < |m.t.ruleLhs| == |m.t.ruleNrhs| && m.t.ruleNrhs[r] < |st|
    ensures
      var (lhs, below) := (m.t.ruleLhs[r], st[..|st| - m.t.ruleNrhs[r]]);
      && OnStack(m, below) && ReduceActionThere(m.t, Top(below).stateno, lhs)
      && var goto := FindReduceAction(m.t, Top(below).stateno, lhs);
         && goto >= 0 && (goto >= m.t.nstate ==> goto == m.t.nstate + m.t.nrule + 1)
         && (goto < m.t.nstate ==> OnStack(m, below + [StackEntry(goto, lhs)]))
         && OneTurn(m, depth, st, x) ==
              if goto >= m.t.nstate then Accepted
              else if |below| >= depth then Overflow
              else Again(below + [StackEntry(goto, lhs)])
  {
    hide Drives, OnStack, FindShiftAction, FindReduceAction, ReduceActionThere;
  }

  lemma TurnCases(m: Machine, depth: nat, st: seq<StackEntry>, x: nat)
    requires Safe(m, st, x)
    ensures st != [] && Top(st).stateno < m.t.nstate == |m.t.dflt| && |m.t.action| == |m.t.lookahead|
    ensures
      var act := FindShiftAction(m.t, Top(st).stateno, x);
      if act < m.t.nstate then
        && act >= 0 && x != 0 && OnStack(m, st + [StackEntry(act, x)])
        && OneTurn(m, depth, st, x) == if |st| >= depth then Overflow else Shifted(st + [StackEntry(act, x)])
      else if act < m.t.nstate + m.t.nrule then ReduceIsDue(m, st, x, act - m.t.nstate)
      else act == m.t.nstate + m.t.nrule && OneTurn(m, depth, st, x) == SyntaxError(st)
  {
    hide Drives, OnStack, FindShiftAction, FindReduceAction, ReduceActionThere;
  }
}
