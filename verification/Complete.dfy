/** Completeness of the generated parser: when no action was ever in conflict, every
    sentence is accepted, so that the parser accepts exactly the language of the grammar. */
module LemonComplete {
  import opened LemonGrammar
  import opened LemonFirstSets
  import opened LemonAutomaton
  import opened LemonFollowSets
  import opened LemonLookaheads
  import opened LemonTables
  import opened LemonDriver
  import opened LemonTrees

  /** A machine with the sets and links that its arrays were made from. */
  datatype Built = Built(m: Machine, lambda: seq<bool>, first: seq<set<nat>>, links: seq<Link>,
                         fplp: map<Config, seq<Config>>, low: Family, fws: Family)

  ghost predicate Follows(b: Built) {
    && WellFormed(b.m.g) && Exact(b.m.g, b.lambda, b.first)
    && IsAutomaton(b.m.g, b.lambda, b.first, b.m.states, b.links)
    && Linked(b.links, b.fplp) && IsInitial(b.m.states, b.low) && IsLeast(b.fplp, b.low, b.fws)
  }

  /** Every action that the automaton and the follow sets ask for can be looked up. */
  ghost predicate Obeys(b: Built, s: nat, x: nat)
    requires Drives(b.m) && s < |b.m.states| && x < b.m.g.nterminal
  {
    var t := b.m.t;
    && (x in b.m.states[s].shifts ==>
          && b.m.states[s].shifts[x] < |b.m.pos|
          && FindShiftAction(t, b.m.pos[s], x) == b.m.pos[b.m.states[s].shifts[x]] < t.nstate)
    && (forall r :: 0 <= r < |b.m.g.rules| && IsDue(b, s, r, x) ==> FindShiftAction(t, b.m.pos[s], x) == t.nstate + r)
  }

  /** Rule `r` is complete in state `s` and terminal `x` may follow it. */
  ghost predicate IsDue(b: Built, s: nat, r: nat, x: nat)
    requires r < |b.m.g.rules|
  {
    Awaits(b, s, Item(r, |b.m.g.rules[r].rhs|), x)
  }

  /** Item `it` is in state `s`, and `x` may follow its rule there. */
  ghost predicate Awaits(b: Built, s: nat, it: Item, x: nat) {
    && s < |b.m.states| && it in b.m.states[s].items
    && Config(s, it) in b.fws && x in b.fws[Config(s, it)]
  }

  ghost predicate Prompt(b: Built) {
    && Drives(b.m) && Follows(b)
    && forall s, x :: 0 <= s < |b.m.states| && 0 <= x < b.m.g.nterminal ==> Obeys(b, s, x)
  }

  // ----- lookaheads travel with the items -----

  /** The terminal after the symbol behind the mark may follow the rules of that symbol. */
  lemma NextLookahead(b: Built, s: nat, it: Item, r: nat, f: Forest, rest: seq<nat>)
    requires Follows(b) && rest != [] && Awaits(b, s, it, rest[0]) && Generates(b.m.g, it, Item(r, 0))
    requires Good(b.m.g, f) && Roots(b.m.g, f) == Tail(b.m.g, it)
    requires forall k :: 0 <= k < |Yield(f)| ==> Yield(f)[k] < b.m.g.nterminal
    ensures Awaits(b, s, Item(r, 0), (Yield(f) + rest)[0])
  {
    var (g, states) := (b.m.g, b.m.states);
    hide *;
    AwaitsParts(b, s, it, rest[0]);
    FollowsParts(b, s);
    GeneratedIsItem(g, states[s], it, Item(r, 0));
    TreesDerive(g, f);
    var y := Yield(f);
    if y == [] {
      assert y + rest == rest;
      NullableNow(g, Tail(g, it));
      EmptyTailLink(b, s, it, Item(r, 0));
      LinkCarries(g, b.lambda, b.first, states, b.links, b.fplp, b.fws, Config(s, it), Config(s, Item(r, 0)), rest[0]);
    } else {
      assert (y + rest)[0] == y[0];
      BeginsNow(g, Tail(g, it), y);
      SpontaneousBegins(g, b.lambda, b.first, Items(states[s].items), Item(r, 0), y[0]);
      AsItem(states[s].items, it);
      SpontaneousNow(g, b.lambda, b.first, states, s, it, Item(r, 0), y[0]);
      InitialNow(b, s, Item(r, 0), y[0]);
    }
    AwaitsNow(b, s, Item(r, 0), (y + rest)[0]);
  }

  lemma FollowsParts(b: Built, s: nat)
    requires Follows(b) && s < |b.m.states|
    ensures WellFormed(b.m.g) && Exact(b.m.g, b.lambda, b.first)
    ensures IsAutomaton(b.m.g, b.lambda, b.first, b.m.states, b.links)
    ensures Linked(b.links, b.fplp) && ClosedUnder(b.fplp, b.fws) && IsInitial(b.m.states, b.low) && Above(b.fws, b.low)
    ensures IsClosure(b.m.g, b.m.states[s].kernel, Items(b.m.states[s].items))
  {
    hide IsClosure, GoodShifts, LinksInv, Exact, WellFormed, Linked, ClosedUnder, IsInitial;
    StateParts(b.m.g, b.lambda, b.first, b.m.states, s);
  }

  lemma AwaitsParts(b: Built, s: nat, it: Item, x: nat)
    requires Awaits(b, s, it, x)
    ensures s < |b.m.states| && it in b.m.states[s].items && Config(s, it) in b.fws && x in b.fws[Config(s, it)]
  {
  }

  lemma AwaitsNow(b: Built, s: nat, it: Item, x: nat)
    requires s < |b.m.states| && it in b.m.states[s].items && Config(s, it) in b.fws && x in b.fws[Config(s, it)]
    ensures Awaits(b, s, it, x)
  {
  }

  lemma GeneratedIsItem(g: Grammar, st: State, a: Item, c: Item)
    requires IsClosure(g, st.kernel, Items(st.items)) && a in st.items && Generates(g, a, c)
    ensures c in st.items && CanShift(g, a)
  {
    assert a in Items(st.items) && Closed(g, Items(st.items));
  }

  lemma NullableNow(g: Grammar, u: seq<nat>)
    requires Derives(g, u, [])
    ensures Nullable(g, u)
  {
  }

  lemma BeginsNow(g: Grammar, u: seq<nat>, y: seq<nat>)
    requires Derives(g, u, y) && y != []
    ensures Begins(g, u, y[0])
  {
    assert y == [y[0]] + y[1..];
  }

  lemma AsItem(s: seq<Item>, it: Item)
    requires it in s
    ensures it in Items(s)
  {
  }

  lemma EmptyTailLink(b: Built, s: nat, it: Item, c: Item)
    requires WellFormed(b.m.g) && Exact(b.m.g, b.lambda, b.first) && s < |b.m.states| && it in b.m.states[s].items
    requires Generates(b.m.g, it, c) && Nullable(b.m.g, Tail(b.m.g, it))
    ensures IsLink(b.m.g, b.lambda, b.m.states, Config(s, it), Config(s, c))
  {
    hide Exact, WellFormed;
    NullableTail(b.m.g, b.lambda, b.first, it);
  }

  lemma SpontaneousNow(g: Grammar, lambda: seq<bool>, first: seq<set<nat>>, states: seq<State>, s: nat, a: Item,
      c: Item, t: nat)
    requires WellFormed(g) && Exact(g, lambda, first) && s < |states| && a in Items(states[s].items)
    requires Generates(g, a, c) && Begins(g, Tail(g, a), t) && t < g.nterminal
    ensures Spontaneous(g, lambda, first, Items(states[s].items), c, t)
  {
    hide Exact, WellFormed, Begins, Spontaneous;
    SpontaneousBegins(g, lambda, first, Items(states[s].items), c, t);
  }

  lemma InitialNow(b: Built, s: nat, c: Item, t: nat)
    requires IsAutomaton(b.m.g, b.lambda, b.first, b.m.states, b.links) && IsInitial(b.m.states, b.low)
    requires Above(b.fws, b.low)
    requires s < |b.m.states| && c in b.m.states[s].items
    requires Spontaneous(b.m.g, b.lambda, b.first, Items(b.m.states[s].items), c, t)
    ensures Config(s, c) in b.fws && t in b.fws[Config(s, c)]
  {
    assert GoodState(b.m.g, b.lambda, b.first, b.m.states[s], s == 0);
    hide StatesInv, IsInitial, Above, Spontaneous, LinksInv;
    assert IsConfig(b.m.states, Config(s, c));
    InitialArrives(b.m.states, b.low, b.fws, Config(s, c));
  }

  /** When the mark moves, what may follow the rule stays. */
  lemma MovedLookahead(b: Built, s: nat, it: Item, s': nat, x: nat)
    requires Follows(b) && Awaits(b, s, it, x) && CanShift(b.m.g, it)
    requires Next(b.m.g, it) in b.m.states[s].shifts && s' == b.m.states[s].shifts[Next(b.m.g, it)] < |b.m.states|
    requires Advance(it) in b.m.states[s'].items
    ensures Awaits(b, s', Advance(it), x)
  {
    hide *;
    AwaitsParts(b, s, it, x);
    FollowsParts(b, s);
    assert IsLink(b.m.g, b.lambda, b.m.states, Config(s, it), Config(s', Advance(it))) by { MovedLink(b, s, it, s'); }
    LinkCarries(b.m.g, b.lambda, b.first, b.m.states, b.links, b.fplp, b.fws, Config(s, it), Config(s', Advance(it)),
        x);
    AwaitsNow(b, s', Advance(it), x);
  }

  lemma MovedLink(b: Built, s: nat, it: Item, s': nat)
    requires s < |b.m.states| && it in b.m.states[s].items && CanShift(b.m.g, it)
    requires Next(b.m.g, it) in b.m.states[s].shifts && s' == b.m.states[s].shifts[Next(b.m.g, it)]
    ensures IsLink(b.m.g, b.lambda, b.m.states, Config(s, it), Config(s', Advance(it)))
  {
  }

  // ----- moves of the machine over the rest of the input -----

  /** `n` turns of the loop lead from stack `st` and input `w` to `st'` and `w'`. */
  ghost predicate Moves(m: Machine, depth: nat, st: seq<StackEntry>, w: seq<nat>, n: nat, st': seq<StackEntry>,
      w': seq<nat>)
    decreases n
  {
    if n == 0 then st == st' && w == w'
    else
      && w != [] && w[0] < m.g.nterminal && Safe(m, st, w[0])
      && match OneTurn(m, depth, st, w[0])
         case Again(next) => Moves(m, depth, next, w, n - 1, st', w')
         case Shifted(next) => Moves(m, depth, next, w[1..], n - 1, st', w')
         case _ => false
  }

  lemma {:induction false} MovesOn(m: Machine, depth: nat, st: seq<StackEntry>, w: seq<nat>, n: nat,
      st1: seq<StackEntry>, w1: seq<nat>, k: nat, st2: seq<StackEntry>, w2: seq<nat>)
    requires Moves(m, depth, st, w, n, st1, w1) && Moves(m, depth, st1, w1, k, st2, w2)
    ensures Moves(m, depth, st, w, n + k, st2, w2)
    decreases n
  {
    hide Safe, OneTurn;
    if n > 0 {
      match OneTurn(m, depth, st, w[0])
      case Again(next) => MovesOn(m, depth, next, w, n - 1, st1, w1, k, st2, w2);
      case Shifted(next) => MovesOn(m, depth, next, w[1..], n - 1, st1, w1, k, st2, w2);
    }
  }

  /** Run, with `k` turns left for the first token. */
  ghost function RunWith(m: Machine, depth: nat, st: seq<StackEntry>, w: seq<nat>, k: nat, fuel: nat): Turn
    requires Drives(m) && OnStack(m, st) && Tokens(m.g, w) && |st| <= depth && 0 < m.g.nterminal
  {
    if w == [] then Feed(m, depth, st, 0, k)
    else
      var r := Feed(m, depth, st, w[0], k);
      if r.Shifted? then Run(m, depth, r.after, w[1..], fuel) else r
  }

  /** Moves that end where the end marker is accepted are a run that accepts. */
  lemma {:induction false} MovesRun(m: Machine, depth: nat, st: seq<StackEntry>, w: seq<nat>, n: nat,
      st': seq<StackEntry>, k: nat, fuel: nat)
    requires Drives(m) && OnStack(m, st) && Tokens(m.g, w) && |st| <= depth && 0 < m.g.nterminal
    requires Moves(m, depth, st, w + [0], n, st', [0]) && Safe(m, st', 0) && OneTurn(m, depth, st', 0) == Accepted
    requires n < k && n < fuel
    ensures RunWith(m, depth, st, w, k, fuel) == Accepted
    decreases n
  {
    hide Drives, OnStack, Safe, OneTurn;
    if n == 0 {
      assert w == [] && st == st' by { assert |w + [0]| == 1; }
      AlwaysSafe(m, st, 0);
    } else {
      var x := (w + [0])[0];
      AlwaysSafe(m, st, x);
      assert w != [] ==> x == w[0];
      match OneTurn(m, depth, st, x)
      case Again(next) => MovesRun(m, depth, next, w, n - 1, st', k - 1, fuel);
      case Shifted(next) =>
        assert (w + [0])[1..] == w[1..] + [0];
        MovesRun(m, depth, next, w[1..], n - 1, st', fuel, fuel);
    }
  }

  // ----- one symbol at a time -----

  ghost function TopNumber(m: Machine, st: seq<StackEntry>): nat
    requires st != [] && InRange(m, st)
  {
    m.sorted[Top(st).stateno]
  }

  /** The symbol behind the mark of `it` can be shifted. */
  ghost predicate MayGoOn(m: Machine, st: seq<StackEntry>, it: Item) {
    && st != [] && InRange(m, st) && CanShift(m.g, it)
    && Next(m.g, it) in m.states[TopNumber(m, st)].shifts && m.states[TopNumber(m, st)].shifts[Next(m.g, it)] < |m.pos|
  }

  /** The stack after the symbol behind the mark of `it`. */
  ghost function Onward(m: Machine, st: seq<StackEntry>, it: Item): seq<StackEntry>
    requires MayGoOn(m, st, it)
  {
    st + [StackEntry(m.pos[m.states[TopNumber(m, st)].shifts[Next(m.g, it)]], Next(m.g, it))]
  }

  /** Item `it` is in the top state, and `x` may follow its rule there. */
  ghost predicate TopAwaits(b: Built, st: seq<StackEntry>, it: Item, x: nat) {
    OnStack(b.m, st) && Awaits(b, TopNumber(b.m, st), it, x)
  }

  lemma CanGoOn(m: Machine, st: seq<StackEntry>, it: Item)
    requires Drives(m) && OnStack(m, st) && it in m.states[TopNumber(m, st)].items && CanShift(m.g, it)
    ensures MayGoOn(m, st, it) && m.states[TopNumber(m, st)].shifts[Next(m.g, it)] < |m.states|
    ensures OnStack(m, Onward(m, st, it))
    ensures TopNumber(m, Onward(m, st, it)) == m.states[TopNumber(m, st)].shifts[Next(m.g, it)]
    ensures Advance(it) in m.states[TopNumber(m, Onward(m, st, it))].items
  {
    var n := |st| - 1;
    assert StateAt(m, st, n) == m.states[TopNumber(m, st)];
    assert Skeleton(m.g, m.states) by { hide ShiftAnswer, GotoAnswer, WellFormed, StartNotInRhs, Skeleton, OnStack; }
    StackState(m, st, n);
    hide Skeleton, ShiftAnswer, GotoAnswer, WellFormed, StartNotInRhs, IsClosure, Goto, Drives;
    assert Next(m.g, it) in StateAt(m, st, n).shifts;
    hide Complete, OnStack;
    TargetOf(m, TopNumber(m, st), Next(m.g, it));
    Pushed(m, st, Next(m.g, it));
    var st' := Onward(m, st, it);
    StackState(m, st', n + 1);
    assert st'[n] == st[n] && StateAt(m, st', n) == StateAt(m, st, n);
    MovedInClosure(m.g, StateAt(m, st, n).items, StateAt(m, st', n + 1), it);
  }

  lemma MovedInClosure(g: Grammar, before: seq<Item>, st: State, it: Item)
    requires it in before && CanShift(g, it) && st.kernel == Goto(g, Items(before), Next(g, it))
    requires IsClosure(g, st.kernel, Items(st.items))
    ensures Advance(it) in st.items
  {
    assert it in Items(before);
    assert Advance(it) in st.kernel;
    assert Advance(it) in Items(st.items);
  }

  lemma GoesOn(b: Built, st: seq<StackEntry>, it: Item, x: nat)
    requires Drives(b.m) && Follows(b) && TopAwaits(b, st, it, x) && CanShift(b.m.g, it)
    ensures MayGoOn(b.m, st, it)
    ensures TopAwaits(b, Onward(b.m, st, it), Advance(it), x)
  {
    hide Drives, Follows, OnStack;
    NotEmpty(b.m, st);
    TopState(b.m, st);
    CanGoOn(b.m, st, it);
    TopState(b.m, Onward(b.m, st, it));
    NotEmpty(b.m, Onward(b.m, st, it));
    hide Onward;
    MovedLookahead(b, TopNumber(b.m, st), it, TopNumber(b.m, Onward(b.m, st, it)), x);
  }

  lemma Looked(b: Built, st: seq<StackEntry>, x: nat)
    requires Prompt(b) && OnStack(b.m, st) && x < b.m.g.nterminal
    ensures Drives(b.m) && Follows(b) && InRange(b.m, st) && st != [] && Safe(b.m, st, x)
    ensures TopNumber(b.m, st) < |b.m.states| && Obeys(b, TopNumber(b.m, st), x)
    ensures b.m.pos[TopNumber(b.m, st)] == Top(st).stateno
  {
    hide Drives, Follows, OnStack, Obeys, Safe;
    TopState(b.m, st);
    NotEmpty(b.m, st);
    AlwaysSafe(b.m, st, x);
  }

  /** A terminal behind the mark is shifted. */
  lemma ShiftsTerminal(b: Built, depth: nat, st: seq<StackEntry>, it: Item, w: seq<nat>, x: nat)
    requires Prompt(b) && TopAwaits(b, st, it, x) && CanShift(b.m.g, it)
    requires w != [] && w[0] == Next(b.m.g, it) < b.m.g.nterminal && |st| < depth
    ensures MayGoOn(b.m, st, it)
    ensures TopAwaits(b, Onward(b.m, st, it), Advance(it), x)
    ensures Moves(b.m, depth, st, w, 1, Onward(b.m, st, it), w[1..])
  {
    hide Prompt, Drives, Follows, OnStack, Safe, Awaits;
    Looked(b, st, w[0]);
    GoesOn(b, st, it, x);
    ShiftTurn(b.m, depth, st, w[0], b.m.pos[b.m.states[TopNumber(b.m, st)].shifts[Next(b.m.g, it)]]);
    hide Obeys;
  }

  lemma ShiftTurn(m: Machine, depth: nat, st: seq<StackEntry>, x: nat, p: nat)
    requires Safe(m, st, x) && FindShiftAction(m.t, Top(st).stateno, x) == p < m.t.nstate && |st| < depth
    ensures OneTurn(m, depth, st, x) == Shifted(st + [StackEntry(p, x)])
  {
    hide FindShiftAction, OnStack;
  }

  lemma ReduceTurn(m: Machine, depth: nat, st: seq<StackEntry>, x: nat, r: nat)
    requires Safe(m, st, x) && r < |m.g.rules| && FindShiftAction(m.t, Top(st).stateno, x) == m.t.nstate + r
    ensures |m.g.rules[r].rhs| < |st| && m.t.nrule == |m.g.rules|
    ensures
      var below := st[..|st| - |m.g.rules[r].rhs|];
      ReduceActionThere(m.t, Top(below).stateno, m.g.rules[r].lhs)
      && var goto := FindReduceAction(m.t, Top(below).stateno, m.g.rules[r].lhs);
         if m.g.rules[r].lhs == m.g.start then OneTurn(m, depth, st, x) == Accepted
         else goto >= 0 && (|below| < depth ==>
             OneTurn(m, depth, st, x) == Again(below + [StackEntry(goto, m.g.rules[r].lhs)]))
  {
    hide FindShiftAction, FindReduceAction, ReduceActionThere, OnStack;
  }

  lemma GotoIs(m: Machine, st: seq<StackEntry>, x: nat)
    requires Drives(m) && OnStack(m, st) && m.g.nterminal <= x < m.g.nsymbol && x in m.states[TopNumber(m, st)].shifts
    requires ReduceActionThere(m.t, Top(st).stateno, x)
    ensures x != m.g.start && m.states[TopNumber(m, st)].shifts[x] < |m.pos|
    ensures FindReduceAction(m.t, Top(st).stateno, x) == m.pos[m.states[TopNumber(m, st)].shifts[x]]
  {
    hide Drives, OnStack, ReduceActionThere, FindReduceAction;
    NotEmpty(m, st);
    TopState(m, st);
    Answered(m, st, x);
  }

  /** A complete rule is reduced when what follows it is due, and its symbol is pushed where the rule began. */
  lemma ReducesRule(b: Built, depth: nat, st: seq<StackEntry>, it: Item, x: nat, r: nat, full: seq<StackEntry>,
      w: seq<nat>)
    requires Prompt(b) && TopAwaits(b, st, it, x) && Generates(b.m.g, it, Item(r, 0)) && |st| < depth
    requires r < |b.m.g.rules| && |full| == |st| + |b.m.g.rules[r].rhs| && full[..|st|] == st
    requires w != [] && w[0] < b.m.g.nterminal && TopAwaits(b, full, Item(r, |b.m.g.rules[r].rhs|), w[0])
    requires x < b.m.g.nterminal
    ensures MayGoOn(b.m, st, it)
    ensures TopAwaits(b, Onward(b.m, st, it), Advance(it), x)
    ensures Moves(b.m, depth, full, w, 1, Onward(b.m, st, it), w)
  {
    hide *;
    DueReduce(b, full, r, w[0]);
    AwaitingIsNotEmpty(b, st, it, x);
    ReduceTurn(b.m, depth, full, w[0], r);
    GoesOnFrom(b, st, it, x, r);
    assert |full| - |b.m.g.rules[r].rhs| == |st|;
    AgainMove(b.m, depth, full, w, Onward(b.m, st, it));
  }

  lemma DueReduce(b: Built, full: seq<StackEntry>, r: nat, x: nat)
    requires Prompt(b) && r < |b.m.g.rules| && x < b.m.g.nterminal
    requires TopAwaits(b, full, Item(r, |b.m.g.rules[r].rhs|), x)
    ensures Drives(b.m) && Safe(b.m, full, x)
    ensures full != [] && Top(full).stateno < |b.m.t.dflt| && |b.m.t.action| == |b.m.t.lookahead|
    ensures FindShiftAction(b.m.t, Top(full).stateno, x) == b.m.t.nstate + r
  {
    hide Prompt, Drives, Follows, OnStack, Awaits, FindReduceAction, ReduceActionThere, FindShiftAction;
    Looked(b, full, x);
    assert IsDue(b, TopNumber(b.m, full), r, x);
  }

  lemma GoesOnFrom(b: Built, st: seq<StackEntry>, it: Item, x: nat, r: nat)
    requires Prompt(b) && TopAwaits(b, st, it, x) && Generates(b.m.g, it, Item(r, 0)) && r < |b.m.g.rules|
    requires x < b.m.g.nterminal
    requires st != [] && ReduceActionThere(b.m.t, Top(st).stateno, b.m.g.rules[r].lhs)
    ensures MayGoOn(b.m, st, it) && TopAwaits(b, Onward(b.m, st, it), Advance(it), x)
    ensures var goto := FindReduceAction(b.m.t, Top(st).stateno, b.m.g.rules[r].lhs);
      goto >= 0 && b.m.g.rules[r].lhs != b.m.g.start
        && Onward(b.m, st, it) == st + [StackEntry(goto, b.m.g.rules[r].lhs)]
  {
    hide Prompt, Drives, Follows, OnStack, Safe, Awaits, ReduceActionThere, FindReduceAction, Obeys;
    Looked(b, st, x);
    GoesOn(b, st, it, x);
    DrivesParts(b.m, r);
    GotoIs(b.m, st, b.m.g.rules[r].lhs);
  }

  lemma AwaitingIsNotEmpty(b: Built, st: seq<StackEntry>, it: Item, x: nat)
    requires TopAwaits(b, st, it, x)
    ensures st != []
  {
  }

  lemma AgainMove(m: Machine, depth: nat, st: seq<StackEntry>, w: seq<nat>, next: seq<StackEntry>)
    requires w != [] && w[0] < m.g.nterminal && Safe(m, st, w[0]) && OneTurn(m, depth, st, w[0]) == Again(next)
    ensures Moves(m, depth, st, w, 1, next, w)
  {
    hide Safe, OneTurn;
    NoMove(m, depth, next, w);
  }

  // ----- whole trees -----

  lemma ForestSymbols(g: Grammar, f: Forest)
    requires Good(g, f)
    ensures forall k :: 0 <= k < |Yield(f)| ==> Yield(f)[k] < g.nterminal
    decreases f
  {
    if f.Cons? {
      assert Yield(f) == YieldTree(f.head) + Yield(f.tail);
      ForestSymbols(g, f.tail);
      if f.head.Node? { ForestSymbols(g, f.head.children); }
    }
  }

  lemma NoMove(m: Machine, depth: nat, st: seq<StackEntry>, w: seq<nat>)
    ensures Moves(m, depth, st, w, 0, st, w)
  {
  }

  lemma RootsOfCons(g: Grammar, f: Forest, rhs: seq<nat>, d: nat)
    requires f.Cons? && Good(g, f) && d <= |rhs| && Roots(g, f) == rhs[d..]
    ensures d < |rhs| && Root(g, f.head) == rhs[d] && Roots(g, f.tail) == rhs[d + 1..] && Good(g, f.tail)
    ensures f.head.Leaf? ==> f.head.sym == rhs[d] < g.nterminal
    ensures f.head.Node? ==>
      && f.head.rule < |g.rules| && g.rules[f.head.rule].lhs == rhs[d]
      && Good(g, f.head.children) && Roots(g, f.head.children) == g.rules[f.head.rule].rhs
  {
    assert |Roots(g, f)| == |rhs| - d;
    assert Roots(g, f)[0] == rhs[d];
    assert Roots(g, f)[1..] == Roots(g, f.tail);
    assert rhs[d..][1..] == rhs[d + 1..];
  }

  lemma OnwardIs(m: Machine, st: seq<StackEntry>, it: Item)
    requires MayGoOn(m, st, it)
    ensures |Onward(m, st, it)| == |st| + 1 && Onward(m, st, it)[..|st|] == st
  {
  }

  /** What may come after the first leaf of some trees is a terminal. */
  lemma FirstOfInput(g: Grammar, f: Forest, rest: seq<nat>)
    requires Good(g, f) && rest != [] && rest[0] < g.nterminal
    ensures Yield(f) + rest != [] && (Yield(f) + rest)[0] < g.nterminal
  {
    ForestSymbols(g, f);
    if Yield(f) == [] { assert Yield(f) + rest == rest; }
  }

  /** A node: its children are read where the node begins, then its rule is reduced. */
  lemma {:induction false} NodeMoves(b: Built, depth: nat, st: seq<StackEntry>, it: Item, r: nat, ch: Forest,
      tail: Forest, rest: seq<nat>)
    returns (n: nat)
    requires Prompt(b) && CanShift(b.m.g, it) && rest != [] && rest[0] < b.m.g.nterminal
    requires TopAwaits(b, st, it, rest[0])
    requires r < |b.m.g.rules| && b.m.g.rules[r].lhs == Next(b.m.g, it)
    requires Good(b.m.g, ch) && Roots(b.m.g, ch) == b.m.g.rules[r].rhs && Good(b.m.g, tail)
    requires Roots(b.m.g, tail) == Tail(b.m.g, it)
    requires |st| + 1 + Size(ch) <= depth
    ensures MayGoOn(b.m, st, it) && TopAwaits(b, Onward(b.m, st, it), Advance(it), rest[0])
    ensures Moves(b.m, depth, st, Yield(ch) + (Yield(tail) + rest), n, Onward(b.m, st, it), Yield(tail) + rest)
    ensures n == Size(ch) + 1
    decreases ch, 2
  {
    hide *;
    var w := Yield(tail) + rest;
    NodeBegins(b, st, it, r, tail, rest);
    var n1, full := ForestMoves(b, depth, st, Item(r, 0), ch, w);
    ReducesRule(b, depth, st, it, rest[0], r, full, w);
    MovesOn(b.m, depth, st, Yield(ch) + w, n1, full, w, 1, Onward(b.m, st, it), w);
    n := n1 + 1;
  }

  lemma NodeParts(t: Tree)
    requires t.Node?
    ensures SizeTree(t) == 1 + Size(t.children) && YieldTree(t) == Yield(t.children)
  {
  }

  lemma NodeBegins(b: Built, st: seq<StackEntry>, it: Item, r: nat, f: Forest, rest: seq<nat>)
    requires Prompt(b) && CanShift(b.m.g, it) && rest != [] && rest[0] < b.m.g.nterminal
    requires TopAwaits(b, st, it, rest[0])
    requires r < |b.m.g.rules| && b.m.g.rules[r].lhs == Next(b.m.g, it) && Good(b.m.g, f)
    requires Roots(b.m.g, f) == Tail(b.m.g, it)
    ensures Generates(b.m.g, it, Item(r, 0)) && b.m.g.rules[r].rhs[0..] == b.m.g.rules[r].rhs
    ensures var w := Yield(f) + rest; w != [] && w[0] < b.m.g.nterminal && TopAwaits(b, st, Item(r, 0), w[0])
  {
    hide Prompt, Drives, Follows, OnStack, Safe, Awaits;
    FirstOfInput(b.m.g, f, rest);
    ForestSymbols(b.m.g, f);
    Looked(b, st, rest[0]);
    NextLookahead(b, TopNumber(b.m, st), it, r, f, rest);
  }

  /** Trees whose roots stand behind the mark of an item: the machine reads their leaves and pushes their roots. */
  lemma {:induction false} ForestMoves(b: Built, depth: nat, st: seq<StackEntry>, it: Item, f: Forest, rest: seq<nat>)
    returns (n: nat, st': seq<StackEntry>)
    requires Prompt(b) && it.rule < |b.m.g.rules| && it.dot <= |b.m.g.rules[it.rule].rhs|
    requires rest != [] && rest[0] < b.m.g.nterminal && TopAwaits(b, st, it, rest[0])
    requires Good(b.m.g, f) && Roots(b.m.g, f) == b.m.g.rules[it.rule].rhs[it.dot..] && |st| + Size(f) <= depth
    ensures Moves(b.m, depth, st, Yield(f) + rest, n, st', rest) && n == Size(f)
    ensures TopAwaits(b, st', Item(it.rule, |b.m.g.rules[it.rule].rhs|), rest[0])
    ensures |st'| == |st| + |b.m.g.rules[it.rule].rhs| - it.dot && st'[..|st|] == st
    decreases f, 1
  {
    hide Prompt, Drives, Follows, OnStack, Safe, Awaits, TopAwaits, Onward, Moves, Good, TopNumber;
    var (g, rhs) := (b.m.g, b.m.g.rules[it.rule].rhs);
    if f.Nil? {
      assert it.dot == |rhs| by { assert |rhs[it.dot..]| == 0; }
      assert Yield(f) + rest == rest;
      n, st' := 0, st;
      NoMove(b.m, depth, st, rest);
    } else {
      RootsOfCons(g, f, rhs, it.dot);
      var w := Yield(f.tail) + rest;
      assert Yield(f) + rest == YieldTree(f.head) + w;
      var n1 := 1;
      if f.head.Leaf? {
        ShiftsTerminal(b, depth, st, it, [f.head.sym] + w, rest[0]);
        assert ([f.head.sym] + w)[1..] == w;
      } else {
        NodeParts(f.head);
        n1 := NodeMoves(b, depth, st, it, f.head.rule, f.head.children, f.tail, rest);
      }
      OnwardIs(b.m, st, it);
      var st1 := Onward(b.m, st, it);
      var n2, st2 := ForestMoves(b, depth, st1, Advance(it), f.tail, rest);
      MovesOn(b.m, depth, st, Yield(f) + rest, n1, st1, w, n2, st2, rest);
      n, st' := n1 + n2, st2;
      assert st2[..|st|] == st2[..|st1|][..|st|];
    }
  }

  // ----- sentences -----

  /** A tree of a sentence has a start rule on top. */
  lemma SentenceTree(g: Grammar, w: seq<nat>) returns (r: nat, ch: Forest)
    requires WellFormed(g) && Tokens(g, w) && Derives(g, [g.start], w)
    ensures r < |g.rules| && g.rules[r].lhs == g.start && Good(g, ch) && Roots(g, ch) == g.rules[r].rhs
    ensures Yield(ch) == w
  {
    var n: nat :| DerivesIn(g, [g.start], w, n);
    var f := DerivationHasTrees(g, [g.start], w, n);
    assert [g.start][0..] == [g.start];
    RootsOfCons(g, f, [g.start], 0);
    assert f.tail.Nil? by { assert Roots(g, f.tail) == []; }
    assert Yield(f) == YieldTree(f.head) + [];
    r, ch := f.head.rule, f.head.children;
  }

  /** A start rule awaits the end marker in the bottom state. */
  lemma StartAwaits(b: Built, r: nat)
    requires Prompt(b) && r < |b.m.g.rules| && b.m.g.rules[r].lhs == b.m.g.start
    ensures TopAwaits(b, Bottom(), Item(r, 0), 0)
  {
    var (g, states) := (b.m.g, b.m.states);
    hide *;
    Parts(b);
    BottomStands(b.m);
    BottomState(b.m);
    FollowsParts(b, 0);
    StartItem(g, states[0], r);
    StartFollow(b, Item(r, 0));
    AwaitsNow(b, 0, Item(r, 0), 0);
    BottomAwaits(b, Item(r, 0));
  }

  lemma Parts(b: Built)
    requires Prompt(b)
    ensures Drives(b.m) && Follows(b)
  {
    hide Drives, Follows, Obeys;
  }

  lemma BottomState(m: Machine)
    requires Drives(m)
    ensures |m.states| > 0 && m.states[0].kernel == StartKernel(m.g)
  {
    hide ShiftAnswer, GotoAnswer, WellFormed, StartNotInRhs, IsClosure, Complete, Goto;
  }

  lemma StartItem(g: Grammar, st: State, r: nat)
    requires st.kernel == StartKernel(g) && IsClosure(g, st.kernel, Items(st.items)) && r < |g.rules|
    requires g.rules[r].lhs == g.start
    ensures Item(r, 0) in st.items && Item(r, 0) in st.kernel
  {
    assert Item(r, 0) in st.kernel;
    assert Item(r, 0) in Items(st.items);
  }

  lemma StartFollow(b: Built, it: Item)
    requires IsAutomaton(b.m.g, b.lambda, b.first, b.m.states, b.links) && IsInitial(b.m.states, b.low)
    requires Above(b.fws, b.low)
    requires |b.m.states| > 0 && it in b.m.states[0].items && it in b.m.states[0].kernel
    ensures Config(0, it) in b.fws && 0 in b.fws[Config(0, it)]
  {
    assert GoodState(b.m.g, b.lambda, b.first, b.m.states[0], true);
    hide StatesInv, IsInitial, Above, Spontaneous, LinksInv;
    assert IsConfig(b.m.states, Config(0, it));
    InitialArrives(b.m.states, b.low, b.fws, Config(0, it));
  }

  lemma BottomAwaits(b: Built, it: Item)
    requires Stands(b.m, Bottom(), []) && Awaits(b, 0, it, 0)
    ensures TopAwaits(b, Bottom(), it, 0)
  {
    hide Awaits, Derives;
  }

  /** Every sentence is accepted as soon as the stack and the number of turns exceed the size of a tree for it. */
  lemma SentenceIsAccepted(b: Built, w: seq<nat>) returns (limit: nat)
    requires Prompt(b) && Tokens(b.m.g, w) && Derives(b.m.g, [b.m.g.start], w)
    ensures Drives(b.m) && OnStack(b.m, Bottom()) && |Bottom()| <= limit
    ensures forall depth, fuel :: depth >= limit && fuel >= limit ==> Run(b.m, depth, Bottom(), w, fuel) == Accepted
  {
    hide *;
    Parts(b);
    EndMarker(b.m);
    assert WellFormed(b.m.g) by { GrammarGood(b.m); }
    var r, ch := SentenceTree(b.m.g, w);
    limit := Size(ch) + 1;
    BottomStands(b.m);
    BottomIsOn(b.m);
    BottomSize();
    forall depth, fuel | depth >= limit && fuel >= limit ensures Run(b.m, depth, Bottom(), w, fuel) == Accepted {
      TreeIsAccepted(b, w, r, ch, depth, fuel);
    }
  }

  lemma GrammarGood(m: Machine)
    requires Drives(m)
    ensures WellFormed(m.g)
  {
    hide Skeleton, ShiftAnswer, GotoAnswer, WellFormed, StartNotInRhs;
  }

  lemma BottomIsOn(m: Machine)
    requires Stands(m, Bottom(), [])
    ensures OnStack(m, Bottom())
  {
  }

  lemma TreeIsAccepted(b: Built, w: seq<nat>, r: nat, ch: Forest, depth: nat, fuel: nat)
    requires Prompt(b) && Tokens(b.m.g, w) && r < |b.m.g.rules| && b.m.g.rules[r].lhs == b.m.g.start
    requires Good(b.m.g, ch) && Roots(b.m.g, ch) == b.m.g.rules[r].rhs && Yield(ch) == w
    requires depth >= Size(ch) + 1 && fuel >= Size(ch) + 1
    ensures Drives(b.m) && OnStack(b.m, Bottom()) && |Bottom()| <= depth
    ensures Run(b.m, depth, Bottom(), w, fuel) == Accepted
  {
    hide *;
    Parts(b);
    EndMarker(b.m);
    BottomSize();
    BottomStands(b.m);
    BottomIsOn(b.m);
    StartAwaits(b, r);
    assert b.m.g.rules[r].rhs[0..] == b.m.g.rules[r].rhs;
    var n, full := ForestMoves(b, depth, Bottom(), Item(r, 0), ch, [0]);
    DueReduce(b, full, r, 0);
    ReduceTurn(b.m, depth, full, 0, r);
    MovesRun(b.m, depth, Bottom(), w, n, full, fuel, fuel);
    RunIsRunWith(b.m, depth, Bottom(), w, fuel);
  }

  lemma RunIsRunWith(m: Machine, depth: nat, st: seq<StackEntry>, w: seq<nat>, fuel: nat)
    requires Drives(m) && OnStack(m, st) && Tokens(m.g, w) && |st| <= depth && 0 < m.g.nterminal
    ensures Run(m, depth, st, w, fuel) == RunWith(m, depth, st, w, fuel, fuel)
  {
    hide Drives, OnStack, Feed;
  }

  // ----- the language -----

  /** With some stack size and some number of turns, the loop of VM::eval gets `w` accepted. */
  ghost predicate Accepts(m: Machine, w: seq<nat>)
    requires Drives(m) && Tokens(m.g, w) && OnStack(m, Bottom())
  {
    exists depth: nat, fuel: nat :: depth > 0 && Run(m, depth, Bottom(), w, fuel) == Accepted
  }

  /** The parser generated without conflicts accepts exactly the sentences of the grammar. */
  lemma AcceptsLanguage(b: Built, w: seq<nat>)
    requires Prompt(b) && Tokens(b.m.g, w)
    ensures Drives(b.m) && OnStack(b.m, Bottom())
    ensures Accepts(b.m, w) <==> Derives(b.m.g, [b.m.g.start], w)
  {
    hide Prompt, Drives, OnStack, Derives, Run;
    Parts(b);
    BottomStands(b.m);
    if Accepts(b.m, w) {
      var depth: nat, fuel: nat :| depth > 0 && Run(b.m, depth, Bottom(), w, fuel) == Accepted;
      AcceptedIsSentence(b.m, depth, w, fuel);
    }
    if Derives(b.m.g, [b.m.g.start], w) {
      var limit := SentenceIsAccepted(b, w);
      assert Run(b.m, limit, Bottom(), w, limit) == Accepted;
    }
  }
}
