/** The generated parser as a decision procedure: if every nonterminal derives a terminal string, no token keeps it
    busy for ever, it reads a token exactly if some sentence goes on with it, and it tells sentences from all other
    inputs. */
module LemonDecides {
  import opened LemonGrammar
  import opened LemonAutomaton
  import opened LemonFollowSets
  import opened LemonLookaheads
  import opened LemonCanonicalLr1
  import opened LemonViable
  import opened LemonTables
  import opened LemonDriver
  import opened LemonComplete
  import opened LemonLalr
  import opened LemonPipeline

  // ----- the stack is a viable prefix -----

  lemma TopSymbol(st: seq<StackEntry>)
    requires |st| > 1
    ensures Symbols(st) == Symbols(st[..|st| - 1]) + [Top(st).major]
  {
    SymbolsSplit(st, 1, [Top(st).major]);
  }

  lemma AutomatonOf(b: Built)
    requires Follows(b)
    ensures WellFormed(b.m.g) && IsAutomaton(b.m.g, b.lambda, b.first, b.m.states, b.links)
  {
    hide WellFormed, IsAutomaton;
  }

  /** The symbols on the stack lead to the state on top. */
  lemma {:induction false} StackLeads(b: Built, st: seq<StackEntry>)
    requires Drives(b.m) && Follows(b) && OnStack(b.m, st)
    ensures InRange(b.m, st) && TopNumber(b.m, st) < |b.m.states|
    ensures Leads(b.m.g, Symbols(st), b.m.states[TopNumber(b.m, st)].kernel)
    decreases |st|
  {
    var (m, g) := (b.m, b.m.g);
    hide *;
    NotEmpty(m, st);
    TopState(m, st);
    TopIsState(m, st);
    FirstParts(m);
    StackState(m, st, |st| - 1);
    if |st| == 1 {
      NoSymbols(st);
      EmptyLeads(g);
    } else {
      var below := st[..|st| - 1];
      StackBelow(m, st, |st| - 1);
      StackLeads(b, below);
      NotEmpty(m, below);
      TopIsState(m, below);
      StackState(m, below, |below| - 1);
      TopSymbol(st);
      TopIs(st);
      AutomatonOf(b);
      StackShift(m, st);
      ShiftIsGoto(g, b.lambda, b.first, m.states, b.links, TopNumber(m, below), Top(st).major);
      LeadsFurther(g, Symbols(below), StateAt(m, below, |below| - 1), Top(st).major);
    }
  }

  lemma TopIsState(m: Machine, st: seq<StackEntry>)
    requires st != [] && InRange(m, st)
    ensures StateAt(m, st, |st| - 1) == m.states[TopNumber(m, st)] && TopNumber(m, st) < |m.states|
  {
  }

  lemma FirstParts(m: Machine)
    requires Drives(m)
    ensures Skeleton(m.g, m.states)
  {
    hide Skeleton, ShiftAnswer, GotoAnswer, WellFormed, StartNotInRhs;
  }

  lemma EmptyLeads(g: Grammar)
    ensures Leads(g, [], StartKernel(g))
  {
  }

  lemma StackShift(m: Machine, st: seq<StackEntry>)
    requires OnStack(m, st) && |st| > 1 && InRange(m, st) && InRange(m, st[..|st| - 1])
    ensures Top(st).major in m.states[TopNumber(m, st[..|st| - 1])].shifts
  {
    assert Top(st[..|st| - 1]) == st[|st| - 2];
  }

  lemma LeadsFurther(g: Grammar, path: seq<nat>, s: State, x: nat)
    requires Leads(g, path, s.kernel) && IsClosure(g, s.kernel, Items(s.items)) && Goto(g, Items(s.items), x) != {}
    ensures Leads(g, path + [x], Goto(g, Items(s.items), x))
  {
    LeadsOn(g, path, s.kernel, Items(s.items), x);
  }

  /** The items of the state on top are those after the symbols on the stack. */
  lemma ItemsOnTop(b: Built, st: seq<StackEntry>, it: Item)
    requires Drives(b.m) && Follows(b) && OnStack(b.m, st)
    ensures InRange(b.m, st) && TopNumber(b.m, st) < |b.m.states|
    ensures ItemAfter(b.m.g, Symbols(st), it) <==> it in b.m.states[TopNumber(b.m, st)].items
  {
    hide *;
    NotEmpty(b.m, st);
    StackLeads(b, st);
    AutomatonOf(b);
    ItemsAfter(b.m.g, b.lambda, b.first, b.m.states, b.links, Symbols(st), TopNumber(b.m, st), it);
  }

  // ----- the same turn on another token -----

  /** A reduce that is done on `x`, and what it needs of the stack. */
  lemma AgainIsReduce(m: Machine, depth: nat, st: seq<StackEntry>, x: nat) returns (r: nat, front: seq<nat>)
    requires Drives(m) && OnStack(m, st) && x < m.g.nterminal
    requires Safe(m, st, x) && OneTurn(m, depth, st, x).Again?
    ensures InRange(m, st) && st != [] && r < |m.g.rules|
    ensures Item(r, |m.g.rules[r].rhs|) in m.states[TopNumber(m, st)].items
    ensures Symbols(st) == front + m.g.rules[r].rhs
    ensures
      var next := OneTurn(m, depth, st, x).stack;
      OnStack(m, next) && Symbols(next) == front + [m.g.rules[r].lhs]
    ensures forall y :: Safe(m, st, y) && FindShiftAction(m.t, Top(st).stateno, y) == m.t.nstate + r ==>
      OneTurn(m, depth, st, y) == OneTurn(m, depth, st, x)
  {
    hide Drives, OnStack, InRange, StateAt, FindShiftAction, FindReduceAction, ReduceActionThere, Symbols;
    TopState(m, st);
    ShiftAnswered(m, st, x);
    TopIsState(m, st);
    r := FindShiftAction(m.t, Top(st).stateno, x) - m.t.nstate;
    front := Symbols(st[..|st| - |m.g.rules[r].rhs|]);
  }

  /** A lookahead of a complete rule after the symbols on the stack makes the arrays reduce by it. */
  lemma LookaheadIsDue(b: Built, st: seq<StackEntry>, r: nat, y: nat)
    requires Prompt(b) && OnStack(b.m, st) && r < |b.m.g.rules| && y < b.m.g.nterminal
    requires HasLr1(b.m.g, Symbols(st), Item(r, |b.m.g.rules[r].rhs|), y)
    requires InRange(b.m, st) && st != [] && TopNumber(b.m, st) < |b.m.states|
    requires Item(r, |b.m.g.rules[r].rhs|) in b.m.states[TopNumber(b.m, st)].items
    ensures Safe(b.m, st, y) && FindShiftAction(b.m.t, Top(st).stateno, y) == b.m.t.nstate + r
  {
    var it := Item(r, |b.m.g.rules[r].rhs|);
    hide *;
    Parts(b);
    StackLeads(b, st);
    MergedNow(b.m.g, Symbols(st), b.m.states[TopNumber(b.m, st)].kernel, it, y);
    FollowOf(b, TopNumber(b.m, st), it, y);
    AwaitsNow(b, TopNumber(b.m, st), it, y);
    OnTopAwaits(b, st, it, y);
    DueReduce(b, st, r, y);
  }

  lemma MergedNow(g: Grammar, path: seq<nat>, k: set<Item>, it: Item, t: nat)
    requires Leads(g, path, k) && HasLr1(g, path, it, t)
    ensures Merged(g, k, it, t)
  {
    hide Leads, Lr1;
    var n: nat :| Lr1(g, path, it, t, n);
  }

  lemma OnTopAwaits(b: Built, st: seq<StackEntry>, it: Item, x: nat)
    requires OnStack(b.m, st) && InRange(b.m, st) && st != [] && Awaits(b, TopNumber(b.m, st), it, x)
    ensures TopAwaits(b, st, it, x)
  {
    hide OnStack, Awaits;
  }

  /** Whatever may come after a reduce makes the parser do the same reduce, and may come before it. */
  lemma TurnPullsBack(b: Built, depth: nat, st: seq<StackEntry>, x: nat, y: nat)
    requires Prompt(b) && OnStack(b.m, st) && x < b.m.g.nterminal
    requires Safe(b.m, st, x) && OneTurn(b.m, depth, st, x).Again?
    requires MayCome(b.m.g, Symbols(OneTurn(b.m, depth, st, x).stack), y)
    ensures MayCome(b.m.g, Symbols(st), y) && y < b.m.g.nterminal && Safe(b.m, st, y)
    ensures OneTurn(b.m, depth, st, y) == OneTurn(b.m, depth, st, x)
  {
    hide *;
    Parts(b);
    var r, front := AgainIsReduce(b.m, depth, st, x);
    ItemsOnTop(b, st, Item(r, |b.m.g.rules[r].rhs|));
    ReducePullsBack(b.m.g, front, r, y);
    LookaheadIsDue(b, st, r, y);
  }

  /** If a token keeps the parser reducing, so does one that may come next. */
  lemma {:induction false} FeedPullsBack(b: Built, depth: nat, st: seq<StackEntry>, x: nat, fuel: nat) returns (y: nat)
    requires Prompt(b) && Productive(b.m.g) && Drives(b.m) && OnStack(b.m, st) && x < b.m.g.nterminal && |st| <= depth
    requires Feed(b.m, depth, st, x, fuel).Unfinished?
    ensures y < b.m.g.nterminal && MayCome(b.m.g, Symbols(st), y)
    ensures Feed(b.m, depth, st, y, fuel).Unfinished?
    decreases fuel
  {
    hide Prompt, Productive, Drives, OnStack, MayCome, Safe, OneTurn, Symbols;
    if fuel == 0 {
      y := StackMayGoOn(b, st);
    } else {
      AlwaysSafe(b.m, st, x);
      var next := OneTurn(b.m, depth, st, x).stack;
      y := FeedPullsBack(b, depth, next, x, fuel - 1);
      TurnPullsBack(b, depth, st, x, y);
    }
  }

  lemma StackMayGoOn(b: Built, st: seq<StackEntry>) returns (y: nat)
    requires Prompt(b) && Productive(b.m.g) && OnStack(b.m, st)
    ensures y < b.m.g.nterminal && MayCome(b.m.g, Symbols(st), y)
  {
    hide *;
    Parts(b);
    AutomatonOf(b);
    StackLeads(b, st);
    NotEmpty(b.m, st);
    var s := TopNumber(b.m, st);
    FollowsParts(b, s);
    var it := KernelItem(b.m.g, Symbols(st), b.m.states[s].kernel);
    AfterIsInClosure(b.m.g, Symbols(st), b.m.states[s].kernel, Items(b.m.states[s].items), it);
    InClosure(b.m.g, b.m.states[s].kernel, Items(b.m.states[s].items));
    y := SomethingMayCome(b.m.g, Symbols(st), it);
  }

  lemma InClosure(g: Grammar, k: set<Item>, c: set<Item>)
    requires IsClosure(g, k, c)
    ensures k <= c
  {
  }

  /** No kernel is empty; that of state 0 because the start symbol has a rule. */
  lemma KernelItem(g: Grammar, path: seq<nat>, k: set<Item>) returns (it: Item)
    requires WellFormed(g) && Productive(g) && Leads(g, path, k)
    ensures it in k
  {
    hide Leads, Goto, IsClosure;
    if path == [] {
      it := StartKernelItem(g);
      StartLeads(g, k);
    } else {
      var k0, c := LastStep(g, path, k);
      it :| it in k;
    }
  }

  lemma StartLeads(g: Grammar, k: set<Item>)
    requires Leads(g, [], k)
    ensures k == StartKernel(g)
  {
  }

  lemma StartKernelItem(g: Grammar) returns (it: Item)
    requires WellFormed(g) && Productive(g)
    ensures it in StartKernel(g)
  {
    assert DerivesTokens(g, [g.start]);
    var w :| AllTerminals(g, w) && Derives(g, [g.start], w);
    var n: nat :| DerivesIn(g, [g.start], w, n);
    assert n != 0 by { assert [g.start][0] == g.start; }
    var v :| Step(g, [g.start], v) && DerivesIn(g, v, w, n - 1);
    var i: nat, r: nat :| StepAt(g, [g.start], i, r, v);
    it := Item(r, 0);
  }

  // ----- larger stacks and more turns -----

  lemma TurnKeeps(m: Machine, depth: nat, st: seq<StackEntry>, x: nat, more: nat)
    requires Safe(m, st, x) && depth <= more && !OneTurn(m, depth, st, x).Overflow?
    ensures OneTurn(m, more, st, x) == OneTurn(m, depth, st, x)
  {
    hide FindShiftAction, FindReduceAction, ReduceActionThere, OnStack, Symbols;
  }

  /** What a token comes to does not depend on the limits, once they are large enough. */
  lemma {:induction false} FeedKeeps(m: Machine, depth: nat, st: seq<StackEntry>, x: nat, fuel: nat, depth': nat,
      fuel': nat)
    requires Drives(m) && OnStack(m, st) && x < m.g.nterminal && |st| <= depth <= depth' && fuel <= fuel'
    requires Final(Feed(m, depth, st, x, fuel))
    ensures Feed(m, depth', st, x, fuel') == Feed(m, depth, st, x, fuel)
    decreases fuel
  {
    hide Drives, OnStack, Safe, OneTurn;
    AlwaysSafe(m, st, x);
    TurnKeeps(m, depth, st, x, depth');
    var r := OneTurn(m, depth, st, x);
    if r.Again? { FeedKeeps(m, depth, r.stack, x, fuel - 1, depth', fuel' - 1); }
  }

  lemma TurnFits(m: Machine, depth: nat, st: seq<StackEntry>, x: nat)
    requires Safe(m, st, x) && |st| < depth
    ensures !OneTurn(m, depth, st, x).Overflow?
    ensures OneTurn(m, depth, st, x).Again? ==> |OneTurn(m, depth, st, x).stack| <= |st| + 1
  {
    hide FindShiftAction, FindReduceAction, ReduceActionThere, OnStack, Symbols;
  }

  /** A turn pushes at most one entry. */
  lemma {:induction false} FeedFits(m: Machine, depth: nat, st: seq<StackEntry>, x: nat, fuel: nat)
    requires Drives(m) && OnStack(m, st) && x < m.g.nterminal && |st| + fuel < depth
    ensures !Feed(m, depth, st, x, fuel).Overflow?
    decreases fuel
  {
    hide Drives, OnStack, Safe, OneTurn;
    if fuel > 0 {
      AlwaysSafe(m, st, x);
      TurnFits(m, depth, st, x);
      var r := OneTurn(m, depth, st, x);
      if r.Again? { FeedFits(m, depth, r.stack, x, fuel - 1); }
    }
  }

  // ----- reading a prefix -----

  /** The tokens `w`, one call of Parse for each, take the parser from stack `st` to `st'`. */
  ghost predicate Reads(m: Machine, depth: nat, st: seq<StackEntry>, w: seq<nat>, fuel: nat, st': seq<StackEntry>)
    requires Drives(m) && OnStack(m, st) && Tokens(m.g, w) && |st| <= depth
    decreases |w|
  {
    if w == [] then st' == st
    else
      var r := Feed(m, depth, st, w[0], fuel);
      r.Shifted? && Reads(m, depth, r.after, w[1..], fuel, st')
  }

  lemma {:induction false} ReadsStands(m: Machine, depth: nat, st: seq<StackEntry>, w: seq<nat>, fuel: nat,
      st': seq<StackEntry>, before: seq<nat>)
    requires Drives(m) && Stands(m, st, before) && OnStack(m, st) && Tokens(m.g, w) && |st| <= depth
    requires Reads(m, depth, st, w, fuel, st')
    ensures Stands(m, st', before + w)
    decreases |w|
  {
    hide Drives, OnStack, Derives, Symbols, Feed;
    if w == [] {
      assert before + w == before;
    } else {
      FeedIsSound(m, depth, st, w[0], fuel, before);
      ReadsStands(m, depth, Feed(m, depth, st, w[0], fuel).after, w[1..], fuel, st', before + [w[0]]);
      assert before + w == (before + [w[0]]) + w[1..];
    }
  }

  /** A run that accepts has read every prefix. */
  lemma {:induction false} AcceptedReads(m: Machine, depth: nat, st: seq<StackEntry>, w: seq<nat>, fuel: nat,
      rest: seq<nat>) returns (st': seq<StackEntry>)
    requires Drives(m) && OnStack(m, st) && Tokens(m.g, w) && |st| <= depth && Tokens(m.g, rest)
    requires Tokens(m.g, w + rest) && Run(m, depth, st, w + rest, fuel) == Accepted
    ensures Reads(m, depth, st, w, fuel, st')
    decreases |w|
  {
    hide Drives, OnStack, Feed;
    if w == [] {
      st' := st;
    } else {
      assert (w + rest)[1..] == w[1..] + rest && (w + rest)[0] == w[0];
      st' := AcceptedReads(m, depth, Feed(m, depth, st, w[0], fuel).after, w[1..], fuel, rest);
    }
  }

  // ----- stacks that still take every sentence -----

  function First(z: seq<nat>): nat { if z == [] then 0 else z[0] }

  /** With any larger stack and number of turns, `z` is accepted from stack `st`. */
  ghost predicate AcceptsFrom(m: Machine, st: seq<StackEntry>, z: seq<nat>, n: nat)
    requires Drives(m) && OnStack(m, st) && Tokens(m.g, z)
  {
    |st| <= n && forall depth, fuel :: depth >= n && fuel >= n ==> Run(m, depth, st, z, fuel) == Accepted
  }

  /** The stack stands for the tokens `w`, and every sentence that goes on from them with a token that may come next is
      accepted.  A reduce that was only done by default may have ruled out other tokens. */
  ghost predicate Ready(m: Machine, st: seq<StackEntry>, w: seq<nat>)
    requires Drives(m)
  {
    && Stands(m, st, w)
    && forall z :: Tokens(m.g, z) && Derives(m.g, [m.g.start], w + z) && MayCome(m.g, Symbols(st), First(z)) ==>
         exists n: nat :: AcceptsFrom(m, st, z, n)
  }

  lemma BottomReady(b: Built)
    requires Prompt(b)
    ensures Drives(b.m) && Ready(b.m, Bottom(), [])
  {
    hide Prompt, Drives, OnStack, Derives, Run, MayCome, Symbols;
    Parts(b);
    BottomStands(b.m);
    forall z | Tokens(b.m.g, z) && Derives(b.m.g, [b.m.g.start], [] + z)
      ensures exists n: nat :: AcceptsFrom(b.m, Bottom(), z, n)
    {
      assert [] + z == z;
      var n := SentenceIsAccepted(b, z);
      assert AcceptsFrom(b.m, Bottom(), z, n);
    }
  }

  lemma AgainAccepts(m: Machine, depth: nat, st: seq<StackEntry>, z: seq<nat>, n: nat)
    requires Drives(m) && OnStack(m, st) && Tokens(m.g, z) && AcceptsFrom(m, st, z, n) && First(z) < m.g.nterminal
    requires Safe(m, st, First(z)) && OneTurn(m, depth, st, First(z)).Again?
    ensures AcceptsFrom(m, OneTurn(m, depth, st, First(z)).stack, z, n + depth + 1)
  {
    hide Drives, OnStack, Safe, OneTurn;
    var (x, next, bound) := (First(z), OneTurn(m, depth, st, First(z)).stack, n + depth + 1);
    TurnKeeps(m, depth, st, x, bound);
    forall depth', fuel | depth' >= bound && fuel >= bound ensures Run(m, depth', next, z, fuel) == Accepted {
      TurnKeeps(m, depth, st, x, depth');
      assert Run(m, depth', st, z, fuel) == Accepted;
      assert Feed(m, depth', st, x, fuel) == Feed(m, depth', next, x, fuel - 1);
      FeedKeeps(m, depth', next, x, fuel - 1, depth', fuel);
    }
  }

  /** A reduce keeps a stack ready, whatever token it was done for. */
  lemma AgainReady(b: Built, depth: nat, st: seq<StackEntry>, x: nat, w: seq<nat>)
    requires Prompt(b) && Drives(b.m) && Ready(b.m, st, w) && x < b.m.g.nterminal
    requires Safe(b.m, st, x) && OneTurn(b.m, depth, st, x).Again?
    ensures Ready(b.m, OneTurn(b.m, depth, st, x).stack, w)
  {
    hide Prompt, Drives, OnStack, Derives, MayCome, Symbols, Safe, OneTurn, AcceptsFrom;
    var (m, next) := (b.m, OneTurn(b.m, depth, st, x).stack);
    TurnIsSound(m, depth, st, x, w);
    NotEmpty(m, next);
    forall z | Tokens(m.g, z) && Derives(m.g, [m.g.start], w + z) && MayCome(m.g, Symbols(next), First(z))
      ensures exists n: nat :: AcceptsFrom(m, next, z, n)
    {
      TurnPullsBack(b, depth, st, x, First(z));
      var n: nat :| AcceptsFrom(m, st, z, n);
      AgainAccepts(m, depth, st, z, n);
    }
  }

  /** A token that is shifted may come next. */
  lemma ShiftedMayCome(b: Built, depth: nat, st: seq<StackEntry>, x: nat)
    requires Prompt(b) && OnStack(b.m, st) && x < b.m.g.nterminal
    requires Safe(b.m, st, x) && OneTurn(b.m, depth, st, x).Shifted?
    ensures MayCome(b.m.g, Symbols(st), x)
  {
    hide *;
    Parts(b);
    AutomatonOf(b);
    NotEmpty(b.m, st);
    TopState(b.m, st);
    StackLeads(b, st);
    var s := TopNumber(b.m, st);
    assert x in b.m.states[s].shifts by { ShiftedIsShift(b.m, depth, st, x); }
    ShiftIsGoto(b.m.g, b.lambda, b.first, b.m.states, b.links, s, x);
    var it := BehindMark(b.m.g, b.m.states[s], x);
    ItemsOnTop(b, st, it);
    NextMayCome(b.m.g, Symbols(st), it);
  }

  lemma ShiftedIsShift(m: Machine, depth: nat, st: seq<StackEntry>, x: nat)
    requires Drives(m) && OnStack(m, st) && InRange(m, st) && st != [] && x < m.g.nterminal
    requires TopNumber(m, st) < |m.states|
    requires Safe(m, st, x) && OneTurn(m, depth, st, x).Shifted?
    ensures x in m.states[TopNumber(m, st)].shifts
  {
    hide Drives, OnStack, InRange, StateAt, FindShiftAction, FindReduceAction, ReduceActionThere, Symbols;
    ShiftAnswered(m, st, x);
    TopIsState(m, st);
  }

  lemma BehindMark(g: Grammar, s: State, x: nat) returns (it: Item)
    requires Goto(g, Items(s.items), x) != {}
    ensures it in s.items && CanShift(g, it) && Next(g, it) == x
  {
    var next :| next in Goto(g, Items(s.items), x);
    it :| it in s.items && CanShift(g, it) && Next(g, it) == x && Advance(it) == next;
  }

  lemma NextMayCome(g: Grammar, path: seq<nat>, it: Item)
    requires ItemAfter(g, path, it) && CanShift(g, it) && Next(g, it) < g.nterminal
    ensures MayCome(g, path, Next(g, it))
  {
    hide ItemAfter, Derives;
    assert Rest(g, it) == [Next(g, it)] + Tail(g, it);
    DerivesRefl(g, Rest(g, it));
    assert Ahead(g, path, it, Next(g, it));
  }

  lemma ShiftAccepts(m: Machine, depth: nat, st: seq<StackEntry>, x: nat, z: seq<nat>, n: nat)
    requires Drives(m) && OnStack(m, st) && Tokens(m.g, z) && Tokens(m.g, [x] + z) && AcceptsFrom(m, st, [x] + z, n)
    requires Safe(m, st, x) && OneTurn(m, depth, st, x).Shifted?
    ensures AcceptsFrom(m, OneTurn(m, depth, st, x).after, z, n + depth + 1)
  {
    hide Drives, OnStack, Safe, OneTurn;
    var (next, bound) := (OneTurn(m, depth, st, x).after, n + depth + 1);
    TurnKeeps(m, depth, st, x, bound);
    assert ([x] + z)[1..] == z;
    forall depth', fuel | depth' >= bound && fuel >= bound ensures Run(m, depth', next, z, fuel) == Accepted {
      TurnKeeps(m, depth, st, x, depth');
      assert Run(m, depth', st, [x] + z, fuel) == Accepted;
    }
  }

  /** So does a shift, for the tokens that follow. */
  lemma ShiftReady(b: Built, depth: nat, st: seq<StackEntry>, x: nat, w: seq<nat>)
    requires Prompt(b) && Drives(b.m) && Ready(b.m, st, w) && x < b.m.g.nterminal
    requires Safe(b.m, st, x) && OneTurn(b.m, depth, st, x).Shifted?
    ensures Ready(b.m, OneTurn(b.m, depth, st, x).after, w + [x])
  {
    hide Prompt, Drives, OnStack, Derives, MayCome, Symbols, Safe, OneTurn, AcceptsFrom;
    var (m, next) := (b.m, OneTurn(b.m, depth, st, x).after);
    TurnIsSound(m, depth, st, x, w);
    NotEmpty(m, next);
    forall z | Tokens(m.g, z) && Derives(m.g, [m.g.start], w + [x] + z) && MayCome(m.g, Symbols(next), First(z))
      ensures exists n: nat :: AcceptsFrom(m, next, z, n)
    {
      ShiftedMayCome(b, depth, st, x);
      assert w + [x] + z == w + ([x] + z);
      var n: nat :| AcceptsFrom(m, st, [x] + z, n);
      ShiftAccepts(m, depth, st, x, z, n);
    }
  }

  lemma {:induction false} FeedReady(b: Built, depth: nat, st: seq<StackEntry>, x: nat, fuel: nat, w: seq<nat>)
    requires Prompt(b) && Drives(b.m) && Ready(b.m, st, w) && x < b.m.g.nterminal && OnStack(b.m, st) && |st| <= depth
    ensures var r := Feed(b.m, depth, st, x, fuel);
      && (r.Shifted? ==> Ready(b.m, r.after, w + [x]))
      && (r.SyntaxError? ==> Ready(b.m, r.at, w))
    decreases fuel
  {
    hide Prompt, Drives, OnStack, Ready, Safe, OneTurn;
    if fuel > 0 {
      AlwaysSafe(b.m, st, x);
      var r := OneTurn(b.m, depth, st, x);
      if r.Again? {
        AgainReady(b, depth, st, x, w);
        FeedReady(b, depth, r.stack, x, fuel - 1, w);
      } else if r.Shifted? {
        ShiftReady(b, depth, st, x, w);
      }
    }
  }

  // ----- every token comes to an end -----

  ghost predicate Settled(m: Machine, st: seq<StackEntry>, x: nat, n: nat)
    requires Drives(m) && OnStack(m, st) && x < m.g.nterminal
  {
    |st| <= n && forall depth, fuel :: depth >= n && fuel >= n ==> Final(Feed(m, depth, st, x, fuel))
  }

  /** A token that may come next belongs to a sentence, and that is accepted. */
  lemma ViableSettles(b: Built, st: seq<StackEntry>, w: seq<nat>, y: nat) returns (n: nat)
    requires Prompt(b) && Productive(b.m.g) && Drives(b.m) && Ready(b.m, st, w) && OnStack(b.m, st)
    requires y < b.m.g.nterminal && MayCome(b.m.g, Symbols(st), y)
    ensures Settled(b.m, st, y, n)
  {
    hide Prompt, Productive, Drives, OnStack, Derives, MayCome, Symbols, Feed;
    GrammarGood(b.m);
    NotEmpty(b.m, st);
    var z := MayComeContinues(b.m.g, Symbols(st), y, w);
    assert Tokens(b.m.g, z) by { TokensBehind(b.m.g, w, z); }
    assert First(z) == y;
    n :| AcceptsFrom(b.m, st, z, n);
    forall depth, fuel | depth >= n && fuel >= n ensures Final(Feed(b.m, depth, st, y, fuel)) {
      assert Run(b.m, depth, st, z, fuel) == Accepted;
    }
  }

  lemma TokensBehind(g: Grammar, w: seq<nat>, z: seq<nat>)
    requires Symbolic(g, w + z) && AllTerminals(g, z)
    ensures Tokens(g, z)
  {
    forall k | 0 <= k < |z| ensures 1 <= z[k] { assert z[k] == (w + z)[|w| + k]; }
  }

  /** One limit for all tokens below `k` that may come next. */
  lemma {:induction false} ViablesSettle(b: Built, st: seq<StackEntry>, w: seq<nat>, k: nat) returns (n: nat)
    requires Prompt(b) && Productive(b.m.g) && Drives(b.m) && Ready(b.m, st, w) && OnStack(b.m, st)
    requires k <= b.m.g.nterminal
    ensures |st| <= n && forall y :: 0 <= y < k && MayCome(b.m.g, Symbols(st), y) ==> Settled(b.m, st, y, n)
    decreases k
  {
    hide Prompt, Productive, Drives, OnStack, Ready, MayCome, Symbols, Feed;
    NotEmpty(b.m, st);
    if k == 0 {
      n := |st|;
    } else {
      n := ViablesSettle(b, st, w, k - 1);
      if MayCome(b.m.g, Symbols(st), k - 1) {
        var l := ViableSettles(b, st, w, k - 1);
        n := n + l;
      }
    }
  }

  /** Every token comes to an end: one that did not would keep a token busy that may come next. */
  lemma TokenSettles(b: Built, st: seq<StackEntry>, w: seq<nat>, x: nat) returns (n: nat)
    requires Prompt(b) && Productive(b.m.g) && Drives(b.m) && Ready(b.m, st, w) && OnStack(b.m, st)
    requires x < b.m.g.nterminal
    ensures |st| <= n && forall depth, fuel :: depth >= n && fuel >= n ==>
      Final(Feed(b.m, n, st, x, n)) && Feed(b.m, depth, st, x, fuel) == Feed(b.m, n, st, x, n)
  {
    hide Prompt, Productive, Drives, OnStack, Ready, MayCome, Symbols, Feed;
    var k := ViablesSettle(b, st, w, b.m.g.nterminal);
    n := |st| + k + 1;
    FeedFits(b.m, n, st, x, k);
    if Feed(b.m, n, st, x, k).Unfinished? {
      var y := FeedPullsBack(b, n, st, x, k);
    }
    forall depth, fuel | depth >= n && fuel >= n
      ensures Feed(b.m, depth, st, x, fuel) == Feed(b.m, n, st, x, k) == Feed(b.m, n, st, x, n)
    {
      FeedKeeps(b.m, n, st, x, k, depth, fuel);
      FeedKeeps(b.m, n, st, x, k, n, n);
    }
  }

  /** Every input comes to an end, with or without syntax errors. */
  lemma {:induction false} InputEnds(b: Built, st: seq<StackEntry>, w: seq<nat>, input: seq<nat>) returns (n: nat)
    requires Prompt(b) && Productive(b.m.g) && Drives(b.m) && Ready(b.m, st, w) && OnStack(b.m, st)
    requires Tokens(b.m.g, input)
    ensures |st| <= n && forall depth, fuel :: depth >= n && fuel >= n ==> AllEnd(b.m, depth, st, input, fuel)
    decreases |input|
  {
    hide Prompt, Productive, Drives, OnStack, Ready, Feed;
    EndMarker(b.m);
    var x := First(input);
    var n1 := TokenSettles(b, st, w, x);
    var r := Feed(b.m, n1, st, x, n1);
    assert Final(r);
    FeedReady(b, n1, st, x, n1, w);
    n := n1;
    if input != [] {
      var next := if r.Shifted? then r.after else r.at;
      var n2 := InputEnds(b, next, if r.Shifted? then w + [x] else w, input[1..]);
      n := n1 + n2;
    }
  }

  // ----- the decision -----

  lemma {:induction false} EndedRun(m: Machine, depth: nat, st: seq<StackEntry>, w: seq<nat>, fuel: nat)
    requires Drives(m) && OnStack(m, st) && Tokens(m.g, w) && |st| <= depth && AllEnd(m, depth, st, w, fuel)
    ensures Run(m, depth, st, w, fuel).Accepted? || Run(m, depth, st, w, fuel).SyntaxError?
    decreases |w|
  {
    hide Drives, OnStack, Feed;
    EndMarker(m);
    if w != [] {
      var r := Feed(m, depth, st, w[0], fuel);
      if r.Shifted? { EndedRun(m, depth, r.after, w[1..], fuel); }
    }
  }

  /** The parser decides the language: with a large enough stack and enough turns for each token every input comes to
      an end, sentences by being accepted, all others by a syntax error. */
  lemma DecidesLanguage(b: Built, w: seq<nat>) returns (limit: nat)
    requires Prompt(b) && Productive(b.m.g) && Tokens(b.m.g, w)
    ensures Drives(b.m) && OnStack(b.m, Bottom()) && |Bottom()| <= limit
    ensures forall depth, fuel :: depth >= limit && fuel >= limit ==>
      && AllEnd(b.m, depth, Bottom(), w, fuel)
      && (if Derives(b.m.g, [b.m.g.start], w) then Run(b.m, depth, Bottom(), w, fuel) == Accepted
          else Run(b.m, depth, Bottom(), w, fuel).SyntaxError?)
  {
    hide Prompt, Productive, Drives, OnStack, Ready, Derives, Run, AllEnd;
    Parts(b);
    BottomStands(b.m);
    BottomReady(b);
    BottomIsOn(b.m);
    limit := InputEnds(b, Bottom(), [], w);
    if Derives(b.m.g, [b.m.g.start], w) {
      var more := SentenceIsAccepted(b, w);
      limit := limit + more;
    }
    forall depth, fuel | depth >= limit && fuel >= limit
      ensures if Derives(b.m.g, [b.m.g.start], w) then Run(b.m, depth, Bottom(), w, fuel) == Accepted
              else Run(b.m, depth, Bottom(), w, fuel).SyntaxError?
    {
      EndedRun(b.m, depth, Bottom(), w, fuel);
      AcceptedIsSentence(b.m, depth, w, fuel);
    }
  }

  // ----- no token too many -----

  /** The parser reads the tokens `w`, with some stack and number of turns. */
  ghost predicate CanRead(m: Machine, w: seq<nat>)
    requires Drives(m) && Tokens(m.g, w) && OnStack(m, Bottom())
  {
    exists depth: nat, fuel: nat, st :: depth > 0 && Reads(m, depth, Bottom(), w, fuel, st)
  }

  ghost predicate Continued(g: Grammar, w: seq<nat>) {
    exists z :: Tokens(g, w + z) && Derives(g, [g.start], w + z)
  }

  /** The parser shifts the tokens of an input exactly as long as some sentence begins with them. */
  lemma ReadsViablePrefixes(b: Built, w: seq<nat>)
    requires Prompt(b) && Productive(b.m.g) && Tokens(b.m.g, w)
    ensures Drives(b.m) && OnStack(b.m, Bottom())
    ensures CanRead(b.m, w) <==> Continued(b.m.g, w)
  {
    hide Prompt, Productive, Drives, OnStack, Derives, Run, Reads, MayCome, Symbols;
    Parts(b);
    GrammarGood(b.m);
    BottomStands(b.m);
    if CanRead(b.m, w) {
      var depth: nat, fuel: nat, st :| depth > 0 && Reads(b.m, depth, Bottom(), w, fuel, st);
      ReadsStands(b.m, depth, Bottom(), w, fuel, st, []);
      assert [] + w == w;
      NotEmpty(b.m, st);
      var y := StackMayGoOn(b, st);
      var z := MayComeContinues(b.m.g, Symbols(st), y, w);
      TokensBehind(b.m.g, w, z);
    }
    if z :| Tokens(b.m.g, w + z) && Derives(b.m.g, [b.m.g.start], w + z) {
      var limit := SentenceIsAccepted(b, w + z);
      assert forall k :: 0 <= k < |z| ==> z[k] == (w + z)[|w| + k];
      assert Run(b.m, limit, Bottom(), w + z, limit) == Accepted;
      var st := AcceptedReads(b.m, limit, Bottom(), w, limit, z);
    }
  }

  /** The parser generated from an LALR(1) grammar without nonterminals that derive no terminal string. */
  lemma GeneratedDecides(b: Built, work: Work, w: seq<nat>) returns (limit: nat)
    requires Generated(b, work) && Calm(b, work) && ShortRules(b.m.g) && Lalr1(b.m.g) && Productive(b.m.g)
    requires Tokens(b.m.g, w)
    ensures Drives(b.m) && OnStack(b.m, Bottom()) && |Bottom()| <= limit
    ensures forall depth, fuel :: depth >= limit && fuel >= limit ==>
      && AllEnd(b.m, depth, Bottom(), w, fuel)
      && (if Derives(b.m.g, [b.m.g.start], w) then Run(b.m, depth, Bottom(), w, fuel) == Accepted
          else Run(b.m, depth, Bottom(), w, fuel).SyntaxError?)
    ensures CanRead(b.m, w) <==> Continued(b.m.g, w)
  {
    hide *;
    GeneratedIsPrompt(b, work);
    limit := DecidesLanguage(b, w);
    ReadsViablePrefixes(b, w);
  }
}
