/** A grammar whose parser reads what no sentence begins with: its second nonterminal derives no terminal string. */
module LemonBarren {
  import opened LemonGrammar
  import opened LemonAutomaton
  import opened LemonLookaheads
  import opened LemonViable
  import opened LemonConflicts
  import opened LemonActions
  import opened LemonDriver
  import opened LemonComplete
  import opened LemonLalr
  import opened LemonPipeline
  import opened LemonDecides

  /** `s ::= A x` and `x ::= A x`, without any sentence. */
  ghost predicate Barren(g: Grammar) {
    && WellFormed(g) && g.nterminal == 2 && g.nsymbol == 4 && g.start == 2 && |g.rules| == 2
    && g.rules[0].lhs == 2 && g.rules[0].rhs == [1, 3] && g.rules[1].lhs == 3 && g.rules[1].rhs == [1, 3]
  }

  lemma BarrenRule(g: Grammar, r: nat)
    requires Barren(g) && r < |g.rules|
    ensures g.rules[r].rhs == [1, 3]
  {
    hide WellFormed;
  }

  lemma {:induction false} StaysBarren(g: Grammar, u: seq<nat>, v: seq<nat>, n: nat)
    requires Barren(g) && DerivesIn(g, u, v, n) && (2 in u || 3 in u)
    ensures 2 in v || 3 in v
    decreases n
  {
    hide Barren;
    if n > 0 {
      var w :| Step(g, u, w) && DerivesIn(g, w, v, n - 1);
      var i: nat, r: nat :| StepAt(g, u, i, r, w);
      BarrenRule(g, r);
      assert w[i + 1] == 3;
      StaysBarren(g, w, v, n - 1);
    }
  }

  lemma BarrenHasNone(g: Grammar, w: seq<nat>)
    requires Barren(g)
    ensures !Continued(g, w)
  {
    if z :| Tokens(g, w + z) && Derives(g, [g.start], w + z) {
      var n: nat :| DerivesIn(g, [g.start], w + z, n);
      assert 2 in [g.start];
      StaysBarren(g, [g.start], w + z, n);
    }
  }

  lemma GotoComplete(g: Grammar, c: set<Item>, x: nat, it: Item)
    requires Barren(g) && it in Goto(g, c, x) && it.dot == 2
    ensures forall a :: a in Goto(g, c, x) ==> a.dot == 2
    ensures Closed(g, Goto(g, c, x))
  {
    hide WellFormed;
    assert x == 3;
    forall a | a in Goto(g, c, x) ensures a.dot == 2 {
      var b :| b in c && CanShift(g, b) && Next(g, b) == x && Advance(b) == a;
      assert b.rule == 0 || b.rule == 1;
    }
  }

  /** A state with a complete item has nothing else. */
  lemma BarrenComplete(g: Grammar, path: seq<nat>, k: set<Item>, c: set<Item>, it: Item)
    requires Barren(g) && Leads(g, path, k) && IsClosure(g, k, c) && it in c && it.dot == 2
    ensures forall a :: a in c ==> a.dot == 2
  {
    hide Barren, Leads, IsClosure, Goto, Closed, GoodItem;
    KernelIsGood(g, path, k);
    ClosureAdds(g, k, c);
    if path == [] {
      AtStart(g, k);
    } else {
      var k0, c0 := LastStep(g, path, k);
      GotoComplete(g, c0, path[|path| - 1], it);
      ClosedAlready(g, k, c);
    }
  }

  lemma AtStart(g: Grammar, k: set<Item>)
    requires Leads(g, [], k)
    ensures forall it :: it in k ==> it.dot == 0
  {
  }

  lemma ClosedAlready(g: Grammar, k: set<Item>, c: set<Item>)
    requires IsClosure(g, k, c) && Closed(g, k)
    ensures c == k
  {
  }

  lemma StartNotGenerated(g: Grammar, k: set<Item>, c: set<Item>)
    requires Barren(g) && IsClosure(g, k, c) && Item(0, 0) !in k
    ensures Item(0, 0) !in c
  {
    hide WellFormed;
    forall a ensures !Generates(g, a, Item(0, 0)) {
      if CanShift(g, a) { assert a.rule == 0 || a.rule == 1; }
    }
    var d := c - {Item(0, 0)};
    assert k <= d && Closed(g, d);
  }

  lemma BarrenStartKernel(g: Grammar)
    requires Barren(g)
    ensures StartKernel(g) == {Item(0, 0)} && Closed(g, {Item(0, 0)})
  {
    hide WellFormed;
  }

  /** The start rule begins in the first state only. */
  lemma BarrenStart(g: Grammar, path: seq<nat>, k: set<Item>, c: set<Item>)
    requires Barren(g) && Leads(g, path, k) && IsClosure(g, k, c) && Item(0, 0) in c
    ensures Item(1, 0) !in c
  {
    hide Barren, IsClosure, Closed, Goto, StartKernel;
    if path == [] {
      BarrenStartKernel(g);
      ClosedAlready(g, k, c);
    } else {
      KernelIsGood(g, path, k);
      StartNotGenerated(g, k, c);
    }
  }

  lemma BarrenNotBoth(g: Grammar, path: seq<nat>, k: set<Item>, c: set<Item>)
    requires Barren(g) && Leads(g, path, k) && IsClosure(g, k, c)
    ensures !(Item(0, 2) in c && Item(1, 2) in c)
  {
    hide Barren, Leads, IsClosure;
    if Item(0, 2) in c && Item(1, 2) in c {
      AfterIsInClosure(g, path, k, c, Item(0, 2));
      AfterIsInClosure(g, path, k, c, Item(1, 2));
      var front := CameFromTwo(g, path, 0);
      var other := CameFromTwo(g, path, 1);
      var k0, c0 :| Leads(g, front, k0) && IsClosure(g, k0, c0) && Item(0, 0) in c0;
      AfterIsInClosure(g, front, k0, c0, Item(1, 0));
      BarrenStart(g, front, k0, c0);
    }
  }

  lemma CameFromTwo(g: Grammar, path: seq<nat>, r: nat) returns (front: seq<nat>)
    requires ItemAfter(g, path, Item(r, 2))
    ensures |path| >= 2 && front == path[..|path| - 2] && ItemAfter(g, front, Item(r, 0))
  {
    hide ItemAfter;
    CameFrom(g, path, Item(r, 2));
    var less := path[..|path| - 1];
    CameFrom(g, less, Item(r, 1));
    front := path[..|path| - 2];
    assert less[..|less| - 1] == front;
  }

  lemma BarrenIsLalr1(g: Grammar)
    requires Barren(g)
    ensures Lalr1(g)
  {
    hide Leads, IsClosure, Merged;
    forall k, c | Reached(g, k) && IsClosure(g, k, c) ensures ConflictFree(g, k, c) {
      var path :| Leads(g, path, k);
      BarrenNotBoth(g, path, k, c);
      forall r: nat, t: nat | ReduceOn(g, k, c, r, t) ensures !ShiftOn(g, c, t) {
        BarrenComplete(g, path, k, c, Item(r, |g.rules[r].rhs|));
      }
    }
  }

  /** Why every nonterminal has to derive a terminal string: whatever is generated from this grammar, the parser shifts
      A although no sentence begins with it. */
  lemma BarrenReads(b: Built, work: Work)
    requires Generated(b, work) && Barren(b.m.g)
    ensures Calm(b, work) && ShortRules(b.m.g) && Lalr1(b.m.g) && Prompt(b)
    ensures Drives(b.m) && OnStack(b.m, Bottom())
    ensures Tokens(b.m.g, [1]) && CanRead(b.m, [1]) && !Continued(b.m.g, [1])
  {
    hide *;
    BarrenParts(b, work);
    BarrenIsLalr1(b.m.g);
    GeneratedIsPrompt(b, work);
    BarrenHasNone(b.m.g, [1]);
    Parts(b);
    BottomStands(b.m);
    BottomIsOn(b.m);
    BarrenShifts(b);
  }

  lemma BarrenParts(b: Built, work: Work)
    requires Generated(b, work) && Barren(b.m.g)
    ensures Calm(b, work) && ShortRules(b.m.g) && Tokens(b.m.g, [1])
  {
    hide Generated, Calm, Reducible, WellFormed;
    forall s, a | 0 <= s < |work.acts| && a in work.acts[s] && Live(a) && a.sp < b.m.g.nterminal
      ensures HasLive(work.acts[s], 0) || HasLive(work.acts[s], 1)
    {
      assert HasLive(work.acts[s], a.sp);
    }
    LowTerminalsAreCalm(b, work);
  }

  lemma BarrenShifts(b: Built)
    requires Prompt(b) && Barren(b.m.g) && Drives(b.m) && OnStack(b.m, Bottom()) && Tokens(b.m.g, [1])
    ensures CanRead(b.m, [1])
  {
    hide Prompt, Drives, OnStack, Safe, OneTurn, Onward, Bottom, WellFormed, TopAwaits;
    StartAwaits(b, 0);
    BottomSize();
    ShiftsTerminal(b, 2, Bottom(), Item(0, 0), [1], 0);
    AlwaysSafe(b.m, Bottom(), 1);
    assert OneTurn(b.m, 2, Bottom(), 1).Shifted? by {
      assert [1][0] == 1;
      OneMove(b.m, 2, Bottom(), [1], Onward(b.m, Bottom(), Item(0, 0)));
    }
    FedOnce(b.m, 2, Bottom(), 1);
  }

  lemma OneMove(m: Machine, depth: nat, st: seq<StackEntry>, w: seq<nat>, st': seq<StackEntry>)
    requires w != [] && Moves(m, depth, st, w, 1, st', w[1..]) && Safe(m, st, w[0])
    ensures OneTurn(m, depth, st, w[0]).Shifted?
  {
    hide Safe, OneTurn;
    assert |w[1..]| != |w|;
  }

  lemma FedOnce(m: Machine, depth: nat, st: seq<StackEntry>, x: nat)
    requires Drives(m) && OnStack(m, Bottom()) && st == Bottom() && 1 <= x < m.g.nterminal && |st| <= depth
    requires depth > 0 && Safe(m, st, x) && OneTurn(m, depth, st, x).Shifted? && Tokens(m.g, [x])
    ensures CanRead(m, [x])
  {
    hide Drives, OnStack, Safe, OneTurn, Bottom;
    var r := Feed(m, depth, st, x, 1);
    assert [x][1..] == [];
    assert Reads(m, depth, Bottom(), [x], 1, r.after);
  }
}
