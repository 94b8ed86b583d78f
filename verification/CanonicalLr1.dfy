/** The lookaheads that Lemon merges are the canonical LR(1) ones, if every nonterminal derives a terminal string. */
module LemonCanonicalLr1 {
  import opened LemonGrammar
  import opened LemonAutomaton
  import opened LemonLookaheads

  ghost predicate AllTerminals(g: Grammar, w: seq<nat>) {
    forall k :: 0 <= k < |w| ==> w[k] < g.nterminal
  }

  ghost predicate DerivesTokens(g: Grammar, u: seq<nat>) {
    exists w :: AllTerminals(g, w) && Derives(g, u, w)
  }

  ghost predicate Productive(g: Grammar) {
    forall x: nat :: g.nterminal <= x < g.nsymbol ==> DerivesTokens(g, [x])
  }

  /** `t` is in FIRST of the symbols `u` with the lookahead `v` behind them. */
  ghost predicate FirstBefore(g: Grammar, u: seq<nat>, v: nat, t: nat) {
    (t < g.nterminal && Begins(g, u, t)) || (Nullable(g, u) && t == v)
  }

  /** The textbook definition: `[it, t]` is an LR(1) item of the state that `path` leads to in the canonical LR(1)
      collection.  A generated item gets what is in FIRST of the rest of a generating item and one of its
      lookaheads. */
  ghost predicate Canonical1(g: Grammar, path: seq<nat>, it: Item, t: nat, n: nat)
    decreases n
  {
    || (path == [] && it in StartKernel(g) && t == 0)
    || (n > 0 && exists a, v: nat ::
          ItemAfter(g, path, a) && Generates(g, a, it) && FirstBefore(g, Tail(g, a), v, t)
          && Canonical1(g, path, a, v, n - 1))
    || (n > 0 && path != [] && it.dot > 0
        && var a := Item(it.rule, it.dot - 1);
           && ItemAfter(g, path[..|path| - 1], a) && CanShift(g, a) && Next(g, a) == path[|path| - 1]
           && Canonical1(g, path[..|path| - 1], a, t, n - 1))
  }

  ghost predicate HasLookahead(g: Grammar, path: seq<nat>, it: Item) {
    exists t: nat, n: nat :: Canonical1(g, path, it, t, n)
  }

  // ----- every item has a lookahead -----

  lemma {:induction false} ProductiveString(g: Grammar, u: seq<nat>)
    requires Productive(g) && forall k :: 0 <= k < |u| ==> u[k] < g.nsymbol
    ensures DerivesTokens(g, u)
  {
    if u == [] {
      DerivesRefl(g, []);
      assert AllTerminals(g, []);
    } else {
      ProductiveString(g, u[1..]);
      var w :| AllTerminals(g, w) && Derives(g, u[1..], w);
      var v := OneToken(g, u[0]);
      DerivesConcat(g, [u[0]], v, u[1..], w);
      assert [u[0]] + u[1..] == u;
      assert AllTerminals(g, v + w);
    }
  }

  lemma OneToken(g: Grammar, x: nat) returns (v: seq<nat>)
    requires Productive(g) && x < g.nsymbol
    ensures AllTerminals(g, v) && Derives(g, [x], v)
  {
    if x < g.nterminal {
      DerivesRefl(g, [x]);
      v := [x];
    } else {
      assert DerivesTokens(g, [x]);
      v :| AllTerminals(g, v) && Derives(g, [x], v);
    }
  }

  /** A lookahead in front of a productive rest. */
  lemma FirstThere(g: Grammar, u: seq<nat>, v: nat) returns (t: nat)
    requires Productive(g) && forall k :: 0 <= k < |u| ==> u[k] < g.nsymbol
    ensures FirstBefore(g, u, v, t)
  {
    ProductiveString(g, u);
    var w :| AllTerminals(g, w) && Derives(g, u, w);
    if w == [] {
      t := v;
    } else {
      t := w[0];
      assert [w[0]] + w[1..] == w;
    }
  }

  lemma GeneratedHasLookahead(g: Grammar, path: seq<nat>, a: Item, b: Item)
    requires WellFormed(g) && Productive(g) && ItemAfter(g, path, a) && Generates(g, a, b) && HasLookahead(g, path, a)
    ensures HasLookahead(g, path, b)
  {
    var v: nat, n: nat :| Canonical1(g, path, a, v, n);
    assert WellFormedRule(g, g.rules[a.rule]);
    var t := FirstThere(g, Tail(g, a), v);
    assert Canonical1(g, path, b, t, n + 1);
  }

  lemma MovedHasLookahead(g: Grammar, path: seq<nat>, it: Item)
    requires path != [] && it.dot > 0
    requires
      var a := Item(it.rule, it.dot - 1);
      && ItemAfter(g, path[..|path| - 1], a) && CanShift(g, a) && Next(g, a) == path[|path| - 1]
      && HasLookahead(g, path[..|path| - 1], a)
    ensures HasLookahead(g, path, it)
  {
    var t: nat, n: nat :| Canonical1(g, path[..|path| - 1], Item(it.rule, it.dot - 1), t, n);
    assert Canonical1(g, path, it, t, n + 1);
  }

  /** Items with a lookahead in the kernel are enough. */
  lemma ClosureHasLookahead(g: Grammar, path: seq<nat>, k: set<Item>, c: set<Item>)
    requires WellFormed(g) && Productive(g) && Leads(g, path, k) && IsClosure(g, k, c)
    requires forall it :: it in k ==> HasLookahead(g, path, it)
    ensures forall it :: it in c ==> HasLookahead(g, path, it)
  {
    hide WellFormed, Productive, HasLookahead, Leads, StartKernel;
    var d := set it | it in c && HasLookahead(g, path, it);
    forall a, b | a in d && Generates(g, a, b) ensures b in d {
      assert ItemAfter(g, path, a);
      GeneratedHasLookahead(g, path, a, b);
    }
    assert k <= d && Closed(g, d);
  }

  lemma KernelHasLookahead(g: Grammar, path: seq<nat>, k0: set<Item>, c: set<Item>, it: Item)
    requires path != [] && Leads(g, path[..|path| - 1], k0) && IsClosure(g, k0, c)
    requires it in Goto(g, c, path[|path| - 1])
    requires forall a :: a in c ==> HasLookahead(g, path[..|path| - 1], a)
    ensures HasLookahead(g, path, it)
  {
    hide HasLookahead, Leads, IsClosure;
    var a :| a in c && CanShift(g, a) && Next(g, a) == path[|path| - 1] && it == Advance(a);
    assert a == Item(it.rule, it.dot - 1);
    assert ItemAfter(g, path[..|path| - 1], a);
    MovedHasLookahead(g, path, it);
  }

  lemma {:induction false} AllHaveLookahead(g: Grammar, path: seq<nat>, k: set<Item>, c: set<Item>)
    requires WellFormed(g) && Productive(g) && Leads(g, path, k) && IsClosure(g, k, c)
    ensures forall it :: it in c ==> HasLookahead(g, path, it)
    decreases |path|
  {
    hide WellFormed, Productive, HasLookahead, IsClosure, StartKernel;
    if path == [] {
      StartHasLookahead(g);
    } else {
      var k0, c0 :| Leads(g, path[..|path| - 1], k0) && IsClosure(g, k0, c0)
        && k == Goto(g, c0, path[|path| - 1]) && k != {};
      AllHaveLookahead(g, path[..|path| - 1], k0, c0);
      hide Leads, Goto;
      forall it | it in k ensures HasLookahead(g, path, it) { KernelHasLookahead(g, path, k0, c0, it); }
    }
    hide Leads;
    ClosureHasLookahead(g, path, k, c);
  }

  lemma StartHasLookahead(g: Grammar)
    ensures forall it :: it in StartKernel(g) ==> HasLookahead(g, [], it)
  {
    forall it | it in StartKernel(g) ensures HasLookahead(g, [], it) {
      assert Canonical1(g, [], it, 0, 0);
    }
  }

  // ----- both definitions -----

  lemma {:induction false} CanonicalIsLr1(g: Grammar, path: seq<nat>, it: Item, t: nat, n: nat)
    requires Canonical1(g, path, it, t, n)
    ensures Lr1(g, path, it, t, n)
    decreases n
  {
    hide ItemAfter, StartKernel, Begins, Nullable;
    if n > 0 {
      if a, v: nat :| ItemAfter(g, path, a) && Generates(g, a, it) && FirstBefore(g, Tail(g, a), v, t)
                      && Canonical1(g, path, a, v, n - 1) {
        CanonicalIsLr1(g, path, a, v, n - 1);
      } else if path != [] && it.dot > 0 {
        var (less, a) := (path[..|path| - 1], Item(it.rule, it.dot - 1));
        if Canonical1(g, less, a, t, n - 1) { CanonicalIsLr1(g, less, a, t, n - 1); }
      }
    }
  }

  lemma {:induction false} Lr1IsCanonical(g: Grammar, path: seq<nat>, it: Item, t: nat, n: nat) returns (m: nat)
    requires WellFormed(g) && Productive(g) && Lr1(g, path, it, t, n)
    ensures Canonical1(g, path, it, t, m)
    decreases n
  {
    hide StartKernel, Begins, Nullable, IsClosure, Leads, WellFormed, Productive;
    if a :| t < g.nterminal && ItemAfter(g, path, a) && Generates(g, a, it) && Begins(g, Tail(g, a), t) {
      var k, c :| Leads(g, path, k) && IsClosure(g, k, c) && a in c;
      AllHaveLookahead(g, path, k, c);
      var v: nat, l: nat :| Canonical1(g, path, a, v, l);
      m := l + 1;
      assert FirstBefore(g, Tail(g, a), v, t);
    } else if a :| n > 0 && ItemAfter(g, path, a) && Generates(g, a, it) && Nullable(g, Tail(g, a))
                   && Lr1(g, path, a, t, n - 1) {
      var l := Lr1IsCanonical(g, path, a, t, n - 1);
      m := l + 1;
      assert FirstBefore(g, Tail(g, a), t, t);
    } else if path == [] && it in StartKernel(g) && t == 0 {
      m := 0;
    } else {
      var l := Lr1IsCanonical(g, path[..|path| - 1], Item(it.rule, it.dot - 1), t, n - 1);
      m := l + 1;
    }
  }

  /** Without useless nonterminals the lookaheads of `Lr1` are the canonical LR(1) lookaheads. */
  lemma LookaheadsAreCanonical(g: Grammar, path: seq<nat>, it: Item, t: nat)
    requires WellFormed(g) && Productive(g)
    ensures (exists n: nat :: Lr1(g, path, it, t, n)) <==> (exists n: nat :: Canonical1(g, path, it, t, n))
  {
    hide Lr1, Canonical1, WellFormed, Productive;
    if n: nat :| Lr1(g, path, it, t, n) { var m := Lr1IsCanonical(g, path, it, t, n); }
    if n: nat :| Canonical1(g, path, it, t, n) { CanonicalIsLr1(g, path, it, t, n); }
  }
}
