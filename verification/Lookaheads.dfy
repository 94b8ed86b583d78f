/** What the follow sets of the finished automaton are: for every state and item
    the union, over all paths that lead to the state, of the LR(1) lookaheads of
    the item after that path. */
module LemonLookaheads {
  import opened LemonGrammar
  import opened LemonFirstSets
  import opened LemonAutomaton
  import opened LemonFollowSets

  // ----- LR(1) lookaheads, from the grammar alone -----

  /** `it` is an LR(0) item of the state that `path` leads to. */
  ghost predicate ItemAfter(g: Grammar, path: seq<nat>, it: Item) {
    exists k, c :: Leads(g, path, k) && IsClosure(g, k, c) && it in c
  }

  /** `t` is a lookahead of item `it` after `path`, by a derivation of at most `n` steps:
      the end marker for the start items, what can begin the rest of a generating item,
      the lookahead of that item if its rest can vanish, and what an item had before its
      mark moved.

      What can begin the rest counts even if the generating item has no lookahead of its own,
      as Configlist_closure adds it without asking for one.  If every nonterminal derives a
      terminal string there is no such item, and these are the canonical LR(1) lookaheads
      (LemonCanonicalLr1); for other grammars they are what Lemon takes for them. */
  ghost predicate Lr1(g: Grammar, path: seq<nat>, it: Item, t: nat, n: nat)
    decreases n
  {
    || (path == [] && it in StartKernel(g) && t == 0)
    || (t < g.nterminal && exists a :: ItemAfter(g, path, a) && Generates(g, a, it) && Begins(g, Tail(g, a), t))
    || (n > 0 && exists a ::
          ItemAfter(g, path, a) && Generates(g, a, it) && Nullable(g, Tail(g, a)) && Lr1(g, path, a, t, n - 1))
    || (n > 0 && path != [] && it.dot > 0
        && var a := Item(it.rule, it.dot - 1);
           && ItemAfter(g, path[..|path| - 1], a) && CanShift(g, a) && Next(g, a) == path[|path| - 1]
           && Lr1(g, path[..|path| - 1], a, t, n - 1))
  }

  /** `t` is a lookahead of `it` after some path to the state with kernel `k`. */
  ghost predicate Merged(g: Grammar, k: set<Item>, it: Item, t: nat) {
    exists path, n: nat :: Leads(g, path, k) && Lr1(g, path, it, t, n)
  }

  // ----- FindLinks -----

  predicate IsConfig(states: seq<State>, c: Config) {
    c.state < |states| && c.item in states[c.state].items
  }

  /** The follow sets as the closure left them, before any propagation. */
  ghost predicate IsInitial(states: seq<State>, low: Family) {
    && (forall c :: c in low <==> IsConfig(states, c))
    && (forall c :: c in low ==> c.item in states[c.state].fws && low[c] == states[c.state].fws[c.item])
  }

  ghost predicate Linked(links: seq<Link>, fplp: map<Config, seq<Config>>) {
    forall a, b :: (a in fplp && b in fplp[a]) <==> (a, b) in links
  }

  lemma LinkEnds(g: Grammar, lambda: seq<bool>, first: seq<set<nat>>, states: seq<State>, links: seq<Link>, a: Config,
      b: Config)
    requires IsAutomaton(g, lambda, first, states, links) && (a, b) in links
    ensures IsConfig(states, a) && IsConfig(states, b)
  {
    hide StatesInv, Leads, Spontaneous;
    assert IsLink(g, lambda, states, a, b);
    StateParts(g, lambda, first, states, a.state);
    if !(b.state == a.state && PassesOn(g, lambda, a.item, b.item)) {
      ShiftIsGoto(g, lambda, first, states, links, a.state, Next(g, a.item));
      StateParts(g, lambda, first, states, b.state);
      assert b.item in Goto(g, Items(states[a.state].items), Next(g, a.item));
    }
  }

  /** All configurations, in the order of the states and of their lists. */
  method ListConfigs(states: seq<State>) returns (configs: seq<Config>)
    ensures forall c :: c in configs <==> IsConfig(states, c)
  {
    configs := [];
    for i := 0 to |states|
      invariant forall c :: c in configs <==> c.state < i && c.item in states[c.state].items
    {
      ghost var before := configs;
      var items := states[i].items;
      for k := 0 to |items|
        invariant forall c :: c in configs <==> c in before || (c.state == i && c.item in items[..k])
      {
        configs := configs + [Config(i, items[k])];
      }
      assert items[..|items|] == items;
    }
  }

  method ForwardLinks(configs: seq<Config>, links: seq<Link>) returns (fplp: map<Config, seq<Config>>)
    requires forall a, b :: (a, b) in links ==> a in configs
    ensures fplp.Keys == set c | c in configs
    ensures Linked(links, fplp)
  {
    fplp := map c | c in configs :: [];
    for i := 0 to |links|
      invariant fplp.Keys == set c | c in configs
      invariant Linked(links[..i], fplp)
    {
      var (a, b) := links[i];
      assert (a, b) in links;
      fplp := fplp[a := fplp[a] + [b]];
      assert links[..i + 1] == links[..i] + [links[i]];
    }
    assert links[..|links|] == links;
  }

  /** FindLinks: all configurations in order with forward links for the recorded ones, ready for the propagation. */
  method FindLinks(g: Grammar, lambda: seq<bool>, first: seq<set<nat>>, states: seq<State>, links: seq<Link>)
    returns (p: Propagation)
    requires WellFormed(g) && Exact(g, lambda, first) && IsAutomaton(g, lambda, first, states, links)
    ensures fresh(p) && p.Shape() && Linked(links, p.fplp)
    ensures IsInitial(states, p.fws)
  {
    var configs := ListConfigs(states);
    forall a, b | (a, b) in links ensures a in configs && b in configs {
      LinkEnds(g, lambda, first, states, links, a, b);
    }
    var fplp := ForwardLinks(configs, links);
    forall c | c in configs
      ensures c.item in states[c.state].fws && forall t :: t in states[c.state].fws[c.item] ==> t < g.nterminal
    {
      InitialBelow(g, lambda, first, states, links, c);
    }
    var fws := map c | c in configs :: states[c.state].fws[c.item];
    p := new Propagation(g.nterminal, configs, fplp, fws);
  }

  lemma InitialBelow(g: Grammar, lambda: seq<bool>, first: seq<set<nat>>, states: seq<State>, links: seq<Link>,
      c: Config)
    requires WellFormed(g) && Exact(g, lambda, first) && IsAutomaton(g, lambda, first, states, links)
    requires IsConfig(states, c)
    ensures c.item in states[c.state].fws && forall t :: t in states[c.state].fws[c.item] ==> t < g.nterminal
  {
    ExactIsFixpoint(g, lambda, first);
    var st := states[c.state];
    assert GoodState(g, lambda, first, st, c.state == 0);
    forall t | t in st.fws[c.item] ensures t < g.nterminal {
      if Spontaneous(g, lambda, first, Items(st.items), c.item, t) {
        var a :| a in Items(st.items) && Generates(g, a, c.item)
          && t in FirstOf(g.nterminal, lambda, first, Tail(g, a));
        FirstOfBelow(g, lambda, first, Tail(g, a), t);
      }
    }
  }

  // ----- least propagation is merged LR(1) -----

  lemma TailInRange(g: Grammar, a: Item)
    requires WellFormed(g) && CanShift(g, a)
    ensures forall k :: 0 <= k < |Tail(g, a)| ==> Tail(g, a)[k] < g.nsymbol
  {
    assert WellFormedRule(g, g.rules[a.rule]);
  }

  lemma NullableTail(g: Grammar, lambda: seq<bool>, first: seq<set<nat>>, a: Item)
    requires WellFormed(g) && Exact(g, lambda, first) && CanShift(g, a)
    ensures AllLambda(lambda, Tail(g, a)) <==> Nullable(g, Tail(g, a))
  {
    ExactIsFixpoint(g, lambda, first);
    if AllLambda(lambda, Tail(g, a)) { AllLambdaNullable(g, lambda, Tail(g, a)); }
    if Nullable(g, Tail(g, a)) {
      var n: nat :| DerivesIn(g, Tail(g, a), [], n);
      NullableIsMarked(g, lambda, Tail(g, a), n);
    }
  }

  lemma SpontaneousBegins(g: Grammar, lambda: seq<bool>, first: seq<set<nat>>, p: set<Item>, b: Item, t: nat)
    requires WellFormed(g) && Exact(g, lambda, first)
    ensures Spontaneous(g, lambda, first, p, b, t) <==>
      t < g.nterminal && exists a :: a in p && Generates(g, a, b) && Begins(g, Tail(g, a), t)
  {
    ExactIsFixpoint(g, lambda, first);
    if Spontaneous(g, lambda, first, p, b, t) {
      var a :| a in p && Generates(g, a, b) && t in FirstOf(g.nterminal, lambda, first, Tail(g, a));
      FirstOfBelow(g, lambda, first, Tail(g, a), t);
      TailInRange(g, a);
      FirstOfExact(g, lambda, first, Tail(g, a), t);
    }
    if t < g.nterminal && exists a :: a in p && Generates(g, a, b) && Begins(g, Tail(g, a), t) {
      var a :| a in p && Generates(g, a, b) && Begins(g, Tail(g, a), t);
      TailInRange(g, a);
      FirstOfExact(g, lambda, first, Tail(g, a), t);
    }
  }

  /** An item after a path is an item of every state that the path leads to. */
  lemma ItemsAfter(g: Grammar, lambda: seq<bool>, first: seq<set<nat>>, states: seq<State>, links: seq<Link>,
      path: seq<nat>, s: nat, it: Item)
    requires IsAutomaton(g, lambda, first, states, links) && s < |states| && Leads(g, path, states[s].kernel)
    ensures ItemAfter(g, path, it) <==> it in states[s].items
  {
    hide LinksInv, GoodState, GoodShifts, Complete;
    StateParts(g, lambda, first, states, s);
    if ItemAfter(g, path, it) {
      var k, c :| Leads(g, path, k) && IsClosure(g, k, c) && it in c;
      LeadsUnique(g, path, k, states[s].kernel);
      ClosureUnique(g, k, c, Items(states[s].items));
    }
  }

  lemma {:induction false} LeadsUnique(g: Grammar, path: seq<nat>, k: set<Item>, k': set<Item>)
    requires Leads(g, path, k) && Leads(g, path, k')
    ensures k == k'
    decreases path
  {
    if path != [] {
      var (front, x) := (path[..|path| - 1], path[|path| - 1]);
      var k0, c :| Leads(g, front, k0) && IsClosure(g, k0, c) && k == Goto(g, c, x) && k != {};
      var k0', c' :| Leads(g, front, k0') && IsClosure(g, k0', c') && k' == Goto(g, c', x) && k' != {};
      LeadsUnique(g, front, k0, k0');
      ClosureUnique(g, k0, c, c');
    }
  }

  lemma SameKernelSameState(g: Grammar, lambda: seq<bool>, first: seq<set<nat>>, states: seq<State>, i: nat, j: nat)
    requires StatesInv(g, lambda, first, states) && i < |states| && j < |states| && states[i].kernel == states[j].kernel
    ensures i == j
  {
    hide GoodState, GoodShifts;
  }

  /** Whatever the initial sets hold is a merged LR(1) lookahead. */
  lemma InitialIsMerged(g: Grammar, lambda: seq<bool>, first: seq<set<nat>>, states: seq<State>, links: seq<Link>,
      c: Config, t: nat)
    requires WellFormed(g) && Exact(g, lambda, first) && IsAutomaton(g, lambda, first, states, links)
    requires IsConfig(states, c)
    requires c.item in states[c.state].fws && t in states[c.state].fws[c.item]
    ensures Merged(g, states[c.state].kernel, c.item, t)
  {
    hide LinksInv, GoodShifts, Complete, IsClosure, Exact, WellFormed, Lr1, ItemAfter;
    var st := states[c.state];
    assert GoodState(g, lambda, first, st, c.state == 0);
    if Spontaneous(g, lambda, first, Items(st.items), c.item, t) {
      var path :| Leads(g, path, st.kernel);
      SpontaneousIsLr1(g, lambda, first, states, links, path, c, t);
    } else {
      assert Leads(g, [], st.kernel);
      StartIsLr1(g, c.item);
      assert Lr1(g, [], c.item, t, 0);
    }
  }

  lemma StartIsLr1(g: Grammar, it: Item)
    requires it in StartKernel(g)
    ensures Lr1(g, [], it, 0, 0)
  {
  }

  lemma SpontaneousIsLr1(g: Grammar, lambda: seq<bool>, first: seq<set<nat>>, states: seq<State>, links: seq<Link>,
      path: seq<nat>, c: Config, t: nat)
    requires WellFormed(g) && Exact(g, lambda, first) && IsAutomaton(g, lambda, first, states, links)
    requires c.state < |states|
    requires Leads(g, path, states[c.state].kernel)
    requires Spontaneous(g, lambda, first, Items(states[c.state].items), c.item, t)
    ensures Lr1(g, path, c.item, t, 0)
  {
    hide IsAutomaton, Exact, WellFormed, Leads, Begins, ItemAfter, Spontaneous;
    SpontaneousBegins(g, lambda, first, Items(states[c.state].items), c.item, t);
    var a :| a in Items(states[c.state].items) && Generates(g, a, c.item) && Begins(g, Tail(g, a), t);
    ItemsAfter(g, lambda, first, states, links, path, c.state, a);
  }

  /** A link carries merged lookaheads to merged lookaheads. */
  lemma LinkIsMerged(g: Grammar, lambda: seq<bool>, first: seq<set<nat>>, states: seq<State>, links: seq<Link>,
      a: Config, b: Config, t: nat)
    requires WellFormed(g) && Exact(g, lambda, first) && IsAutomaton(g, lambda, first, states, links)
    requires IsConfig(states, a) && IsConfig(states, b) && (a, b) in links
    requires Merged(g, states[a.state].kernel, a.item, t)
    ensures Merged(g, states[b.state].kernel, b.item, t)
  {
    hide StatesInv, GoodShifts, Complete, IsClosure, Leads;
    var k := states[a.state].kernel;
    var path, n: nat :| Leads(g, path, k) && Lr1(g, path, a.item, t, n);
    ItemsAfter(g, lambda, first, states, links, path, a.state, a.item);
    assert IsLink(g, lambda, states, a, b);
    if b.state == a.state && PassesOn(g, lambda, a.item, b.item) {
      NullableTail(g, lambda, first, a.item);
      assert Lr1(g, path, b.item, t, n + 1);
    } else {
      var x := Next(g, a.item);
      ShiftIsGoto(g, lambda, first, states, links, a.state, x);
      StateParts(g, lambda, first, states, a.state);
      LeadsOn(g, path, k, Items(states[a.state].items), x);
      assert (path + [x])[..|path + [x]| - 1] == path;
      assert Item(b.item.rule, b.item.dot - 1) == a.item;
      assert Lr1(g, path + [x], b.item, t, n + 1);
    }
  }

  /** Every LR(1) lookahead arrives. */
  lemma {:induction false} Lr1Arrives(g: Grammar, lambda: seq<bool>, first: seq<set<nat>>, states: seq<State>,
      links: seq<Link>, fplp: map<Config, seq<Config>>, low: Family, f: Family, path: seq<nat>, s: nat, it: Item,
      t: nat, n: nat)
    requires WellFormed(g) && Exact(g, lambda, first) && IsAutomaton(g, lambda, first, states, links)
    requires Linked(links, fplp) && IsInitial(states, low) && ClosedUnder(fplp, f) && Above(f, low)
    requires s < |states| && Leads(g, path, states[s].kernel) && it in states[s].items && Lr1(g, path, it, t, n)
    ensures Config(s, it) in f && t in f[Config(s, it)]
    decreases n
  {
    hide StatesInv, LinksInv, Leads, ClosedUnder, Above, IsInitial, Linked, Exact, WellFormed, StartKernel, IsAutomaton;
    var c := Config(s, it);
    InitialArrives(states, low, f, c);
    if t in states[s].fws[it] { return; }
    NotInitial(g, lambda, first, states, links, path, s, it, t);
    if a :|
      n > 0 && ItemAfter(g, path, a) && Generates(g, a, it) && Nullable(g, Tail(g, a)) && Lr1(g, path, a, t, n - 1)
    {
      PassLink(g, lambda, first, states, links, path, s, a, it);
      Lr1Arrives(g, lambda, first, states, links, fplp, low, f, path, s, a, t, n - 1);
      LinkCarries(g, lambda, first, states, links, fplp, f, Config(s, a), c, t);
    } else {
      var a := Item(it.rule, it.dot - 1);
      var j := FrontState(g, lambda, first, states, links, path, s, a);
      Lr1Arrives(g, lambda, first, states, links, fplp, low, f, path[..|path| - 1], j, a, t, n - 1);
      LinkCarries(g, lambda, first, states, links, fplp, f, Config(j, a), c, t);
    }
  }

  lemma InitialArrives(states: seq<State>, low: Family, f: Family, c: Config)
    requires IsInitial(states, low) && Above(f, low) && IsConfig(states, c)
    ensures c in f && c.item in states[c.state].fws && states[c.state].fws[c.item] <= f[c]
  {
    assert c in low;
  }

  lemma PassLink(g: Grammar, lambda: seq<bool>, first: seq<set<nat>>, states: seq<State>, links: seq<Link>,
      path: seq<nat>, s: nat, a: Item, b: Item)
    requires WellFormed(g) && Exact(g, lambda, first) && IsAutomaton(g, lambda, first, states, links)
    requires s < |states| && Leads(g, path, states[s].kernel)
    requires ItemAfter(g, path, a) && Generates(g, a, b) && Nullable(g, Tail(g, a))
    ensures a in states[s].items && IsLink(g, lambda, states, Config(s, a), Config(s, b))
  {
    hide StatesInv, LinksInv, Leads;
    ItemsAfter(g, lambda, first, states, links, path, s, a);
    NullableTail(g, lambda, first, a);
  }

  lemma LinkCarries(g: Grammar, lambda: seq<bool>, first: seq<set<nat>>, states: seq<State>, links: seq<Link>,
      fplp: map<Config, seq<Config>>, f: Family, a: Config, b: Config, t: nat)
    requires IsAutomaton(g, lambda, first, states, links) && Linked(links, fplp) && ClosedUnder(fplp, f)
    requires IsLink(g, lambda, states, a, b) && a in f && t in f[a]
    ensures b in f && t in f[b]
  {
    hide StatesInv;
    assert (a, b) in links;
  }

  lemma StartHasEmptyPath(g: Grammar, lambda: seq<bool>, first: seq<set<nat>>, states: seq<State>, links: seq<Link>,
      s: nat)
    requires IsAutomaton(g, lambda, first, states, links) && s < |states|
    ensures states[s].kernel == StartKernel(g) <==> s == 0
  {
    hide GoodState, GoodShifts, LinksInv, Complete;
    if states[s].kernel == StartKernel(g) { SameKernelSameState(g, lambda, first, states, s, 0); }
  }

  /** A lookahead that is not initial is not one by the first two rules. */
  lemma NotInitial(g: Grammar, lambda: seq<bool>, first: seq<set<nat>>, states: seq<State>, links: seq<Link>,
      path: seq<nat>, s: nat, it: Item, t: nat)
    requires WellFormed(g) && Exact(g, lambda, first) && IsAutomaton(g, lambda, first, states, links)
    requires s < |states| && Leads(g, path, states[s].kernel) && it in states[s].items
    requires it in states[s].fws && t !in states[s].fws[it]
    ensures !(path == [] && it in StartKernel(g) && t == 0)
    ensures !(t < g.nterminal && exists a :: ItemAfter(g, path, a) && Generates(g, a, it) && Begins(g, Tail(g, a), t))
  {
    hide LinksInv, GoodShifts, Complete, IsClosure;
    var st := states[s];
    assert GoodState(g, lambda, first, st, s == 0);
    StartHasEmptyPath(g, lambda, first, states, links, s);
    SpontaneousBegins(g, lambda, first, Items(st.items), it, t);
    forall a | ItemAfter(g, path, a) ensures a in Items(st.items) {
      ItemsAfter(g, lambda, first, states, links, path, s, a);
    }
  }

  /** The state before the last symbol of a path, and its shift. */
  lemma FrontState(g: Grammar, lambda: seq<bool>, first: seq<set<nat>>, states: seq<State>, links: seq<Link>,
      path: seq<nat>, s: nat, a: Item)
    returns (j: nat)
    requires IsAutomaton(g, lambda, first, states, links) && s < |states| && Leads(g, path, states[s].kernel)
    requires path != []
    requires ItemAfter(g, path[..|path| - 1], a) && CanShift(g, a) && Next(g, a) == path[|path| - 1]
    ensures j < |states| && Leads(g, path[..|path| - 1], states[j].kernel) && a in states[j].items
    ensures IsLink(g, lambda, states, Config(j, a), Config(s, Advance(a)))
  {
    hide *;
    AutomatonStates(g, lambda, first, states, links);
    var (front, x) := (path[..|path| - 1], path[|path| - 1]);
    var k0, c := LastStep(g, path, states[s].kernel);
    j := PathHasState(g, lambda, first, states, links, front, k0);
    ItemsAfter(g, lambda, first, states, links, front, j, a);
    StateParts(g, lambda, first, states, j);
    ClosureUnique(g, k0, c, Items(states[j].items));
    ShiftIsGoto(g, lambda, first, states, links, j, x);
    SameKernelSameState(g, lambda, first, states, s, states[j].shifts[x]);
    ShiftLink(g, lambda, states, j, a);
  }

  lemma AutomatonStates(g: Grammar, lambda: seq<bool>, first: seq<set<nat>>, states: seq<State>, links: seq<Link>)
    requires IsAutomaton(g, lambda, first, states, links)
    ensures StatesInv(g, lambda, first, states)
  {
    hide StatesInv, LinksInv, Complete;
  }

  /** The kernel and closure before the last symbol of a path. */
  lemma LastStep(g: Grammar, path: seq<nat>, k: set<Item>) returns (k0: set<Item>, c: set<Item>)
    requires Leads(g, path, k) && path != []
    ensures Leads(g, path[..|path| - 1], k0) && IsClosure(g, k0, c) && k == Goto(g, c, path[|path| - 1]) && k != {}
  {
    hide IsClosure, Goto;
    k0, c :| Leads(g, path[..|path| - 1], k0) && IsClosure(g, k0, c) && k == Goto(g, c, path[|path| - 1]) && k != {};
  }

  lemma ShiftLink(g: Grammar, lambda: seq<bool>, states: seq<State>, j: nat, a: Item)
    requires j < |states| && a in states[j].items && CanShift(g, a) && Next(g, a) in states[j].shifts
    ensures IsLink(g, lambda, states, Config(j, a), Config(states[j].shifts[Next(g, a)], Advance(a)))
  {
  }

  ghost function MergedFamily(g: Grammar, states: seq<State>, low: Family): Family {
    map c | c in low :: set t | 0 <= t < g.nterminal && c.state < |states|
      && Merged(g, states[c.state].kernel, c.item, t)
  }

  lemma MergedIsAbove(g: Grammar, lambda: seq<bool>, first: seq<set<nat>>, states: seq<State>, links: seq<Link>,
      low: Family)
    requires WellFormed(g) && Exact(g, lambda, first) && IsAutomaton(g, lambda, first, states, links)
    requires IsInitial(states, low)
    ensures Above(MergedFamily(g, states, low), low)
  {
    hide StatesInv, LinksInv, Exact, WellFormed, Merged;
    forall c, t | c in low && t in low[c] ensures t in MergedFamily(g, states, low)[c] {
      InitialBelow(g, lambda, first, states, links, c);
      InitialIsMerged(g, lambda, first, states, links, c, t);
    }
  }

  lemma MergedIsClosed(g: Grammar, lambda: seq<bool>, first: seq<set<nat>>, states: seq<State>, links: seq<Link>,
      fplp: map<Config, seq<Config>>, low: Family)
    requires WellFormed(g) && Exact(g, lambda, first) && IsAutomaton(g, lambda, first, states, links)
    requires Linked(links, fplp) && IsInitial(states, low) && fplp.Keys == low.Keys
    ensures ClosedUnder(fplp, MergedFamily(g, states, low))
  {
    hide StatesInv, LinksInv, Exact, WellFormed, Merged;
    var h := MergedFamily(g, states, low);
    forall a, b | a in fplp && b in fplp[a] ensures b in h && h[a] <= h[b] {
      assert (a, b) in links;
      LinkEnds(g, lambda, first, states, links, a, b);
      forall t | t in h[a] ensures t in h[b] {
        LinkIsMerged(g, lambda, first, states, links, a, b, t);
      }
    }
  }

  /** The least family over the recorded links is the merge of the canonical LR(1) lookaheads. */
  lemma FollowSetsAreMergedLr1(g: Grammar, lambda: seq<bool>, first: seq<set<nat>>, states: seq<State>,
      links: seq<Link>, fplp: map<Config, seq<Config>>, low: Family, f: Family, c: Config, t: nat)
    requires WellFormed(g) && Exact(g, lambda, first) && IsAutomaton(g, lambda, first, states, links)
    requires Linked(links, fplp) && IsInitial(states, low) && IsLeast(fplp, low, f)
    requires IsConfig(states, c)
    ensures c in f && (t in f[c] <==> Merged(g, states[c.state].kernel, c.item, t))
  {
    hide StatesInv, LinksInv, Exact, WellFormed, Lr1, Leads, IsAutomaton, Linked;
    InitialArrives(states, low, f, c);
    if Merged(g, states[c.state].kernel, c.item, t) {
      var path, n: nat :| Leads(g, path, states[c.state].kernel) && Lr1(g, path, c.item, t, n);
      Lr1Arrives(g, lambda, first, states, links, fplp, low, f, path, c.state, c.item, t, n);
    }
    MergedIsAbove(g, lambda, first, states, links, low);
    MergedIsClosed(g, lambda, first, states, links, fplp, low);
  }

  ghost predicate StartNotInRhs(g: Grammar) {
    forall r, k :: 0 <= r < |g.rules| && 0 <= k < |g.rules[r].rhs| ==> g.rules[r].rhs[k] != g.start
  }

  /** Only the end marker can follow a rule of the start symbol. */
  lemma {:induction false} OnlyEndFollowsStart(g: Grammar, path: seq<nat>, it: Item, t: nat, n: nat)
    requires StartNotInRhs(g) && Lr1(g, path, it, t, n)
    requires it.rule < |g.rules| && g.rules[it.rule].lhs == g.start
    ensures t == 0
    decreases n
  {
    forall a ensures !Generates(g, a, it) { }
    if t != 0 {
      OnlyEndFollowsStart(g, path[..|path| - 1], Item(it.rule, it.dot - 1), t, n - 1);
    }
  }
}
