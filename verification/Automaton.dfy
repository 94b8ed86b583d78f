/** FindStates: the LR(0) automaton, with the initial follow sets and the
    propagation links that are recorded while it is built.

    Configuration lists that the source keeps sorted and free of duplicates are
    identified with their sets where only that matters. */
module LemonAutomaton {
  import opened Basics
  import opened LemonGrammar
  import opened LemonFirstSets

  /** A rule with a mark: the source's `rp` and `dot`. */
  datatype Item = Item(rule: nat, dot: nat)

  /** An item inside a state. */
  datatype Config = Config(state: nat, item: Item)

  type Link = (Config, Config)

  // ----- items, closure, goto -----

  predicate GoodItem(g: Grammar, it: Item) {
    it.rule < |g.rules| && it.dot <= |g.rules[it.rule].rhs|
  }

  predicate CanShift(g: Grammar, it: Item) {
    it.rule < |g.rules| && it.dot < |g.rules[it.rule].rhs|
  }

  function Next(g: Grammar, it: Item): nat
    requires CanShift(g, it)
  {
    g.rules[it.rule].rhs[it.dot]
  }

  function Advance(it: Item): Item { Item(it.rule, it.dot + 1) }

  /** What stands behind the symbol that follows the mark. */
  function Tail(g: Grammar, it: Item): seq<nat>
    requires CanShift(g, it)
  {
    g.rules[it.rule].rhs[it.dot + 1..]
  }

  /** `b` is a fresh item for the symbol behind the mark of `a`. */
  predicate Generates(g: Grammar, a: Item, b: Item) {
    CanShift(g, a) && b.dot == 0 && b.rule < |g.rules| && g.rules[b.rule].lhs == Next(g, a)
  }

  ghost predicate Closed(g: Grammar, c: set<Item>) {
    forall a, b :: a in c && Generates(g, a, b) ==> b in c
  }

  /** `c` is the least closed set around `k`. */
  ghost predicate IsClosure(g: Grammar, k: set<Item>, c: set<Item>) {
    && k <= c && Closed(g, c)
    && (forall d :: k <= d && Closed(g, d) ==> c <= d)
  }

  function Goto(g: Grammar, c: set<Item>, x: nat): set<Item> {
    set it | it in c && CanShift(g, it) && Next(g, it) == x :: Advance(it)
  }

  function Items(s: seq<Item>): set<Item> { set it | it in s }

  ghost function AllItems(g: Grammar): set<Item> {
    set r, d | 0 <= r < |g.rules| && 0 <= d <= |g.rules[r].rhs| :: Item(r, d)
  }

  function StartKernel(g: Grammar): set<Item> {
    set r | 0 <= r < |g.rules| && g.rules[r].lhs == g.start :: Item(r, 0)
  }

  /** Following `path` from the start kernel, closing at every state, leads to kernel `k`. */
  ghost predicate Leads(g: Grammar, path: seq<nat>, k: set<Item>) {
    if path == [] then k == StartKernel(g)
    else exists k0, c ::
      && Leads(g, path[..|path| - 1], k0) && IsClosure(g, k0, c)
      && k == Goto(g, c, path[|path| - 1]) && k != {}
  }

  // ----- initial follow sets and links -----

  /** `t` can follow `b` because of what stands behind `b`'s symbol in some item of `p`. */
  ghost predicate Spontaneous(g: Grammar, lambda: seq<bool>, first: seq<set<nat>>, p: set<Item>, b: Item, t: nat) {
    exists a :: a in p && Generates(g, a, b) && t in FirstOf(g.nterminal, lambda, first, Tail(g, a))
  }

  /** Whatever follows `a` also follows `b`, inside one state. */
  ghost predicate PassesOn(g: Grammar, lambda: seq<bool>, a: Item, b: Item) {
    Generates(g, a, b) && AllLambda(lambda, Tail(g, a))
  }

  // ----- Configlist_closure -----

  /** The lists that Configlist_closure grows: items in order, their follow sets, the links between them. */
  datatype ConfigList = ConfigList(items: seq<Item>, fws: map<Item, set<nat>>, links: seq<(Item, Item)>)

  /** `l` holds the closure of `basis` as far as the items `p` have been expanded: the items, */
  ghost predicate ItemsDone(g: Grammar, basis: seq<Item>, l: ConfigList, p: set<Item>) {
    && (forall it :: it in l.items ==> GoodItem(g, it))
    && Items(basis) <= Items(l.items) && l.fws.Keys == Items(l.items)
    && (forall d :: Items(basis) <= d && Closed(g, d) ==> Items(l.items) <= d)
    && (forall a, b :: a in p && Generates(g, a, b) ==> b in l.items)
  }

  /** their follow sets, */
  ghost predicate FwsDone(g: Grammar, lambda: seq<bool>, first: seq<set<nat>>, basis: seq<Item>, base: set<nat>,
      l: ConfigList, p: set<Item>) {
    && (forall b :: b in l.items ==> b in l.fws)
    && forall b, t :: b in l.items ==>
         (t in l.fws[b] <==> (b in basis && t in base) || Spontaneous(g, lambda, first, p, b, t))
  }

  /** and the links. */
  ghost predicate LinksDone(g: Grammar, lambda: seq<bool>, l: ConfigList, p: set<Item>) {
    forall a, b :: (a, b) in l.links <==> a in p && PassesOn(g, lambda, a, b)
  }

  ghost predicate Expanded(g: Grammar, lambda: seq<bool>, first: seq<set<nat>>, basis: seq<Item>, base: set<nat>,
      l: ConfigList, p: set<Item>) {
    ItemsDone(g, basis, l, p) && FwsDone(g, lambda, first, basis, base, l, p) && LinksDone(g, lambda, l, p)
  }

  /** What expanding item `it` by the rules from number `from` on makes of the list: its items, */
  ghost predicate ItemsGrow(g: Grammar, it: Item, l: ConfigList, l': ConfigList, from: nat) {
    && l.items <= l'.items
    && (forall b :: b in l'.items <==> b in l.items || (Generates(g, it, b) && b.rule >= from))
  }

  /** its follow sets, where `f` can begin what stands behind the symbol, */
  ghost predicate FwsGrow(g: Grammar, it: Item, f: set<nat>, l: ConfigList, l': ConfigList, from: nat) {
    && l.fws.Keys <= l'.fws.Keys == Items(l'.items)
    && (forall b :: b in l'.items ==>
          l'.fws[b] == (if b in l.fws then l.fws[b] else {})
                       + (if Generates(g, it, b) && b.rule >= from then f else {}))
  }

  /** and its links, as far as `all` of it can vanish. */
  ghost predicate LinksGrow(g: Grammar, it: Item, all: bool, l: ConfigList, l': ConfigList, from: nat) {
    forall a, b :: (a, b) in l'.links <==>
        (a, b) in l.links || (a == it && Generates(g, a, b) && all && b.rule >= from)
  }

  ghost predicate ExpandsTo(g: Grammar, lambda: seq<bool>, first: seq<set<nat>>, it: Item, l: ConfigList,
      l': ConfigList, from: nat) {
    var (f, all) := if CanShift(g, it) then
        (FirstOf(g.nterminal, lambda, first, Tail(g, it)), AllLambda(lambda, Tail(g, it))) else ({}, false);
    ItemsGrow(g, it, l, l', from) && FwsGrow(g, it, f, l, l', from) && LinksGrow(g, it, all, l, l', from)
  }

  /** The inner walk of Configlist_closure: the terminals that can begin the tail, and whether all of it can derive
      nothing. */
  method WalkTail(g: Grammar, lambda: seq<bool>, first: seq<set<nat>>, it: Item) returns (f: set<nat>, all: bool)
    requires WellFormed(g) && |lambda| == |first| == g.nsymbol && CanShift(g, it)
    requires forall s :: 0 <= s < g.nterminal ==> !lambda[s]
    ensures f == FirstOf(g.nterminal, lambda, first, Tail(g, it))
    ensures all <==> AllLambda(lambda, Tail(g, it))
  {
    f := {};
    var tail := Tail(g, it);
    assert WellFormedRule(g, g.rules[it.rule]);
    var i := 0;
    while i < |tail|
      invariant i <= |tail| && AllLambda(lambda, tail[..i])
      invariant f + FirstOf(g.nterminal, lambda, first, tail[i..]) == FirstOf(g.nterminal, lambda, first, tail)
    {
      var x := tail[i];
      FirstOfAt(g.nterminal, lambda, first, tail, i);
      if x < g.nterminal {
        return f + {x}, false;
      }
      f := f + first[x];
      if !lambda[x] { return f, false; }
      i := i + 1;
    }
    assert tail[..i] == tail;
    all := true;
  }

  /** Configlist_add for rule `r`, then its share of the follow set and the link. */
  function AddRule(l: ConfigList, it: Item, r: nat, f: set<nat>, all: bool): ConfigList
    requires l.fws.Keys == Items(l.items)
  {
    var b := Item(r, 0);
    ConfigList(
      if b in l.items then l.items else l.items + [b],
      l.fws[b := (if b in l.items then l.fws[b] else {}) + f],
      if all then l.links + [(it, b)] else l.links)
  }

  lemma AddRuleNext(g: Grammar, lambda: seq<bool>, first: seq<set<nat>>, it: Item, l: ConfigList, l': ConfigList,
      r: nat)
    requires CanShift(g, it) && r < |g.rules| && ExpandsTo(g, lambda, first, it, l, l', r + 1)
    requires l.fws.Keys == Items(l.items)
    ensures
      var f := FirstOf(g.nterminal, lambda, first, Tail(g, it));
      var l2 := if g.rules[r].lhs == Next(g, it) then AddRule(l', it, r, f, AllLambda(lambda, Tail(g, it))) else l';
      ExpandsTo(g, lambda, first, it, l, l2, r)
  {
    var (f, all) := (FirstOf(g.nterminal, lambda, first, Tail(g, it)), AllLambda(lambda, Tail(g, it)));
    hide FirstOf, AllLambda, Tail, Next, CanShift, AddRule, ItemsGrow, FwsGrow, LinksGrow, Items, Generates;
    GrownKeys(g, it, f, l, l', r + 1);
    if g.rules[r].lhs == Next(g, it) {
      AddRuleItems(g, it, l, l', r, f, all);
      AddRuleFws(g, it, l, l', r, f, all);
      AddRuleLinks(g, it, l, l', r, f, all);
    } else {
      NotThisRule(g, it, f, all, l, l', r);
    }
  }

  lemma GrownKeys(g: Grammar, it: Item, f: set<nat>, l: ConfigList, l': ConfigList, from: nat)
    requires FwsGrow(g, it, f, l, l', from)
    ensures l'.fws.Keys == Items(l'.items)
  {
  }

  /** Among the rules from `r` on, those of the symbol behind the mark are rule `r`, if it is one of them, and those
      after it. */
  lemma RuleGenerated(g: Grammar, it: Item, r: nat)
    requires CanShift(g, it) && r < |g.rules|
    ensures Generates(g, it, Item(r, 0)) <==> g.rules[r].lhs == Next(g, it)
    ensures forall b :: Generates(g, it, b) ==> (b.rule >= r <==> b == Item(r, 0) || b.rule >= r + 1)
  {
  }

  lemma NotThisRule(g: Grammar, it: Item, f: set<nat>, all: bool, l: ConfigList, l': ConfigList, r: nat)
    requires CanShift(g, it) && r < |g.rules| && g.rules[r].lhs != Next(g, it)
    requires ItemsGrow(g, it, l, l', r + 1) && FwsGrow(g, it, f, l, l', r + 1) && LinksGrow(g, it, all, l, l', r + 1)
    ensures ItemsGrow(g, it, l, l', r) && FwsGrow(g, it, f, l, l', r) && LinksGrow(g, it, all, l, l', r)
  {
    RuleGenerated(g, it, r);
    hide Generates, CanShift, Next, Items;
    assert forall b :: Generates(g, it, b) ==> (b.rule >= r <==> b.rule >= r + 1);
  }

  lemma AddRuleItems(g: Grammar, it: Item, l: ConfigList, l': ConfigList, r: nat, f: set<nat>, all: bool)
    requires CanShift(g, it) && r < |g.rules| && g.rules[r].lhs == Next(g, it) && l'.fws.Keys == Items(l'.items)
    requires ItemsGrow(g, it, l, l', r + 1)
    ensures ItemsGrow(g, it, l, AddRule(l', it, r, f, all), r)
  {
    RuleGenerated(g, it, r);
    hide Generates, CanShift, Next, Items;
  }

  lemma AddedFws(l: ConfigList, it: Item, r: nat, f: set<nat>, all: bool, b: Item)
    requires l.fws.Keys == Items(l.items)
    ensures var l2 := AddRule(l, it, r, f, all);
      && l.fws.Keys <= l2.fws.Keys == Items(l2.items) && (b in l2.items <==> b == Item(r, 0) || b in l.fws)
      && (b in l2.items <==> b in l2.fws)
      && (b in l2.fws ==> l2.fws[b] == (if b in l.fws then l.fws[b] else {}) + (if b == Item(r, 0) then f else {}))
  {
    assert b in Items(l.items) <==> b in l.items;
    assert Items(AddRule(l, it, r, f, all).items) == Items(l.items) + {Item(r, 0)};
    hide Items;
  }

  lemma AddRuleFws(g: Grammar, it: Item, l: ConfigList, l': ConfigList, r: nat, f: set<nat>, all: bool)
    requires CanShift(g, it) && r < |g.rules| && g.rules[r].lhs == Next(g, it)
    requires FwsGrow(g, it, f, l, l', r + 1) && l'.fws.Keys == Items(l'.items)
    ensures FwsGrow(g, it, f, l, AddRule(l', it, r, f, all), r)
  {
    var l2 := AddRule(l', it, r, f, all);
    RuleGenerated(g, it, r);
    AddedFws(l', it, r, f, all, it);
    hide Generates, CanShift, Next, AddRule;
    forall b | b in l2.items ensures b in l2.fws && l2.fws[b] == (if b in l.fws then l.fws[b] else {}) +
        (if Generates(g, it, b) && b.rule >= r then f else {})
    {
      AddedFws(l', it, r, f, all, b);
      if b in l'.fws { FwsAt(g, it, f, l, l', r + 1, b); }
    }
    hide Items;
  }

  lemma FwsAt(g: Grammar, it: Item, f: set<nat>, l: ConfigList, l': ConfigList, from: nat, b: Item)
    requires FwsGrow(g, it, f, l, l', from) && b in l'.fws
    ensures l'.fws[b] == (if b in l.fws then l.fws[b] else {}) +
      (if Generates(g, it, b) && b.rule >= from then f else {})
  {
    assert b in Items(l'.items);
  }

  lemma AddRuleLinks(g: Grammar, it: Item, l: ConfigList, l': ConfigList, r: nat, f: set<nat>, all: bool)
    requires CanShift(g, it) && r < |g.rules| && g.rules[r].lhs == Next(g, it) && l'.fws.Keys == Items(l'.items)
    requires LinksGrow(g, it, all, l, l', r + 1)
    ensures LinksGrow(g, it, all, l, AddRule(l', it, r, f, all), r)
  {
    RuleGenerated(g, it, r);
    hide Generates, CanShift, Next, Items;
  }

  /** One turn of the outer loop: every rule of the symbol behind the mark, the latest first. */
  method Expand(g: Grammar, lambda: seq<bool>, first: seq<set<nat>>, it: Item, l: ConfigList) returns (l': ConfigList)
    requires WellFormed(g) && |lambda| == |first| == g.nsymbol
    requires forall s :: 0 <= s < g.nterminal ==> !lambda[s]
    requires l.fws.Keys == Items(l.items) && NoDuplicates(l.items)
    ensures ExpandsTo(g, lambda, first, it, l, l', 0)
    ensures NoDuplicates(l'.items)
  {
    hide WellFormed, NoDuplicates, ExpandsTo, AddRule, FirstOf, AllLambda, Items;
    l' := l;
    NoRuleYet(g, lambda, first, it, l);
    if !CanShift(g, it) || Next(g, it) < g.nterminal {
      NoRules(g, lambda, first, it, l);
      return;
    }
    var f, all := WalkTail(g, lambda, first, it);
    var r := |g.rules|;
    while r > 0
      invariant 0 <= r <= |g.rules| && ExpandsTo(g, lambda, first, it, l, l', r)
      invariant NoDuplicates(l'.items) && l'.fws.Keys == Items(l'.items)
    {
      r := r - 1;
      AddRuleNext(g, lambda, first, it, l, l', r);
      if g.rules[r].lhs == Next(g, it) {
        AddRuleOnce(l', it, r, f, all);
        l' := AddRule(l', it, r, f, all);
      }
    }
  }

  lemma NoRuleYet(g: Grammar, lambda: seq<bool>, first: seq<set<nat>>, it: Item, l: ConfigList)
    requires l.fws.Keys == Items(l.items)
    ensures ExpandsTo(g, lambda, first, it, l, l, |g.rules|)
  {
  }

  /** Nothing is generated where no nonterminal follows the mark. */
  lemma NoRules(g: Grammar, lambda: seq<bool>, first: seq<set<nat>>, it: Item, l: ConfigList)
    requires WellFormed(g) && l.fws.Keys == Items(l.items) && (!CanShift(g, it) || Next(g, it) < g.nterminal)
    ensures ExpandsTo(g, lambda, first, it, l, l, 0)
  {
    forall b ensures !Generates(g, it, b) {
      if b.rule < |g.rules| { assert WellFormedRule(g, g.rules[b.rule]); }
    }
  }

  lemma AddRuleOnce(l: ConfigList, it: Item, r: nat, f: set<nat>, all: bool)
    requires l.fws.Keys == Items(l.items) && NoDuplicates(l.items)
    ensures NoDuplicates(AddRule(l, it, r, f, all).items)
    ensures AddRule(l, it, r, f, all).fws.Keys == Items(AddRule(l, it, r, f, all).items)
  {
  }

  lemma ExpandedItems(g: Grammar, basis: seq<Item>, f: set<nat>, l: ConfigList, it: Item, l': ConfigList, p: set<Item>)
    requires ItemsDone(g, basis, l, p) && it in l.items && ItemsGrow(g, it, l, l', 0) && FwsGrow(g, it, f, l, l', 0)
    ensures ItemsDone(g, basis, l', p + {it})
  {
    forall d | Items(basis) <= d && Closed(g, d) ensures Items(l'.items) <= d {
      assert Items(l.items) <= d;
      forall b | b in l'.items ensures b in d { if b !in l.items { assert Generates(g, it, b); } }
    }
  }

  lemma ExpandedFws(g: Grammar, lambda: seq<bool>, first: seq<set<nat>>, basis: seq<Item>, base: set<nat>,
      l: ConfigList, it: Item, l': ConfigList, p: set<Item>, b: Item, t: nat)
    requires Expanded(g, lambda, first, basis, base, l, p) && it in l.items && b in l'.items
    requires ExpandsTo(g, lambda, first, it, l, l', 0)
    ensures b in l'.fws
    ensures t in l'.fws[b] <==> (b in basis && t in base) || Spontaneous(g, lambda, first, p + {it}, b, t)
  {
    assert b in Items(l'.items);
    assert Spontaneous(g, lambda, first, p + {it}, b, t) <==>
      Spontaneous(g, lambda, first, p, b, t) || Spontaneous(g, lambda, first, {it}, b, t);
    if b !in l.items {
      assert !Spontaneous(g, lambda, first, p, b, t) && b !in basis;
    }
  }

  lemma EachHasSet(g: Grammar, lambda: seq<bool>, first: seq<set<nat>>, it: Item, l: ConfigList, l': ConfigList)
    requires ExpandsTo(g, lambda, first, it, l, l', 0)
    ensures forall b :: b in l'.items ==> b in l'.fws
  {
    forall b | b in l'.items ensures b in l'.fws { assert b in Items(l'.items); }
  }

  lemma ExpandedLinks(g: Grammar, lambda: seq<bool>, it: Item, l: ConfigList, l': ConfigList, p: set<Item>)
    requires LinksDone(g, lambda, l, p)
    requires LinksGrow(g, it, CanShift(g, it) && AllLambda(lambda, Tail(g, it)), l, l', 0)
    ensures LinksDone(g, lambda, l', p + {it})
  {
    hide AllLambda, Tail;
  }

  lemma ExpandedMore(g: Grammar, lambda: seq<bool>, first: seq<set<nat>>, basis: seq<Item>, base: set<nat>,
      l: ConfigList, it: Item, l': ConfigList, p: set<Item>)
    requires Expanded(g, lambda, first, basis, base, l, p) && it in l.items
    requires ExpandsTo(g, lambda, first, it, l, l', 0)
    ensures Expanded(g, lambda, first, basis, base, l', p + {it})
  {
    assert FwsDone(g, lambda, first, basis, base, l', p + {it}) by {
      hide Expanded, ExpandsTo, Spontaneous;
      forall b, t | b in l'.items
        ensures b in l'.fws
        ensures t in l'.fws[b] <==> (b in basis && t in base) || Spontaneous(g, lambda, first, p + {it}, b, t)
      {
        ExpandedFws(g, lambda, first, basis, base, l, it, l', p, b, t);
      }
      EachHasSet(g, lambda, first, it, l, l');
    }
    hide FwsDone, FirstOf, AllLambda, Tail, ItemsGrow, FwsGrow, LinksGrow, ItemsDone, LinksDone, CanShift;
    var f := if CanShift(g, it) then FirstOf(g.nterminal, lambda, first, Tail(g, it)) else {};
    ExpandedItems(g, basis, f, l, it, l', p);
    ExpandedLinks(g, lambda, it, l, l', p);
  }

  method Closure(g: Grammar, lambda: seq<bool>, first: seq<set<nat>>, basis: seq<Item>, base: set<nat>)
    returns (l: ConfigList)
    requires WellFormed(g) && |lambda| == |first| == g.nsymbol
    requires forall s :: 0 <= s < g.nterminal ==> !lambda[s]
    requires NoDuplicates(basis) && forall it :: it in basis ==> GoodItem(g, it)
    ensures NoDuplicates(l.items) && Expanded(g, lambda, first, basis, base, l, Items(l.items))
    ensures IsClosure(g, Items(basis), Items(l.items))
  {
    hide *;
    l := ConfigList(basis, map it | it in basis :: base, []);
    var i := 0;
    NothingExpanded(g, lambda, first, basis, base);
    assert Expanded(g, lambda, first, basis, base, l, Items(l.items[..0]));
    while i < |l.items|
      invariant i <= |l.items| && NoDuplicates(l.items)
      invariant Expanded(g, lambda, first, basis, base, l, Items(l.items[..i]))
      decreases AllItems(g) - Items(l.items), |l.items| - i
    {
      ExpandedKeys(g, lambda, first, basis, base, l, Items(l.items[..i]));
      var l' := Expand(g, lambda, first, l.items[i], l);
      ExpandedNext(g, lambda, first, basis, base, l, l', i);
      l := l';
      i := i + 1;
    }
    assert l.items[..i] == l.items;
    AllExpanded(g, lambda, first, basis, base, l);
  }

  lemma ExpandedKeys(g: Grammar, lambda: seq<bool>, first: seq<set<nat>>, basis: seq<Item>, base: set<nat>,
      l: ConfigList, p: set<Item>)
    requires Expanded(g, lambda, first, basis, base, l, p)
    ensures l.fws.Keys == Items(l.items)
  {
  }

  lemma NothingExpanded(g: Grammar, lambda: seq<bool>, first: seq<set<nat>>, basis: seq<Item>, base: set<nat>)
    requires forall it :: it in basis ==> GoodItem(g, it)
    ensures Expanded(g, lambda, first, basis, base, ConfigList(basis, map it | it in basis :: base, []),
        Items(basis[..0]))
  {
    assert Items(basis[..0]) == {};
  }

  lemma OneMoreItem(s: seq<Item>, s': seq<Item>, i: nat)
    requires s <= s' && i < |s|
    ensures Items(s'[..i + 1]) == Items(s[..i]) + {s[i]}
  {
    assert s'[..i + 1] == s[..i] + [s[i]];
  }

  lemma ExpandedNext(g: Grammar, lambda: seq<bool>, first: seq<set<nat>>, basis: seq<Item>, base: set<nat>,
      l: ConfigList, l': ConfigList, i: nat)
    requires i < |l.items| && Expanded(g, lambda, first, basis, base, l, Items(l.items[..i]))
    requires ExpandsTo(g, lambda, first, l.items[i], l, l', 0) && NoDuplicates(l'.items)
    ensures Expanded(g, lambda, first, basis, base, l', Items(l'.items[..i + 1]))
    ensures AllItems(g) - Items(l'.items) <= AllItems(g) - Items(l.items)
    ensures |l.items| <= |l'.items|
    ensures |l'.items| > |l.items| ==> AllItems(g) - Items(l'.items) < AllItems(g) - Items(l.items)
  {
    ExpandedMore(g, lambda, first, basis, base, l, l.items[i], l', Items(l.items[..i]));
    OneMoreItem(l.items, l'.items, i);
    ItemsShrink(g, l.items, l'.items);
  }

  lemma AllExpanded(g: Grammar, lambda: seq<bool>, first: seq<set<nat>>, basis: seq<Item>, base: set<nat>,
      l: ConfigList)
    requires Expanded(g, lambda, first, basis, base, l, Items(l.items))
    ensures IsClosure(g, Items(basis), Items(l.items))
  {
  }

  lemma ItemsShrink(g: Grammar, s: seq<Item>, s': seq<Item>)
    requires s <= s' && NoDuplicates(s') && forall it :: it in s' ==> GoodItem(g, it)
    ensures AllItems(g) - Items(s') <= AllItems(g) - Items(s)
    ensures |s'| > |s| ==> AllItems(g) - Items(s') < AllItems(g) - Items(s)
  {
    if |s'| > |s| {
      var it := s'[|s|];
      assert it in s' && it == Item(it.rule, it.dot);
      assert forall i :: 0 <= i < |s| ==> s'[i] == s[i];
      assert it in AllItems(g) - Items(s) && it !in AllItems(g) - Items(s');
    }
  }

  // ----- states -----

  /** `shifts` are the SHIFT actions: symbol to state number; `fws` the follow set of each item. */
  datatype State = State(kernel: set<Item>, items: seq<Item>, shifts: map<nat, nat>, fws: map<Item, set<nat>>)

  ghost predicate Distinct(states: seq<State>) {
    forall i, j :: 0 <= i < j < |states| ==> states[i].kernel != states[j].kernel
  }

  ghost predicate Reached(g: Grammar, k: set<Item>) {
    exists path :: Leads(g, path, k)
  }

  /** State `i` holds the closure of a kernel that some path leads to, with the initial follow sets. */
  ghost predicate GoodState(g: Grammar, lambda: seq<bool>, first: seq<set<nat>>, st: State, isStart: bool) {
    && (forall it :: it in st.items ==> GoodItem(g, it))
    && NoDuplicates(st.items)
    && IsClosure(g, st.kernel, Items(st.items))
    && Reached(g, st.kernel)
    && st.fws.Keys == Items(st.items)
    && (forall b, t :: b in st.items ==>
          (t in st.fws[b] <==> (isStart && b in st.kernel && t == 0) || Spontaneous(g, lambda, first, Items(st.items),
              b, t)))
  }

  ghost predicate GoodShifts(g: Grammar, states: seq<State>, i: nat)
    requires i < |states|
  {
    forall x :: x in states[i].shifts ==>
      && states[i].shifts[x] < |states|
      && states[states[i].shifts[x]].kernel == Goto(g, Items(states[i].items), x) != {}
  }

  /** Every symbol behind a mark has its shift. */
  ghost predicate Complete(g: Grammar, st: State) {
    forall it :: it in st.items && CanShift(g, it) ==> Next(g, it) in st.shifts
  }

  /** The propagation links there have to be, as far as the shifts are recorded. */
  ghost predicate IsLink(g: Grammar, lambda: seq<bool>, states: seq<State>, a: Config, b: Config) {
    && a.state < |states| && a.item in states[a.state].items
    && (|| (b.state == a.state && PassesOn(g, lambda, a.item, b.item))
        || (CanShift(g, a.item) && Next(g, a.item) in states[a.state].shifts &&
            b == Config(states[a.state].shifts[Next(g, a.item)], Advance(a.item))))
  }

  ghost predicate StatesInv(g: Grammar, lambda: seq<bool>, first: seq<set<nat>>, states: seq<State>) {
    && Distinct(states)
    && (|states| > 0 ==> states[0].kernel == StartKernel(g))
    && (forall i :: 0 <= i < |states| ==> GoodState(g, lambda, first, states[i], i == 0))
    && (forall i :: 0 <= i < |states| ==> GoodShifts(g, states, i))
  }

  ghost predicate LinksInv(g: Grammar, lambda: seq<bool>, states: seq<State>, links: seq<Link>) {
    forall a, b :: (a, b) in links <==> IsLink(g, lambda, states, a, b)
  }

  ghost function AllKernels(g: Grammar): set<set<Item>> {
    set k: set<Item> | k <= AllItems(g)
  }

  /** The kernels that have no state yet. */
  ghost function Unseen(g: Grammar, states: seq<State>): set<set<Item>> {
    AllKernels(g) - set i | 0 <= i < |states| :: states[i].kernel
  }

  lemma UnseenShrinks(g: Grammar, states: seq<State>, st: State)
    requires st.kernel <= AllItems(g)
    requires forall i :: 0 <= i < |states| ==> states[i].kernel != st.kernel
    ensures Unseen(g, states + [st]) < Unseen(g, states)
  {
    var states' := states + [st];
    assert states'[|states|] == st;
    assert forall i :: 0 <= i < |states| ==> states'[i] == states[i];
    assert st.kernel in Unseen(g, states) && st.kernel !in Unseen(g, states');
  }

  lemma UnseenGrows(g: Grammar, states: seq<State>, states': seq<State>)
    requires |states| <= |states'| && forall i :: 0 <= i < |states| ==> states'[i].kernel == states[i].kernel
    ensures Unseen(g, states') <= Unseen(g, states)
  {
    forall k | k in Unseen(g, states') ensures k in Unseen(g, states) {
      forall i | 0 <= i < |states| ensures states[i].kernel != k {
        assert states'[i].kernel in set j | 0 <= j < |states'| :: states'[j].kernel;
      }
    }
  }

  lemma FreshState(g: Grammar, lambda: seq<bool>, first: seq<set<nat>>, basis: seq<Item>, l: ConfigList, isStart: bool)
    requires NoDuplicates(l.items) && IsClosure(g, Items(basis), Items(l.items)) && Reached(g, Items(basis))
    requires Expanded(g, lambda, first, basis, if isStart then {0} else {}, l, Items(l.items))
    ensures GoodState(g, lambda, first, State(Items(basis), l.items, map[], l.fws), isStart)
  {
  }

  /** A freshly closed state joins the table. */
  lemma NewStateKeepsStates(g: Grammar, lambda: seq<bool>, first: seq<set<nat>>, states: seq<State>, st: State)
    requires StatesInv(g, lambda, first, states) && GoodState(g, lambda, first, st, |states| == 0) && st.shifts == map[]
    requires |states| == 0 ==> st.kernel == StartKernel(g)
    requires forall i :: 0 <= i < |states| ==> states[i].kernel != st.kernel
    ensures StatesInv(g, lambda, first, states + [st])
  {
    var states' := states + [st];
    hide GoodState, GoodShifts, StartKernel;
    forall i | 0 <= i < |states'| ensures GoodState(g, lambda, first, states'[i], i == 0) && GoodShifts(g, states', i) {
      if i < |states| { assert states'[i] == states[i] && GoodShifts(g, states, i); }
      NewStateKeepsShifts(g, states, st, i);
    }
  }

  lemma NewStateKeepsShifts(g: Grammar, states: seq<State>, st: State, i: nat)
    requires i <= |states| && (i < |states| ==> GoodShifts(g, states, i)) && st.shifts == map[]
    ensures GoodShifts(g, states + [st], i)
  {
    hide Goto, Items;
    if i < |states| {
      forall x | x in states[i].shifts ensures (states + [st])[states[i].shifts[x]] == states[states[i].shifts[x]] { }
    }
  }

  lemma NewStateKeepsLinks(g: Grammar, lambda: seq<bool>, states: seq<State>, links: seq<Link>, st: State,
      ls: seq<(Item, Item)>)
    requires LinksInv(g, lambda, states, links) && st.shifts == map[]
    requires forall a, b :: (a, b) in ls <==> a in st.items && PassesOn(g, lambda, a, b)
    ensures LinksInv(g, lambda, states + [st], links + Lift(|states|, ls))
  {
    forall a, b ensures (a, b) in links + Lift(|states|, ls) <==> IsLink(g, lambda, states + [st], a, b) {
      LiftedLinks(|states|, ls, a, b);
      assert (a, b) in links <==> IsLink(g, lambda, states, a, b);
      if a.state < |states| { assert (states + [st])[a.state] == states[a.state]; }
    }
  }

  function Lift(s: nat, links: seq<(Item, Item)>): seq<Link> {
    seq(|links|, i requires 0 <= i < |links| => (Config(s, links[i].0), Config(s, links[i].1)))
  }

  lemma LiftedLinks(s: nat, links: seq<(Item, Item)>, a: Config, b: Config)
    ensures (a, b) in Lift(s, links) <==> a.state == s && b.state == s && (a.item, b.item) in links
  {
    if a.state == s && b.state == s && (a.item, b.item) in links {
      var i :| 0 <= i < |links| && links[i] == (a.item, b.item);
      assert Lift(s, links)[i] == (a, b);
    }
  }

  function WithShift(states: seq<State>, s: nat, x: nat, t: nat): seq<State>
    requires s < |states|
  {
    states[s := states[s].(shifts := states[s].shifts[x := t])]
  }

  /** A shift is recorded, with the links from the items that it moves. */
  lemma ShiftKeepsStates(g: Grammar, lambda: seq<bool>, first: seq<set<nat>>, states: seq<State>, s: nat, x: nat,
      t: nat)
    requires StatesInv(g, lambda, first, states) && s < |states| && t < |states|
    requires states[t].kernel == Goto(g, Items(states[s].items), x) != {}
    ensures StatesInv(g, lambda, first, WithShift(states, s, x, t))
  {
    var states' := WithShift(states, s, x, t);
    forall i | 0 <= i < |states'| ensures GoodState(g, lambda, first, states'[i], i == 0) {
      GoodStateIgnoresShifts(g, lambda, first, states[i], states'[i].shifts, i == 0);
    }
    forall i | 0 <= i < |states'| ensures GoodShifts(g, states', i) {
      ShiftKeepsShifts(g, states, s, x, t, i);
    }
  }

  lemma GoodStateIgnoresShifts(g: Grammar, lambda: seq<bool>, first: seq<set<nat>>, st: State, shifts: map<nat, nat>,
      isStart: bool)
    requires GoodState(g, lambda, first, st, isStart)
    ensures GoodState(g, lambda, first, st.(shifts := shifts), isStart)
  {
  }

  lemma ShiftKeepsShifts(g: Grammar, states: seq<State>, s: nat, x: nat, t: nat, i: nat)
    requires s < |states| && t < |states| && i < |states| && GoodShifts(g, states, i)
    requires states[t].kernel == Goto(g, Items(states[s].items), x) != {}
    ensures GoodShifts(g, WithShift(states, s, x, t), i)
  {
  }

  lemma ShiftKeepsLinks(g: Grammar, lambda: seq<bool>, states: seq<State>, links: seq<Link>, s: nat, x: nat, t: nat,
      sources: seq<Item>)
    requires LinksInv(g, lambda, states, links) && s < |states| && x !in states[s].shifts
    requires forall it :: it in sources <==> it in states[s].items && CanShift(g, it) && Next(g, it) == x
    ensures LinksInv(g, lambda, WithShift(states, s, x, t), links + ShiftLinks(s, t, sources))
  {
    forall a, b
      ensures (a, b) in links + ShiftLinks(s, t, sources) <==> IsLink(g, lambda, WithShift(states, s, x, t), a, b)
    {
      ShiftedLinks(s, t, sources, a, b);
      assert (a, b) in links <==> IsLink(g, lambda, states, a, b);
    }
  }

  function ShiftLinks(s: nat, t: nat, sources: seq<Item>): seq<Link> {
    seq(|sources|, i requires 0 <= i < |sources| => (Config(s, sources[i]), Config(t, Advance(sources[i]))))
  }

  lemma ShiftedLinks(s: nat, t: nat, sources: seq<Item>, a: Config, b: Config)
    ensures (a, b) in ShiftLinks(s, t, sources) <==>
      a.state == s && a.item in sources && b == Config(t, Advance(a.item))
  {
    if a.state == s && a.item in sources && b == Config(t, Advance(a.item)) {
      var i :| 0 <= i < |sources| && sources[i] == a.item;
      assert ShiftLinks(s, t, sources)[i] == (a, b);
    }
  }

  lemma LeadsOn(g: Grammar, path: seq<nat>, k: set<Item>, c: set<Item>, x: nat)
    requires Leads(g, path, k) && IsClosure(g, k, c) && Goto(g, c, x) != {}
    ensures Leads(g, path + [x], Goto(g, c, x))
  {
    assert (path + [x])[..|path + [x]| - 1] == path;
  }

  // ----- the order of the states -----

  /** State `k` is shifted to from a state before it. */
  ghost predicate IsFed(states: seq<State>, k: nat) {
    exists j, x :: 0 <= j < k && j < |states| && x in states[j].shifts && states[j].shifts[x] == k
  }

  /** So is every state from `from` on: a state is numbered when the first shift to it is found. */
  ghost predicate Fed(states: seq<State>, from: nat) {
    forall k: nat :: from <= k < |states| ==> IsFed(states, k)
  }

  ghost predicate KeepsShifts(a: State, b: State) {
    forall x :: x in a.shifts ==> x in b.shifts && b.shifts[x] == a.shifts[x]
  }

  /** More states and more shifts feed no state less. */
  lemma FedStays(before: seq<State>, after: seq<State>, from: nat)
    requires Fed(before, from) && |before| <= |after| && Fed(after, |before|)
    requires forall k :: 0 <= k < |before| ==> KeepsShifts(before[k], after[k])
    ensures Fed(after, from)
  {
    forall k: nat | from <= k < |after| ensures IsFed(after, k) {
      if k < |before| {
        assert IsFed(before, k);
        var j, x :| 0 <= j < k && j < |before| && x in before[j].shifts && before[j].shifts[x] == k;
        assert KeepsShifts(before[j], after[j]);
      }
    }
  }

  /** The shift to the first of the new states feeds it. */
  lemma ShiftFeeds(before: seq<State>, states: seq<State>, s: nat, x: nat, t: nat)
    requires s < |before| <= |states| && t < |states| && x !in states[s].shifts && Fed(states, |before| + 1)
    requires t <= |before| && (t < |before| ==> |states| == |before|)
    ensures Fed(WithShift(states, s, x, t), |before|)
  {
    var after := WithShift(states, s, x, t);
    forall k: nat | |before| <= k < |after| ensures IsFed(after, k) {
      if k == |before| {
        assert after[s].shifts[x] == k;
      } else {
        assert IsFed(states, k);
        var j, y :| 0 <= j < k && j < |states| && y in states[j].shifts && states[j].shifts[y] == k;
        assert after[j].shifts[y] == k;
      }
    }
  }

  // ----- getstate, buildshifts, FindStates -----

  /** Items that buildshifts moves over symbol `x`, given which ones earlier symbols have used up. */
  ghost predicate UsedUp(g: Grammar, cfg: seq<Item>, done: seq<bool>, shifts: map<nat, nat>) {
    && |done| == |cfg|
    && forall j :: 0 <= j < |cfg| ==> (done[j] <==> CanShift(g, cfg[j]) && Next(g, cfg[j]) in shifts)
  }

  /** The inner loop of buildshifts, from position `i` on. */
  method TakeShifted(g: Grammar, cfg: seq<Item>, done: seq<bool>, i: nat, x: nat)
    returns (sources: seq<Item>, done': seq<bool>)
    requires NoDuplicates(cfg) && |done| == |cfg| && i <= |cfg|
    requires forall j :: 0 <= j < |cfg| && CanShift(g, cfg[j]) && Next(g, cfg[j]) == x ==> i <= j && !done[j]
    ensures forall it :: it in sources <==> it in cfg && CanShift(g, it) && Next(g, it) == x
    ensures NoDuplicates(sources)
    ensures |done'| == |cfg|
    ensures forall j :: 0 <= j < |cfg| ==> done'[j] == (done[j] || (CanShift(g, cfg[j]) && Next(g, cfg[j]) == x))
  {
    sources, done' := [], done;
    for j := i to |cfg|
      invariant |done'| == |cfg| && NoDuplicates(sources)
      invariant forall it :: it in sources <==> it in cfg[..j] && CanShift(g, it) && Next(g, it) == x
      invariant forall k :: 0 <= k < j ==> done'[k] == (done[k] || (CanShift(g, cfg[k]) && Next(g, cfg[k]) == x))
      invariant forall k :: j <= k < |cfg| ==> done'[k] == done[k]
    {
      if !done'[j] && CanShift(g, cfg[j]) && Next(g, cfg[j]) == x {
        done' := done'[j := true];
        sources := sources + [cfg[j]];
      }
    }
    assert cfg[..|cfg|] == cfg;
  }

  function Advanced(sources: seq<Item>): seq<Item> {
    seq(|sources|, i requires 0 <= i < |sources| => Advance(sources[i]))
  }

  lemma AdvancedIsGoto(g: Grammar, cfg: seq<Item>, x: nat, sources: seq<Item>)
    requires NoDuplicates(sources)
    requires forall it :: it in sources <==> it in cfg && CanShift(g, it) && Next(g, it) == x
    ensures Items(Advanced(sources)) == Goto(g, Items(cfg), x)
    ensures NoDuplicates(Advanced(sources))
    ensures forall it :: it in Advanced(sources) ==> GoodItem(g, it)
  {
    forall it | it in Goto(g, Items(cfg), x) ensures it in Advanced(sources) {
      var src :| src in cfg && CanShift(g, src) && Next(g, src) == x && it == Advance(src);
      var i :| 0 <= i < |sources| && sources[i] == src;
      assert Advanced(sources)[i] == it;
    }
    forall i, j | 0 <= i < j < |sources| ensures Advanced(sources)[i] != Advanced(sources)[j] {
      assert sources[i] != sources[j];
    }
  }

  /** The part of the generator's state that FindStates works on. */
  class Generator {
    const g: Grammar
    const lambda: seq<bool>
    const first: seq<set<nat>>
    var states: seq<State>
    var links: seq<Link>

    ghost predicate Valid()
      reads this
    {
      && WellFormed(g) && |lambda| == |first| == g.nsymbol
      && (forall s :: 0 <= s < g.nterminal ==> !lambda[s])
      && StatesInv(g, lambda, first, states) && LinksInv(g, lambda, states, links)
    }

    constructor (g: Grammar, lambda: seq<bool>, first: seq<set<nat>>)
      requires WellFormed(g) && Exact(g, lambda, first)
      ensures Valid() && states == [] && links == []
      ensures this.g == g && this.lambda == lambda && this.first == first
    {
      this.g, this.lambda, this.first := g, lambda, first;
      states, links := [], [];
      ExactIsFixpoint(g, lambda, first);
    }

    /** State_find: the state with this kernel. */
    method StateFind(k: set<Item>) returns (found: bool, s: nat)
      ensures found ==> s < |states| && states[s].kernel == k
      ensures !found ==> forall i :: 0 <= i < |states| ==> states[i].kernel != k
    {
      found, s := false, 0;
      while s < |states|
        invariant s <= |states| && forall i :: 0 <= i < s ==> states[i].kernel != k
      {
        if states[s].kernel == k { return true, s; }
        s := s + 1;
      }
    }

    /** State_new and State_insert: a closed kernel becomes the next state. */
    method AddState(basis: seq<Item>, l: ConfigList, ghost path: seq<nat>)
      requires Valid() && Leads(g, path, Items(basis))
      requires NoDuplicates(l.items) && IsClosure(g, Items(basis), Items(l.items))
      requires Expanded(g, lambda, first, basis, if states == [] then {0} else {}, l, Items(l.items))
      requires |states| == 0 ==> Items(basis) == StartKernel(g)
      requires forall i :: 0 <= i < |states| ==> states[i].kernel != Items(basis)
      modifies this`states, this`links
      ensures Valid() && states == old(states) + [State(Items(basis), l.items, map[], l.fws)]
      ensures Unseen(g, states) < Unseen(g, old(states))
    {
      hide StatesInv, LinksInv, Leads, IsClosure, Unseen, StartKernel, WellFormed, GoodState, Spontaneous, PassesOn;
      ghost var st := State(Items(basis), l.items, map[], l.fws);
      FreshState(g, lambda, first, basis, l, |states| == 0);
      NewStateKeepsStates(g, lambda, first, states, st);
      NewStateKeepsLinks(g, lambda, states, links, st, l.links);
      KernelInRange(g, basis, l);
      UnseenShrinks(g, states, st);
      links := links + Lift(|states|, l.links);
      states := states + [State(Items(basis), l.items, map[], l.fws)];
    }

    /** Action_add for a shift, and the back links of the items it moves. */
    method AddShift(s: nat, x: nat, t: nat, sources: seq<Item>)
      requires Valid() && s < |states| && t < |states| && x !in states[s].shifts
      requires states[t].kernel == Goto(g, Items(states[s].items), x) != {}
      requires forall it :: it in sources <==> it in states[s].items && CanShift(g, it) && Next(g, it) == x
      modifies this`states, this`links
      ensures Valid() && states == WithShift(old(states), s, x, t)
    {
      ShiftKeepsStates(g, lambda, first, states, s, x, t);
      ShiftKeepsLinks(g, lambda, states, links, s, x, t, sources);
      links := links + ShiftLinks(s, t, sources);
      states := WithShift(states, s, x, t);
    }

    /** getstate: the state of a kernel, built with everything behind it if it is new.
        Nothing is changed in the states there were. */
    method GetState(basis: seq<Item>, ghost path: seq<nat>) returns (s: nat)
      requires Valid() && Leads(g, path, Items(basis)) && NoDuplicates(basis)
      requires forall it :: it in basis ==> GoodItem(g, it)
      requires |states| == 0 ==> Items(basis) == StartKernel(g)
      modifies this`states, this`links
      ensures Valid() && s < |states| && states[s].kernel == Items(basis)
      ensures Finished(g, old(states), states, |old(states)|)
      ensures s <= |old(states)| && Fed(states, |old(states)| + 1)
      ensures s < |old(states)| ==> states == old(states)
      decreases Unseen(g, states), 0
    {
      hide StatesInv, LinksInv, Expanded, IsClosure, Leads, IsFed;
      var found, at := StateFind(Items(basis));
      if found { return at; }
      var l := Closure(g, lambda, first, basis, if states == [] then {0} else {});
      s := |states|;
      AddState(basis, l, path);
      BuildShifts(s, path);
    }

    /** buildshifts: the successors of the newest state. */
    method BuildShifts(s: nat, ghost path: seq<nat>)
      requires Valid() && s + 1 == |states| && states[s].shifts == map[] && Leads(g, path, states[s].kernel)
      modifies this`states, this`links
      ensures Valid() && s < |states| && states[s].kernel == old(states[s].kernel)
      ensures Finished(g, old(states), states, s) && Fed(states, s + 1)
      decreases Unseen(g, states), 2
    {
      hide StatesInv, LinksInv, Expanded, IsClosure, Leads, IsFed;
      var cfg := states[s].items;
      var done := seq(|cfg|, _ => false);
      var i := 0;
      while i < |cfg|
        invariant Valid() && i <= |cfg| && s < |states|
        invariant SameConfigs(states[s], old(states)[s])
        invariant forall k :: 0 <= k < s ==> states[k] == old(states)[k]
        invariant forall k :: s < k < |states| ==> Complete(g, states[k])
        invariant Fed(states, s + 1)
        invariant UsedUp(g, cfg, done, states[s].shifts)
        invariant forall j :: 0 <= j < i && CanShift(g, cfg[j]) ==> done[j]
      {
        if !done[i] && CanShift(g, cfg[i]) {
          UnseenGrows(g, old(states), states);
          ghost var before := states;
          done := ShiftOver(s, path, done, i);
          FedStays(before, states, s + 1);
        }
        i := i + 1;
      }
    }

    /** FindStates: from the rules of the start symbol, everything. */
    method FindStates()
      requires Valid() && states == []
      modifies this`states, this`links
      ensures Valid() && IsAutomaton(g, lambda, first, states, links) && Canonical(g, states) && Fed(states, 1)
    {
      var basis := StartBasis(g);
      var s := GetState(basis, []);
      AutomatonIsCanonical(g, lambda, first, states, links);
    }

    /** One turn of buildshifts: all items with the symbol that follows the mark of item `i`. */
    method ShiftOver(s: nat, ghost path: seq<nat>, done: seq<bool>, i: nat) returns (done': seq<bool>)
      requires Valid() && s < |states| && Leads(g, path, states[s].kernel)
      requires UsedUp(g, states[s].items, done, states[s].shifts) && i < |done| && !done[i]
      requires CanShift(g, states[s].items[i])
      requires forall j :: 0 <= j < i && CanShift(g, states[s].items[j]) ==> done[j]
      modifies this`states, this`links
      ensures Valid() && s < |states| && SameConfigs(states[s], old(states)[s])
      ensures |old(states)| <= |states| && forall k :: 0 <= k < |old(states)| && k != s ==> states[k] == old(states)[k]
      ensures forall k :: |old(states)| <= k < |states| ==> Complete(g, states[k])
      ensures KeepsShifts(old(states)[s], states[s]) && Fed(states, |old(states)|)
      ensures UsedUp(g, states[s].items, done', states[s].shifts) && done'[i]
      ensures forall j :: 0 <= j < |done| && done[j] ==> done'[j]
      decreases Unseen(g, states), 1
    {
      hide StatesInv, LinksInv, IsClosure, Leads, IsFed, Fed;
      ghost var before := states;
      StateParts(g, lambda, first, states, s);
      var cfg := states[s].items;
      var x := Next(g, cfg[i]);
      var sources;
      sources, done' := TakeShifted(g, cfg, done, i, x);
      AdvancedIsGoto(g, cfg, x, sources);
      assert Advance(cfg[i]) in Goto(g, Items(cfg), x);
      LeadsOn(g, path, states[s].kernel, Items(cfg), x);
      var t := GetState(Advanced(sources), path + [x]);
      ShiftFeeds(before, states, s, x, t);
      AddShift(s, x, t, sources);
    }
  }

  lemma StateParts(g: Grammar, lambda: seq<bool>, first: seq<set<nat>>, states: seq<State>, s: nat)
    requires StatesInv(g, lambda, first, states) && s < |states|
    ensures NoDuplicates(states[s].items) && IsClosure(g, states[s].kernel, Items(states[s].items))
  {
    assert GoodState(g, lambda, first, states[s], s == 0);
  }

  method StartBasis(g: Grammar) returns (basis: seq<Item>)
    ensures NoDuplicates(basis) && Items(basis) == StartKernel(g)
    ensures forall it :: it in basis ==> GoodItem(g, it)
  {
    basis := [];
    var r := |g.rules|;
    while r > 0
      invariant 0 <= r <= |g.rules| && NoDuplicates(basis)
      invariant forall it :: it in basis <==> it.dot == 0 && r <= it.rule < |g.rules| && g.rules[it.rule].lhs == g.start
    {
      r := r - 1;
      if g.rules[r].lhs == g.start { basis := basis + [Item(r, 0)]; }
    }
  }

  // ----- the result is the canonical collection -----

  /** What FindStates leaves behind. */
  ghost predicate IsAutomaton(g: Grammar, lambda: seq<bool>, first: seq<set<nat>>, states: seq<State>,
      links: seq<Link>) {
    && |states| > 0
    && StatesInv(g, lambda, first, states) && LinksInv(g, lambda, states, links)
    && forall i :: 0 <= i < |states| ==> Complete(g, states[i])
  }

  lemma ClosureUnique(g: Grammar, k: set<Item>, c: set<Item>, c': set<Item>)
    requires IsClosure(g, k, c) && IsClosure(g, k, c')
    ensures c == c'
  {
  }

  /** The kernels are exactly those that paths lead to, each once, and state 0 is never shifted to. */
  ghost predicate Canonical(g: Grammar, states: seq<State>) {
    && Distinct(states)
    && (forall i :: 0 <= i < |states| ==>
        Reached(g, states[i].kernel) && IsClosure(g, states[i].kernel, Items(states[i].items)))
    && (forall k :: Reached(g, k) ==> exists i :: 0 <= i < |states| && states[i].kernel == k)
    && (forall i, x :: 0 <= i < |states| && x in states[i].shifts ==> 0 < states[i].shifts[x] < |states|)
    && (forall i, x :: 0 <= i < |states| ==>
          if Goto(g, Items(states[i].items), x) == {} then x !in states[i].shifts
          else x in states[i].shifts && 0 <= states[i].shifts[x] < |states|
               && states[states[i].shifts[x]].kernel == Goto(g, Items(states[i].items), x))
  }

  lemma {:induction false} PathHasState(g: Grammar, lambda: seq<bool>, first: seq<set<nat>>, states: seq<State>,
      links: seq<Link>, path: seq<nat>, k: set<Item>) returns (i: nat)
    requires IsAutomaton(g, lambda, first, states, links) && Leads(g, path, k)
    ensures i < |states| && states[i].kernel == k
  {
    if path == [] { return 0; }
    var (front, x) := (path[..|path| - 1], path[|path| - 1]);
    var k0, c :| Leads(g, front, k0) && IsClosure(g, k0, c) && k == Goto(g, c, x) && k != {};
    var j := PathHasState(g, lambda, first, states, links, front, k0);
    StateParts(g, lambda, first, states, j);
    ClosureUnique(g, k0, c, Items(states[j].items));
    ShiftIsGoto(g, lambda, first, states, links, j, x);
    i := states[j].shifts[x];
  }

  lemma ShiftIsGoto(g: Grammar, lambda: seq<bool>, first: seq<set<nat>>, states: seq<State>, links: seq<Link>, i: nat,
      x: nat)
    requires IsAutomaton(g, lambda, first, states, links) && i < |states|
    ensures x in states[i].shifts <==> Goto(g, Items(states[i].items), x) != {}
    ensures x in states[i].shifts ==>
      && 0 < states[i].shifts[x] < |states|
      && states[states[i].shifts[x]].kernel == Goto(g, Items(states[i].items), x)
  {
    hide IsClosure, GoodState, LinksInv;
    assert GoodShifts(g, states, i) && Complete(g, states[i]);
    if next :| next in Goto(g, Items(states[i].items), x) {
      var it :| it in states[i].items && CanShift(g, it) && Next(g, it) == x && Advance(it) == next;
      assert states[i].shifts[x] != 0 by {
        assert next !in StartKernel(g);
      }
    }
  }

  lemma AutomatonIsCanonical(g: Grammar, lambda: seq<bool>, first: seq<set<nat>>, states: seq<State>, links: seq<Link>)
    requires IsAutomaton(g, lambda, first, states, links)
    ensures Canonical(g, states)
  {
    hide IsClosure, Leads, LinksInv, Complete;
    forall i | 0 <= i < |states|
      ensures Reached(g, states[i].kernel) && IsClosure(g, states[i].kernel, Items(states[i].items))
    {
      assert GoodState(g, lambda, first, states[i], i == 0);
    }
    forall k | Reached(g, k) ensures exists i :: 0 <= i < |states| && states[i].kernel == k {
      var path :| Leads(g, path, k);
      var i := PathHasState(g, lambda, first, states, links, path, k);
    }
    forall i, x | 0 <= i < |states| ensures
      if Goto(g, Items(states[i].items), x) == {} then x !in states[i].shifts
      else x in states[i].shifts && 0 < states[i].shifts[x] < |states|
           && states[states[i].shifts[x]].kernel == Goto(g, Items(states[i].items), x)
    {
      ShiftIsGoto(g, lambda, first, states, links, i, x);
    }
  }

  ghost predicate SameConfigs(a: State, b: State) {
    a.kernel == b.kernel && a.items == b.items && a.fws == b.fws
  }

  /** The states below `from` are as they were, and those from there on have all their shifts. */
  ghost predicate Finished(g: Grammar, before: seq<State>, after: seq<State>, from: nat) {
    && |before| <= |after|
    && (forall i :: 0 <= i < from && i < |before| ==> after[i] == before[i])
    && (forall i :: from <= i < |after| ==> Complete(g, after[i]))
  }

  lemma KernelInRange(g: Grammar, basis: seq<Item>, l: ConfigList)
    requires Items(basis) <= Items(l.items) && forall it :: it in l.items ==> GoodItem(g, it)
    ensures Items(basis) <= AllItems(g)
  {
    forall it | it in Items(basis) ensures it in AllItems(g) {
      assert it in l.items && it == Item(it.rule, it.dot);
    }
  }
}
