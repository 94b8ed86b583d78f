/** Which terminals can come next behind a viable prefix, read off the items: what a reduce needs, and what it keeps. */
module LemonViable {
  import opened LemonGrammar
  import opened LemonAutomaton
  import opened LemonLookaheads
  import opened LemonCanonicalLr1

  function Rest(g: Grammar, it: Item): seq<nat>
    requires GoodItem(g, it)
  {
    g.rules[it.rule].rhs[it.dot..]
  }

  ghost predicate HasLr1(g: Grammar, path: seq<nat>, it: Item, t: nat) {
    exists n: nat :: Lr1(g, path, it, t, n)
  }

  /** After `path` terminal `t` can come next because of item `it`: it begins what stands behind the mark, or that can
      vanish and `t` is an LR(1) lookahead of the item. */
  ghost predicate Ahead(g: Grammar, path: seq<nat>, it: Item, t: nat) {
    && GoodItem(g, it) && ItemAfter(g, path, it) && t < g.nterminal
    && (Begins(g, Rest(g, it), t) || (Nullable(g, Rest(g, it)) && HasLr1(g, path, it, t)))
  }

  ghost predicate MayCome(g: Grammar, path: seq<nat>, t: nat) {
    exists it :: Ahead(g, path, it, t)
  }

  // ----- items and what generates them -----

  lemma KernelIsGood(g: Grammar, path: seq<nat>, k: set<Item>)
    requires Leads(g, path, k)
    ensures forall it :: it in k ==> GoodItem(g, it) && (path != [] ==> it.dot > 0)
  {
    if path != [] { var k0, c := LastStep(g, path, k); }
  }

  /** The closure adds only items with their mark in front. */
  lemma ClosureAdds(g: Grammar, k: set<Item>, c: set<Item>)
    requires IsClosure(g, k, c) && forall it :: it in k ==> GoodItem(g, it)
    ensures forall it :: it in c ==> GoodItem(g, it) && (it in k || it.dot == 0)
  {
    var d := set it | it in c && GoodItem(g, it) && (it in k || it.dot == 0);
    assert k <= d && Closed(g, d);
  }

  lemma ItemIsGood(g: Grammar, path: seq<nat>, it: Item)
    requires ItemAfter(g, path, it)
    ensures GoodItem(g, it)
  {
    hide Leads, IsClosure, GoodItem;
    var k, c :| Leads(g, path, k) && IsClosure(g, k, c) && it in c;
    KernelIsGood(g, path, k);
    ClosureAdds(g, k, c);
  }

  /** What stands behind the mark of a generating item becomes the generated rule and its tail. */
  lemma GeneratedRest(g: Grammar, a: Item, b: Item)
    requires Generates(g, a, b)
    ensures GoodItem(g, a) && GoodItem(g, b)
    ensures Rest(g, a) == [Next(g, a)] + Tail(g, a)
    ensures Derives(g, [Next(g, a)], Rest(g, b)) && Derives(g, Rest(g, a), Rest(g, b) + Tail(g, a))
  {
    RuleStep(g, b.rule, [], []);
    assert [] + [Next(g, a)] + [] == [Next(g, a)] && [] + Rest(g, b) + [] == Rest(g, b);
    DerivesRefl(g, Rest(g, b));
    DerivesStep(g, [Next(g, a)], Rest(g, b), Rest(g, b));
    DerivesRefl(g, Tail(g, a));
    DerivesConcat(g, [Next(g, a)], Rest(g, b), Tail(g, a), Tail(g, a));
  }

  lemma BeginsBefore(g: Grammar, u: seq<nat>, v: seq<nat>, s: seq<nat>, t: nat)
    requires Derives(g, u, v + s) && Begins(g, v, t)
    ensures Begins(g, u, t)
  {
    var rest :| Derives(g, v, [t] + rest);
    DerivesRefl(g, s);
    DerivesConcat(g, v, [t] + rest, s, s);
    DerivesTrans(g, u, v + s, [t] + rest + s);
    assert [t] + rest + s == [t] + (rest + s);
  }

  lemma BeginsBehind(g: Grammar, u: seq<nat>, v: seq<nat>, s: seq<nat>, t: nat)
    requires Derives(g, u, v + s) && Nullable(g, v) && Begins(g, s, t)
    ensures Begins(g, u, t)
  {
    var rest :| Derives(g, s, [t] + rest);
    DerivesConcat(g, v, [], s, [t] + rest);
    assert [] + ([t] + rest) == [t] + rest;
    DerivesTrans(g, u, v + s, [t] + rest);
  }

  lemma NullableBoth(g: Grammar, u: seq<nat>, v: seq<nat>, s: seq<nat>)
    requires Derives(g, u, v + s) && Nullable(g, v) && Nullable(g, s)
    ensures Nullable(g, u)
  {
    DerivesConcat(g, v, [], s, []);
    var none: seq<nat> := [];
    assert none + none == none;
    DerivesTrans(g, u, v + s, []);
  }

  // ----- what may come next shows in the kernel -----

  ghost predicate KernelBegins(g: Grammar, k: set<Item>, t: nat) {
    exists a :: a in k && GoodItem(g, a) && Begins(g, Rest(g, a), t)
  }

  lemma BeginsInKernel(g: Grammar, k: set<Item>, c: set<Item>, b: Item, t: nat)
    requires IsClosure(g, k, c) && b in c && GoodItem(g, b) && Begins(g, Rest(g, b), t)
    ensures KernelBegins(g, k, t)
  {
    hide Begins, Rest, GoodItem;
    var d := set it | it in c && (GoodItem(g, it) && Begins(g, Rest(g, it), t) ==> KernelBegins(g, k, t));
    forall a, n | a in d && Generates(g, a, n) ensures n in d {
      GeneratedRest(g, a, n);
      if Begins(g, Rest(g, n), t) { BeginsBefore(g, Rest(g, a), Rest(g, n), Tail(g, a), t); }
    }
    assert k <= d && Closed(g, d);
  }

  lemma AfterIsInClosure(g: Grammar, path: seq<nat>, k: set<Item>, c: set<Item>, it: Item)
    requires Leads(g, path, k) && IsClosure(g, k, c)
    ensures ItemAfter(g, path, it) <==> it in c
  {
    hide Leads, IsClosure;
    if ItemAfter(g, path, it) {
      var k', c' :| Leads(g, path, k') && IsClosure(g, k', c') && it in c';
      LeadsUnique(g, path, k, k');
      ClosureUnique(g, k, c, c');
    }
  }

  lemma BeginningKernelItem(g: Grammar, path: seq<nat>, k: set<Item>, c: set<Item>, b: Item, t: nat) returns (a: Item)
    requires Leads(g, path, k) && IsClosure(g, k, c) && b in c && t < g.nterminal
    requires GoodItem(g, b) && Begins(g, Rest(g, b), t)
    ensures a in k && Ahead(g, path, a, t)
  {
    hide Leads, Begins, Rest, GoodItem;
    BeginsInKernel(g, k, c, b, t);
    a :| a in k && GoodItem(g, a) && Begins(g, Rest(g, a), t);
    AfterIsInClosure(g, path, k, c, a);
  }

  /** A lookahead of a closure item that can vanish may come next because of a kernel item. */
  lemma {:induction false} LookaheadInKernel(g: Grammar, path: seq<nat>, k: set<Item>, c: set<Item>, b: Item, t: nat,
      n: nat) returns (a: Item)
    requires path != [] && Leads(g, path, k) && IsClosure(g, k, c) && b in c && t < g.nterminal
    requires GoodItem(g, b) && Nullable(g, Rest(g, b)) && Lr1(g, path, b, t, n)
    ensures a in k && Ahead(g, path, a, t)
    decreases n
  {
    hide Leads, IsClosure, ItemAfter, Begins, Nullable, Rest, GoodItem;
    AfterIsInClosure(g, path, k, c, b);
    if b in k {
      a := b;
    } else {
      KernelIsGood(g, path, k);
      ClosureAdds(g, k, c);
      if a1 :| ItemAfter(g, path, a1) && Generates(g, a1, b) && Begins(g, Tail(g, a1), t) {
        AfterIsInClosure(g, path, k, c, a1);
        GeneratedRest(g, a1, b);
        BeginsBehind(g, Rest(g, a1), Rest(g, b), Tail(g, a1), t);
        a := BeginningKernelItem(g, path, k, c, a1, t);
      } else {
        var a1 :| ItemAfter(g, path, a1) && Generates(g, a1, b) && Nullable(g, Tail(g, a1))
          && Lr1(g, path, a1, t, n - 1);
        AfterIsInClosure(g, path, k, c, a1);
        GeneratedRest(g, a1, b);
        NullableBoth(g, Rest(g, a1), Rest(g, b), Tail(g, a1));
        a := LookaheadInKernel(g, path, k, c, a1, t, n - 1);
      }
    }
  }

  lemma KernelAhead(g: Grammar, path: seq<nat>, k: set<Item>, c: set<Item>, t: nat) returns (a: Item)
    requires path != [] && Leads(g, path, k) && IsClosure(g, k, c) && MayCome(g, path, t)
    ensures a in k && Ahead(g, path, a, t)
  {
    hide Leads, IsClosure, ItemAfter, Begins, Nullable, Rest, Lr1;
    var b :| Ahead(g, path, b, t);
    AfterIsInClosure(g, path, k, c, b);
    if Begins(g, Rest(g, b), t) {
      a := BeginningKernelItem(g, path, k, c, b, t);
    } else {
      var n: nat :| Lr1(g, path, b, t, n);
      a := LookaheadInKernel(g, path, k, c, b, t, n);
    }
  }

  // ----- a reduce and what may come after it -----

  /** The item before the last symbol of the path. */
  lemma CameFrom(g: Grammar, path: seq<nat>, it: Item)
    requires ItemAfter(g, path, it) && it.dot > 0
    ensures path != [] && var (front, a) := (path[..|path| - 1], Item(it.rule, it.dot - 1));
      ItemAfter(g, front, a) && CanShift(g, a) && Next(g, a) == path[|path| - 1]
  {
    var k, c :| Leads(g, path, k) && IsClosure(g, k, c) && it in c;
    KernelIsGood(g, path, k);
    ClosureAdds(g, k, c);
    hide IsClosure;
    if path != [] {
      var k0, c0 := LastStep(g, path, k);
      hide Leads;
      var a :| a in c0 && CanShift(g, a) && Next(g, a) == path[|path| - 1] && it == Advance(a);
      assert a == Item(it.rule, it.dot - 1);
    }
  }

  /** What may come after a symbol is a lookahead of the rules of the symbol where it begins. */
  lemma LookaheadWhereItBegan(g: Grammar, front: seq<nat>, x: nat, it: Item, t: nat, r: nat)
    requires Ahead(g, front + [x], it, t) && it.dot > 0 && r < |g.rules| && g.rules[r].lhs == x
    ensures HasLr1(g, front, Item(r, 0), t)
  {
    hide ItemAfter, Begins, Nullable, StartKernel;
    var (path, a) := (front + [x], Item(it.rule, it.dot - 1));
    CameFrom(g, path, it);
    assert path[..|path| - 1] == front;
    assert Generates(g, a, Item(r, 0)) && Tail(g, a) == Rest(g, it);
    if Begins(g, Rest(g, it), t) {
      assert Lr1(g, front, Item(r, 0), t, 0);
    } else {
      var n: nat :| Lr1(g, path, it, t, n);
      assert Lr1(g, front, a, t, n - 1);
      assert Lr1(g, front, Item(r, 0), t, n);
    }
  }

  /** A lookahead stays while the mark moves through the rule. */
  lemma {:induction false} AlongRule(g: Grammar, front: seq<nat>, r: nat, d: nat, t: nat, n: nat)
    requires r < |g.rules| && d <= |g.rules[r].rhs|
    requires ItemAfter(g, front + g.rules[r].rhs[..d], Item(r, d)) && Lr1(g, front, Item(r, 0), t, n)
    ensures Lr1(g, front + g.rules[r].rhs[..d], Item(r, d), t, n + d)
    decreases d
  {
    hide ItemAfter, Begins, Nullable, StartKernel;
    var path := front + g.rules[r].rhs[..d];
    if d == 0 {
      assert path == front;
    } else {
      CameFrom(g, path, Item(r, d));
      assert path[..|path| - 1] == front + g.rules[r].rhs[..d - 1];
      AlongRule(g, front, r, d - 1, t, n);
    }
  }

  /** Whatever may come after a rule has been reduced is a lookahead of the complete rule, and may come before the
      reduce too. */
  lemma ReducePullsBack(g: Grammar, front: seq<nat>, r: nat, t: nat)
    requires r < |g.rules| && ItemAfter(g, front + g.rules[r].rhs, Item(r, |g.rules[r].rhs|))
    requires MayCome(g, front + [g.rules[r].lhs], t)
    ensures HasLr1(g, front + g.rules[r].rhs, Item(r, |g.rules[r].rhs|), t)
    ensures MayCome(g, front + g.rules[r].rhs, t) && t < g.nterminal
  {
    hide Leads, IsClosure, Begins, Nullable, Lr1;
    var (rhs, x) := (g.rules[r].rhs, g.rules[r].lhs);
    var it0 :| Ahead(g, front + [x], it0, t);
    var k, c :| Leads(g, front + [x], k) && IsClosure(g, k, c) && it0 in c;
    var it := KernelAhead(g, front + [x], k, c, t);
    KernelIsGood(g, front + [x], k);
    hide ItemAfter, Ahead;
    LookaheadWhereItBegan(g, front, x, it, t, r);
    var n: nat :| Lr1(g, front, Item(r, 0), t, n);
    assert rhs[..|rhs|] == rhs;
    AlongRule(g, front, r, |rhs|, t, n);
    CompleteAhead(g, front + rhs, r, t, n + |rhs|);
    assert t < g.nterminal by { AheadIsTerminal(g, front + [x], it0, t); }
  }

  lemma AheadIsTerminal(g: Grammar, path: seq<nat>, it: Item, t: nat)
    requires Ahead(g, path, it, t)
    ensures t < g.nterminal
  {
  }

  lemma CompleteAhead(g: Grammar, path: seq<nat>, r: nat, t: nat, n: nat)
    requires r < |g.rules| && ItemAfter(g, path, Item(r, |g.rules[r].rhs|)) && t < g.nterminal
    requires Lr1(g, path, Item(r, |g.rules[r].rhs|), t, n)
    ensures Ahead(g, path, Item(r, |g.rules[r].rhs|), t) && HasLr1(g, path, Item(r, |g.rules[r].rhs|), t)
  {
    hide ItemAfter, Lr1;
    assert Rest(g, Item(r, |g.rules[r].rhs|)) == [];
    DerivesRefl(g, []);
  }

  // ----- what may come continues a sentence -----

  ghost predicate Symbolic(g: Grammar, u: seq<nat>) {
    forall k :: 0 <= k < |u| ==> 1 <= u[k] < g.nsymbol
  }

  lemma {:induction false} StaysSymbolic(g: Grammar, u: seq<nat>, v: seq<nat>, n: nat)
    requires WellFormed(g) && Symbolic(g, u) && DerivesIn(g, u, v, n)
    ensures Symbolic(g, v)
    decreases n
  {
    if n > 0 {
      var w :| Step(g, u, w) && DerivesIn(g, w, v, n - 1);
      var i: nat, r: nat :| StepAt(g, u, i, r, w);
      assert WellFormedRule(g, g.rules[r]);
      StaysSymbolic(g, w, v, n - 1);
    }
  }

  lemma DerivedSymbolic(g: Grammar, u: seq<nat>, v: seq<nat>)
    requires WellFormed(g) && Symbolic(g, u) && Derives(g, u, v)
    ensures Symbolic(g, v)
  {
    var n: nat :| DerivesIn(g, u, v, n);
    StaysSymbolic(g, u, v, n);
  }

  /** What is left of a sentential form when terminal `t` comes next in it, or nothing for the end marker. */
  ghost predicate Opens(t: nat, end: seq<nat>) {
    if t == 0 then end == [] else end != [] && end[0] == t
  }

  /** With the rest of an item there comes a lookahead of its own. */
  lemma FirstOpens(g: Grammar, u: seq<nat>, v: nat, t: nat, end: seq<nat>) returns (end': seq<nat>)
    requires WellFormed(g) && Symbolic(g, u) && FirstBefore(g, u, v, t) && Opens(v, end)
    ensures Opens(t, end') && Derives(g, u + end, end')
  {
    DerivesRefl(g, end);
    if Begins(g, u, t) {
      var rest :| Derives(g, u, [t] + rest);
      DerivedSymbolic(g, u, [t] + rest);
      assert ([t] + rest)[0] == t;
      DerivesConcat(g, u, [t] + rest, end, end);
      end' := [t] + rest + end;
    } else {
      DerivesConcat(g, u, [], end, end);
      assert [] + end == end;
      end' := end;
    }
  }

  lemma DerivesBehind(g: Grammar, s: seq<nat>, p: seq<nat>, u: seq<nat>, v: seq<nat>)
    requires Derives(g, s, p + u) && Derives(g, u, v)
    ensures Derives(g, s, p + v)
  {
    DerivesRefl(g, p);
    DerivesConcat(g, p, p, u, v);
    DerivesTrans(g, s, p + u, p + v);
  }

  lemma TailSymbolic(g: Grammar, a: Item)
    requires WellFormed(g) && CanShift(g, a)
    ensures Symbolic(g, Tail(g, a))
  {
    assert WellFormedRule(g, g.rules[a.rule]);
  }

  /** A canonical LR(1) item is part of a sentential form: the path, the rest of the item, and the lookahead. */
  lemma {:induction false} Sentential(g: Grammar, path: seq<nat>, it: Item, t: nat, n: nat) returns (end: seq<nat>)
    requires WellFormed(g) && Canonical1(g, path, it, t, n)
    ensures GoodItem(g, it) && Opens(t, end) && Derives(g, [g.start], path + (Rest(g, it) + end))
    decreases n
  {
    hide WellFormed, ItemAfter, FirstBefore, Derives, Opens;
    if path == [] && it in StartKernel(g) && t == 0 {
      end := [];
      StartSentential(g, it);
      assert Opens(0, []) by { OpensNothing(); }
      assert path + (Rest(g, it) + end) == Rest(g, it);
    } else if a, v: nat :| n > 0 && ItemAfter(g, path, a) && Generates(g, a, it) && FirstBefore(g, Tail(g, a), v, t)
                           && Canonical1(g, path, a, v, n - 1) {
      var end0 := Sentential(g, path, a, v, n - 1);
      GeneratedRest(g, a, it);
      TailSymbolic(g, a);
      end := FirstOpens(g, Tail(g, a), v, t, end0);
      DerivesRefl(g, end0);
      DerivesConcat(g, Rest(g, a), Rest(g, it) + Tail(g, a), end0, end0);
      DerivesBehind(g, [g.start], path, Rest(g, a) + end0, Rest(g, it) + Tail(g, a) + end0);
      assert path + (Rest(g, it) + Tail(g, a) + end0) == (path + Rest(g, it)) + (Tail(g, a) + end0);
      DerivesBehind(g, [g.start], path + Rest(g, it), Tail(g, a) + end0, end);
      assert path + Rest(g, it) + end == path + (Rest(g, it) + end);
    } else {
      var (front, a) := (path[..|path| - 1], Item(it.rule, it.dot - 1));
      end := Sentential(g, front, a, t, n - 1);
      assert front + (Rest(g, a) + end) == path + (Rest(g, it) + end);
    }
  }

  lemma OpensNothing()
    ensures Opens(0, [])
  {
  }

  lemma StartSentential(g: Grammar, it: Item)
    requires it in StartKernel(g)
    ensures GoodItem(g, it) && Derives(g, [g.start], Rest(g, it))
  {
    RuleStep(g, it.rule, [], []);
    assert [] + [g.start] + [] == [g.start] && [] + Rest(g, it) + [] == Rest(g, it);
    DerivesRefl(g, Rest(g, it));
    DerivesStep(g, [g.start], Rest(g, it), Rest(g, it));
  }

  lemma {:induction false} CanonicalIsTerminal(g: Grammar, path: seq<nat>, it: Item, t: nat, n: nat)
    requires WellFormed(g) && Canonical1(g, path, it, t, n)
    ensures t < g.nterminal
    decreases n
  {
    hide ItemAfter, Begins, Nullable, StartKernel;
    if a, v: nat :| n > 0 && ItemAfter(g, path, a) && Generates(g, a, it) && FirstBefore(g, Tail(g, a), v, t)
                    && Canonical1(g, path, a, v, n - 1) {
      CanonicalIsTerminal(g, path, a, v, n - 1);
    } else if path != [] && it.dot > 0 && n > 0
      && Canonical1(g, path[..|path| - 1], Item(it.rule, it.dot - 1), t, n - 1) {
      CanonicalIsTerminal(g, path[..|path| - 1], Item(it.rule, it.dot - 1), t, n - 1);
    }
  }

  lemma RestSymbolic(g: Grammar, it: Item)
    requires WellFormed(g) && GoodItem(g, it)
    ensures Symbolic(g, Rest(g, it))
  {
    assert WellFormedRule(g, g.rules[it.rule]);
  }

  /** Behind every viable prefix something may come. */
  lemma SomethingMayCome(g: Grammar, path: seq<nat>, it: Item) returns (t: nat)
    requires WellFormed(g) && Productive(g) && ItemAfter(g, path, it)
    ensures MayCome(g, path, t) && t < g.nterminal
  {
    hide WellFormed, Productive, Leads, IsClosure;
    ItemIsGood(g, path, it);
    RestSymbolic(g, it);
    ProductiveString(g, Rest(g, it));
    var w :| AllTerminals(g, w) && Derives(g, Rest(g, it), w);
    if w == [] {
      var k, c :| Leads(g, path, k) && IsClosure(g, k, c) && it in c;
      AllHaveLookahead(g, path, k, c);
      var n: nat;
      t, n :| Canonical1(g, path, it, t, n);
      CanonicalIsTerminal(g, path, it, t, n);
      CanonicalIsLr1(g, path, it, t, n);
    } else {
      t := w[0];
      assert w == [t] + w[1..];
    }
    assert Ahead(g, path, it, t);
  }

  /** A sentential form in which `t` comes behind the path. */
  lemma MayComeOpens(g: Grammar, path: seq<nat>, t: nat) returns (end: seq<nat>)
    requires WellFormed(g) && Productive(g) && MayCome(g, path, t)
    ensures Opens(t, end) && Derives(g, [g.start], path + end)
  {
    hide WellFormed, Productive, Leads, IsClosure, Lr1, Canonical1;
    var it :| Ahead(g, path, it, t);
    RestSymbolic(g, it);
    if Begins(g, Rest(g, it), t) {
      var k, c :| Leads(g, path, k) && IsClosure(g, k, c) && it in c;
      AllHaveLookahead(g, path, k, c);
      var v: nat, n: nat :| Canonical1(g, path, it, v, n);
      var end0 := Sentential(g, path, it, v, n);
      end := FirstOpens(g, Rest(g, it), v, t, end0);
      DerivesBehind(g, [g.start], path, Rest(g, it) + end0, end);
    } else {
      var n: nat :| Lr1(g, path, it, t, n);
      var m := Lr1IsCanonical(g, path, it, t, n);
      var end0 := Sentential(g, path, it, t, m);
      end := FirstOpens(g, Rest(g, it), t, t, end0);
      DerivesBehind(g, [g.start], path, Rest(g, it) + end0, end);
    }
  }

  /** Tokens that the path derives are continued by `t` to a sentence, or are one if `t` is the end marker. */
  lemma MayComeContinues(g: Grammar, path: seq<nat>, t: nat, w: seq<nat>) returns (z: seq<nat>)
    requires WellFormed(g) && Productive(g) && MayCome(g, path, t) && Derives(g, path, w)
    ensures Derives(g, [g.start], w + z) && Symbolic(g, w + z) && AllTerminals(g, z) && Opens(t, z)
  {
    hide WellFormed, Productive, MayCome;
    var end := MayComeOpens(g, path, t);
    DerivesRefl(g, end);
    DerivesConcat(g, path, w, end, end);
    DerivesTrans(g, [g.start], path + end, w + end);
    StartSymbolic(g);
    DerivedSymbolic(g, [g.start], w + end);
    assert t < g.nterminal by { MayComeTerminal(g, path, t); }
    z := TokensOf(g, w, t, end);
    DerivesBehind(g, [g.start], w, end, z);
    DerivedSymbolic(g, [g.start], w + z);
  }

  lemma MayComeTerminal(g: Grammar, path: seq<nat>, t: nat)
    requires MayCome(g, path, t)
    ensures t < g.nterminal
  {
  }

  lemma StartSymbolic(g: Grammar)
    requires WellFormed(g)
    ensures Symbolic(g, [g.start])
  {
  }

  lemma TokensOf(g: Grammar, w: seq<nat>, t: nat, end: seq<nat>) returns (z: seq<nat>)
    requires Productive(g) && Symbolic(g, w + end) && Opens(t, end) && t < g.nterminal
    ensures AllTerminals(g, z) && Opens(t, z) && Derives(g, end, z)
  {
    hide Productive, Derives;
    if t == 0 {
      DerivesRefl(g, []);
      z := [];
    } else {
      forall k | 0 <= k < |end[1..]| ensures end[1..][k] < g.nsymbol {
        assert end[1..][k] == (w + end)[|w| + 1 + k];
      }
      ProductiveString(g, end[1..]);
      var z0 :| AllTerminals(g, z0) && Derives(g, end[1..], z0);
      DerivesRefl(g, [t]);
      DerivesConcat(g, [t], [t], end[1..], z0);
      assert [t] + end[1..] == end;
      z := [t] + z0;
    }
  }
}
