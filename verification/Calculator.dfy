/** A grammar with precedences: sums and products of numbers.  It is not LALR(1), and the parser multiplies before it
    adds. */
module LemonCalculator {
  import opened Basics
  import opened LemonGrammar
  import opened LemonAutomaton
  import opened LemonFollowSets
  import opened LemonLookaheads
  import opened LemonMergeSort
  import opened LemonViable
  import opened LemonConflicts
  import opened LemonPrecedence
  import opened LemonActions
  import opened LemonTables
  import opened LemonDriver
  import opened LemonComplete
  import opened LemonLalr
  import opened LemonPipeline

  const ADD: nat := 1
  const MUL: nat := 2
  const NUM: nat := 3
  const E: nat := 5

  /** `%left ADD.`, `%left MUL.`, `s ::= e`, `e ::= e ADD e`, `e ::= e MUL e`, `e ::= NUM`; each operator rule has the
      precedence of its operator. */
  ghost predicate Calculator(g: Grammar) {
    && WellFormed(g) && g.nterminal == 4 && g.nsymbol == 6 && g.start == 4 && |g.rules| == 4
    && g.rules[0] == Rule(4, [E], NoPrec)
    && g.rules[1] == Rule(E, [E, ADD, E], PrecOf(ADD))
    && g.rules[2] == Rule(E, [E, MUL, E], PrecOf(MUL))
    && g.rules[3] == Rule(E, [NUM], NoPrec)
    && g.prec == [-1, 1, 2, -1, -1, -1]
    && g.assoc[ADD] == g.assoc[MUL] == Left
  }

  /** The rule of an operator. */
  predicate IsOperator(t: nat) { t == ADD || t == MUL }

  lemma OperatorRule(g: Grammar, t: nat)
    requires Calculator(g) && IsOperator(t)
    ensures |g.rules| == 4 && |g.prec| == |g.assoc| == 6 && t < g.nterminal == 4
    ensures g.rules[t] == Rule(E, [E, t, E], PrecOf(t)) && g.prec[t] == t && g.assoc[t] == Left
  {
  }

  // ----- the items after an expression with an operator -----

  /** An item in a closure is in the kernel or generated by another one. */
  lemma KernelOrGenerated(g: Grammar, k: set<Item>, c: set<Item>, it: Item)
    requires IsClosure(g, k, c) && it in c && it !in k
    ensures exists a :: a in c && Generates(g, a, it)
  {
    if !exists a :: a in c && Generates(g, a, it) {
      var d := c - {it};
      assert k <= d && Closed(g, d);
    }
  }

  /** Where one operator rule begins, so does every other, and every operator may follow. */
  lemma BeginTogether(g: Grammar, path: seq<nat>, r: nat, t: nat)
    requires Calculator(g) && IsOperator(r) && IsOperator(t) && ItemAfter(g, path, Item(r, 0))
    ensures ItemAfter(g, path, Item(t, 0)) && HasLr1(g, path, Item(r, 0), t)
  {
    OperatorRule(g, r);
    OperatorRule(g, t);
    var k, c :| Leads(g, path, k) && IsClosure(g, k, c) && Item(r, 0) in c;
    NotInKernel(g, path, k, r);
    KernelOrGenerated(g, k, c, Item(r, 0));
    hide Calculator;
    var a :| a in c && Generates(g, a, Item(r, 0));
    assert Generates(g, a, Item(t, 0));
    assert Item(t, 0) in c && Generates(g, Item(t, 0), Item(r, 0));
    OperatorTail(g, t);
    assert ItemAfter(g, path, Item(t, 0));
    hide Leads, IsClosure, ItemAfter, Begins;
    assert Lr1(g, path, Item(r, 0), t, 0);
  }

  lemma NotInKernel(g: Grammar, path: seq<nat>, k: set<Item>, r: nat)
    requires Calculator(g) && IsOperator(r) && Leads(g, path, k)
    ensures Item(r, 0) !in k
  {
    KernelIsGood(g, path, k);
  }

  lemma OperatorTail(g: Grammar, t: nat)
    requires |g.rules| == 4 && IsOperator(t) && g.rules[t].rhs == [E, t, E]
    ensures CanShift(g, Item(t, 0)) && Begins(g, Tail(g, Item(t, 0)), t)
  {
    DerivesRefl(g, Tail(g, Item(t, 0)));
    assert Tail(g, Item(t, 0)) == [t] + [E];
  }

  /** The mark moves over the last symbol of the path. */
  lemma MovesOn(g: Grammar, path: seq<nat>, a: Item, it: Item)
    requires path != [] && ItemAfter(g, path[..|path| - 1], a) && CanShift(g, a) && Next(g, a) == path[|path| - 1]
    requires ItemAfter(g, path, it)
    ensures ItemAfter(g, path, Advance(a))
  {
    var k, c :| Leads(g, path, k) && IsClosure(g, k, c) && it in c;
    var k0, c0 := LastStep(g, path, k);
    AfterIsInClosure(g, path[..|path| - 1], k0, c0, a);
    assert Advance(a) in k;
  }

  /** Behind a whole operator rule stand its symbols, and before them it began. */
  lemma ThreeBack(g: Grammar, path: seq<nat>, r: nat) returns (front: seq<nat>)
    requires |g.rules| == 4 && IsOperator(r) && g.rules[r].rhs == [E, r, E] && ItemAfter(g, path, Item(r, 3))
    ensures path == front + [E, r, E] && ItemAfter(g, front, Item(r, 0)) && ItemAfter(g, front + [E, r], Item(r, 2))
  {
    hide ItemAfter;
    CameFrom(g, path, Item(r, 3));
    var two := path[..|path| - 1];
    CameFrom(g, two, Item(r, 2));
    var one := two[..|two| - 1];
    CameFrom(g, one, Item(r, 1));
    front := one[..|one| - 1];
    assert one == front + [E];
    assert two == front + [E, r];
  }

  /** After `e r e` the next operator can be shifted, and may follow the rule. */
  lemma AfterOperator(g: Grammar, path: seq<nat>, r: nat, t: nat)
    requires Calculator(g) && IsOperator(r) && IsOperator(t) && ItemAfter(g, path, Item(r, 3))
    ensures ItemAfter(g, path, Item(t, 1)) && HasLr1(g, path, Item(r, 3), t)
    ensures |path| >= 3 && path[|path| - 2] == r
  {
    OperatorRule(g, r);
    OperatorRule(g, t);
    hide ItemAfter, Lr1, Calculator;
    var front := ThreeBack(g, path, r);
    BeginTogether(g, front, r, t);
    var n: nat :| Lr1(g, front, Item(r, 0), t, n);
    assert g.rules[r].rhs[..3] == [E, r, E];
    AlongRule(g, front, r, 3, t, n);
    assert path[..|path| - 1] == front + [E, r];
    GeneratedAfter(g, front + [E, r], Item(r, 2), Item(t, 0));
    MovesOn(g, path, Item(t, 0), Item(r, 3));
  }

  lemma GeneratedAfter(g: Grammar, path: seq<nat>, a: Item, b: Item)
    requires ItemAfter(g, path, a) && Generates(g, a, b)
    ensures ItemAfter(g, path, b)
  {
    hide Leads;
    var k, c :| Leads(g, path, k) && IsClosure(g, k, c) && a in c;
    assert b in c;
  }

  // ----- the states -----

  /** State `s` is reached behind `e r e`. */
  ghost predicate Behind(b: Built, s: nat, r: nat) {
    s < |b.m.states| && IsOperator(r) && Item(r, 3) in b.m.states[s].items
  }

  lemma OperatorState(b: Built, s: nat, r: nat, t: nat)
    requires Follows(b) && StartNotInRhs(b.m.g) && Calculator(b.m.g) && Behind(b, s, r) && IsOperator(t)
    ensures t in b.m.states[s].shifts
    ensures IsCandidate(b.m.g, b.m.states[s], s, b.fws, Action(t, Shift, b.m.states[s].shifts[t]))
    ensures IsCandidate(b.m.g, b.m.states[s], s, b.fws, Action(t, Reduce, r))
    ensures r != t ==> Item(t, 3) !in b.m.states[s].items
  {
    var (g, st) := (b.m.g, b.m.states[s]);
    hide Follows, StartNotInRhs, Calculator, IsClosure, Leads, ItemAfter, Generates, Lr1, GoodShiftSymbols, IsCandidate;
    OperatorRule(g, r);
    OperatorRule(g, t);
    StateHas(b, s);
    var path :| Leads(g, path, st.kernel);
    AfterIsInClosure(g, path, st.kernel, Items(st.items), Item(r, 3));
    AfterIsInClosure(g, path, st.kernel, Items(st.items), Item(t, 1));
    AfterIsInClosure(g, path, st.kernel, Items(st.items), Item(t, 3));
    AfterOperator(g, path, r, t);
    assert ShiftOn(g, Items(st.items), t) by { assert CanShift(g, Item(t, 1)) && Next(g, Item(t, 1)) == t; }
    ShiftCandidate(b, s, t);
    assert Merged(g, st.kernel, Item(r, 3), t);
    FollowOf(b, s, Item(r, 3), t);
    assert IsCandidate(g, st, s, b.fws, Action(t, Reduce, r)) by { ReduceHere(g, st, s, b.fws, r, t); }
    if ItemAfter(g, path, Item(t, 3)) { AfterOperator(g, path, t, t); }
  }

  lemma ReduceHere(g: Grammar, st: State, s: nat, fws: Family, r: nat, t: nat)
    requires r < |g.rules| && |g.rules[r].rhs| == 3 && t < g.nterminal && Item(r, 3) in st.items
    requires Config(s, Item(r, 3)) in fws && t in fws[Config(s, Item(r, 3))]
    ensures IsCandidate(g, st, s, fws, Action(t, Reduce, r))
  {
  }

  /** What is left on operator `t` behind `e r e`: multiplication is shifted behind a sum, and everything else
      reduced. */
  ghost function Winner(b: Built, s: nat, r: nat, t: nat): Action
    requires s < |b.m.states| && t in b.m.states[s].shifts
  {
    if r == ADD && t == MUL then Action(t, Shift, b.m.states[s].shifts[t]) else Action(t, Reduce, r)
  }

  /** All other actions there are the shift or the reduce, or have no precedence. */
  lemma Rivals(b: Built, s: nat, r: nat, t: nat, a: Action)
    requires Calculator(b.m.g) && Behind(b, s, r) && IsOperator(t) && t in b.m.states[s].shifts
    requires forall q :: IsOperator(q) && q != r ==> Item(q, 3) !in b.m.states[s].items
    requires IsCandidate(b.m.g, b.m.states[s], s, b.fws, a) && a.sp == t
    ensures || a == Action(t, Shift, b.m.states[s].shifts[t]) || a == Action(t, Reduce, r)
            || (a.kind == Reduce && !Ranked(b.m.g, a))
  {
    assert a == Action(a.sp, a.kind, a.arg);
    if a.kind == Reduce {
      assert a.arg < 4;
      if IsOperator(a.arg) { OperatorRule(b.m.g, a.arg); }
    }
  }

  lemma WinnerIsChosen(b: Built, s: nat, r: nat, t: nat)
    requires Follows(b) && StartNotInRhs(b.m.g) && Calculator(b.m.g) && Behind(b, s, r) && IsOperator(t)
    ensures t in b.m.states[s].shifts && Chosen(b.m.g, b.m.states[s], s, b.fws, Winner(b, s, r, t))
  {
    var (g, st) := (b.m.g, b.m.states[s]);
    hide Follows, StartNotInRhs, Calculator, IsCandidate;
    OperatorState(b, s, r, t);
    forall q | IsOperator(q) && q != r ensures Item(q, 3) !in st.items { OperatorState(b, s, r, q); }
    WinnerIsOver(g, r, t, st.shifts[t]);
    ShiftIsForemost(b, s, r, t);
    hide Over, Ranked, Behind, Foremost;
    var a := Winner(b, s, r, t);
    forall c | IsCandidate(g, st, s, b.fws, c) && c.sp == t && c != a ensures !Ranked(g, c) || Over(g, a, c) {
      Rivals(b, s, r, t, c);
    }
  }

  lemma WinnerIsOver(g: Grammar, r: nat, t: nat, target: nat)
    requires Calculator(g) && IsOperator(r) && IsOperator(t)
    ensures var (shift, reduce) := (Action(t, Shift, target), Action(t, Reduce, r));
      && Ranked(g, shift) && Ranked(g, reduce)
      && if r == ADD && t == MUL then Over(g, shift, reduce) else Over(g, reduce, shift)
  {
    OperatorRule(g, r);
    OperatorRule(g, t);
    hide Calculator;
    var (shift, reduce) := (Action(t, Shift, target), Action(t, Reduce, r));
    assert HasPrec(g, shift, t) && HasPrec(g, reduce, r);
  }

  lemma ShiftIsForemost(b: Built, s: nat, r: nat, t: nat)
    requires Calculator(b.m.g) && Behind(b, s, r) && IsOperator(t) && t in b.m.states[s].shifts
    requires forall q :: IsOperator(q) && q != r ==> Item(q, 3) !in b.m.states[s].items
    requires IsCandidate(b.m.g, b.m.states[s], s, b.fws, Action(t, Shift, b.m.states[s].shifts[t]))
    ensures Foremost(b.m.g, b.m.states[s], s, b.fws, Action(t, Shift, b.m.states[s].shifts[t]))
  {
    BehindIs(b, s, r);
    hide Calculator, IsCandidate, Behind, Ranked;
    forall c | IsCandidate(b.m.g, b.m.states[s], s, b.fws, c) && c.sp == t
      ensures c == Action(t, Shift, b.m.states[s].shifts[t]) || c.kind == Reduce
    {
      Rivals(b, s, r, t, c);
    }
  }

  // ----- the parser -----

  /** Whatever is generated from the grammar: behind a sum, MUL is shifted; behind a sum ADD, and behind a product
      either
      operator, makes the parser reduce. */
  lemma MultipliesFirst(b: Built, w: Work, s: nat, r: nat, t: nat)
    requires Generated(b, w) && Calculator(b.m.g) && Behind(b, s, r) && IsOperator(t)
    ensures s < |w.raw| && t in b.m.states[s].shifts
    ensures forall a :: a in w.raw[s] && Live(a) && a.sp == t <==> a == Winner(b, s, r, t)
    ensures Calm(b, w) ==>
      && |b.m.pos| == |b.m.states| && b.m.pos[s] < |b.m.t.dflt| && |b.m.t.action| == |b.m.t.lookahead|
      && b.m.states[s].shifts[t] < |b.m.pos|
      && FindShiftAction(b.m.t, b.m.pos[s], t) ==
           if r == ADD && t == MUL then b.m.pos[b.m.states[s].shifts[t]] else |b.m.states| + r
  {
    hide *;
    BehindIs(b, s, r);
    GeneratedParts(b, w);
    OperatorRule(b.m.g, t);
    WinnerIsChosen(b, s, r, t);
    MadeAt(b.m.g, b.m.states, b.fws, w.raw, w.dflts, w.acts, s);
    WinnerIs(b, s, r, t);
    var a := Winner(b, s, r, t);
    GeneratedChooses(b, w, s, a);
    OneOn(b.m.g, b.m.states[s], s, b.fws, w.raw[s], a);
    if Calm(b, w) {
      GeneratedLooksUp(b, w, s, a);
      WinnerCode(b, s, r, t);
    }
  }

  lemma BehindIs(b: Built, s: nat, r: nat)
    requires Behind(b, s, r)
    ensures s < |b.m.states| && IsOperator(r)
  {
  }

  lemma WinnerIs(b: Built, s: nat, r: nat, t: nat)
    requires s < |b.m.states| && t in b.m.states[s].shifts
    ensures Live(Winner(b, s, r, t)) && Winner(b, s, r, t).sp == t
  {
  }

  lemma WinnerCode(b: Built, s: nat, r: nat, t: nat)
    requires s < |b.m.states| == |b.m.pos| && t in b.m.states[s].shifts && b.m.states[s].shifts[t] < |b.m.pos|
    ensures Code(b.m.g, |b.m.states|, b.m.pos, Winner(b, s, r, t)) ==
      if r == ADD && t == MUL then b.m.pos[b.m.states[s].shifts[t]] else |b.m.states| + r
  {
  }

  lemma OneOn(g: Grammar, st: State, s: nat, fws: Family, ap: seq<Action>, a: Action)
    requires Resolved(g, st, s, fws, ap) && a in ap && Live(a)
    ensures forall c :: c in ap && Live(c) && c.sp == a.sp <==> c == a
  {
    hide IsCandidate;
  }

  /** The item behind the next symbol, in the state that it is shifted to. */
  lemma NextState(b: Built, s: nat, it: Item) returns (s': nat)
    requires Follows(b) && StartNotInRhs(b.m.g) && s < |b.m.states| && it in b.m.states[s].items && CanShift(b.m.g, it)
    ensures s' < |b.m.states| && Advance(it) in b.m.states[s'].items
  {
    var (g, st) := (b.m.g, b.m.states[s]);
    var x := Next(g, it);
    AutomatonOf(b);
    assert ShiftOn(g, Items(st.items), x);
    ShiftCandidate(b, s, x);
    ShiftIsGoto(g, b.lambda, b.first, b.m.states, b.links, s, x);
    s' := st.shifts[x];
    StateHas(b, s');
    hide Follows, StartNotInRhs, IsAutomaton;
    MovedInClosure(g, st.items, b.m.states[s'], it);
  }

  lemma AutomatonOf(b: Built)
    requires Follows(b)
    ensures IsAutomaton(b.m.g, b.lambda, b.first, b.m.states, b.links)
  {
    hide IsAutomaton;
  }

  /** There are such states. */
  lemma OperatorStates(b: Built, r: nat) returns (s: nat)
    requires Follows(b) && StartNotInRhs(b.m.g) && Calculator(b.m.g) && IsOperator(r)
    ensures Behind(b, s, r)
  {
    var g := b.m.g;
    OperatorRule(g, r);
    FollowsParts(b, 0) by { AutomatonOf(b); hide Follows, StatesInv, LinksInv; }
    assert Item(0, 0) in b.m.states[0].items && CanShift(g, Item(0, 0)) by { FirstItem(b); }
    assert Item(r, 0) in b.m.states[0].items by {
      assert Generates(g, Item(0, 0), Item(r, 0));
      GeneratedIsItem(g, b.m.states[0], Item(0, 0), Item(r, 0));
    }
    hide Follows, StartNotInRhs, Calculator;
    var s1 := NextState(b, 0, Item(r, 0));
    var s2 := NextState(b, s1, Item(r, 1));
    s := NextState(b, s2, Item(r, 2));
  }

  lemma FirstItem(b: Built)
    requires Follows(b) && Calculator(b.m.g)
    ensures |b.m.states| > 0 && Item(0, 0) in b.m.states[0].items && CanShift(b.m.g, Item(0, 0))
  {
    AutomatonOf(b);
    var g := b.m.g;
    StateParts(g, b.lambda, b.first, b.m.states, 0);
    assert g.rules[0].lhs == g.start && Item(0, 0) in StartKernel(g);
    hide Follows;
    assert Item(0, 0) in Items(b.m.states[0].items);
  }

  // ----- the generator run on the grammar -----

  /** As the reader leaves it: no rule has a precedence symbol of its own. */
  function Written(): Grammar {
    Grammar(4, 6,
      [Rule(4, [E], NoPrec), Rule(E, [E, ADD, E], NoPrec), Rule(E, [E, MUL, E], NoPrec), Rule(E, [NUM], NoPrec)],
      4, [-1, 1, 2, -1, -1, -1], [Unknown, Left, Left, Unknown, Unknown, Unknown])
  }

  lemma WrittenIsGood()
    ensures WellFormed(Written())
  {
    var g := Written();
    assert forall r :: 0 <= r < 4 ==> WellFormedRule(g, g.rules[r]);
  }

  lemma PrecedencesFound(g: Grammar, found: seq<PrecSym>)
    requires g == Written() && |found| == 4
    requires forall r :: 0 <= r < 4 ==> RulePrec(g, NoPrec, g.rules[r].rhs, found[r])
    ensures found == [NoPrec, PrecOf(ADD), PrecOf(MUL), NoPrec]
  {
    assert g.rules[1].rhs[1] == ADD && g.rules[2].rhs[1] == MUL;
    assert g.prec[E] == -1 && g.prec[NUM] == -1 && g.prec[ADD] == 1 && g.prec[MUL] == 2;
    assert RulePrec(g, NoPrec, [E], found[0]) && RulePrec(g, NoPrec, [NUM], found[3]);
    assert RulePrec(g, NoPrec, [E, ADD, E], found[1]);
    assert RulePrec(g, NoPrec, [E, MUL, E], found[2]);
  }

  /** The items of one rule. */
  ghost function ItemsOf(r: nat, n: nat): (s: set<Item>)
    ensures |s| == n && forall it :: it in s <==> it.rule == r && it.dot < n
  {
    if n == 0 then {} else ItemsOf(r, n - 1) + {Item(r, n - 1)}
  }

  /** Items of the first `n` rules with up to four marks each. */
  ghost function Grid(n: nat): (s: set<Item>)
    ensures |s| == 4 * n && forall it :: it in s <==> it.rule < n && it.dot < 4
  {
    if n == 0 then {}
    else
      var (less, last) := (Grid(n - 1), ItemsOf(n - 1, 4));
      assert less !! last;
      less + last
  }

  lemma SubsetSize<T>(a: set<T>, b: set<T>)
    requires a <= b
    ensures |a| <= |b|
  {
    assert b == a + (b - a) && a !! b - a;
  }

  lemma InGrid(g: Grammar, it: Item)
    requires Calculator(g) && it in AllItems(g)
    ensures it in Grid(4)
  {
    hide WellFormed;
    assert it.rule == 0 || it.rule == 1 || it.rule == 2 || it.rule == 3;
  }

  lemma CalculatorItems(g: Grammar)
    requires Calculator(g)
    ensures |AllItems(g)| <= 16
  {
    hide *;
    forall it | it in AllItems(g) ensures it in Grid(4) { InGrid(g, it); }
    SubsetSize(AllItems(g), Grid(4));
  }

  lemma CalculatorFits(g: Grammar)
    requires Calculator(g)
    ensures StartNotInRhs(g) && FitsMsort(g) && g.nsymbol < -NO_OFFSET
  {
    CalculatorItems(g);
    AllBins();
    hide Pow2, AllItems, WellFormed;
  }

  lemma FoundIsCalculator(g: Grammar)
    requires WellFormed(g) && g.(rules := Written().rules) == Written() && |g.rules| == |Written().rules|
    requires forall r :: 0 <= r < |g.rules| ==>
      && g.rules[r].(precsym := Written().rules[r].precsym) == Written().rules[r]
      && RulePrec(Written(), Written().rules[r].precsym, Written().rules[r].rhs, g.rules[r].precsym)
    ensures Calculator(g)
  {
    hide WellFormed, RulePrec;
    PrecedencesFound(Written(), seq(4, r requires 0 <= r < 4 => g.rules[r].precsym));
    assert forall r :: 0 <= r < 4 ==>
      g.rules[r] == Written().rules[r].(precsym := [NoPrec, PrecOf(ADD), PrecOf(MUL), NoPrec][r]);
  }

  method GenerateCalculator() returns (t: Tables, clean: bool, ghost b: Built, ghost w: Work)
    ensures Generated(b, w) && Calculator(b.m.g) && b.m.t == t && !clean
    ensures exists s: nat :: Behind(b, s, ADD)
    ensures exists s: nat :: Behind(b, s, MUL)
  {
    hide *;
    WrittenIsGood();
    var g := FindRulePrecedences(Written());
    FoundIsCalculator(g);
    CalculatorFits(g);
    CalculatorIs(g);
    t, clean, b, w := Generate(g);
    GeneratedParts(b, w);
    var s := OperatorStates(b, ADD);
    var s' := OperatorStates(b, MUL);
    if clean {
      NoConflictsIsLalr1(b);
      CalculatorConflicts(b, s);
      assert false;
    }
  }

  lemma CalculatorIs(g: Grammar)
    requires Calculator(g)
    ensures WellFormed(g) && IsOperator(ADD) && IsOperator(MUL)
  {
  }

  /** The grammar is not LALR(1): precedence decides. */
  lemma CalculatorConflicts(b: Built, s: nat)
    requires Follows(b) && StartNotInRhs(b.m.g) && Calculator(b.m.g) && Behind(b, s, ADD)
    ensures !NoConflicts(b)
  {
    OperatorState(b, s, ADD, MUL);
    hide Follows, StartNotInRhs, Calculator, IsCandidate;
    var (x, y) := (Action(MUL, Shift, b.m.states[s].shifts[MUL]), Action(MUL, Reduce, ADD));
    assert x != y && x.sp == y.sp;
    assert !NoConflict(b.m.g, b.m.states[s], s, b.fws);
  }
}
