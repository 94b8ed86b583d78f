/** The whole generator, from the grammar to the arrays, and what its parts amount to together. */
module LemonPipeline {
  import opened Basics
  import opened LemonGrammar
  import opened LemonFirstSets
  import opened LemonAutomaton
  import opened LemonFollowSets
  import opened LemonLookaheads
  import opened LemonConflicts
  import opened LemonPrecedence
  import opened LemonActions
  import opened LemonCompress
  import opened LemonTables
  import opened LemonDriver
  import opened LemonComplete
  import opened LemonLalr
  import opened LemonReport

  // ----- the arrays against the lists before compression -----

  /** The action of a list that has not been compressed: the live one, the default reduce, or the error. */
  ghost predicate SparseAction(g: Grammar, n: nat, pos: seq<nat>, ap: seq<Action>, dflt: Option<nat>, x: nat, act: int)
    requires |pos| == n && ArgsInRange(g, n, ap)
  {
    && (forall a :: a in ap && Live(a) && a.sp == x ==> act == Code(g, n, pos, a))
    && (!HasLive(ap, x) ==> act == match dflt case Some(r) => r + n case None => n + |g.rules|)
  }

  lemma DefaultIs(g: Grammar, n: nat, ap: seq<Action>, dflt: Option<nat>, ap': seq<Action>, code: int)
    requires Compressed(g, ap, dflt, ap') && IsDefault(g, n, ap', code)
    requires forall a :: a in ap && Live(a) ==> a.sp < g.nsymbol
    ensures code == match dflt case Some(r) => r + n case None => n + |g.rules|
  {
    hide Deterministic, MostFrequent;
    match dflt
    case Some(r) =>
      assert Action(g.nsymbol, Reduce, r) in ap';
    case None =>
  }

  /** Looking up a terminal in the arrays made from the compressed lists gives what the uncompressed list has. */
  lemma CompressedLookup(g: Grammar, pos: seq<nat>, ap: seq<Action>, dflt: Option<nat>, ap': seq<Action>, t: Tables,
      p: nat, x: nat)
    requires |pos| == t.nstate && ArgsInRange(g, t.nstate, ap) && ArgsInRange(g, t.nstate, ap')
    requires p < |t.dflt| && |t.action| == |t.lookahead| && x < g.nsymbol
    requires Deterministic(ap) && Compressed(g, ap, dflt, ap') && ShiftLookupRight(g, pos, ap', t, p, x)
    requires forall a :: a in ap && Live(a) ==> a.sp < g.nsymbol
    ensures SparseAction(g, t.nstate, pos, ap, dflt, x, FindShiftAction(t, p, x))
  {
    hide FindShiftAction, IsDefault, MostFrequent;
    forall a | a in ap && Live(a) && a.sp == x ensures FindShiftAction(t, p, x) == Code(g, t.nstate, pos, a) {
      if dflt.Some? && IsReduceBy(a, dflt.value) {
        assert !HasLive(ap', x) by { OnlyOne(ap, a); }
        DefaultIs(g, t.nstate, ap, dflt, ap', FindShiftAction(t, p, x));
      } else {
        assert a in ap';
      }
    }
    if !HasLive(ap, x) {
      assert !HasLive(ap', x);
      DefaultIs(g, t.nstate, ap, dflt, ap', FindShiftAction(t, p, x));
    }
  }

  lemma OnlyOne(ap: seq<Action>, a: Action)
    requires Deterministic(ap) && a in ap && Live(a)
    ensures forall b :: b in ap && Live(b) && b.sp == a.sp ==> b == a
  {
  }

  // ----- the arrays drive the parser -----

  /** What FindActions and CompressTables make of state `s`. */
  ghost predicate Made(g: Grammar, states: seq<State>, s: nat, fws: Family, ap: seq<Action>, dflt: Option<nat>,
      ap': seq<Action>)
    requires s < |states|
  {
    && GoodShiftSymbols(g, states[s]) && (forall x :: x in states[s].shifts ==> states[s].shifts[x] < |states|)
    && Resolved(g, states[s], s, fws, ap) && Compressed(g, ap, dflt, ap')
  }

  ghost predicate AllMade(g: Grammar, states: seq<State>, fws: Family, raw: seq<seq<Action>>, dflts: seq<Option<nat>>,
      acts: seq<seq<Action>>) {
    && |raw| == |dflts| == |acts| == |states|
    && forall s :: 0 <= s < |states| ==> Made(g, states, s, fws, raw[s], dflts[s], acts[s])
  }

  lemma MadeInRange(g: Grammar, states: seq<State>, s: nat, fws: Family, ap: seq<Action>, dflt: Option<nat>,
      ap': seq<Action>)
    requires WellFormed(g) && s < |states| && Made(g, states, s, fws, ap, dflt, ap')
    ensures ArgsInRange(g, |states|, ap) && ArgsInRange(g, |states|, ap') && Deterministic(ap) && Deterministic(ap')
    ensures forall a :: a in ap && Live(a) ==> a.sp < g.nsymbol
    ensures forall k :: 0 <= k < |ap'| && Live(ap'[k]) ==> ap'[k].sp <= g.nsymbol && (ap'[k].sp == g.nsymbol ==>
        ap'[k].kind == Reduce)
  {
    hide Deterministic, MostFrequent;
    forall a | a in ap && Live(a) ensures a.sp < g.nsymbol && (a.kind == Shift ==> a.arg < |states|) {
      assert IsCandidate(g, states[s], s, fws, a);
    }
    forall k | 0 <= k < |ap| ensures ap[k].kind == Shift ==> ap[k].arg < |states| {
      if ap[k].kind == Shift { assert Live(ap[k]) && ap[k] in ap; }
    }
    forall k | 0 <= k < |ap'| && Live(ap'[k])
      ensures ap'[k].sp <= g.nsymbol && (ap'[k].sp == g.nsymbol ==> ap'[k].kind == Reduce)
      ensures (ap'[k].kind == Shift ==> ap'[k].arg < |states|)
    {
      assert ap'[k] in ap';
    }
  }

  lemma MadeIsGood(g: Grammar, states: seq<State>, fws: Family, raw: seq<seq<Action>>, dflts: seq<Option<nat>>,
      acts: seq<seq<Action>>)
    requires WellFormed(g) && AllMade(g, states, fws, raw, dflts, acts)
    ensures GoodLists(g, acts)
  {
    hide WellFormed, Made, Deterministic;
    forall s | 0 <= s < |acts| ensures
      && ArgsInRange(g, |acts|, acts[s]) && Deterministic(acts[s])
      && forall k :: 0 <= k < |acts[s]| && Live(acts[s][k]) ==>
           acts[s][k].sp <= g.nsymbol && (acts[s][k].sp == g.nsymbol ==> acts[s][k].kind == Reduce)
    {
      MadeInRange(g, states, s, fws, raw[s], dflts[s], acts[s]);
    }
  }

  /** Only the end marker makes the parser reduce by a rule of the start symbol. */
  lemma StartLookahead(b: Built, s: nat, r: nat, x: nat)
    requires Follows(b) && StartNotInRhs(b.m.g) && r < |b.m.g.rules| && b.m.g.rules[r].lhs == b.m.g.start
    requires IsDue(b, s, r, x)
    ensures x == 0
  {
    var (g, it) := (b.m.g, Item(r, |b.m.g.rules[r].rhs|));
    hide WellFormed, Exact, IsAutomaton, Linked, IsInitial, IsLeast, Lr1, Leads, StartNotInRhs;
    FollowSetsAreMergedLr1(g, b.lambda, b.first, b.m.states, b.links, b.fplp, b.low, b.fws, Config(s, it), x);
    var path, n: nat :| Leads(g, path, b.m.states[s].kernel) && Lr1(g, path, it, x, n);
    OnlyEndFollowsStart(g, path, it, x, n);
  }

  /** Every default is the reduce of a complete item, and not by a start rule. */
  lemma DefaultIsItem(g: Grammar, states: seq<State>, s: nat, fws: Family, ap: seq<Action>, dflt: Option<nat>,
      ap': seq<Action>)
    requires s < |states| && Made(g, states, s, fws, ap, dflt, ap') && dflt.Some?
    ensures dflt.value < |g.rules| && g.rules[dflt.value].lhs != g.start
    ensures Item(dflt.value, |g.rules[dflt.value].rhs|) in states[s].items
  {
    assert MostFrequent(g, ap, dflt.value);
    var j := CountWitness(ap, 0, dflt.value);
    assert ap[j] in ap && Live(ap[j]);
    assert IsCandidate(g, states[s], s, fws, ap[j]);
  }

  /** A lookup by what the uncompressed list has is a good answer. */
  lemma SparseAnswer(b: Built, s: nat, ap: seq<Action>, dflt: Option<nat>, ap': seq<Action>, x: nat, act: int)
    requires Follows(b) && StartNotInRhs(b.m.g) && s < |b.m.states| == |b.m.pos| && x < b.m.g.nterminal
    requires Made(b.m.g, b.m.states, s, b.fws, ap, dflt, ap') && ArgsInRange(b.m.g, |b.m.states|, ap)
    requires SparseAction(b.m.g, |b.m.states|, b.m.pos, ap, dflt, x, act)
    requires forall k :: 0 <= k < |b.m.pos| ==> b.m.pos[k] < |b.m.states|
    ensures
      var (n, nr) := (|b.m.states|, |b.m.g.rules|);
      if act < n then x != 0 && x in b.m.states[s].shifts && act == b.m.pos[b.m.states[s].shifts[x]]
      else if act < n + nr then
        Item(act - n, |b.m.g.rules[act - n].rhs|) in b.m.states[s].items && (b.m.g.rules[act - n].lhs == b.m.g.start ==>
            x == 0)
      else act == n + nr
  {
    hide Compressed, Deterministic, StartNotInRhs, Follows, WellFormed;
    GrammarOf(b);
    StartIsNonterminal(b.m.g);
    if HasLive(ap, x) {
      var a :| a in ap && Live(a) && a.sp == x;
      assert IsCandidate(b.m.g, b.m.states[s], s, b.fws, a);
      if a.kind == Reduce {
        assert IsDue(b, s, a.arg, x);
        if b.m.g.rules[a.arg].lhs == b.m.g.start { StartLookahead(b, s, a.arg, x); }
      }
    } else if dflt.Some? {
      DefaultIsItem(b.m.g, b.m.states, s, b.fws, ap, dflt, ap');
    }
  }

  lemma AnswersShift(b: Built, raw: seq<seq<Action>>, dflts: seq<Option<nat>>, acts: seq<seq<Action>>, s: nat, x: nat)
    requires Follows(b) && StartNotInRhs(b.m.g) && AllMade(b.m.g, b.m.states, b.fws, raw, dflts, acts)
    requires Refines(b.m.g, acts, b.m.sorted, b.m.pos, b.m.t) && s < |b.m.states| && x < b.m.g.nterminal
    ensures |b.m.states| == |b.m.pos| == b.m.t.nstate && |b.m.g.rules| == b.m.t.nrule
    ensures |b.m.t.action| == |b.m.t.lookahead|
    ensures b.m.pos[s] < |b.m.t.dflt| && ArgsInRange(b.m.g, |b.m.states|, raw[s])
    ensures forall y :: y in b.m.states[s].shifts ==> b.m.states[s].shifts[y] < |b.m.pos|
    ensures SparseAction(b.m.g, |b.m.states|, b.m.pos, raw[s], dflts[s], x, FindShiftAction(b.m.t, b.m.pos[s], x))
    ensures ShiftAnswer(b.m, s, x)
  {
    hide *;
    MadeAt(b.m.g, b.m.states, b.fws, raw, dflts, acts, s);
    RefinesShift(b.m.g, acts, b.m.sorted, b.m.pos, b.m.t, s, x);
    GrammarOf(b);
    MadeInRange(b.m.g, b.m.states, s, b.fws, raw[s], dflts[s], acts[s]);
    CompressedLookup(b.m.g, b.m.pos, raw[s], dflts[s], acts[s], b.m.t, b.m.pos[s], x);
    SparseAnswer(b, s, raw[s], dflts[s], acts[s], x, FindShiftAction(b.m.t, b.m.pos[s], x));
    AsShiftAnswer(b.m, s, x);
  }

  lemma StartIsNonterminal(g: Grammar)
    requires WellFormed(g)
    ensures g.nterminal <= g.start < g.nsymbol
  {
  }

  lemma AsShiftAnswer(m: Machine, s: nat, x: nat)
    requires s < |m.states| == |m.pos| == m.t.nstate && m.pos[s] < |m.t.dflt| && |m.t.action| == |m.t.lookahead|
    requires |m.g.rules| == m.t.nrule
    requires forall y :: y in m.states[s].shifts ==> m.states[s].shifts[y] < |m.pos|
    requires
      var (n, nr, act) := (|m.states|, |m.g.rules|, FindShiftAction(m.t, m.pos[s], x));
      if act < n then x != 0 && x in m.states[s].shifts && act == m.pos[m.states[s].shifts[x]]
      else if act < n + nr then
        Item(act - n, |m.g.rules[act - n].rhs|) in m.states[s].items && (m.g.rules[act - n].lhs == m.g.start ==> x == 0)
      else act == n + nr
    ensures ShiftAnswer(m, s, x)
  {
    hide FindShiftAction;
  }

  lemma GrammarOf(b: Built)
    requires Follows(b)
    ensures WellFormed(b.m.g) && 0 < b.m.g.nterminal <= b.m.g.nsymbol
  {
    hide Exact, IsAutomaton, Linked, IsInitial, IsLeast;
  }

  lemma MadeAt(g: Grammar, states: seq<State>, fws: Family, raw: seq<seq<Action>>, dflts: seq<Option<nat>>,
      acts: seq<seq<Action>>, s: nat)
    requires AllMade(g, states, fws, raw, dflts, acts) && s < |states|
    ensures |raw| == |dflts| == |acts| == |states| && Made(g, states, s, fws, raw[s], dflts[s], acts[s])
    ensures Compressed(g, raw[s], dflts[s], acts[s]) && Resolved(g, states[s], s, fws, raw[s])
    ensures GoodShiftSymbols(g, states[s])
    ensures forall x :: x in states[s].shifts ==> states[s].shifts[x] < |states|
  {
    hide Compressed, Resolved, GoodShiftSymbols;
  }

  lemma RefinesShift(g: Grammar, acts: seq<seq<Action>>, sorted: seq<nat>, pos: seq<nat>, t: Tables, s: nat, x: nat)
    requires Refines(g, acts, sorted, pos, t) && s < |acts| && x < g.nterminal
    ensures |acts| == |pos| == t.nstate == |t.dflt| && |g.rules| == t.nrule && |t.action| == |t.lookahead|
    ensures ArgsInRange(g, |acts|, acts[s]) && pos[s] < |t.dflt| && forall k :: 0 <= k < |pos| ==> pos[k] < |acts|
    ensures ShiftLookupRight(g, pos, acts[s], t, pos[s], x)
  {
    hide ShiftLookupRight, ReduceLookupRight, ArgsInRange;
    assert sorted[pos[s]] == s;
  }

  lemma RefinesReduce(g: Grammar, acts: seq<seq<Action>>, sorted: seq<nat>, pos: seq<nat>, t: Tables, s: nat, x: nat)
    requires Refines(g, acts, sorted, pos, t) && s < |acts| && g.nterminal <= x < g.nsymbol
    ensures |acts| == |pos| == t.nstate && |g.rules| == t.nrule && ArgsInRange(g, |acts|, acts[s])
    ensures ReduceLookupRight(g, pos, acts[s], t, pos[s], x)
  {
    hide ShiftLookupRight, ReduceLookupRight, ArgsInRange;
    assert sorted[pos[s]] == s;
  }

  /** A candidate on a nonterminal is in the compressed list. */
  lemma GotoStays(g: Grammar, states: seq<State>, s: nat, fws: Family, ap: seq<Action>, dflt: Option<nat>,
      ap': seq<Action>, a: Action)
    requires s < |states| && Made(g, states, s, fws, ap, dflt, ap') && IsCandidate(g, states[s], s, fws, a)
    requires a.sp >= g.nterminal
    ensures a in ap' && Live(a)
  {
    hide Deterministic, MostFrequent;
    assert HasLive(ap, a.sp);
    var c :| c in ap && Live(c) && c.sp == a.sp;
    assert IsCandidate(g, states[s], s, fws, c);
    assert c == a;
  }

  lemma AnswersGoto(b: Built, raw: seq<seq<Action>>, dflts: seq<Option<nat>>, acts: seq<seq<Action>>, s: nat, x: nat)
    requires AllMade(b.m.g, b.m.states, b.fws, raw, dflts, acts)
    requires Refines(b.m.g, acts, b.m.sorted, b.m.pos, b.m.t) && s < |b.m.states|
    requires b.m.g.nterminal <= x < b.m.g.nsymbol
    ensures |b.m.states| == |b.m.pos| && (forall y :: y in b.m.states[s].shifts ==> b.m.states[s].shifts[y] < |b.m.pos|)
    ensures GotoAnswer(b.m, s, x)
  {
    var (g, st) := (b.m.g, b.m.states[s]);
    hide Refines, AllMade, Made, Compressed, Resolved, ReduceActionThere, FindReduceAction;
    MadeAt(g, b.m.states, b.fws, raw, dflts, acts, s);
    RefinesReduce(g, acts, b.m.sorted, b.m.pos, b.m.t, s, x);
    if x in st.shifts {
      GotoStays(g, b.m.states, s, b.fws, raw[s], dflts[s], acts[s], Action(x, Shift, st.shifts[x]));
    }
    if s == 0 && x == g.start {
      GotoStays(g, b.m.states, s, b.fws, raw[s], dflts[s], acts[s], Action(g.start, Accept, 0));
    }
  }

  /** The whole right-hand side of the rule can be on the stack: a state that can be reached has its complete item. */
  ghost predicate Reducible(g: Grammar, r: nat)
    requires r < |g.rules|
  {
    exists k, c :: Reached(g, k) && IsClosure(g, k, c) && Item(r, |g.rules[r].rhs|) in c
  }

  /** Right-hand sides short enough for the `unsigned char` that the generated rule table has for their length,
      as far as they can be reduced at all. */
  ghost predicate ShortRules(g: Grammar) {
    forall r :: 0 <= r < |g.rules| && Reducible(g, r) ==> |g.rules[r].rhs| < 256
  }

  lemma ReducibleInStates(b: Built, r: nat)
    requires Follows(b) && StartNotInRhs(b.m.g) && r < |b.m.g.rules|
    ensures Reducible(b.m.g, r) <==> CanReduce(b.m, r)
  {
    var it := Item(r, |b.m.g.rules[r].rhs|);
    hide Follows, StartNotInRhs, IsClosure;
    if k, c :| Reached(b.m.g, k) && IsClosure(b.m.g, k, c) && it in c {
      var path :| Leads(b.m.g, path, k);
      var s := StateOf(b, path, k);
      StateHas(b, s);
      ClosureUnique(b.m.g, k, c, Items(b.m.states[s].items));
    }
    if s :| 0 <= s < |b.m.states| && it in b.m.states[s].items {
      StateHas(b, s);
      assert it in Items(b.m.states[s].items);
    }
  }

  lemma AutomatonIsSkeleton(g: Grammar, lambda: seq<bool>, first: seq<set<nat>>, states: seq<State>, links: seq<Link>)
    requires IsAutomaton(g, lambda, first, states, links)
    ensures Skeleton(g, states)
  {
    hide IsClosure, LinksInv, Complete, GoodShifts, Goto;
    assert states[0].kernel == StartKernel(g);
    forall s | 0 <= s < |states|
      ensures IsClosure(g, states[s].kernel, Items(states[s].items)) && Complete(g, states[s])
    {
      StateParts(g, lambda, first, states, s);
    }
    hide IsAutomaton;
    forall s, x | 0 <= s < |states| && x in states[s].shifts ensures
      0 < states[s].shifts[x] < |states| && states[states[s].shifts[x]].kernel == Goto(g, Items(states[s].items), x)
    {
      ShiftIsGoto(g, lambda, first, states, links, s, x);
    }
  }

  lemma AutomatonOf(b: Built)
    requires Follows(b)
    ensures IsAutomaton(b.m.g, b.lambda, b.first, b.m.states, b.links)
  {
    hide WellFormed, Exact, IsAutomaton, Linked, IsInitial, IsLeast;
  }

  lemma TableParts(g: Grammar, acts: seq<seq<Action>>, sorted: seq<nat>, pos: seq<nat>, t: Tables)
    requires Refines(g, acts, sorted, pos, t)
    ensures t.nstate == |acts| == |t.dflt| && t.nrule == |g.rules| && |t.action| == |t.lookahead|
    ensures Renumbering(t.nstate, sorted, pos)
    ensures |t.ruleLhs| == |t.ruleNrhs| == |g.rules|
    ensures forall r :: 0 <= r < |g.rules| ==> t.ruleLhs[r] == g.rules[r].lhs && t.ruleNrhs[r] == |g.rules[r].rhs| % 256
  {
    hide ShiftLookupRight, ReduceLookupRight, ArgsInRange, Renumbering;
  }

  /** The lengths in the rule table are right exactly if the rules are short. */
  lemma LengthsRight(b: Built)
    requires Follows(b) && StartNotInRhs(b.m.g) && |b.m.t.ruleNrhs| == |b.m.g.rules|
    requires forall r :: 0 <= r < |b.m.g.rules| ==> b.m.t.ruleNrhs[r] == |b.m.g.rules[r].rhs| % 256
    ensures ShortRules(b.m.g) <==>
      forall r :: 0 <= r < |b.m.g.rules| && CanReduce(b.m, r) ==> b.m.t.ruleNrhs[r] == |b.m.g.rules[r].rhs|
  {
    hide Follows, StartNotInRhs, Reducible, CanReduce;
    forall r | 0 <= r < |b.m.g.rules| ensures Reducible(b.m.g, r) <==> CanReduce(b.m, r) {
      ReducibleInStates(b, r);
    }
  }

  /** Arrays that refine the lists drive the parser soundly, exactly if every right-hand side that can be reduced
      is short. */
  lemma GeneratedDrives(b: Built, raw: seq<seq<Action>>, dflts: seq<Option<nat>>, acts: seq<seq<Action>>)
    requires Follows(b) && StartNotInRhs(b.m.g) && AllMade(b.m.g, b.m.states, b.fws, raw, dflts, acts)
    requires Refines(b.m.g, acts, b.m.sorted, b.m.pos, b.m.t)
    ensures Drives(b.m) <==> ShortRules(b.m.g)
  {
    var m := b.m;
    hide Follows, StartNotInRhs, Refines, ShortRules, Made, Skeleton, WellFormed, Renumbering, ShiftAnswer, GotoAnswer;
    hide CanReduce;
    TableParts(m.g, acts, m.sorted, m.pos, m.t);
    AutomatonOf(b);
    LengthsRight(b);
    AutomatonIsSkeleton(m.g, b.lambda, b.first, m.states, b.links);
    GrammarOf(b);
    forall s, x | 0 <= s < |m.states| && 0 <= x < m.g.nterminal
      ensures |m.pos| == |m.states| && m.pos[s] < |m.t.dflt|
      ensures (forall y :: y in m.states[s].shifts ==> m.states[s].shifts[y] < |m.pos|)
      ensures ShiftAnswer(m, s, x)
    {
      AnswersShift(b, raw, dflts, acts, s, x);
    }
    forall s, x | 0 <= s < |m.states| && m.g.nterminal <= x < m.g.nsymbol
      ensures |m.pos| == |m.states| && (forall y :: y in m.states[s].shifts ==> m.states[s].shifts[y] < |m.pos|)
      ensures GotoAnswer(m, s, x)
    {
      AnswersGoto(b, raw, dflts, acts, s, x);
    }
  }

  ghost predicate AllLive(raw: seq<seq<Action>>) {
    forall s, k :: 0 <= s < |raw| && 0 <= k < |raw[s]| ==> Live(raw[s][k])
  }

  ghost predicate AllKept(g: Grammar, states: seq<State>, fws: Family, raw: seq<seq<Action>>) {
    |raw| == |states| && forall s :: 0 <= s < |states| ==> KeepsAll(g, states[s], s, fws, raw[s])
  }

  lemma CandidateIsLive(g: Grammar, states: seq<State>, fws: Family, raw: seq<seq<Action>>, s: nat, a: Action)
    requires AllKept(g, states, fws, raw) && AllLive(raw) && s < |states| && IsCandidate(g, states[s], s, fws, a)
    ensures a in raw[s] && Live(a)
  {
    hide IsCandidate, Live;
    assert KeepsAll(g, states[s], s, fws, raw[s]);
  }

  lemma CandidateLooksUp(b: Built, raw: seq<seq<Action>>, dflts: seq<Option<nat>>, acts: seq<seq<Action>>, s: nat,
      a: Action)
    requires Follows(b) && StartNotInRhs(b.m.g) && AllMade(b.m.g, b.m.states, b.fws, raw, dflts, acts)
    requires Refines(b.m.g, acts, b.m.sorted, b.m.pos, b.m.t) && s < |b.m.states| && a.sp < b.m.g.nterminal
    requires AllKept(b.m.g, b.m.states, b.fws, raw) && AllLive(raw) && IsCandidate(b.m.g, b.m.states[s], s, b.fws, a)
    ensures |b.m.pos| == |b.m.states| == b.m.t.nstate && b.m.pos[s] < |b.m.t.dflt|
    ensures |b.m.t.action| == |b.m.t.lookahead|
    ensures a.kind == Shift ==> a.arg < |b.m.states|
    ensures FindShiftAction(b.m.t, b.m.pos[s], a.sp) == Code(b.m.g, |b.m.states|, b.m.pos, a)
    ensures forall k :: 0 <= k < |b.m.pos| ==> b.m.pos[k] < |b.m.states|
  {
    hide Follows, StartNotInRhs, AllMade, Refines, AllKept, AllLive, IsCandidate, FindShiftAction, Code;
    CandidateIsLive(b.m.g, b.m.states, b.fws, raw, s, a);
    MadeAt(b.m.g, b.m.states, b.fws, raw, dflts, acts, s);
    RefinesShift(b.m.g, acts, b.m.sorted, b.m.pos, b.m.t, s, a.sp);
    AnswersShift(b, raw, dflts, acts, s, a.sp);
  }

  /** Without conflicts the arrays hold every action that is asked for. */
  lemma GeneratedObeys(b: Built, raw: seq<seq<Action>>, dflts: seq<Option<nat>>, acts: seq<seq<Action>>)
    requires Follows(b) && StartNotInRhs(b.m.g) && AllMade(b.m.g, b.m.states, b.fws, raw, dflts, acts)
    requires Refines(b.m.g, acts, b.m.sorted, b.m.pos, b.m.t) && ShortRules(b.m.g)
    requires AllKept(b.m.g, b.m.states, b.fws, raw) && AllLive(raw)
    ensures Prompt(b)
  {
    GeneratedDrives(b, raw, dflts, acts);
    forall s, x | 0 <= s < |b.m.states| && 0 <= x < b.m.g.nterminal ensures Obeys(b, s, x) {
      StateObeys(b, raw, dflts, acts, s, x);
    }
    hide Follows, Drives, Obeys;
  }

  lemma StateObeys(b: Built, raw: seq<seq<Action>>, dflts: seq<Option<nat>>, acts: seq<seq<Action>>, s: nat, x: nat)
    requires Follows(b) && StartNotInRhs(b.m.g) && AllMade(b.m.g, b.m.states, b.fws, raw, dflts, acts) && Drives(b.m)
    requires Refines(b.m.g, acts, b.m.sorted, b.m.pos, b.m.t)
    requires AllKept(b.m.g, b.m.states, b.fws, raw) && AllLive(raw) && s < |b.m.states| && x < b.m.g.nterminal
    ensures Obeys(b, s, x)
  {
    hide Follows, StartNotInRhs, AllMade, Refines, AllKept, AllLive, FindShiftAction, Drives;
    var st := b.m.states[s];
    if x in st.shifts {
      CandidateLooksUp(b, raw, dflts, acts, s, Action(x, Shift, st.shifts[x]));
    }
    forall r | 0 <= r < |b.m.g.rules| && IsDue(b, s, r, x) ensures
      s < |b.m.pos| && b.m.pos[s] < |b.m.t.dflt| && |b.m.t.action| == |b.m.t.lookahead|
      && FindShiftAction(b.m.t, b.m.pos[s], x) == b.m.t.nstate + r
    {
      CandidateLooksUp(b, raw, dflts, acts, s, Action(x, Reduce, r));
    }
  }

  // ----- everything in order -----

  method MakeActions(g: Grammar, ghost lambda: seq<bool>, ghost first: seq<set<nat>>, states: seq<State>,
      ghost links: seq<Link>, fws: Family)
    returns (raw: seq<seq<Action>>, clean: bool, ghost cands: seq<seq<Action>>)
    requires WellFormed(g) && StartNotInRhs(g) && FitsMsort(g) && IsAutomaton(g, lambda, first, states, links)
    requires forall c :: IsConfig(states, c) ==> c in fws
    ensures AllKept(g, states, fws, raw) && AllDecided(g, states, fws, cands, raw)
    ensures clean <==> forall s :: 0 <= s < |states| ==> NoConflict(g, states[s], s, fws)
    ensures forall s :: 0 <= s < |states| ==> Resolved(g, states[s], s, fws, raw[s]) && Sortable(raw[s])
  {
    hide *;
    raw, clean, cands := [], true, [];
    for s := 0 to |states|
      invariant |raw| == |cands| == s && (clean <==> forall q :: 0 <= q < s ==> NoConflict(g, states[q], q, fws))
      invariant forall q :: 0 <= q < s ==>
          KeepsAll(g, states[q], q, fws, raw[q]) && Resolved(g, states[q], q, fws, raw[q]) && Sortable(raw[q])
      invariant forall q :: 0 <= q < s ==> WellDecided(g, states[q], q, fws, cands[q], raw[q])
    {
      ShiftSymbols(g, lambda, first, states, links, s);
      StateItems(g, lambda, first, states, links, s);
      ItemsInFamily(states, fws, s);
      var ap, nconflict;
      ghost var all;
      ap, nconflict, all := StateActions(g, states[s], s, fws);
      var live := NoneLost(ap);
      clean := clean && live;
      raw, cands := raw + [ap], cands + [all];
    }
    NowAllKept(g, states, fws, raw);
    NowAllDecided(g, states, fws, cands, raw);
  }

  lemma NowAllDecided(g: Grammar, states: seq<State>, fws: Family, cands: seq<seq<Action>>, raw: seq<seq<Action>>)
    requires WellFormed(g) && |cands| == |raw| == |states|
    requires forall s :: 0 <= s < |states| ==> WellDecided(g, states[s], s, fws, cands[s], raw[s])
    ensures AllDecided(g, states, fws, cands, raw)
  {
    hide WellFormed, WellDecided;
  }

  lemma ItemsInFamily(states: seq<State>, fws: Family, s: nat)
    requires s < |states| && forall c :: IsConfig(states, c) ==> c in fws
    ensures forall it :: it in states[s].items ==> Config(s, it) in fws
  {
    forall it | it in states[s].items ensures Config(s, it) in fws {
      assert IsConfig(states, Config(s, it));
    }
  }

  lemma NowAllKept(g: Grammar, states: seq<State>, fws: Family, raw: seq<seq<Action>>)
    requires |raw| == |states| && forall s :: 0 <= s < |states| ==> KeepsAll(g, states[s], s, fws, raw[s])
    ensures AllKept(g, states, fws, raw)
  {
    hide KeepsAll;
  }

  lemma StateItems(g: Grammar, lambda: seq<bool>, first: seq<set<nat>>, states: seq<State>, links: seq<Link>, s: nat)
    requires IsAutomaton(g, lambda, first, states, links) && s < |states|
    ensures NoDuplicates(states[s].items) && forall it :: it in states[s].items ==> GoodItem(g, it)
    ensures forall x :: x in states[s].shifts ==> states[s].shifts[x] < |states|
  {
    assert GoodState(g, lambda, first, states[s], s == 0) && GoodShifts(g, states, s);
    hide StatesInv, LinksInv, IsClosure;
  }

  /** Whether no action was marked as having lost a conflict. */
  method NoneLost(ap: seq<Action>) returns (live: bool)
    ensures live <==> forall a :: a in ap ==> Live(a)
  {
    live := true;
    for k := 0 to |ap|
      invariant live <==> forall j :: 0 <= j < k ==> Live(ap[j])
    {
      live := live && Live(ap[k]);
    }
  }

  method MakeCompressed(g: Grammar, ghost lambda: seq<bool>, ghost first: seq<set<nat>>, states: seq<State>,
      ghost links: seq<Link>, ghost fws: Family, raw: seq<seq<Action>>)
    returns (acts: seq<seq<Action>>, ghost dflts: seq<Option<nat>>)
    requires WellFormed(g) && StartNotInRhs(g) && IsAutomaton(g, lambda, first, states, links) && |raw| == |states|
    requires forall s :: 0 <= s < |states| ==> Resolved(g, states[s], s, fws, raw[s]) && Sortable(raw[s])
    ensures AllMade(g, states, fws, raw, dflts, acts)
  {
    acts, dflts := [], [];
    hide *;
    for s := 0 to |states|
      invariant |acts| == |dflts| == s
      invariant forall q :: 0 <= q < s ==> Made(g, states, q, fws, raw[q], dflts[q], acts[q])
    {
      ShiftSymbols(g, lambda, first, states, links, s);
      ResolvedInRange(g, states[s], s, fws, raw[s]);
      var ap;
      ghost var dflt;
      ap, dflt := CompressState(g, raw[s]);
      MadeNow(g, lambda, first, states, links, s, fws, raw[s], dflt, ap);
      acts, dflts := acts + [ap], dflts + [dflt];
    }
    NowAllMade(g, states, fws, raw, dflts, acts);
  }

  lemma MadeNow(g: Grammar, lambda: seq<bool>, first: seq<set<nat>>, states: seq<State>, links: seq<Link>, s: nat,
      fws: Family, ap: seq<Action>, dflt: Option<nat>, ap': seq<Action>)
    requires IsAutomaton(g, lambda, first, states, links) && s < |states| && GoodShiftSymbols(g, states[s])
    requires Resolved(g, states[s], s, fws, ap) && Compressed(g, ap, dflt, ap')
    ensures Made(g, states, s, fws, ap, dflt, ap')
  {
    hide Resolved, Compressed, GoodShiftSymbols, IsAutomaton;
    StateItems(g, lambda, first, states, links, s);
  }

  lemma NowAllMade(g: Grammar, states: seq<State>, fws: Family, raw: seq<seq<Action>>, dflts: seq<Option<nat>>,
      acts: seq<seq<Action>>)
    requires |raw| == |dflts| == |acts| == |states|
    requires forall s :: 0 <= s < |states| ==> Made(g, states, s, fws, raw[s], dflts[s], acts[s])
    ensures AllMade(g, states, fws, raw, dflts, acts)
  {
    hide Made;
  }

  lemma ResolvedInRange(g: Grammar, st: State, s: nat, fws: Family, ap: seq<Action>)
    requires WellFormed(g) && GoodShiftSymbols(g, st) && Resolved(g, st, s, fws, ap)
    ensures Deterministic(ap)
    ensures forall k :: 0 <= k < |ap| ==> (Live(ap[k]) ==> ap[k].sp < g.nsymbol) && (ap[k].kind == Reduce ==>
        ap[k].arg < |g.rules|)
  {
    hide Deterministic;
    forall k | 0 <= k < |ap| && Live(ap[k])
      ensures ap[k].sp < g.nsymbol && (ap[k].kind == Reduce ==> ap[k].arg < |g.rules|)
    {
      assert ap[k] in ap && IsCandidate(g, st, s, fws, ap[k]);
    }
  }

  /** What the generator works out between the grammar and the arrays. */
  datatype Work = Work(cands: seq<seq<Action>>, raw: seq<seq<Action>>, dflts: seq<Option<nat>>, acts: seq<seq<Action>>,
      lay: Layout)

  ghost predicate AllDecided(g: Grammar, states: seq<State>, fws: Family, cands: seq<seq<Action>>,
      raw: seq<seq<Action>>)
    requires WellFormed(g)
  {
    |cands| == |raw| == |states| && forall s :: 0 <= s < |states| ==>
        WellDecided(g, states[s], s, fws, cands[s], raw[s])
  }

  /** From FindFirstSets to ReportTable: the sets, the automaton and the follow sets, the decided and compressed
      lists, the order of the states, and the arrays written from them. */
  ghost predicate Generated(b: Built, w: Work) {
    var (g, states, acts) := (b.m.g, b.m.states, w.acts);
    && Follows(b) && Fed(states, 1) && StartNotInRhs(g) && AllDecided(g, states, b.fws, w.cands, w.raw)
    && AllMade(g, states, b.fws, w.raw, w.dflts, acts)
    && Input(g, acts, b.m.sorted, b.m.pos) && Resorted(g, acts, b.m.sorted)
    && IsReport(g, acts, b.m.sorted, b.m.pos, w.lay, b.m.t)
  }

  lemma GeneratedParts(b: Built, w: Work)
    requires Generated(b, w)
    ensures Follows(b) && StartNotInRhs(b.m.g) && AllMade(b.m.g, b.m.states, b.fws, w.raw, w.dflts, w.acts)
    ensures WellFormed(b.m.g) && Fed(b.m.states, 1)
    ensures AllDecided(b.m.g, b.m.states, b.fws, w.cands, w.raw)
    ensures Input(b.m.g, w.acts, b.m.sorted, b.m.pos) && IsReport(b.m.g, w.acts, b.m.sorted, b.m.pos, w.lay, b.m.t)
    ensures IsOrder(b.m.g, w.acts, b.m.sorted, b.m.pos, w.lay.order, w.lay.k)
  {
    GrammarOf(b);
    hide Follows, StartNotInRhs, AllDecided, AllMade, Input, IsOrder, Resorted, Progress, Frame, PackedTable, IsEmitted;
    hide IsOffsets, WellFormed, Fed;
  }

  /** No parser state sees an action of another state that differs from its default. */
  ghost predicate Calm(b: Built, w: Work)
    requires Generated(b, w)
  {
    GeneratedParts(b, w);
    Undisturbed(b.m.g, w.acts, b.m.sorted, b.m.pos, b.m.t)
  }

  ghost predicate Kept(b: Built, w: Work)
    requires Generated(b, w)
  {
    GeneratedParts(b, w);
    PackedTable(b.m.g, w.acts, b.m.sorted, b.m.pos, w.lay).kept
  }

  // ----- what becomes of the actions, from the automaton to the arrays -----

  /** The action left on a lookahead is the one chosen by precedence, associativity and rule number. */
  lemma GeneratedChooses(b: Built, w: Work, s: nat, a: Action)
    requires Generated(b, w) && s < |b.m.states|
    ensures s < |w.raw| && (a in w.raw[s] && Live(a) <==> Chosen(b.m.g, b.m.states[s], s, b.fws, a))
  {
    hide *;
    GeneratedParts(b, w);
    DecidedAt(b.m.g, b.m.states, b.fws, w.cands, w.raw, s);
    DecidedIsChosen(b.m.g, b.m.states[s], s, b.fws, w.cands[s], w.raw[s], a);
  }

  lemma DecidedAt(g: Grammar, states: seq<State>, fws: Family, cands: seq<seq<Action>>, raw: seq<seq<Action>>, s: nat)
    requires WellFormed(g) && AllDecided(g, states, fws, cands, raw) && s < |states|
    ensures |cands| == |raw| == |states| && WellDecided(g, states[s], s, fws, cands[s], raw[s])
  {
    hide WellFormed, WellDecided;
  }

  /** The default of a state is the rule, other than a start rule, that is reduced on most terminals; of several such
      rules the one that is reduced on the least terminal. */
  lemma GeneratedDefault(b: Built, w: Work, s: nat, r: nat)
    requires Generated(b, w) && s < |b.m.states| && r < |b.m.g.rules| && b.m.g.rules[r].lhs != b.m.g.start
    ensures s < |w.dflts| == |w.raw|
    ensures w.dflts[s] == None ==> ReducedOn(w.raw[s], r) == {}
    ensures w.dflts[s].Some? && w.dflts[s].value != r ==>
      var (best, ap) := (w.dflts[s].value, w.raw[s]);
      && best < |b.m.g.rules| && b.m.g.rules[best].lhs != b.m.g.start
      && (|| |ReducedOn(ap, r)| < |ReducedOn(ap, best)|
          || (|ReducedOn(ap, r)| == |ReducedOn(ap, best)|
              && forall t :: t in ReducedOn(ap, r) ==> exists t' :: t' in ReducedOn(ap, best) && t' < t))
  {
    hide *;
    GeneratedParts(b, w);
    DecidedAt(b.m.g, b.m.states, b.fws, w.cands, w.raw, s);
    DecidedByLookahead(b.m.g, b.m.states[s], s, b.fws, w.cands[s], w.raw[s]);
    MadeAt(b.m.g, b.m.states, b.fws, w.raw, w.dflts, w.acts, s);
    DefaultOfList(b.m.g, b.m.states[s], s, b.fws, w.raw[s], w.dflts[s], w.acts[s], r);
  }

  lemma DefaultOfList(g: Grammar, st: State, s: nat, fws: Family, ap: seq<Action>, dflt: Option<nat>, ap': seq<Action>,
      r: nat)
    requires Resolved(g, st, s, fws, ap) && Compressed(g, ap, dflt, ap') && ByLookahead(ap)
    requires r < |g.rules| && g.rules[r].lhs != g.start
    ensures dflt == None ==> ReducedOn(ap, r) == {}
    ensures dflt.Some? && dflt.value != r ==>
      var best := dflt.value;
      && best < |g.rules| && g.rules[best].lhs != g.start
      && (|| |ReducedOn(ap, r)| < |ReducedOn(ap, best)|
          || (|ReducedOn(ap, r)| == |ReducedOn(ap, best)|
              && forall t :: t in ReducedOn(ap, r) ==> exists t' :: t' in ReducedOn(ap, best) && t' < t))
  {
    hide Earlier, CountFrom, IsCandidate;
    if dflt.Some? && dflt.value != r {
      DefaultByLookaheads(g, ap, dflt.value, r);
    }
  }

  /** States with fewer actions have larger numbers. */
  lemma GeneratedNumbers(b: Built, w: Work)
    requires Generated(b, w)
    ensures FewerLater(b.m.g, w.acts, b.m.sorted)
  {
    assert GoodLists(b.m.g, w.acts) && Renumbering(|w.acts|, b.m.sorted, b.m.pos) by {
      GeneratedParts(b, w);
      hide Generated, GoodLists, Renumbering;
    }
    hide GoodLists, Renumbering, Follows, Fed, AllDecided, AllMade, IsReport, WellFormed, Resorted, StartNotInRhs;
    ResortedFewerLater(b.m.g, w.acts, b.m.sorted, b.m.pos);
  }

  /** If no state is disturbed, the arrays hold the action that was left. */
  lemma GeneratedLooksUp(b: Built, w: Work, s: nat, a: Action)
    requires Generated(b, w) && Calm(b, w) && s < |b.m.states| && s < |w.raw|
    requires a in w.raw[s] && Live(a) && a.sp < b.m.g.nterminal
    ensures |b.m.pos| == |b.m.states| == b.m.t.nstate && b.m.pos[s] < |b.m.t.dflt|
    ensures |b.m.t.action| == |b.m.t.lookahead| && (a.kind == Shift ==> a.arg < |b.m.states|)
    ensures FindShiftAction(b.m.t, b.m.pos[s], a.sp) == Code(b.m.g, |b.m.states|, b.m.pos, a)
  {
    hide *;
    GeneratedParts(b, w);
    CalmIs(b, w);
    WrittenRefines(b.m.g, w.acts, b.m.sorted, b.m.pos, w.lay, b.m.t);
    MadeAt(b.m.g, b.m.states, b.fws, w.raw, w.dflts, w.acts, s);
    AnswersShift(b, w.raw, w.dflts, w.acts, s, a.sp);
    SparseHas(b.m.g, |b.m.states|, b.m.pos, w.raw[s], w.dflts[s], a, FindShiftAction(b.m.t, b.m.pos[s], a.sp));
  }

  lemma SparseHas(g: Grammar, n: nat, pos: seq<nat>, ap: seq<Action>, dflt: Option<nat>, a: Action, act: int)
    requires |pos| == n && ArgsInRange(g, n, ap) && SparseAction(g, n, pos, ap, dflt, a.sp, act)
    requires a in ap && Live(a)
    ensures (a.kind == Shift ==> a.arg < n) && act == Code(g, n, pos, a)
  {
  }

  /** Generated arrays drive the parser soundly, if no state is disturbed exactly when the rules are short. */
  lemma GeneratedIsSound(b: Built, w: Work)
    requires Generated(b, w) && Calm(b, w)
    ensures Drives(b.m) <==> ShortRules(b.m.g)
  {
    hide *;
    GeneratedParts(b, w);
    CalmIs(b, w);
    WrittenRefines(b.m.g, w.acts, b.m.sorted, b.m.pos, w.lay, b.m.t);
    GeneratedDrives(b, w.raw, w.dflts, w.acts);
  }

  lemma CalmIs(b: Built, w: Work)
    requires Generated(b, w)
    ensures Input(b.m.g, w.acts, b.m.sorted, b.m.pos)
    ensures (Calm(b, w) <==> Undisturbed(b.m.g, w.acts, b.m.sorted, b.m.pos, b.m.t))
  {
    GeneratedParts(b, w);
    hide Generated, Undisturbed, Input;
  }

  /** Said without the arrays: in the one layout that the lists have, no state meets a foreign action that is not its
      default. */
  lemma CalmIsHarmless(b: Built, w: Work)
    requires Generated(b, w)
    ensures Input(b.m.g, w.acts, b.m.sorted, b.m.pos)
    ensures Calm(b, w) <==> Harmless(b.m.g, w.acts, b.m.sorted, b.m.pos)
  {
    hide *;
    GeneratedParts(b, w);
    CalmIs(b, w);
    HarmlessIsUndisturbed(b.m.g, w.acts, b.m.sorted, b.m.pos, w.lay, b.m.t);
  }

  /** For an LALR(1) grammar the arrays hold every action that is asked for. */
  lemma GeneratedIsPrompt(b: Built, w: Work)
    requires Generated(b, w) && Calm(b, w) && ShortRules(b.m.g) && Lalr1(b.m.g)
    ensures Prompt(b)
  {
    hide *;
    GeneratedParts(b, w);
    CalmIs(b, w);
    WrittenRefines(b.m.g, w.acts, b.m.sorted, b.m.pos, w.lay, b.m.t);
    NoConflictsIsLalr1(b);
    NothingLostIn(b, w);
    GeneratedObeys(b, w.raw, w.dflts, w.acts);
  }

  /** Without conflicts every candidate is live in the lists. */
  lemma NothingLostIn(b: Built, w: Work)
    requires WellFormed(b.m.g) && AllDecided(b.m.g, b.m.states, b.fws, w.cands, w.raw) && NoConflicts(b)
    requires AllMade(b.m.g, b.m.states, b.fws, w.raw, w.dflts, w.acts)
    ensures AllKept(b.m.g, b.m.states, b.fws, w.raw) && AllLive(w.raw)
  {
    var (g, states, fws) := (b.m.g, b.m.states, b.fws);
    hide WellFormed, WellDecided, NoConflict, Made, KeepsAll, Live;
    forall s | 0 <= s < |states|
      ensures KeepsAll(g, states[s], s, fws, w.raw[s]) && forall k :: 0 <= k < |w.raw[s]| ==> Live(w.raw[s][k])
    {
      MadeAt(g, states, fws, w.raw, w.dflts, w.acts, s);
      DecidedParts(g, states[s], s, fws, w.cands[s], w.raw[s]);
      LiveIsNoConflict(g, states[s], s, fws, w.cands[s], w.raw[s]);
      assert forall k :: 0 <= k < |w.raw[s]| ==> w.raw[s][k] in w.raw[s];
    }
  }

  lemma DecidedParts(g: Grammar, st: State, i: nat, fws: Family, cands: seq<Action>, ap: seq<Action>)
    requires WellFormed(g) && WellDecided(g, st, i, fws, cands, ap)
    ensures KeepsAll(g, st, i, fws, ap)
  {
    hide WellFormed, Fresh, Decided, IsCandidate, KeepsAll;
    DecidedKeepsAll(g, st, i, fws, cands, ap);
  }

  /** Exact packing is enough: no state is disturbed. */
  lemma KeptIsCalm(b: Built, w: Work)
    requires Generated(b, w) && Kept(b, w)
    ensures Calm(b, w)
  {
    hide *;
    GeneratedParts(b, w);
    KeptIs(b, w);
    CalmIs(b, w);
    KeptIsUndisturbed(b.m.g, w.acts, b.m.sorted, b.m.pos, w.lay, b.m.t);
  }

  lemma KeptIs(b: Built, w: Work)
    requires Generated(b, w)
    ensures Input(b.m.g, w.acts, b.m.sorted, b.m.pos)
    ensures IsOrder(b.m.g, w.acts, b.m.sorted, b.m.pos, w.lay.order, w.lay.k)
    ensures Kept(b, w) <==> PackedTable(b.m.g, w.acts, b.m.sorted, b.m.pos, w.lay).kept
  {
    GeneratedParts(b, w);
    hide Generated, RowLists, Input;
  }

  /** So is an action on terminal 0 or 1 in every state with terminal actions. */
  lemma LowTerminalsAreCalm(b: Built, w: Work)
    requires Generated(b, w)
    requires forall s, a :: 0 <= s < |w.acts| && a in w.acts[s] && Live(a) && a.sp < b.m.g.nterminal ==>
      HasLive(w.acts[s], 0) || HasLive(w.acts[s], 1)
    ensures Calm(b, w)
  {
    hide *;
    GeneratedParts(b, w);
    CalmIs(b, w);
    LowTerminalRowsUndisturbed(b.m.g, w.acts, b.m.sorted, b.m.pos, w.lay, b.m.t);
  }

  /** The parser generated from an LALR(1) grammar accepts exactly the sentences of the grammar. */
  lemma GeneratedAcceptsLanguage(b: Built, w: Work, input: seq<nat>)
    requires Generated(b, w) && Calm(b, w) && ShortRules(b.m.g) && Lalr1(b.m.g) && Tokens(b.m.g, input)
    ensures Drives(b.m) && OnStack(b.m, Bottom())
    ensures Accepts(b.m, input) <==> Derives(b.m.g, [b.m.g.start], input)
  {
    hide *;
    GeneratedIsPrompt(b, w);
    AcceptsLanguage(b, input);
  }

  /** The generator; `clean` tells that no action was ever in conflict. */
  method Generate(g: Grammar) returns (t: Tables, clean: bool, ghost b: Built, ghost w: Work)
    requires WellFormed(g) && StartNotInRhs(g) && FitsMsort(g) && g.nsymbol < -NO_OFFSET
    ensures Generated(b, w) && b.m.g == g && b.m.t == t
    ensures clean <==> Lalr1(g)
    ensures Calm(b, w) ==> (Drives(b.m) <==> ShortRules(g))
    ensures Calm(b, w) && ShortRules(g) && clean ==> Prompt(b)
    ensures Kept(b, w) ==> Calm(b, w)
  {
    hide *;
    var symbols := new Symbols(g);
    symbols.FindFirstSets();
    var (lambda, first) := (symbols.lambda, symbols.firstset);
    var gen := new Generator(g, lambda, first);
    gen.FindStates();
    var (states, links) := (gen.states, gen.links);
    var p := FindLinks(g, lambda, first, states, links);
    ghost var low := p.fws;
    p.FindFollowSets();
    var fws := p.fws;
    InFamily(states, p.fplp, low, fws);
    var raw;
    ghost var cands;
    raw, clean, cands := MakeActions(g, lambda, first, states, links, fws);
    KeptLength(g, states, fws, raw);
    var acts;
    ghost var dflts;
    acts, dflts := MakeCompressed(g, lambda, first, states, links, fws, raw);
    MadeIsGood(g, states, fws, raw, dflts, acts);
    NotNone(g, lambda, first, states, links);
    MadeLength(g, states, fws, raw, dflts, acts);
    var sorted, pos := ResortStates(g, acts);
    assert Input(g, acts, sorted, pos) by { AsInput(g, acts, sorted, pos); }
    ghost var lay;
    t, lay := ReportTable(g, acts, sorted, pos);
    b := Built(Machine(g, states, sorted, pos, t), lambda, first, links, p.fplp, low, fws);
    w := Work(cands, raw, dflts, acts, lay);
    AsFollows(b);
    AsGenerated(b, w);
    AsNoConflicts(b, clean);
    NoConflictsIsLalr1(b);
    if Kept(b, w) { KeptIsCalm(b, w); }
    if Calm(b, w) {
      GeneratedIsSound(b, w);
      if clean && ShortRules(g) { GeneratedIsPrompt(b, w); }
    }
  }

  lemma AsGenerated(b: Built, w: Work)
    requires Follows(b) && Fed(b.m.states, 1) && StartNotInRhs(b.m.g) && WellFormed(b.m.g)
    requires AllDecided(b.m.g, b.m.states, b.fws, w.cands, w.raw)
    requires AllMade(b.m.g, b.m.states, b.fws, w.raw, w.dflts, w.acts) && GoodLists(b.m.g, w.acts)
    requires Input(b.m.g, w.acts, b.m.sorted, b.m.pos) && Resorted(b.m.g, w.acts, b.m.sorted)
    requires IsReport(b.m.g, w.acts, b.m.sorted, b.m.pos, w.lay, b.m.t)
    ensures Generated(b, w)
  {
    hide Follows, Fed, StartNotInRhs, AllDecided, AllMade, Input, Resorted, IsReport, WellFormed, GoodLists;
  }

  lemma AsNoConflicts(b: Built, clean: bool)
    requires clean <==> forall s :: 0 <= s < |b.m.states| ==> NoConflict(b.m.g, b.m.states[s], s, b.fws)
    ensures clean <==> NoConflicts(b)
  {
    hide NoConflict;
  }

  lemma InFamily(states: seq<State>, fplp: map<Config, seq<Config>>, low: Family, fws: Family)
    requires IsInitial(states, low) && IsLeast(fplp, low, fws)
    ensures forall c :: IsConfig(states, c) ==> c in fws
  {
  }

  lemma KeptLength(g: Grammar, states: seq<State>, fws: Family, raw: seq<seq<Action>>)
    requires AllKept(g, states, fws, raw)
    ensures |raw| == |states|
  {
  }

  lemma MadeLength(g: Grammar, states: seq<State>, fws: Family, raw: seq<seq<Action>>, dflts: seq<Option<nat>>,
      acts: seq<seq<Action>>)
    requires AllMade(g, states, fws, raw, dflts, acts)
    ensures |acts| == |states|
  {
  }

  lemma NotNone(g: Grammar, lambda: seq<bool>, first: seq<set<nat>>, states: seq<State>, links: seq<Link>)
    requires IsAutomaton(g, lambda, first, states, links)
    ensures |states| > 0
  {
  }

  lemma AsInput(g: Grammar, acts: seq<seq<Action>>, sorted: seq<nat>, pos: seq<nat>)
    requires WellFormed(g) && g.nsymbol < -NO_OFFSET && GoodLists(g, acts) && Renumbering(|acts|, sorted, pos)
    ensures Input(g, acts, sorted, pos)
  {
  }

  lemma AsFollows(b: Built)
    requires WellFormed(b.m.g) && Exact(b.m.g, b.lambda, b.first)
    requires IsAutomaton(b.m.g, b.lambda, b.first, b.m.states, b.links)
    requires Linked(b.links, b.fplp) && IsInitial(b.m.states, b.low) && IsLeast(b.fplp, b.low, b.fws)
    ensures Follows(b)
  {
  }
}
