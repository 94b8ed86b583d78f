/** Two grammars that Lemon accepts without complaint and makes a wrong parser of. */
module LemonFailures {
  import opened Basics
  import opened LemonGrammar
  import opened LemonAutomaton
  import opened LemonLookaheads
  import opened LemonMergeSort
  import opened LemonConflicts
  import opened LemonActions
  import opened LemonOverlay
  import opened LemonActTab
  import opened LemonTables
  import opened LemonReport
  import opened LemonDriver
  import opened LemonComplete
  import opened LemonLalr
  import opened LemonPipeline
  import opened LemonChain

  function Terminals(n: nat): seq<nat> { seq(n, _ => 1) }

  /** The grammar with the one rule `rhs` over `nterminal` terminals. */
  function ChainOf(nterminal: nat, rhs: seq<nat>): Grammar {
    Grammar(nterminal, nterminal + 1, [Rule(nterminal, rhs, NoPrec)], nterminal, seq(nterminal + 1, _ => -1),
            seq(nterminal + 1, _ => Unknown))
  }

  lemma ChainOfIsChain(nterminal: nat, rhs: seq<nat>)
    requires 1 <= nterminal && |rhs| > 0 && forall k :: 0 <= k < |rhs| ==> 1 <= rhs[k] < nterminal
    ensures IsChain(ChainOf(nterminal, rhs)) && Rhs(ChainOf(nterminal, rhs)) == rhs
  {
    var g := ChainOf(nterminal, rhs);
    assert WellFormedRule(g, g.rules[0]);
  }

  /** What is known of the tables generated from a chain. */
  lemma ChainGenerated(b: Built, w: Work)
    requires Generated(b, w) && IsChain(b.m.g)
    ensures ChainInput(b.m.g, w.acts, b.m.sorted, b.m.pos) && Input(b.m.g, w.acts, b.m.sorted, b.m.pos)
    ensures IsReport(b.m.g, w.acts, b.m.sorted, b.m.pos, w.lay, b.m.t)
    ensures ChainStates(b.m.g, b.m.states) && Lalr1(b.m.g)
  {
    hide *;
    GeneratedParts(b, w);
    ChainIs(b, w);
    ChainIsLalr1(b);
    GeneratedResorted(b, w);
    ChainPlaces(b.m.g, w.acts, b.m.sorted, b.m.pos);
  }

  lemma GeneratedResorted(b: Built, w: Work)
    requires Generated(b, w)
    ensures GoodLists(b.m.g, w.acts) && Resorted(b.m.g, w.acts, b.m.sorted)
  {
    hide Follows, StartNotInRhs, AllDecided, AllMade, GoodLists, Resorted, IsReport, WellFormed, Fed, Renumbering;
  }

  // ----- two states that are taken for each other -----

  /** `s ::= T^17 Q`, with T and Q as terminals 1 and 4 of five, and any precedences. */
  ghost predicate Colliding(g: Grammar) {
    IsChain(g) && g.nterminal == 5 && Rhs(g) == Terminals(17) + [4]
  }

  lemma CollidingIs(g: Grammar)
    requires Colliding(g)
    ensures IsChain(g) && g.nterminal == 5 && Rhs(g) == Terminals(17) + [4] && |Terminals(17)| == 17
  {
    hide IsChain;
  }

  /** The first seventeen of its rows are those that spoil the table. */
  lemma CollidingRows(g: Grammar, acts: seq<seq<Action>>, sorted: seq<nat>, pos: seq<nat>, order: seq<AxSet>, k: nat)
    requires Colliding(g) && ChainInput(g, acts, sorted, pos) && Input(g, acts, sorted, pos)
    requires IsOrder(g, acts, sorted, pos, order, k)
    ensures AllRows(g, acts, sorted, pos, order)
    ensures k == 20 <= |order| && forall j :: 0 <= j < k ==> order[j].nAction > 0
    ensures RowLists(g, acts, sorted, pos, order, k)[..17] == Seventeen()
    ensures order[15].p == 3 && order[16].p == 2 && order[15].isTkn && order[16].isTkn
  {
    hide *;
    CollidingIs(g);
    ChainLayout(g, acts, sorted, pos, order, k, 15);
    ChainLayout(g, acts, sorted, pos, order, k, 16);
    forall i: nat | i < 17
      ensures RowLists(g, acts, sorted, pos, order, k)[i] == [Entry((Terminals(17) + [4])[i + 1], 17 - i)]
    {
      ChainLayout(g, acts, sorted, pos, order, k, i);
    }
    SeventeenRows(RowLists(g, acts, sorted, pos, order, k));
  }

  lemma SeventeenRows(lists: seq<seq<Entry>>)
    requires |lists| >= 17
    requires forall i: nat :: i < 17 ==>
        |Terminals(17)| == 17 && lists[i] == [Entry((Terminals(17) + [4])[i + 1], 17 - i)]
    ensures lists[..17] == Seventeen()
  {
    forall i: nat | i < 17 ensures lists[..17][i] == Seventeen()[i] {
      assert lists[i] == [Entry((Terminals(17) + [4])[i + 1], 17 - i)];
    }
  }

  /** States 16 and 17, at positions 3 and 2, get the same offset. */
  lemma CollidingOffsets(g: Grammar, acts: seq<seq<Action>>, sorted: seq<nat>, pos: seq<nat>, lay: Layout, t: Tables)
    requires Colliding(g) && ChainInput(g, acts, sorted, pos) && Input(g, acts, sorted, pos)
    requires IsReport(g, acts, sorted, pos, lay, t)
    ensures SharesOffset(t, 3, 2)
  {
    hide *;
    ReportIs(g, acts, sorted, pos, lay, t);
    ReportParts(g, acts, sorted, pos, lay, t);
    CollidingSizes(g, acts, sorted, pos);
    CollidingRows(g, acts, sorted, pos, lay.order, lay.k);
    TableReplays(g, acts, sorted, pos, lay);
    var lists := RowLists(g, acts, sorted, pos, lay.order, lay.k);
    ReplayPrefix(lists, 17);
    SeventeenSpoiled();
    var rows := PackedTable(g, acts, sorted, pos, lay).rows;
    assert rows[15] == rows[..17][15] && rows[16] == rows[..17][16];
    CollidingPlaced(g, acts, sorted, pos, lay, rows);
    WrittenOffset(g, lay.tkn, lay.mnT, t.shiftOfst, 3);
    WrittenOffset(g, lay.tkn, lay.mnT, t.shiftOfst, 2);
    NowShares(t, 3, 2);
  }

  lemma CollidingPlaced(g: Grammar, acts: seq<seq<Action>>, sorted: seq<nat>, pos: seq<nat>, lay: Layout,
      rows: seq<Row>)
    requires Input(g, acts, sorted, pos) && AllRows(g, acts, sorted, pos, lay.order)
    requires |acts| > 3 && |lay.order| > 16 && lay.order[15].p == 3 && lay.order[16].p == 2
    requires lay.order[15].isTkn && lay.order[16].isTkn
    requires Progress(g, acts, sorted, pos, lay.order, lay.k, lay.tkn, lay.nt, lay.mnT, lay.mnN, rows)
    requires |rows| > 16 && rows[15].offset == rows[16].offset == 14
    ensures |lay.tkn| > 3 && lay.tkn[3] == lay.tkn[2] == 14 != NO_OFFSET
  {
    hide Input, AllRows, RowFor, IsLeastOffset, Unplaced;
    assert Placed(g, acts, sorted, pos, lay.order[15], lay.tkn, lay.nt, rows[15]);
    assert Placed(g, acts, sorted, pos, lay.order[16], lay.tkn, lay.nt, rows[16]);
  }

  /** State 16 reads Q as the shift of state 17. */
  lemma CollidingLookup(g: Grammar, acts: seq<seq<Action>>, sorted: seq<nat>, pos: seq<nat>, lay: Layout, t: Tables)
    requires Colliding(g) && ChainInput(g, acts, sorted, pos) && Input(g, acts, sorted, pos)
    requires IsReport(g, acts, sorted, pos, lay, t)
    ensures t.nstate == |t.dflt| == 19 && |t.action| == |t.lookahead| && FindShiftAction(t, 3, 4) == 1
    ensures !Undisturbed(g, acts, sorted, pos, t)
  {
    hide *;
    CollidingSizes(g, acts, sorted, pos);
    CollidingOffsets(g, acts, sorted, pos, lay, t);
    ReportIs(g, acts, sorted, pos, lay, t);
    FrameParts(g, acts, sorted, t);
    OwnShiftLookup(g, acts, sorted, pos, lay, t, 2, Action(4, Shift, 18));
    SharedOffset(t, 3, 2);
    FoundShift(t, 3, 4);
    SixteenSees(g, acts, sorted, pos, t);
  }

  lemma CollidingSizes(g: Grammar, acts: seq<seq<Action>>, sorted: seq<nat>, pos: seq<nat>)
    requires Colliding(g) && ChainInput(g, acts, sorted, pos)
    ensures |acts| == |sorted| == |pos| == 19 && sorted[2] == 17 && sorted[3] == 16
    ensures Code(g, 19, pos, Action(4, Shift, 18)) == pos[18] == 1 && pos[16] == 3
    ensures Action(4, Shift, 18) in acts[17] && Live(Action(4, Shift, 18)) && g.nterminal == 5
  {
    var a := Action(4, Shift, 18);
    hide *;
    CollidingIs(g);
    SeventeenShifts(g);
    ChainParts(g, acts, sorted, pos);
    ChainHasAction(g, acts, sorted, pos, 17, a);
    ChainCodeIs(g, acts, sorted, pos, 17, a);
  }

  lemma SeventeenShifts(g: Grammar)
    requires Colliding(g)
    ensures ChainAction(g, 17, Action(4, Shift, 18))
    ensures Place(18, 16) == 3 && Place(18, 17) == 2 && Place(18, 18) == 1
    ensures Place(18, 2) == 17 && Place(18, 3) == 16
  {
    CollidingIs(g);
  }

  lemma SixteenSees(g: Grammar, acts: seq<seq<Action>>, sorted: seq<nat>, pos: seq<nat>, t: Tables)
    requires Colliding(g) && ChainInput(g, acts, sorted, pos) && Input(g, acts, sorted, pos)
    requires SharesOffset(t, 3, 2) && |acts| == |sorted| == |pos| == 19 && sorted[2] == 17 && sorted[3] == 16
    requires pos[18] == 1 && Action(4, Shift, 18) in acts[17]
    ensures !Undisturbed(g, acts, sorted, pos, t)
  {
    CollidingIs(g);
    assert ChainList(g, acts[16], 16);
    hide Input, ChainInput, SharesOffset, IsChain, ChainOf, Colliding;
    assert !HasLive(acts[16], 4);
    assert Sees(g, acts, sorted, t, 3, 2, Action(4, Shift, 18));
    assert Code(g, 19, pos, Action(4, Shift, 18)) == 1;
    assert !IsDefault(g, 19, acts[16], 1);
  }

  /** Lemon reports no conflict, and the parser reads Q after sixteen T as if there had been seventeen. */
  lemma CollidingFails(b: Built, w: Work)
    requires Generated(b, w) && Colliding(b.m.g)
    ensures Lalr1(b.m.g) && ShortRules(b.m.g) && !Kept(b, w) && !Calm(b, w) && !Drives(b.m)
    ensures |b.m.pos| == |b.m.states| == 19 && b.m.pos[16] < |b.m.t.dflt| && |b.m.t.action| == |b.m.t.lookahead|
    ensures FindShiftAction(b.m.t, b.m.pos[16], 4) == b.m.pos[18] && 4 !in b.m.states[16].shifts
  {
    hide *;
    CollidingIs(b.m.g);
    ChainGenerated(b, w);
    ChainIsShort(b.m.g);
    CollidingSizes(b.m.g, w.acts, b.m.sorted, b.m.pos);
    CollidingLookup(b.m.g, w.acts, b.m.sorted, b.m.pos, w.lay, b.m.t);
    CalmIs(b, w);
    if Kept(b, w) { KeptIsCalm(b, w); }
    CollidingState(b.m.g, b.m.states);
    if Drives(b.m) {
      DrivesAnswer(b.m, 16, 4);
      assert false;
    }
  }

  lemma CollidingState(g: Grammar, states: seq<State>)
    requires Colliding(g) && ChainStates(g, states)
    ensures |states| == 19 && 4 !in states[16].shifts && g.nterminal == 5
  {
    CollidingIs(g);
    assert ChainState(g, states[16], 16);
  }

  lemma DrivesAnswer(m: Machine, s: nat, x: nat)
    requires Drives(m) && s < |m.states| && x < m.g.nterminal
    ensures |m.pos| == |m.states| == m.t.nstate && m.pos[s] < |m.t.dflt| && |m.t.action| == |m.t.lookahead|
    ensures FindShiftAction(m.t, m.pos[s], x) < m.t.nstate ==> x in m.states[s].shifts
  {
    hide GotoAnswer, WellFormed, StartNotInRhs, FindShiftAction, CanReduce, IsClosure, Complete, Goto;
    assert ShiftAnswer(m, s, x);
  }

  /** After `T^16 Q` the generated parser has seventeen symbols on its stack and reduces eighteen, which takes the
      bottom entry, too. */
  lemma CollidingRun(b: Built, w: Work) returns (st: seq<StackEntry>)
    requires Generated(b, w) && Colliding(b.m.g)
    ensures ShiftsTo(b.m.t, Terminals(16) + [4], st) && |st| == 18
    ensures Top(st).stateno < |b.m.t.dflt| && |b.m.t.action| == |b.m.t.lookahead|
    ensures FindShiftAction(b.m.t, Top(st).stateno, 0) == b.m.t.nstate && b.m.t.ruleNrhs == [18]
    ensures !Safe(b.m, st, 0) && !Derives(b.m.g, [b.m.g.start], Terminals(16) + [4])
  {
    hide *;
    var (g, t) := (b.m.g, b.m.t);
    CollidingIs(g);
    NotSeventeen(g);
    ChainGenerated(b, w);
    CollidingSizes(g, w.acts, b.m.sorted, b.m.pos);
    ChainRun(g, w.acts, b.m.sorted, b.m.pos, w.lay, t, 16);
    CollidingLookup(g, w.acts, b.m.sorted, b.m.pos, w.lay, t);
    st := ChainStack(g, 16) + [StackEntry(1, 4)];
    CollidingStack(g, t);
    ChainLookup(g, w.acts, b.m.sorted, b.m.pos, w.lay, t, 18);
    ChainTables(g, w.acts, b.m.sorted, b.m.pos, w.lay, t, 1, 0);
    LastPlace18(g);
    AllPopped(b.m, st, 0);
  }

  lemma CollidingStack(g: Grammar, t: Tables)
    requires Colliding(g) && |Rhs(g)| == 18
    requires ShiftsTo(t, Rhs(g)[..16], ChainStack(g, 16))
    requires t.nstate == |t.dflt| == 19 && |t.action| == |t.lookahead| && FindShiftAction(t, 3, 4) == 1
    ensures
      var st := ChainStack(g, 16) + [StackEntry(1, 4)];
      |st| == 18 && Top(st).stateno == 1 && ShiftsTo(t, Terminals(16) + [4], st)
  {
    CollidingIs(g);
    var (before, st, w) := (ChainStack(g, 16), ChainStack(g, 16) + [StackEntry(1, 4)],
                            Terminals(16) + [4]);
    assert Rhs(g)[..16] == Terminals(16);
    assert w[..|w| - 1] == Terminals(16) && st[..|st| - 1] == before && Top(before).stateno == 3;
    hide FindShiftAction, ChainStack, Colliding;
  }

  lemma NotSeventeen(g: Grammar)
    requires Colliding(g)
    ensures !Derives(g, [g.start], Terminals(16) + [4])
  {
    CollidingIs(g);
    var w := Terminals(16) + [4];
    assert |w| == 17;
    ChainLanguage(g, w);
  }

  lemma LastPlace18(g: Grammar)
    requires Colliding(g)
    ensures Place(18, 18) == 1 && |Rhs(g)| == 18 && ChainToken(g, 18) == 0
  {
    CollidingIs(g);
  }

  /** A reduce of as many symbols as there are entries leaves no state to go on from. */
  lemma AllPopped(m: Machine, st: seq<StackEntry>, x: nat)
    requires st != [] && Top(st).stateno < |m.t.dflt| && |m.t.action| == |m.t.lookahead|
    requires FindShiftAction(m.t, Top(st).stateno, x) == m.t.nstate && m.t.ruleNrhs == [|st|]
    ensures !Safe(m, st, x)
  {
    hide FindShiftAction, OnStack, Symbols, ReduceActionThere;
  }

  // ----- a right-hand side that is not popped -----

  /** `s ::= T^256`, with T as the only terminal besides the end marker. */
  ghost predicate Long(g: Grammar) {
    IsChain(g) && g.nterminal == 2 && Rhs(g) == Terminals(256)
  }

  lemma LongIs(g: Grammar)
    requires Long(g)
    ensures IsChain(g) && g.nterminal == 2 && Rhs(g) == Terminals(256) && |Terminals(256)| == 256
  {
    hide IsChain;
  }

  /** No state is disturbed, as all of them have an action on terminal 0 or 1; still the arrays do not drive the
      parser. */
  lemma LongFails(b: Built, w: Work)
    requires Generated(b, w) && Long(b.m.g)
    ensures Lalr1(b.m.g) && Calm(b, w) && !ShortRules(b.m.g) && !Drives(b.m)
  {
    hide *;
    LongIs(b.m.g);
    ChainGenerated(b, w);
    ChainIsShort(b.m.g);
    forall s, a | 0 <= s < |w.acts| && a in w.acts[s] && Live(a) && a.sp < b.m.g.nterminal
      ensures HasLive(w.acts[s], 0) || HasLive(w.acts[s], 1)
    {
      LongIsLow(b.m.g, w.acts, b.m.sorted, b.m.pos, s, a);
    }
    LowTerminalsAreCalm(b, w);
    GeneratedIsSound(b, w);
  }

  lemma LongIsLow(g: Grammar, acts: seq<seq<Action>>, sorted: seq<nat>, pos: seq<nat>, s: nat, a: Action)
    requires Long(g) && ChainInput(g, acts, sorted, pos) && s < |acts| && a in acts[s] && Live(a)
    requires a.sp < g.nterminal
    ensures HasLive(acts[s], 0) || HasLive(acts[s], 1)
  {
    LongIs(g);
    hide ChainInput, IsChain, Long, Live;
    assert a.sp == 0 || a.sp == 1;
    NowHasLive(acts[s], a);
  }

  /** After `T^256` the generated parser reduces by the rule, pops nothing, and finds no goto where it then looks for
      one. */
  lemma LongRun(b: Built, w: Work) returns (st: seq<StackEntry>)
    requires Generated(b, w) && Long(b.m.g)
    ensures ShiftsTo(b.m.t, Terminals(256), st) && |st| == 257
    ensures Top(st).stateno < |b.m.t.dflt| && |b.m.t.action| == |b.m.t.lookahead|
    ensures FindShiftAction(b.m.t, Top(st).stateno, 0) == b.m.t.nstate && b.m.t.ruleNrhs == [0]
    ensures !ReduceActionThere(b.m.t, Top(st).stateno, b.m.g.start) && Derives(b.m.g, [b.m.g.start], Terminals(256))
  {
    hide *;
    var (g, t) := (b.m.g, b.m.t);
    LongIs(g);
    LongSentence(g);
    ChainGenerated(b, w);
    ChainParts(g, w.acts, b.m.sorted, b.m.pos);
    ChainRun(g, w.acts, b.m.sorted, b.m.pos, w.lay, t, 256);
    st := ChainStack(g, 256);
    assert Rhs(g)[..256] == Rhs(g);
    LongTop(g);
    ChainLookup(g, w.acts, b.m.sorted, b.m.pos, w.lay, t, 256);
    ChainTables(g, w.acts, b.m.sorted, b.m.pos, w.lay, t, 1, g.start);
  }

  lemma LongSentence(g: Grammar)
    requires Long(g)
    ensures Derives(g, [g.start], Terminals(256))
  {
    LongIs(g);
    ChainLanguage(g, Terminals(256));
  }

  lemma LongTop(g: Grammar)
    requires Long(g)
    ensures |Rhs(g)| == 256 && |ChainStack(g, 256)| == 257
    ensures Top(ChainStack(g, 256)).stateno == Place(256, 256) == 1 && ChainToken(g, 256) == 0
  {
    LongIs(g);
  }

  // ----- the generator itself, on both -----

  lemma {:induction false} PowerGrows(n: nat)
    ensures Pow2(n) > n
  {
    if n > 0 { PowerGrows(n - 1); }
  }

  lemma TenDoublings(n: nat)
    ensures Pow2(n + 10) == 1024 * Pow2(n)
  {
    assert Pow2(n + 5) == 32 * Pow2(n) by { FiveDoublings(n); }
    FiveDoublings(n + 5);
  }

  lemma FiveDoublings(n: nat)
    ensures Pow2(n + 5) == 32 * Pow2(n)
  {
    assert Pow2(n + 1) == 2 * Pow2(n) && Pow2(n + 2) == 2 * Pow2(n + 1) && Pow2(n + 3) == 2 * Pow2(n + 2);
    assert Pow2(n + 4) == 2 * Pow2(n + 3) && Pow2(n + 5) == 2 * Pow2(n + 4);
  }

  /** The items of a chain. */
  ghost function Marks(n: nat): (s: set<Item>)
    ensures |s| <= n && forall it :: it in s <==> it.rule == 0 && it.dot < n
  {
    if n == 0 then {} else Marks(n - 1) + {Item(0, n - 1)}
  }

  lemma ChainItems(g: Grammar)
    requires IsChain(g)
    ensures |AllItems(g)| <= |Rhs(g)| + 1
  {
    OnlyRule(g);
    hide IsChain;
    assert AllItems(g) == Marks(|Rhs(g)| + 1);
  }

  lemma FewActions(items: nat, n: nat, nterminal: nat)
    requires items <= n && (n + 1) * (nterminal + 1) < 1000
    ensures items * nterminal + nterminal + 2 < 1024
  {
    assert items * nterminal <= n * nterminal;
    assert n * nterminal + nterminal == (n + 1) * nterminal;
    assert (n + 1) * (nterminal + 1) == (n + 1) * nterminal + n + 1;
  }

  lemma ChainFits(g: Grammar)
    requires IsChain(g) && (|Rhs(g)| + 2) * (g.nterminal + 1) < 1000
    ensures StartNotInRhs(g) && FitsMsort(g)
  {
    ChainItems(g);
    FewActions(|AllItems(g)|, |Rhs(g)| + 1, g.nterminal);
    TenDoublings(20);
    PowerGrows(20);
    hide AllItems, Pow2, WellFormed;
  }

  /** Lemon on the first grammar. */
  method GenerateColliding() returns (t: Tables, clean: bool, ghost b: Built, ghost w: Work)
    ensures Generated(b, w) && b.m.g == ChainOf(5, Terminals(17) + [4]) && Colliding(b.m.g) && b.m.t == t && clean
    ensures !Calm(b, w) && !Drives(b.m)
  {
    hide *;
    SmallGrammars();
    ChainFits(ChainOf(5, Terminals(17) + [4]));
    t, clean, b, w := Generate(ChainOf(5, Terminals(17) + [4]));
    CollidingFails(b, w);
  }

  /** And on the second. */
  method GenerateLong() returns (t: Tables, clean: bool, ghost b: Built, ghost w: Work)
    ensures Generated(b, w) && b.m.g == ChainOf(2, Terminals(256)) && Long(b.m.g) && b.m.t == t && clean
    ensures Calm(b, w) && !Drives(b.m)
  {
    hide *;
    SmallGrammars();
    ChainFits(ChainOf(2, Terminals(256)));
    t, clean, b, w := Generate(ChainOf(2, Terminals(256)));
    LongFails(b, w);
  }

  lemma SmallGrammars()
    ensures var g := ChainOf(5, Terminals(17) + [4]);
      Colliding(g) && IsChain(g) && WellFormed(g) && |Rhs(g)| == 18 && g.nterminal == 5 && g.nsymbol < -NO_OFFSET
    ensures var g := ChainOf(2, Terminals(256));
      Long(g) && IsChain(g) && WellFormed(g) && |Rhs(g)| == 256 && g.nterminal == 2 && g.nsymbol < -NO_OFFSET
  {
    ChainOfIsChain(5, Terminals(17) + [4]);
    ChainOfIsChain(2, Terminals(256));
  }
}
