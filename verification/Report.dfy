/** ReportTable: every row goes into the packed table, and the arrays are written out. */
module LemonReport {
  import opened Basics
  import opened LemonGrammar
  import opened LemonMergeSort
  import opened LemonConflicts
  import opened LemonActions
  import opened LemonOverlay
  import opened LemonActTab
  import opened LemonTables
  import QSort

  /** A row still to be placed: `p` is the state number, `nAction` the number of entries. */
  datatype AxSet = AxSet(p: nat, isTkn: bool, nAction: nat, iOrder: nat)

  /** axset_compare: the largest rows first, then the latest. */
  function AxCmp(a: AxSet, b: AxSet): int {
    if a.nAction != b.nAction then b.nAction - a.nAction else b.iOrder - a.iOrder
  }

  ghost predicate Input(g: Grammar, acts: seq<seq<Action>>, sorted: seq<nat>, pos: seq<nat>) {
    && WellFormed(g) && g.nsymbol < -NO_OFFSET && GoodLists(g, acts) && Renumbering(|acts|, sorted, pos)
  }

  ghost function RowFor(g: Grammar, acts: seq<seq<Action>>, sorted: seq<nat>, pos: seq<nat>, p: nat,
      tkn: bool): seq<Entry>
    requires Input(g, acts, sorted, pos) && p < |acts|
  {
    RowEntries(g, |acts|, pos, acts[sorted[p]], tkn)
  }

  ghost function AxFor(g: Grammar, acts: seq<seq<Action>>, sorted: seq<nat>, pos: seq<nat>, p: nat, tkn: bool): AxSet
    requires Input(g, acts, sorted, pos) && p < |acts|
  {
    AxSet(p, tkn, |RowFor(g, acts, sorted, pos, p, tkn)|, if tkn then 2 * p else 2 * p + 1)
  }

  /** All rows, two for each state. */
  ghost predicate AllRows(g: Grammar, acts: seq<seq<Action>>, sorted: seq<nat>, pos: seq<nat>, ax: seq<AxSet>)
    requires Input(g, acts, sorted, pos)
  {
    && (forall k :: 0 <= k < |ax| ==> ax[k].p < |acts| && ax[k] == AxFor(g, acts, sorted, pos, ax[k].p, ax[k].isTkn))
    && (forall k, l :: 0 <= k < l < |ax| ==> ax[k] != ax[l])
    && (forall p, tkn :: 0 <= p < |acts| ==> AxFor(g, acts, sorted, pos, p, tkn) in ax)
  }

  method MakeAxSets(g: Grammar, acts: seq<seq<Action>>, sorted: seq<nat>, ghost pos: seq<nat>) returns (ax: seq<AxSet>)
    requires Input(g, acts, sorted, pos)
    ensures AllRows(g, acts, sorted, pos, ax)
  {
    ax := [];
    for p := 0 to |acts|
      invariant |ax| == 2 * p
      invariant forall k :: 0 <= k < |ax| ==>
          ax[k].iOrder == k && ax[k].p < p && ax[k] == AxFor(g, acts, sorted, pos, ax[k].p, ax[k].isTkn)
      invariant forall q: nat, tkn :: q < p ==> AxFor(g, acts, sorted, pos, q, tkn) in ax
    {
      var nTkn := CountActions(g, acts[sorted[p]], true, |acts|, pos);
      var nNt := CountActions(g, acts[sorted[p]], false, |acts|, pos);
      ghost var before := ax;
      ax := ax + [AxSet(p, true, nTkn, 2 * p), AxSet(p, false, nNt, 2 * p + 1)];
      assert ax[2 * p] in ax && ax[2 * p + 1] in ax;
      assert ax[2 * p] == AxFor(g, acts, sorted, pos, p, true);
      assert ax[2 * p + 1] == AxFor(g, acts, sorted, pos, p, false);
      hide AxFor, Input;
      forall q: nat, tkn | q < p + 1 ensures AxFor(g, acts, sorted, pos, q, tkn) in ax { }
    }
    forall k, l | 0 <= k < l < |ax| ensures ax[k] != ax[l] {
      assert ax[k].iOrder == k && ax[l].iOrder == l;
    }
  }

  lemma SortedRows(g: Grammar, acts: seq<seq<Action>>, sorted: seq<nat>, pos: seq<nat>, ax: seq<AxSet>,
      order: seq<AxSet>)
    requires Input(g, acts, sorted, pos) && AllRows(g, acts, sorted, pos, ax) && multiset(order) == multiset(ax)
    ensures AllRows(g, acts, sorted, pos, order)
  {
    hide Input, AxFor;
    SameElements(order, ax);
    forall k | 0 <= k < |order|
      ensures order[k].p < |acts| && order[k] == AxFor(g, acts, sorted, pos, order[k].p, order[k].isTkn)
    {
      assert order[k] in ax;
    }
    forall k, l | 0 <= k < l < |order| ensures order[k] != order[l] {
      if order[k] == order[l] {
        TwiceCounts(order, k, l);
        assert order[k] in ax;
        var i :| 0 <= i < |ax| && ax[i] == order[k];
        var j := AnotherOne(ax, i);
        assert false;
      }
    }
  }

  /** The row for the next offset given out: `tkn` and `nt` are the offsets by state number. */
  ghost predicate Placed(g: Grammar, acts: seq<seq<Action>>, sorted: seq<nat>, pos: seq<nat>, a: AxSet, tkn: seq<int>,
      nt: seq<int>, row: Row)
    requires Input(g, acts, sorted, pos) && a.p < |acts| == |tkn| == |nt|
  {
    var o := if a.isTkn then tkn[a.p] else nt[a.p];
    o + g.nsymbol > 0 && row == Row(o, RowFor(g, acts, sorted, pos, a.p, a.isTkn))
  }

  ghost predicate Unplaced(a: AxSet, tkn: seq<int>, nt: seq<int>)
    requires a.p < |tkn| == |nt|
  {
    (if a.isTkn then tkn[a.p] else nt[a.p]) == NO_OFFSET
  }

  /** `mn` is the least of the offsets and 0. */
  ghost predicate IsLeastOffset(g: Grammar, ofst: seq<int>, mn: int) {
    && mn + g.nsymbol > 0 >= mn
    && (forall p :: 0 <= p < |ofst| ==> ofst[p] == NO_OFFSET || ofst[p] >= mn)
    && (mn == 0 || mn in ofst)
  }

  /** After `k` rows: they have their offsets, the others none, and `mnT` and `mnN` are the least offsets. */
  ghost predicate Progress(g: Grammar, acts: seq<seq<Action>>, sorted: seq<nat>, pos: seq<nat>, order: seq<AxSet>,
      k: nat, tkn: seq<int>, nt: seq<int>, mnT: int, mnN: int, rows: seq<Row>)
    requires Input(g, acts, sorted, pos) && AllRows(g, acts, sorted, pos, order)
  {
    && k == |rows| <= |order| && |tkn| == |nt| == |acts|
    && (forall j :: 0 <= j < k ==> Placed(g, acts, sorted, pos, order[j], tkn, nt, rows[j]))
    && (forall j :: k <= j < |order| ==> Unplaced(order[j], tkn, nt))
    && IsLeastOffset(g, tkn, mnT) && IsLeastOffset(g, nt, mnN)
  }

  lemma LeastOffsetNext(g: Grammar, ofst: seq<int>, mn: int, p: nat, o: int)
    requires IsLeastOffset(g, ofst, mn) && p < |ofst| && ofst[p] == NO_OFFSET && o + g.nsymbol > 0
    requires g.nsymbol < -NO_OFFSET
    ensures IsLeastOffset(g, ofst[p := o], if o < mn then o else mn)
  {
    assert ofst[p := o][p] == o;
    if mn in ofst {
      var q :| 0 <= q < |ofst| && ofst[q] == mn;
      assert q != p && ofst[p := o][q] == mn;
    }
  }

  lemma NoLimit(g: Grammar, acts: seq<seq<Action>>, sorted: seq<nat>, pos: seq<nat>)
    requires Input(g, acts, sorted, pos)
    ensures g.nsymbol < -NO_OFFSET && g.nsymbol > 0
  {
  }

  lemma ProgressOne(g: Grammar, acts: seq<seq<Action>>, sorted: seq<nat>, pos: seq<nat>, order: seq<AxSet>, k: nat,
      tkn: seq<int>, nt: seq<int>, mnT: int, mnN: int, rows: seq<Row>, o: int)
    requires Input(g, acts, sorted, pos) && AllRows(g, acts, sorted, pos, order)
    requires Progress(g, acts, sorted, pos, order, k, tkn, nt, mnT, mnN, rows) && k < |order| && o + g.nsymbol > 0
    ensures
      var a := order[k];
      var rows' := rows + [Row(o, RowFor(g, acts, sorted, pos, a.p, a.isTkn))];
      if a.isTkn then Progress(g, acts, sorted, pos, order, k + 1, tkn[a.p := o], nt, if o < mnT then o else mnT, mnN,
          rows')
      else Progress(g, acts, sorted, pos, order, k + 1, tkn, nt[a.p := o], mnT, if o < mnN then o else mnN, rows')
  {
    var a := order[k];
    var rows' := rows + [Row(o, RowFor(g, acts, sorted, pos, a.p, a.isTkn))];
    var (tkn', nt') := (if a.isTkn then tkn[a.p := o] else tkn, if a.isTkn then nt else nt[a.p := o]);
    NoLimit(g, acts, sorted, pos);
    hide Input, RowFor, IsLeastOffset;
    assert Unplaced(a, tkn, nt);
    if a.isTkn { LeastOffsetNext(g, tkn, mnT, a.p, o); } else { LeastOffsetNext(g, nt, mnN, a.p, o); }
    forall j | 0 <= j < |order| && j != k ensures order[j].p != a.p || order[j].isTkn != a.isTkn {
      assert order[j] != order[k];
    }
    forall j | 0 <= j < k + 1 ensures Placed(g, acts, sorted, pos, order[j], tkn', nt', rows'[j]) {
      if j < k { assert Placed(g, acts, sorted, pos, order[j], tkn, nt, rows[j]); }
    }
    forall j | k + 1 <= j < |order| ensures Unplaced(order[j], tkn', nt') {
      assert Unplaced(order[j], tkn, nt);
    }
  }

  /** The calls of acttab_action for one row. */
  method FillRow(tab: ActTab, g: Grammar, ap: seq<Action>, tkn: bool, pos: seq<nat>, n: nat)
    requires tab.Valid() && tab.aLookahead == []
    requires |pos| == n && ArgsInRange(g, n, ap) && GoodRow(g, RowEntries(g, n, pos, ap, tkn))
    modifies tab
    ensures tab.Valid() && tab.aLookahead == RowEntries(g, n, pos, ap, tkn) && tab.Abs() == old(tab.Abs())
  {
    hide *;
    ghost var row := RowEntries(g, n, pos, ap, tkn);
    assert ap[0..] == ap;
    for k := 0 to |ap|
      invariant tab.Valid() && ArgsInRange(g, n, ap[k..]) && tab.aLookahead + RowEntries(g, n, pos, ap[k..], tkn) == row
      invariant tab.Abs() == old(tab.Abs())
    {
      RowStep(g, n, pos, ap, k, tkn);
      if Live(ap[k]) && (if tkn then IsTkn(g, ap[k].sp) else IsNt(g, ap[k].sp)) {
        NotYet(g, tab.aLookahead, Entry(ap[k].sp, Code(g, n, pos, ap[k])), RowEntries(g, n, pos, ap[k + 1..], tkn),
            row);
        tab.Action(ap[k].sp, Code(g, n, pos, ap[k]));
      } else {
        NoneAdded(RowEntries(g, n, pos, ap[k + 1..], tkn));
      }
    }
    NoRow(g, n, pos, ap, tkn);
    assert tab.aLookahead == tab.aLookahead + [];
  }

  lemma RowStep(g: Grammar, n: nat, pos: seq<nat>, ap: seq<Action>, k: nat, tkn: bool)
    requires |pos| == n && k < |ap| && ArgsInRange(g, n, ap[k..])
    ensures ArgsInRange(g, n, ap[k + 1..]) && (ap[k].kind == Shift ==> ap[k].arg < n)
    ensures RowEntries(g, n, pos, ap[k..], tkn) ==
      (if Live(ap[k])
        && (if tkn then IsTkn(g, ap[k].sp) else IsNt(g, ap[k].sp)) then [Entry(ap[k].sp, Code(g, n, pos, ap[k]))]
            else [])
      + RowEntries(g, n, pos, ap[k + 1..], tkn)
  {
    assert ap[k..][1..] == ap[k + 1..] && ap[k..][0] == ap[k];
    hide Code, Live, IsTkn, IsNt;
  }

  lemma NoRow(g: Grammar, n: nat, pos: seq<nat>, ap: seq<Action>, tkn: bool)
    requires |pos| == n && ArgsInRange(g, n, ap[|ap|..])
    ensures RowEntries(g, n, pos, ap[|ap|..], tkn) == []
  {
  }

  lemma NoneAdded(es: seq<Entry>)
    ensures [] + es == es
  {
  }

  lemma NotYet(g: Grammar, done: seq<Entry>, e: Entry, rest: seq<Entry>, row: seq<Entry>)
    requires GoodRow(g, row) && row == done + ([e] + rest)
    ensures forall j :: 0 <= j < |done| ==> done[j].lookahead != e.lookahead
    ensures (done + [e]) + rest == row
  {
    assert row[|done|] == e && forall j :: 0 <= j < |done| ==> row[j] == done[j];
  }

  /** One row of the table: its entries, and the offset that acttab_insert finds for them. */
  method PlaceRow(tab: ActTab, g: Grammar, acts: seq<seq<Action>>, sorted: seq<nat>, pos: seq<nat>, a: AxSet)
    returns (o: int)
    requires Input(g, acts, sorted, pos) && a.p < |acts| && a == AxFor(g, acts, sorted, pos, a.p, a.isTkn)
    requires a.nAction > 0
    requires tab.Valid() && tab.aLookahead == []
    modifies tab
    ensures tab.Valid() && tab.aLookahead == [] && o + g.nsymbol > 0
    ensures old(tab.Abs()).n <= |old(tab.Abs()).tab| && GoodEntries(RowFor(g, acts, sorted, pos, a.p, a.isTkn))
    ensures tab.Abs() == Insertion(old(tab.Abs()), RowFor(g, acts, sorted, pos, a.p, a.isTkn))
    ensures tab.rows == old(tab.rows) + [Row(o, RowFor(g, acts, sorted, pos, a.p, a.isTkn))]
  {
    hide *;
    RowAt(g, acts, sorted, pos, a);
    AbsRows(tab);
    FillRow(tab, g, acts[sorted[a.p]], a.isTkn, pos, |acts|);
    AbsRows(tab);
    MinInRow(g, tab);
    o := tab.Insert();
  }

  lemma AbsRows(tab: ActTab)
    ensures tab.Abs().rows == tab.rows
  {
  }

  lemma RowAt(g: Grammar, acts: seq<seq<Action>>, sorted: seq<nat>, pos: seq<nat>, a: AxSet)
    requires Input(g, acts, sorted, pos) && a.p < |acts| && a == AxFor(g, acts, sorted, pos, a.p, a.isTkn)
    ensures |sorted| == |pos| == |acts| && sorted[a.p] < |acts| && ArgsInRange(g, |acts|, acts[sorted[a.p]])
    ensures
      var row := RowEntries(g, |acts|, pos, acts[sorted[a.p]], a.isTkn);
      GoodRow(g, row) && |row| == a.nAction && row == RowFor(g, acts, sorted, pos, a.p, a.isTkn)
  {
    hide RowEntries, WellFormedRule, GoodRow;
    RowEntriesGood(g, |acts|, pos, acts[sorted[a.p]], a.isTkn);
  }

  lemma MinInRow(g: Grammar, tab: ActTab)
    requires tab.Valid() && tab.aLookahead != [] && GoodRow(g, tab.aLookahead)
    ensures tab.mnLookahead < g.nsymbol
  {
    hide Shape, Packed;
  }

  /** The rows of the first `k` sets, each set with at least one entry. */
  ghost function RowLists(g: Grammar, acts: seq<seq<Action>>, sorted: seq<nat>, pos: seq<nat>, order: seq<AxSet>,
      k: nat): (r: seq<seq<Entry>>)
    requires Input(g, acts, sorted, pos) && AllRows(g, acts, sorted, pos, order)
    requires k <= |order| && forall j :: 0 <= j < k ==> order[j].nAction > 0
    ensures |r| == k && AllGood(r)
  {
    if k == 0 then []
    else
      RowAt(g, acts, sorted, pos, order[k - 1]);
      RowLists(g, acts, sorted, pos, order, k - 1) + [RowFor(g, acts, sorted, pos, order[k - 1].p, order[k - 1].isTkn)]
  }

  /** The loop over the rows, until the first empty one. */
  method PlaceRows(g: Grammar, acts: seq<seq<Action>>, sorted: seq<nat>, pos: seq<nat>, order: seq<AxSet>)
    returns (tab: ActTab, tkn: seq<int>, nt: seq<int>, mnT: int, mnN: int, ghost k: nat)
    requires Input(g, acts, sorted, pos) && AllRows(g, acts, sorted, pos, order)
    ensures fresh(tab) && tab.Valid()
    ensures k <= |order| && (k == |order| || order[k].nAction == 0) && forall j :: 0 <= j < k ==> order[j].nAction > 0
    ensures tab.Abs() == Replay(RowLists(g, acts, sorted, pos, order, k))
    ensures Progress(g, acts, sorted, pos, order, k, tkn, nt, mnT, mnN, tab.rows)
  {
    hide *;
    tab := new ActTab();
    tkn, nt := seq(|acts|, _ => NO_OFFSET), seq(|acts|, _ => NO_OFFSET);
    mnT, mnN := 0, 0;
    var i := 0;
    NoProgress(g, acts, sorted, pos, order, tkn, nt);
    NoRows(tab);
    while i < |order| && order[i].nAction > 0
      invariant i <= |order| && fresh(tab) && tab.Valid() && tab.aLookahead == []
      invariant |tkn| == |nt| == |acts| && forall j :: 0 <= j < i ==> order[j].nAction > 0
      invariant tab.Abs() == Replay(RowLists(g, acts, sorted, pos, order, i))
      invariant Progress(g, acts, sorted, pos, order, i, tkn, nt, mnT, mnN, tab.rows)
    {
      var a := order[i];
      OrderAt(g, acts, sorted, pos, order, i);
      MoreRows(g, acts, sorted, pos, order, i);
      ghost var rows := tab.rows;
      var o := PlaceRow(tab, g, acts, sorted, pos, a);
      ProgressOne(g, acts, sorted, pos, order, i, tkn, nt, mnT, mnN, rows, o);
      if a.isTkn {
        tkn := tkn[a.p := o];
        if o < mnT { mnT := o; }
      } else {
        nt := nt[a.p := o];
        if o < mnN { mnN := o; }
      }
      i := i + 1;
    }
    k := i;
  }

  lemma NoRows(tab: ActTab)
    requires tab.Abs() == Placing([], 0, [], true)
    ensures tab.rows == []
    ensures forall g, acts, sorted, pos, order :: Input(g, acts, sorted, pos) && AllRows(g, acts, sorted, pos,
        order) ==>
      tab.Abs() == Replay(RowLists(g, acts, sorted, pos, order, 0))
  {
    hide Input, AllRows;
  }

  lemma MoreRows(g: Grammar, acts: seq<seq<Action>>, sorted: seq<nat>, pos: seq<nat>, order: seq<AxSet>, k: nat)
    requires Input(g, acts, sorted, pos) && AllRows(g, acts, sorted, pos, order)
    requires k < |order| && forall j :: 0 <= j <= k ==> order[j].nAction > 0
    ensures order[k].p < |acts| && GoodEntries(RowFor(g, acts, sorted, pos, order[k].p, order[k].isTkn))
    ensures Replay(RowLists(g, acts, sorted, pos, order, k + 1))
         == Insertion(Replay(RowLists(g, acts, sorted, pos, order, k)),
             RowFor(g, acts, sorted, pos, order[k].p, order[k].isTkn))
  {
    OrderAt(g, acts, sorted, pos, order, k);
    hide Input, AxFor, RowFor, GoodEntries, Insertion, AllRows;
    var (less, row) := (RowLists(g, acts, sorted, pos, order, k),
        RowFor(g, acts, sorted, pos, order[k].p, order[k].isTkn));
    var more := RowLists(g, acts, sorted, pos, order, k + 1);
    assert more == less + [row] && more[..k] == less && more[k] == row;
    ReplayOne(more);
  }

  lemma OrderAt(g: Grammar, acts: seq<seq<Action>>, sorted: seq<nat>, pos: seq<nat>, order: seq<AxSet>, i: nat)
    requires Input(g, acts, sorted, pos) && AllRows(g, acts, sorted, pos, order) && i < |order|
    ensures order[i].p < |acts| && order[i] == AxFor(g, acts, sorted, pos, order[i].p, order[i].isTkn)
  {
    hide Input, AxFor;
  }

  lemma NoProgress(g: Grammar, acts: seq<seq<Action>>, sorted: seq<nat>, pos: seq<nat>, order: seq<AxSet>,
      tkn: seq<int>, nt: seq<int>)
    requires Input(g, acts, sorted, pos) && AllRows(g, acts, sorted, pos, order)
    requires tkn == nt == seq(|acts|, _ => NO_OFFSET)
    ensures Progress(g, acts, sorted, pos, order, 0, tkn, nt, 0, 0, [])
  {
  }

  // ----- writing the arrays -----

  /** The offsets by state number, without the states at the end that have none. */
  method EmitOffsets(ofst: seq<int>, useDflt: int) returns (out: seq<int>)
    ensures IsOffsets(ofst, useDflt, out)
  {
    var n := |ofst|;
    while n > 0 && ofst[n - 1] == NO_OFFSET
      invariant 0 <= n <= |ofst| && forall i :: n <= i < |ofst| ==> ofst[i] == NO_OFFSET
    {
      n := n - 1;
    }
    out := [];
    for i := 0 to n
      invariant |out| == i && forall j :: 0 <= j < i ==> out[j] == if ofst[j] == NO_OFFSET then useDflt else ofst[j]
    {
      out := out + [if ofst[i] == NO_OFFSET then useDflt else ofst[i]];
    }
  }

  ghost predicate IsOffsets(ofst: seq<int>, useDflt: int, out: seq<int>) {
    && |out| <= |ofst| && (|out| > 0 ==> ofst[|out| - 1] != NO_OFFSET)
    && (forall i :: |out| <= i < |ofst| ==> ofst[i] == NO_OFFSET)
    && (forall i :: 0 <= i < |out| ==> out[i] == if ofst[i] == NO_OFFSET then useDflt else ofst[i])
  }

  lemma MoreForDefault(g: Grammar, n: nat, ap: seq<Action>, k: nat, code: int)
    requires k < |ap| && IsDefault(g, n, ap[..k], code)
    ensures
      if Live(ap[k]) && ap[k].sp == g.nsymbol && ap[k].kind == Reduce then IsDefault(g, n, ap[..k + 1], ap[k].arg + n)
      else IsDefault(g, n, ap[..k + 1], code)
  {
    assert ap[..k + 1] == ap[..k] + [ap[k]];
    assert ap[k] in ap[..k + 1];
    if a :| a in ap[..k] && Live(a) && a.sp == g.nsymbol && a.kind == Reduce && code == a.arg + n {
      assert a in ap[..k + 1];
    }
  }

  /** iDflt: the number of the `{default}` action, or of the error action. */
  method DefaultOf(g: Grammar, ap: seq<Action>, ghost n: nat, nstate: nat, ghost pos: seq<nat>) returns (code: int)
    requires nstate == n && |pos| == n && ArgsInRange(g, n, ap) && g.nterminal <= g.nsymbol
    requires forall k :: 0 <= k < |ap| && Live(ap[k]) ==> ap[k].sp <= g.nsymbol && (ap[k].sp == g.nsymbol ==>
        ap[k].kind == Reduce)
    ensures IsDefault(g, n, ap, code)
  {
    code := nstate + |g.rules|;
    for k := 0 to |ap|
      invariant IsDefault(g, n, ap[..k], code)
    {
      MoreForDefault(g, n, ap, k, code);
      if Live(ap[k]) && !IsTkn(g, ap[k].sp) && !(ap[k].sp < g.nsymbol) {
        code := ap[k].arg + nstate;
      }
    }
    assert ap[..|ap|] == ap;
  }

  method EmitDefaults(g: Grammar, acts: seq<seq<Action>>, sorted: seq<nat>, ghost pos: seq<nat>)
    returns (dflt: seq<int>)
    requires Input(g, acts, sorted, pos)
    ensures |dflt| == |acts| && forall p :: 0 <= p < |acts| ==> IsDefault(g, |acts|, acts[sorted[p]], dflt[p])
  {
    dflt := [];
    for p := 0 to |acts|
      invariant |dflt| == p && forall q :: 0 <= q < p ==> IsDefault(g, |acts|, acts[sorted[q]], dflt[q])
    {
      var d := DefaultOf(g, acts[sorted[p]], |acts|, |acts|, pos);
      dflt := dflt + [d];
    }
  }

  /** The table as it is written: free slots get the number of no action and the symbol of no token. */
  predicate IsEmitted(g: Grammar, n: nat, tab: seq<Entry>, nAction: nat, action: seq<int>, lookahead: seq<int>)
    requires nAction <= |tab|
  {
    && |action| == |lookahead| == nAction
    && forall i :: 0 <= i < nAction ==>
         && action[i] == (if tab[i].action < 0 then n + |g.rules| + 2 else tab[i].action)
         && lookahead[i] == (if tab[i].lookahead < 0 then g.nsymbol else tab[i].lookahead)
  }

  // ----- what ReportTable writes -----

  /** How the rows were placed: their order, how many are not empty, the offsets by state number, the least ones. */
  datatype Layout = Layout(order: seq<AxSet>, k: nat, tkn: seq<int>, nt: seq<int>, mnT: int, mnN: int)

  /** All rows in the order of axset_compare, of which the first `k` are not empty.  There is only one such order. */
  ghost predicate IsOrder(g: Grammar, acts: seq<seq<Action>>, sorted: seq<nat>, pos: seq<nat>, order: seq<AxSet>,
      k: nat)
    requires Input(g, acts, sorted, pos)
  {
    && AllRows(g, acts, sorted, pos, order) && SortedValues(AxCmp, order)
    && k <= |order| && (k == |order| || order[k].nAction == 0) && forall j :: 0 <= j < k ==> order[j].nAction > 0
  }

  /** The packed table: the rows inserted in that order. */
  ghost function PackedTable(g: Grammar, acts: seq<seq<Action>>, sorted: seq<nat>, pos: seq<nat>,
      lay: Layout): (p: Placing)
    requires Input(g, acts, sorted, pos) && IsOrder(g, acts, sorted, pos, lay.order, lay.k)
    ensures p.n <= |p.tab|
  {
    Replay(RowLists(g, acts, sorted, pos, lay.order, lay.k))
  }

  ghost predicate IsLayout(g: Grammar, acts: seq<seq<Action>>, sorted: seq<nat>, pos: seq<nat>, lay: Layout)
    requires Input(g, acts, sorted, pos)
  {
    && IsOrder(g, acts, sorted, pos, lay.order, lay.k)
    && Progress(g, acts, sorted, pos, lay.order, lay.k, lay.tkn, lay.nt, lay.mnT, lay.mnN,
                PackedTable(g, acts, sorted, pos, lay).rows)
  }

  /** The parts of the tables that do not come from the packed table. */
  ghost predicate Frame(g: Grammar, acts: seq<seq<Action>>, sorted: seq<nat>, t: Tables)
    requires |sorted| == |acts| && forall p :: 0 <= p < |acts| ==> sorted[p] < |acts|
  {
    && t.nstate == |acts| == |t.dflt| && t.nrule == |g.rules| && t.nsymbol == g.nsymbol
    && (forall p :: 0 <= p < |acts| ==> IsDefault(g, |acts|, acts[sorted[p]], t.dflt[p]))
    && |t.ruleLhs| == |t.ruleNrhs| == |g.rules|
    && forall r :: 0 <= r < |g.rules| ==> t.ruleLhs[r] == g.rules[r].lhs && t.ruleNrhs[r] == |g.rules[r].rhs| % 256
  }

  lemma SortedInRange(g: Grammar, acts: seq<seq<Action>>, sorted: seq<nat>, pos: seq<nat>)
    requires Input(g, acts, sorted, pos)
    ensures |sorted| == |pos| == |acts|
    ensures forall p :: 0 <= p < |acts| ==> sorted[p] < |acts| && ArgsInRange(g, |acts|, acts[sorted[p]])
  {
  }

  /** The tables are written from the layout: this determines them. */
  ghost predicate IsReport(g: Grammar, acts: seq<seq<Action>>, sorted: seq<nat>, pos: seq<nat>, lay: Layout, t: Tables)
    requires Input(g, acts, sorted, pos)
  {
    SortedInRange(g, acts, sorted, pos);
    && IsLayout(g, acts, sorted, pos, lay) && Frame(g, acts, sorted, t)
    && (var p := PackedTable(g, acts, sorted, pos, lay); IsEmitted(g, |acts|, p.tab, p.n, t.action, t.lookahead))
    && t.shiftUseDflt == lay.mnT - 1 && IsOffsets(lay.tkn, lay.mnT - 1, t.shiftOfst)
    && t.reduceUseDflt == lay.mnN - 1 && IsOffsets(lay.nt, lay.mnN - 1, t.reduceOfst)
  }

  // ----- the arrays refine the lists -----

  /** All rows are in the table, the empty ones without offset, and the table holds nothing else. */
  ghost predicate AllPlaced(g: Grammar, acts: seq<seq<Action>>, sorted: seq<nat>, pos: seq<nat>, tkn: seq<int>,
      nt: seq<int>, rows: seq<Row>)
    requires Input(g, acts, sorted, pos)
  {
    && |tkn| == |nt| == |acts|
    && (forall p, b :: 0 <= p < |acts| ==>
          var row := RowFor(g, acts, sorted, pos, p, b);
          var o := if b then tkn[p] else nt[p];
          if row == [] then o == NO_OFFSET else o + g.nsymbol > 0 && Row(o, row) in rows)
    && (forall r :: 0 <= r < |rows| ==> IsRowOf(g, acts, sorted, pos, tkn, nt, rows[r]))
  }

  ghost predicate IsRowOf(g: Grammar, acts: seq<seq<Action>>, sorted: seq<nat>, pos: seq<nat>, tkn: seq<int>,
      nt: seq<int>, row: Row)
    requires Input(g, acts, sorted, pos) && |tkn| == |nt| == |acts|
  {
    exists p, b :: 0 <= p < |acts| && row == Row(if b then tkn[p] else nt[p], RowFor(g, acts, sorted, pos, p, b))
      && row.offset != NO_OFFSET
  }

  lemma ProgressIsPlaced(g: Grammar, acts: seq<seq<Action>>, sorted: seq<nat>, pos: seq<nat>, order: seq<AxSet>, k: nat,
      tkn: seq<int>, nt: seq<int>, mnT: int, mnN: int, rows: seq<Row>)
    requires Input(g, acts, sorted, pos) && IsOrder(g, acts, sorted, pos, order, k)
    requires Progress(g, acts, sorted, pos, order, k, tkn, nt, mnT, mnN, rows)
    ensures AllPlaced(g, acts, sorted, pos, tkn, nt, rows)
  {
    NoLimit(g, acts, sorted, pos);
    hide Input, RowFor, IsLeastOffset;
    forall p: nat, b | p < |acts| ensures
      var row := RowFor(g, acts, sorted, pos, p, b);
      var o := if b then tkn[p] else nt[p];
      if row == [] then o == NO_OFFSET else o + g.nsymbol > 0 && Row(o, row) in rows
    {
      var a := AxFor(g, acts, sorted, pos, p, b);
      assert a in order;
      var j :| 0 <= j < |order| && order[j] == a;
      if j < k {
        assert Placed(g, acts, sorted, pos, order[j], tkn, nt, rows[j]);
      } else {
        assert Unplaced(order[j], tkn, nt);
        if j > k { assert AxCmp(order[k], order[j]) <= 0; }
      }
    }
    forall r | 0 <= r < |rows| ensures IsRowOf(g, acts, sorted, pos, tkn, nt, rows[r]) {
      assert Placed(g, acts, sorted, pos, order[r], tkn, nt, rows[r]);
    }
  }

  /** One family of rows in the written tables. */
  ghost predicate RowsWritten(g: Grammar, acts: seq<seq<Action>>, sorted: seq<nat>, pos: seq<nat>, tab: seq<Entry>,
      nAction: nat, action: seq<int>, lookahead: seq<int>, rows: seq<Row>, b: bool, ofst: seq<int>, mn: int,
      out: seq<int>)
    requires Input(g, acts, sorted, pos)
  {
    && nAction <= |tab| && Held(tab, nAction, rows) && IsEmitted(g, |acts|, tab, nAction, action, lookahead)
    && |ofst| == |acts| && IsOffsets(ofst, mn - 1, out) && IsLeastOffset(g, ofst, mn)
    && (forall p :: 0 <= p < |acts| ==>
          var row := RowFor(g, acts, sorted, pos, p, b);
          if row == [] then ofst[p] == NO_OFFSET else ofst[p] + g.nsymbol > 0 && Row(ofst[p], row) in rows)
  }

  /** Reading an entry that can be read out of the table out of the arrays. */
  lemma EmittedReads(g: Grammar, n: nat, tab: seq<Entry>, nAction: nat, action: seq<int>, lookahead: seq<int>, o: int,
      e: Entry)
    requires nAction <= |tab| && IsEmitted(g, n, tab, nAction, action, lookahead) && Reads(tab, nAction, o, e)
    requires e.lookahead >= 0 && e.action >= 0
    ensures |action| == |lookahead|
    ensures var i := o + e.lookahead; 0 <= i < |action| && lookahead[i] == e.lookahead && action[i] == e.action
  {
  }

  /** What the arrays show of a symbol is in the table. */
  lemma EmittedFrom(g: Grammar, n: nat, tab: seq<Entry>, nAction: nat, action: seq<int>, lookahead: seq<int>, o: int,
      x: nat)
    returns (e: Entry)
    requires nAction <= |tab| && IsEmitted(g, n, tab, nAction, action, lookahead) && x < g.nsymbol
    requires 0 <= o + x < |action| == |lookahead| && lookahead[o + x] == x
    ensures e.lookahead == x && Reads(tab, nAction, o, e) && (e.action >= 0 ==> action[o + x] == e.action)
  {
    e := tab[o + x];
  }

  lemma EmittedLengths(g: Grammar, n: nat, tab: seq<Entry>, nAction: nat, action: seq<int>, lookahead: seq<int>)
    requires nAction <= |tab| && IsEmitted(g, n, tab, nAction, action, lookahead)
    ensures |action| == |lookahead|
  {
  }

  /** The written offset of a row that is not empty. */
  lemma WrittenOffset(g: Grammar, ofst: seq<int>, mn: int, out: seq<int>, p: nat)
    requires IsOffsets(ofst, mn - 1, out) && IsLeastOffset(g, ofst, mn) && p < |ofst|
    ensures ofst[p] != NO_OFFSET ==> p < |out| && out[p] == ofst[p] && out[p] != mn - 1
    ensures p < |out| && out[p] != mn - 1 ==> ofst[p] != NO_OFFSET && out[p] == ofst[p]
  {
  }

  /** Every entry of a row is found through the written offset of its state. */
  lemma OwnEntryReads(g: Grammar, acts: seq<seq<Action>>, sorted: seq<nat>, pos: seq<nat>, tab: seq<Entry>,
      nAction: nat, action: seq<int>, lookahead: seq<int>, rows: seq<Row>, b: bool, ofst: seq<int>, mn: int,
      out: seq<int>, p: nat, x: nat, c: int)
    requires Input(g, acts, sorted, pos) && p < |acts| && x < g.nsymbol && c >= 0
    requires RowsWritten(g, acts, sorted, pos, tab, nAction, action, lookahead, rows, b, ofst, mn, out)
    requires Entry(x, c) in RowFor(g, acts, sorted, pos, p, b)
    ensures |action| == |lookahead| && p < |out| && out[p] != mn - 1
    ensures 0 <= out[p] + x < |action| && lookahead[out[p] + x] == x && action[out[p] + x] == c
  {
    hide *;
    NoLimit(g, acts, sorted, pos);
    RowWritten(g, acts, sorted, pos, tab, nAction, action, lookahead, rows, b, ofst, mn, out, p);
    WrittenOffset(g, ofst, mn, out, p);
    var row := RowFor(g, acts, sorted, pos, p, b);
    var q :| 0 <= q < |rows| && rows[q] == Row(ofst[p], row);
    HeldReads(tab, nAction, rows, ofst[p], Entry(x, c));
    EmittedReads(g, |acts|, tab, nAction, action, lookahead, ofst[p], Entry(x, c));
  }

  lemma RowWritten(g: Grammar, acts: seq<seq<Action>>, sorted: seq<nat>, pos: seq<nat>, tab: seq<Entry>, nAction: nat,
      action: seq<int>, lookahead: seq<int>, rows: seq<Row>, b: bool, ofst: seq<int>, mn: int, out: seq<int>, p: nat)
    requires Input(g, acts, sorted, pos) && p < |acts|
    requires RowsWritten(g, acts, sorted, pos, tab, nAction, action, lookahead, rows, b, ofst, mn, out)
    ensures nAction <= |tab| && Held(tab, nAction, rows) && IsEmitted(g, |acts|, tab, nAction, action, lookahead)
    ensures |ofst| == |acts| && IsOffsets(ofst, mn - 1, out) && IsLeastOffset(g, ofst, mn)
    ensures RowFor(g, acts, sorted, pos, p, b) != [] ==>
      ofst[p] != NO_OFFSET && Row(ofst[p], RowFor(g, acts, sorted, pos, p, b)) in rows
  {
    NoLimit(g, acts, sorted, pos);
    hide Input, Held, IsEmitted, RowFor, IsOffsets, IsLeastOffset;
  }

  /** The entries of a row are the live actions of the list on its kind of symbols. */
  lemma RowHolds(g: Grammar, acts: seq<seq<Action>>, sorted: seq<nat>, pos: seq<nat>, p: nat, x: nat, b: bool)
    requires Input(g, acts, sorted, pos) && p < |acts| && x < g.nsymbol && (b <==> x < g.nterminal)
    ensures forall a :: a in acts[sorted[p]] && Live(a) && a.sp == x ==>
      (a.kind == Shift ==> a.arg < |acts|) && Code(g, |acts|, pos, a) >= 0
      && Entry(x, Code(g, |acts|, pos, a)) in RowFor(g, acts, sorted, pos, p, b)
  {
    var ap := acts[sorted[p]];
    forall a | a in ap && Live(a) && a.sp == x ensures
      (a.kind == Shift ==> a.arg < |acts|) && Code(g, |acts|, pos, a) >= 0
      && Entry(x, Code(g, |acts|, pos, a)) in RowFor(g, acts, sorted, pos, p, b)
    {
      var k :| 0 <= k < |ap| && ap[k] == a;
      RowEntriesAre(g, |acts|, pos, ap, b, Entry(x, Code(g, |acts|, pos, a)));
    }
  }

  /** And every entry of a row is one of them. */
  lemma RowHoldsOnly(g: Grammar, acts: seq<seq<Action>>, sorted: seq<nat>, pos: seq<nat>, p: nat, b: bool, e: Entry)
    returns (a: Action)
    requires Input(g, acts, sorted, pos) && p < |acts| && e in RowFor(g, acts, sorted, pos, p, b)
    ensures sorted[p] < |acts| && a in acts[sorted[p]] && Live(a) && e.lookahead == a.sp
    ensures (a.kind == Shift ==> a.arg < |acts|) && e.action == Code(g, |acts|, pos, a) >= 0
    ensures b <==> a.sp < g.nterminal
  {
    var ap := acts[sorted[p]];
    RowEntriesAre(g, |acts|, pos, ap, b, e);
    var k :| 0 <= k < |ap| && Live(ap[k]) && (if b then IsTkn(g, ap[k].sp) else IsNt(g, ap[k].sp))
             && e == Entry(ap[k].sp, Code(g, |acts|, pos, ap[k]));
    a := ap[k];
  }

  // ----- exactly when -----

  /** Two states read their terminals through one offset. */
  predicate SharesOffset(t: Tables, p: nat, q: nat) {
    && p < |t.shiftOfst| && q < |t.shiftOfst|
    && t.shiftOfst[p] == t.shiftOfst[q] != t.shiftUseDflt
  }

  /** Reading terminal `a.sp` in state number `p`, which has no action on it, shows action `a` of state number `q`. */
  ghost predicate Sees(g: Grammar, acts: seq<seq<Action>>, sorted: seq<nat>, t: Tables, p: nat, q: nat, a: Action) {
    && p < |acts| == |sorted| && q < |acts| && sorted[p] < |acts| && sorted[q] < |acts| && SharesOffset(t, p, q)
    && a in acts[sorted[q]] && Live(a) && a.sp < g.nterminal && !HasLive(acts[sorted[p]], a.sp)
  }

  /** Such an action is the default of `p` anyway.  What nonterminal rows see of each other does
      not matter: nobody asks for it. */
  ghost predicate Undisturbed(g: Grammar, acts: seq<seq<Action>>, sorted: seq<nat>, pos: seq<nat>, t: Tables)
    requires Input(g, acts, sorted, pos)
  {
    SortedInRange(g, acts, sorted, pos);
    forall p: nat, q: nat, a :: Sees(g, acts, sorted, t, p, q, a) ==>
        IsDefault(g, |acts|, acts[sorted[p]], Code(g, |acts|, pos, a))
  }

  lemma ArgIn(g: Grammar, n: nat, ap: seq<Action>)
    requires ArgsInRange(g, n, ap)
    ensures forall a :: a in ap && a.kind == Shift ==> a.arg < n
  {
  }

  /** The offset and the entry behind a terminal that is found although the state has no action on it. */
  lemma StrayEntry(g: Grammar, acts: seq<seq<Action>>, sorted: seq<nat>, pos: seq<nat>, lay: Layout, t: Tables, p: nat,
      x: nat)
    returns (q: nat, a: Action)
    requires Input(g, acts, sorted, pos) && IsReport(g, acts, sorted, pos, lay, t) && p < |acts| && x < g.nterminal
    requires p < |t.shiftOfst| && t.shiftOfst[p] != t.shiftUseDflt
    requires |t.action| == |t.lookahead| && 0 <= t.shiftOfst[p] + x < |t.action| && t.lookahead[t.shiftOfst[p] + x] == x
    ensures q < |acts| == |sorted| && sorted[q] < |acts| && SharesOffset(t, p, q) && a in acts[sorted[q]] && Live(a)
    ensures a.sp == x
    ensures |pos| == |acts| && (a.kind == Shift ==> a.arg < |acts|)
    ensures t.action[t.shiftOfst[p] + x] == Code(g, |acts|, pos, a)
  {
    hide *;
    ReportParts(g, acts, sorted, pos, lay, t);
    SortedInRange(g, acts, sorted, pos);
    NoLimit(g, acts, sorted, pos);
    Terminals(g, acts, sorted, pos);
    var tb := PackedTable(g, acts, sorted, pos, lay);
    var e := EmittedFrom(g, |acts|, tb.tab, tb.n, t.action, t.lookahead, t.shiftOfst[p], x);
    HeldReads(tb.tab, tb.n, tb.rows, t.shiftOfst[p], e);
    var r :| 0 <= r < |tb.rows| && tb.rows[r].offset == t.shiftOfst[p] && e in tb.rows[r].entries;
    var b;
    q, b := RowState(g, acts, sorted, pos, lay.tkn, lay.nt, tb.rows, r);
    a := RowHoldsOnly(g, acts, sorted, pos, q, b, e);
    WrittenOffset(g, lay.tkn, lay.mnT, t.shiftOfst, p);
    WrittenOffset(g, lay.tkn, lay.mnT, t.shiftOfst, q);
    NowShares(t, p, q);
  }

  lemma NowShares(t: Tables, p: nat, q: nat)
    requires p < |t.shiftOfst| && q < |t.shiftOfst| && t.shiftOfst[p] == t.shiftOfst[q] != t.shiftUseDflt
    ensures SharesOffset(t, p, q)
  {
  }

  lemma RowState(g: Grammar, acts: seq<seq<Action>>, sorted: seq<nat>, pos: seq<nat>, tkn: seq<int>, nt: seq<int>,
      rows: seq<Row>, r: nat)
    returns (p: nat, b: bool)
    requires Input(g, acts, sorted, pos) && AllPlaced(g, acts, sorted, pos, tkn, nt, rows) && r < |rows|
    ensures p < |acts| == |tkn| == |nt| && rows[r].offset == (if b then tkn[p] else nt[p]) != NO_OFFSET
    ensures rows[r].entries == RowFor(g, acts, sorted, pos, p, b)
  {
    hide Input, RowFor;
    assert IsRowOf(g, acts, sorted, pos, tkn, nt, rows[r]);
    p, b :| 0 <= p < |acts| && rows[r] == Row(if b then tkn[p] else nt[p], RowFor(g, acts, sorted, pos, p, b))
      && rows[r].offset != NO_OFFSET;
  }

  /** What follows from the layout of written tables. */
  lemma ReportParts(g: Grammar, acts: seq<seq<Action>>, sorted: seq<nat>, pos: seq<nat>, lay: Layout, t: Tables)
    requires Input(g, acts, sorted, pos) && IsReport(g, acts, sorted, pos, lay, t)
    ensures IsOrder(g, acts, sorted, pos, lay.order, lay.k) && |t.action| == |t.lookahead| && |sorted| == |acts|
    ensures (forall p :: 0 <= p < |acts| ==> sorted[p] < |acts|) && Frame(g, acts, sorted, t)
    ensures
      var tb := PackedTable(g, acts, sorted, pos, lay);
      && Held(tb.tab, tb.n, tb.rows) && (tb.kept <==> Packed(tb.tab, tb.n, tb.rows))
      && IsEmitted(g, |acts|, tb.tab, tb.n, t.action, t.lookahead)
      && AllPlaced(g, acts, sorted, pos, lay.tkn, lay.nt, tb.rows)
      && RowsWritten(g, acts, sorted, pos, tb.tab, tb.n, t.action, t.lookahead, tb.rows, true, lay.tkn, lay.mnT,
          t.shiftOfst)
      && RowsWritten(g, acts, sorted, pos, tb.tab, tb.n, t.action, t.lookahead, tb.rows, false, lay.nt, lay.mnN,
          t.reduceOfst)
    ensures |lay.tkn| == |lay.nt| == |acts| && IsLeastOffset(g, lay.tkn, lay.mnT) && IsLeastOffset(g, lay.nt, lay.mnN)
    ensures t.shiftUseDflt == lay.mnT - 1 && IsOffsets(lay.tkn, lay.mnT - 1, t.shiftOfst)
    ensures t.reduceUseDflt == lay.mnN - 1 && IsOffsets(lay.nt, lay.mnN - 1, t.reduceOfst)
  {
    hide *;
    SortedInRange(g, acts, sorted, pos);
    ReportIs(g, acts, sorted, pos, lay, t);
    var tb := PackedTable(g, acts, sorted, pos, lay);
    TableSane(g, acts, sorted, pos, lay);
    SanePlacing(tb);
    ProgressIsPlaced(g, acts, sorted, pos, lay.order, lay.k, lay.tkn, lay.nt, lay.mnT, lay.mnN, tb.rows);
    ProgressLeast(g, acts, sorted, pos, lay.order, lay.k, lay.tkn, lay.nt, lay.mnT, lay.mnN, tb.rows);
    EmittedLengths(g, |acts|, tb.tab, tb.n, t.action, t.lookahead);
    FamilyWritten(g, acts, sorted, pos, tb.tab, tb.n, t.action, t.lookahead, tb.rows, lay.tkn, lay.nt, true, lay.mnT,
        t.shiftOfst);
    FamilyWritten(g, acts, sorted, pos, tb.tab, tb.n, t.action, t.lookahead, tb.rows, lay.tkn, lay.nt, false, lay.mnN,
        t.reduceOfst);
  }

  lemma TableSane(g: Grammar, acts: seq<seq<Action>>, sorted: seq<nat>, pos: seq<nat>, lay: Layout)
    requires Input(g, acts, sorted, pos) && IsOrder(g, acts, sorted, pos, lay.order, lay.k)
    ensures Sane(PackedTable(g, acts, sorted, pos, lay))
  {
    ReplaySane(RowLists(g, acts, sorted, pos, lay.order, lay.k));
    hide Sane, RowLists, Input;
  }

  lemma ReportIs(g: Grammar, acts: seq<seq<Action>>, sorted: seq<nat>, pos: seq<nat>, lay: Layout, t: Tables)
    requires Input(g, acts, sorted, pos) && IsReport(g, acts, sorted, pos, lay, t)
    ensures IsOrder(g, acts, sorted, pos, lay.order, lay.k) && |sorted| == |acts|
    ensures (forall p :: 0 <= p < |acts| ==> sorted[p] < |acts|) && Frame(g, acts, sorted, t)
    ensures AllRows(g, acts, sorted, pos, lay.order)
    ensures Progress(g, acts, sorted, pos, lay.order, lay.k, lay.tkn, lay.nt, lay.mnT, lay.mnN,
                     PackedTable(g, acts, sorted, pos, lay).rows)
    ensures var p := PackedTable(g, acts, sorted, pos, lay); IsEmitted(g, |acts|, p.tab, p.n, t.action, t.lookahead)
    ensures t.shiftUseDflt == lay.mnT - 1 && IsOffsets(lay.tkn, lay.mnT - 1, t.shiftOfst)
    ensures t.reduceUseDflt == lay.mnN - 1 && IsOffsets(lay.nt, lay.mnN - 1, t.reduceOfst)
  {
    SortedInRange(g, acts, sorted, pos);
    hide Input, AllRows, Progress, Frame, IsEmitted, IsOffsets, PackedTable;
  }

  lemma ProgressLeast(g: Grammar, acts: seq<seq<Action>>, sorted: seq<nat>, pos: seq<nat>, order: seq<AxSet>, k: nat,
      tkn: seq<int>, nt: seq<int>, mnT: int, mnN: int, rows: seq<Row>)
    requires Input(g, acts, sorted, pos) && IsOrder(g, acts, sorted, pos, order, k)
    requires Progress(g, acts, sorted, pos, order, k, tkn, nt, mnT, mnN, rows)
    ensures |tkn| == |nt| == |acts| && IsLeastOffset(g, tkn, mnT) && IsLeastOffset(g, nt, mnN)
  {
    hide Input, AllRows, IsLeastOffset, Placed, Unplaced;
  }

  lemma FamilyWritten(g: Grammar, acts: seq<seq<Action>>, sorted: seq<nat>, pos: seq<nat>, tab: seq<Entry>,
      nAction: nat, action: seq<int>, lookahead: seq<int>, rows: seq<Row>, tkn: seq<int>, nt: seq<int>, b: bool,
      mn: int, out: seq<int>)
    requires Input(g, acts, sorted, pos) && AllPlaced(g, acts, sorted, pos, tkn, nt, rows)
    requires nAction <= |tab| && Held(tab, nAction, rows) && IsEmitted(g, |acts|, tab, nAction, action, lookahead)
    requires var ofst := if b then tkn else nt; IsOffsets(ofst, mn - 1, out) && IsLeastOffset(g, ofst, mn)
    ensures RowsWritten(g, acts, sorted, pos, tab, nAction, action, lookahead, rows, b, if b then tkn else nt, mn, out)
  {
    hide Input, Held, IsEmitted, IsOffsets, IsLeastOffset, RowFor, IsRowOf;
  }

  lemma OwnShiftLookup(g: Grammar, acts: seq<seq<Action>>, sorted: seq<nat>, pos: seq<nat>, lay: Layout, t: Tables,
      p: nat, a: Action)
    requires Input(g, acts, sorted, pos) && IsReport(g, acts, sorted, pos, lay, t) && p < |acts|
    requires |sorted| == |acts| && sorted[p] < |acts| && a in acts[sorted[p]] && Live(a) && a.sp < g.nterminal
    ensures |t.action| == |t.lookahead| && |pos| == |acts| && (a.kind == Shift ==> a.arg < |acts|)
    ensures p < |t.shiftOfst| && t.shiftOfst[p] != t.shiftUseDflt && 0 <= t.shiftOfst[p] + a.sp < |t.action|
    ensures t.lookahead[t.shiftOfst[p] + a.sp] == a.sp && t.action[t.shiftOfst[p] + a.sp] == Code(g, |acts|, pos, a)
  {
    hide *;
    ReportParts(g, acts, sorted, pos, lay, t);
    SortedInRange(g, acts, sorted, pos);
    Terminals(g, acts, sorted, pos);
    var tb := PackedTable(g, acts, sorted, pos, lay);
    RowHolds(g, acts, sorted, pos, p, a.sp, true);
    OwnEntryReads(g, acts, sorted, pos, tb.tab, tb.n, t.action, t.lookahead, tb.rows, true, lay.tkn, lay.mnT,
        t.shiftOfst,
                  p, a.sp, Code(g, |acts|, pos, a));
  }

  lemma Terminals(g: Grammar, acts: seq<seq<Action>>, sorted: seq<nat>, pos: seq<nat>)
    requires Input(g, acts, sorted, pos)
    ensures g.nterminal <= g.nsymbol
  {
  }

  lemma ReduceLookups(g: Grammar, acts: seq<seq<Action>>, sorted: seq<nat>, pos: seq<nat>, lay: Layout, t: Tables,
      p: nat, x: nat)
    requires Input(g, acts, sorted, pos) && IsReport(g, acts, sorted, pos, lay, t) && p < |acts|
    requires g.nterminal <= x < g.nsymbol
    ensures |pos| == |acts| == |sorted| == t.nstate && sorted[p] < |acts| && ArgsInRange(g, |acts|, acts[sorted[p]])
    ensures ReduceLookupRight(g, pos, acts[sorted[p]], t, p, x)
  {
    hide RowFor, RowsWritten, Deterministic, HasLive, IsReport, Input, Frame, Code, IsOffsets, IsLeastOffset, AllPlaced;
    hide IsEmitted, Held, Packed, IsOrder, PackedTable;
    ReportParts(g, acts, sorted, pos, lay, t);
    FrameParts(g, acts, sorted, t);
    SortedInRange(g, acts, sorted, pos);
    var tb := PackedTable(g, acts, sorted, pos, lay);
    RowHolds(g, acts, sorted, pos, p, x, false);
    forall a | a in acts[sorted[p]] && Live(a) && a.sp == x
      ensures ReduceActionThere(t, p, x) && FindReduceAction(t, p, x) == Code(g, |acts|, pos, a)
    {
      OwnEntryReads(g, acts, sorted, pos, tb.tab, tb.n, t.action, t.lookahead, tb.rows, false, lay.nt, lay.mnN,
          t.reduceOfst,
                    p, x, Code(g, |acts|, pos, a));
    }
  }

  lemma FrameParts(g: Grammar, acts: seq<seq<Action>>, sorted: seq<nat>, t: Tables)
    requires |sorted| == |acts| && (forall p :: 0 <= p < |acts| ==> sorted[p] < |acts|) && Frame(g, acts, sorted, t)
    ensures t.nstate == |acts| == |t.dflt| && t.nrule == |g.rules| && t.nsymbol == g.nsymbol
    ensures forall p :: 0 <= p < |acts| ==> IsDefault(g, |acts|, acts[sorted[p]], t.dflt[p])
    ensures |t.ruleLhs| == |t.ruleNrhs| == |g.rules|
    ensures forall r :: 0 <= r < |g.rules| ==> t.ruleLhs[r] == g.rules[r].lhs && t.ruleNrhs[r] == |g.rules[r].rhs| % 256
  {
    hide IsDefault;
  }

  /** A lookup in state `p` that meets an action of another state is right if that action is the default of `p`. */
  lemma ShiftLookups(g: Grammar, acts: seq<seq<Action>>, sorted: seq<nat>, pos: seq<nat>, lay: Layout, t: Tables,
      p: nat, x: nat)
    requires Input(g, acts, sorted, pos) && IsReport(g, acts, sorted, pos, lay, t) && p < |acts| && x < g.nterminal
    requires Undisturbed(g, acts, sorted, pos, t)
    ensures |pos| == |acts| == |sorted| == t.nstate == |t.dflt| && |t.action| == |t.lookahead|
    ensures sorted[p] < |acts| && ArgsInRange(g, |acts|, acts[sorted[p]])
    ensures ShiftLookupRight(g, pos, acts[sorted[p]], t, p, x)
  {
    hide *;
    ReportParts(g, acts, sorted, pos, lay, t);
    FrameParts(g, acts, sorted, t);
    SortedInRange(g, acts, sorted, pos);
    var ap := acts[sorted[p]];
    ArgIn(g, |acts|, ap);
    forall a | a in ap && Live(a) && a.sp == x ensures FindShiftAction(t, p, x) == Code(g, |acts|, pos, a) {
      OwnShiftLookup(g, acts, sorted, pos, lay, t, p, a);
      FoundShift(t, p, x);
    }
    if !HasLive(ap, x) {
      if p < |t.shiftOfst| && t.shiftOfst[p] != t.shiftUseDflt && 0 <= t.shiftOfst[p] + x < |t.action|
         && t.lookahead[t.shiftOfst[p] + x] == x {
        var q, a := StrayEntry(g, acts, sorted, pos, lay, t, p, x);
        StrayIsDefault(g, acts, sorted, pos, t, p, q, a);
        FoundShift(t, p, x);
      } else {
        NotFoundShift(t, p, x);
      }
    }
    NowLookupRight(g, pos, ap, t, p, x);
  }

  lemma FoundShift(t: Tables, p: nat, x: nat)
    requires p < |t.dflt| && |t.action| == |t.lookahead| && p < |t.shiftOfst| && t.shiftOfst[p] != t.shiftUseDflt
    requires 0 <= t.shiftOfst[p] + x < |t.action| && t.lookahead[t.shiftOfst[p] + x] == x
    ensures FindShiftAction(t, p, x) == t.action[t.shiftOfst[p] + x]
  {
  }

  lemma NotFoundShift(t: Tables, p: nat, x: nat)
    requires p < |t.dflt| && |t.action| == |t.lookahead|
    requires !(p < |t.shiftOfst| && t.shiftOfst[p] != t.shiftUseDflt
               && 0 <= t.shiftOfst[p] + x < |t.action| && t.lookahead[t.shiftOfst[p] + x] == x)
    ensures FindShiftAction(t, p, x) == t.dflt[p]
  {
  }

  lemma StrayIsDefault(g: Grammar, acts: seq<seq<Action>>, sorted: seq<nat>, pos: seq<nat>, t: Tables, p: nat, q: nat,
      a: Action)
    requires Input(g, acts, sorted, pos) && Undisturbed(g, acts, sorted, pos, t) && p < |acts| && q < |acts|
    requires SharesOffset(t, p, q)
    requires |sorted| == |acts| && sorted[p] < |acts| && sorted[q] < |acts|
    requires a in acts[sorted[q]] && Live(a) && a.sp < g.nterminal && !HasLive(acts[sorted[p]], a.sp)
    ensures |pos| == |acts| && (a.kind == Shift ==> a.arg < |acts|)
    ensures IsDefault(g, |acts|, acts[sorted[p]], Code(g, |acts|, pos, a))
  {
    SortedInRange(g, acts, sorted, pos);
    hide Input, SharesOffset, HasLive, IsDefault, Code, Live;
    assert Sees(g, acts, sorted, t, p, q, a);
  }

  lemma NowLookupRight(g: Grammar, pos: seq<nat>, ap: seq<Action>, t: Tables, p: nat, x: nat)
    requires |pos| == t.nstate && ArgsInRange(g, t.nstate, ap) && p < |t.dflt| && |t.action| == |t.lookahead|
    requires forall a :: a in ap && Live(a) && a.sp == x ==> FindShiftAction(t, p, x) == Code(g, t.nstate, pos, a)
    requires !HasLive(ap, x) ==> IsDefault(g, t.nstate, ap, FindShiftAction(t, p, x))
    ensures ShiftLookupRight(g, pos, ap, t, p, x)
  {
    hide FindShiftAction, Code, IsDefault, HasLive;
  }

  /** If all lookups are right, no state sees a foreign action that is not its default. */
  lemma RightIsUndisturbed(g: Grammar, acts: seq<seq<Action>>, sorted: seq<nat>, pos: seq<nat>, lay: Layout, t: Tables,
      p: nat, q: nat, a: Action)
    requires Input(g, acts, sorted, pos) && IsReport(g, acts, sorted, pos, lay, t) && Refines(g, acts, sorted, pos, t)
    requires Sees(g, acts, sorted, t, p, q, a)
    ensures |pos| == |acts| == |sorted| && p < |acts| && sorted[p] < |acts| && (a.kind == Shift ==> a.arg < |acts|)
    ensures IsDefault(g, |acts|, acts[sorted[p]], Code(g, |acts|, pos, a))
  {
    hide *;
    SeesParts(g, acts, sorted, t, p, q, a);
    OwnShiftLookup(g, acts, sorted, pos, lay, t, q, a);
    SortedInRange(g, acts, sorted, pos);
    ReportParts(g, acts, sorted, pos, lay, t);
    FrameParts(g, acts, sorted, t);
    SharedOffset(t, p, q);
    FoundShift(t, p, a.sp);
    DefaultLookup(g, acts, sorted, pos, t, p, a.sp);
  }

  lemma SeesParts(g: Grammar, acts: seq<seq<Action>>, sorted: seq<nat>, t: Tables, p: nat, q: nat, a: Action)
    requires Sees(g, acts, sorted, t, p, q, a)
    ensures p < |acts| == |sorted| && q < |acts| && sorted[p] < |acts| && sorted[q] < |acts| && SharesOffset(t, p, q)
    ensures a in acts[sorted[q]] && Live(a) && a.sp < g.nterminal && !HasLive(acts[sorted[p]], a.sp)
  {
  }

  lemma SharedOffset(t: Tables, p: nat, q: nat)
    requires SharesOffset(t, p, q)
    ensures p < |t.shiftOfst| && q < |t.shiftOfst| && t.shiftOfst[p] == t.shiftOfst[q] != t.shiftUseDflt
  {
  }

  lemma DefaultLookup(g: Grammar, acts: seq<seq<Action>>, sorted: seq<nat>, pos: seq<nat>, t: Tables, p: nat, x: nat)
    requires Refines(g, acts, sorted, pos, t) && p < |acts| == |sorted| && sorted[p] < |acts| && x < g.nterminal
    requires !HasLive(acts[sorted[p]], x)
    ensures p < |t.dflt| && |t.action| == |t.lookahead|
    ensures IsDefault(g, |acts|, acts[sorted[p]], FindShiftAction(t, p, x))
  {
    hide HasLive, IsDefault, FindShiftAction, ReduceLookupRight;
    assert ShiftLookupRight(g, pos, acts[sorted[p]], t, p, x);
  }

  /** The written arrays refine the action lists exactly when sharing offsets disturbs no state. */
  lemma WrittenRefines(g: Grammar, acts: seq<seq<Action>>, sorted: seq<nat>, pos: seq<nat>, lay: Layout, t: Tables)
    requires Input(g, acts, sorted, pos) && IsReport(g, acts, sorted, pos, lay, t)
    ensures Refines(g, acts, sorted, pos, t) <==> Undisturbed(g, acts, sorted, pos, t)
  {
    hide *;
    if Undisturbed(g, acts, sorted, pos, t) { UndisturbedRefines(g, acts, sorted, pos, lay, t); }
    if Refines(g, acts, sorted, pos, t) { RefinesUndisturbed(g, acts, sorted, pos, lay, t); }
  }

  lemma RefinesUndisturbed(g: Grammar, acts: seq<seq<Action>>, sorted: seq<nat>, pos: seq<nat>, lay: Layout, t: Tables)
    requires Input(g, acts, sorted, pos) && IsReport(g, acts, sorted, pos, lay, t) && Refines(g, acts, sorted, pos, t)
    ensures Undisturbed(g, acts, sorted, pos, t)
  {
    SortedInRange(g, acts, sorted, pos);
    hide Input, IsReport, Refines, SharesOffset, HasLive, IsDefault, Code, Live, Sees;
    forall p: nat, q: nat, a | Sees(g, acts, sorted, t, p, q, a)
      ensures |pos| == |acts| == |sorted| && p < |acts| && sorted[p] < |acts| && (a.kind == Shift ==> a.arg < |acts|)
      ensures IsDefault(g, |acts|, acts[sorted[p]], Code(g, |acts|, pos, a))
    {
      RightIsUndisturbed(g, acts, sorted, pos, lay, t, p, q, a);
    }
  }

  lemma UndisturbedRefines(g: Grammar, acts: seq<seq<Action>>, sorted: seq<nat>, pos: seq<nat>, lay: Layout, t: Tables)
    requires Input(g, acts, sorted, pos) && IsReport(g, acts, sorted, pos, lay, t)
    requires Undisturbed(g, acts, sorted, pos, t)
    ensures Refines(g, acts, sorted, pos, t)
  {
    hide *;
    ReportParts(g, acts, sorted, pos, lay, t);
    FrameParts(g, acts, sorted, t);
    SortedInRange(g, acts, sorted, pos);
    InputParts(g, acts, sorted, pos);
    forall p, x | 0 <= p < t.nstate && 0 <= x < g.nterminal ensures ShiftLookupRight(g, pos, acts[sorted[p]], t, p, x) {
      ShiftLookups(g, acts, sorted, pos, lay, t, p, x);
    }
    forall p, x | 0 <= p < t.nstate && g.nterminal <= x < g.nsymbol
      ensures ReduceLookupRight(g, pos, acts[sorted[p]], t, p, x)
    {
      ReduceLookups(g, acts, sorted, pos, lay, t, p, x);
    }
    NowRefines(g, acts, sorted, pos, t);
  }

  lemma InputParts(g: Grammar, acts: seq<seq<Action>>, sorted: seq<nat>, pos: seq<nat>)
    requires Input(g, acts, sorted, pos)
    ensures Renumbering(|acts|, sorted, pos) && forall s :: 0 <= s < |acts| ==> ArgsInRange(g, |acts|, acts[s])
  {
    hide ArgsInRange, Renumbering, WellFormed, Deterministic;
  }

  lemma NowRefines(g: Grammar, acts: seq<seq<Action>>, sorted: seq<nat>, pos: seq<nat>, t: Tables)
    requires t.nstate == |acts| == |t.dflt| && t.nrule == |g.rules| && t.nsymbol == g.nsymbol
    requires |t.action| == |t.lookahead|
    requires Renumbering(t.nstate, sorted, pos) && forall s :: 0 <= s < |acts| ==> ArgsInRange(g, |acts|, acts[s])
    requires |sorted| == |pos| == |acts| && forall p :: 0 <= p < |acts| ==> sorted[p] < |acts|
    requires forall p, x :: 0 <= p < t.nstate && 0 <= x < g.nterminal ==>
        ShiftLookupRight(g, pos, acts[sorted[p]], t, p, x)
    requires forall p, x :: 0 <= p < t.nstate && g.nterminal <= x < g.nsymbol ==>
        ReduceLookupRight(g, pos, acts[sorted[p]], t, p, x)
    requires |t.ruleLhs| == |t.ruleNrhs| == |g.rules|
    requires forall r :: 0 <= r < |g.rules| ==>
        t.ruleLhs[r] == g.rules[r].lhs && t.ruleNrhs[r] == |g.rules[r].rhs| % 256
    ensures Refines(g, acts, sorted, pos, t)
  {
    hide ArgsInRange, Renumbering, ShiftLookupRight, ReduceLookupRight;
  }

  /** When terminal rows that share an offset are equal, no state is disturbed. */
  lemma ApartIsUndisturbed(g: Grammar, acts: seq<seq<Action>>, sorted: seq<nat>, pos: seq<nat>, lay: Layout, t: Tables)
    requires Input(g, acts, sorted, pos) && IsReport(g, acts, sorted, pos, lay, t)
    requires IsOrder(g, acts, sorted, pos, lay.order, lay.k)
    requires Unmixed(PackedTable(g, acts, sorted, pos, lay).rows, g.nterminal)
    ensures Undisturbed(g, acts, sorted, pos, t)
  {
    hide Input, IsReport, SharesOffset, HasLive, IsDefault, Code, Live, IsOrder, PackedTable, Sees, Unmixed;
    forall p: nat, q: nat, a ensures !Sees(g, acts, sorted, t, p, q, a) {
      if Sees(g, acts, sorted, t, p, q, a) {
        SeesParts(g, acts, sorted, t, p, q, a);
        SharingSeesOwn(g, acts, sorted, pos, lay, t, p, q, a);
        assert false;
      }
    }
  }

  /** When every insertion keeps the rows exact, no state is disturbed. */
  lemma KeptIsUndisturbed(g: Grammar, acts: seq<seq<Action>>, sorted: seq<nat>, pos: seq<nat>, lay: Layout, t: Tables)
    requires Input(g, acts, sorted, pos) && IsReport(g, acts, sorted, pos, lay, t)
    requires IsOrder(g, acts, sorted, pos, lay.order, lay.k) && PackedTable(g, acts, sorted, pos, lay).kept
    ensures Undisturbed(g, acts, sorted, pos, t)
  {
    hide *;
    var tb := PackedTable(g, acts, sorted, pos, lay);
    TableSane(g, acts, sorted, pos, lay);
    SanePlacing(tb);
    PackedIsApart(tb.tab, tb.n, tb.rows, g.nterminal);
    ApartIsUndisturbed(g, acts, sorted, pos, lay, t);
  }

  /** Nor when every state with an action on a terminal has one on terminal 0 or 1, whatever becomes of the
      nonterminal rows. */
  lemma LowTerminalRowsUndisturbed(g: Grammar, acts: seq<seq<Action>>, sorted: seq<nat>, pos: seq<nat>, lay: Layout,
      t: Tables)
    requires Input(g, acts, sorted, pos) && IsReport(g, acts, sorted, pos, lay, t)
    requires forall s, a :: 0 <= s < |acts| && a in acts[s] && Live(a) && a.sp < g.nterminal ==>
        HasLive(acts[s], 0) || HasLive(acts[s], 1)
    ensures Undisturbed(g, acts, sorted, pos, t)
  {
    hide *;
    ReportParts(g, acts, sorted, pos, lay, t);
    ReportIs(g, acts, sorted, pos, lay, t);
    SortedInRange(g, acts, sorted, pos);
    OrderParts(g, acts, sorted, pos, lay.order, lay.k);
    var lists := RowLists(g, acts, sorted, pos, lay.order, lay.k);
    forall k | 0 <= k < |lists| ensures Pure(lists[k], g.nterminal) {
      var j := ListIs(g, acts, sorted, pos, lay.order, lay.k, k);
      RowIsPure(g, acts, sorted, pos, lay.order[k].p, lay.order[k].isTkn);
    }
    forall k | 0 <= k < |lists| && Under(lists[k], g.nterminal) ensures lists[k] != [] && Lowest(lists[k]) <= 1 {
      var j := ListIs(g, acts, sorted, pos, lay.order, lay.k, k);
      LowRow(g, acts, sorted, pos, lay.order[k].p, lay.order[k].isTkn);
    }
    NowAllPure(lists, g.nterminal);
    LowRowsApart(lists, g.nterminal);
    TableReplays(g, acts, sorted, pos, lay);
    ApartIsUndisturbed(g, acts, sorted, pos, lay, t);
  }

  lemma NowAllPure(lists: seq<seq<Entry>>, limit: int)
    requires forall k :: 0 <= k < |lists| ==> Pure(lists[k], limit)
    ensures AllPure(lists, limit)
  {
    hide Pure;
  }

  lemma TableReplays(g: Grammar, acts: seq<seq<Action>>, sorted: seq<nat>, pos: seq<nat>, lay: Layout)
    requires Input(g, acts, sorted, pos) && IsOrder(g, acts, sorted, pos, lay.order, lay.k)
    ensures AllRows(g, acts, sorted, pos, lay.order)
    ensures PackedTable(g, acts, sorted, pos, lay) == Replay(RowLists(g, acts, sorted, pos, lay.order, lay.k))
  {
    hide Input, Replay, RowLists, AllRows;
  }

  lemma OrderParts(g: Grammar, acts: seq<seq<Action>>, sorted: seq<nat>, pos: seq<nat>, order: seq<AxSet>, k: nat)
    requires Input(g, acts, sorted, pos) && IsOrder(g, acts, sorted, pos, order, k)
    ensures AllRows(g, acts, sorted, pos, order) && SortedValues(AxCmp, order)
    ensures k <= |order| && (k == |order| || order[k].nAction == 0) && forall j :: 0 <= j < k ==> order[j].nAction > 0
  {
    hide Input, AllRows, SortedValues;
  }

  lemma {:induction false} ListIs(g: Grammar, acts: seq<seq<Action>>, sorted: seq<nat>, pos: seq<nat>,
      order: seq<AxSet>, k: nat, j: nat)
    returns (p: nat)
    requires Input(g, acts, sorted, pos) && AllRows(g, acts, sorted, pos, order)
    requires j < k <= |order| && forall j :: 0 <= j < k ==> order[j].nAction > 0
    ensures p == order[j].p < |acts|
    ensures RowLists(g, acts, sorted, pos, order, k)[j] == RowFor(g, acts, sorted, pos, order[j].p, order[j].isTkn) !=
        []
    decreases k
  {
    OrderAt(g, acts, sorted, pos, order, j);
    RowAt(g, acts, sorted, pos, order[j]);
    hide Input, RowFor, AllRows, AxFor;
    if j + 1 == k {
      p := order[j].p;
    } else {
      p := ListIs(g, acts, sorted, pos, order, k - 1, j);
    }
  }

  lemma RowIsPure(g: Grammar, acts: seq<seq<Action>>, sorted: seq<nat>, pos: seq<nat>, p: nat, b: bool)
    requires Input(g, acts, sorted, pos) && p < |acts|
    ensures Pure(RowFor(g, acts, sorted, pos, p, b), g.nterminal)
    ensures b ==> Under(RowFor(g, acts, sorted, pos, p, b), g.nterminal)
    ensures !b ==> forall e :: e in RowFor(g, acts, sorted, pos, p, b) ==> e.lookahead >= g.nterminal
  {
    hide Input, RowFor;
    var row := RowFor(g, acts, sorted, pos, p, b);
    forall e | e in row ensures if b then e.lookahead < g.nterminal else e.lookahead >= g.nterminal {
      var a := RowHoldsOnly(g, acts, sorted, pos, p, b, e);
    }
    forall k | 0 <= k < |row| ensures if b then row[k].lookahead < g.nterminal else row[k].lookahead >= g.nterminal {
      assert row[k] in row;
    }
  }

  lemma LowRow(g: Grammar, acts: seq<seq<Action>>, sorted: seq<nat>, pos: seq<nat>, p: nat, b: bool)
    requires Input(g, acts, sorted, pos) && p < |acts| && RowFor(g, acts, sorted, pos, p, b) != []
    requires Under(RowFor(g, acts, sorted, pos, p, b), g.nterminal)
    requires forall s, a :: 0 <= s < |acts| && a in acts[s] && Live(a) && a.sp < g.nterminal ==>
        HasLive(acts[s], 0) || HasLive(acts[s], 1)
    ensures Lowest(RowFor(g, acts, sorted, pos, p, b)) <= 1
  {
    SortedInRange(g, acts, sorted, pos);
    hide Input, RowFor, HasLive, Lowest, Live;
    var row := RowFor(g, acts, sorted, pos, p, b);
    assert row[0] in row;
    var a := RowHoldsOnly(g, acts, sorted, pos, p, b, row[0]);
    ExtremesAre(row);
    assert a.sp < g.nterminal && b;
    if HasLive(acts[sorted[p]], 0) {
      LowEntry(g, acts, sorted, pos, p, 0);
    } else {
      LowEntry(g, acts, sorted, pos, p, 1);
    }
  }

  lemma LowEntry(g: Grammar, acts: seq<seq<Action>>, sorted: seq<nat>, pos: seq<nat>, p: nat, x: nat)
    requires Input(g, acts, sorted, pos) && p < |acts| == |sorted| && sorted[p] < |acts| && HasLive(acts[sorted[p]], x)
    requires x <= 1
    requires RowFor(g, acts, sorted, pos, p, true) != [] && Under(RowFor(g, acts, sorted, pos, p, true), g.nterminal)
    ensures Lowest(RowFor(g, acts, sorted, pos, p, true)) <= 1
  {
    var row := RowFor(g, acts, sorted, pos, p, true);
    Terminals(g, acts, sorted, pos);
    ExtremesAre(row);
    hide Input, RowFor, Lowest, Live;
    if x < g.nterminal {
      RowHolds(g, acts, sorted, pos, p, x, true);
      var a :| a in acts[sorted[p]] && Live(a) && a.sp == x;
      var e := Entry(x, Code(g, |acts|, pos, a));
      var k :| 0 <= k < |row| && row[k] == e;
    } else {
      assert row[0].lookahead < g.nterminal;
    }
  }

  lemma SharingSeesOwn(g: Grammar, acts: seq<seq<Action>>, sorted: seq<nat>, pos: seq<nat>, lay: Layout, t: Tables,
      p: nat, q: nat, a: Action)
    requires Input(g, acts, sorted, pos) && IsReport(g, acts, sorted, pos, lay, t)
    requires IsOrder(g, acts, sorted, pos, lay.order, lay.k)
    requires Unmixed(PackedTable(g, acts, sorted, pos, lay).rows, g.nterminal)
    requires p < |acts| && q < |acts| && SharesOffset(t, p, q) && |sorted| == |acts| && sorted[p] < |acts|
    requires sorted[q] < |acts|
    requires a in acts[sorted[q]] && Live(a) && a.sp < g.nterminal
    ensures HasLive(acts[sorted[p]], a.sp)
  {
    hide *;
    ReportParts(g, acts, sorted, pos, lay, t);
    SortedInRange(g, acts, sorted, pos);
    Terminals(g, acts, sorted, pos);
    SharedOffset(t, p, q);
    OffsetsReach(g, lay.tkn, lay.mnT, t.shiftOfst);
    WrittenOffset(g, lay.tkn, lay.mnT, t.shiftOfst, p);
    WrittenOffset(g, lay.tkn, lay.mnT, t.shiftOfst, q);
    var tb := PackedTable(g, acts, sorted, pos, lay);
    RowHolds(g, acts, sorted, pos, q, a.sp, true);
    var e := Entry(a.sp, Code(g, |acts|, pos, a));
    var i := PlacedRow(g, acts, sorted, pos, lay.tkn, lay.nt, tb.rows, p);
    var j := PlacedRow(g, acts, sorted, pos, lay.tkn, lay.nt, tb.rows, q);
    RowIsPure(g, acts, sorted, pos, p, true);
    RowIsPure(g, acts, sorted, pos, q, true);
    ApartAt(tb.rows, g.nterminal, i, j);
    SameSetHas(tb.rows[i].entries, tb.rows[j].entries, e);
    var c := RowHoldsOnly(g, acts, sorted, pos, p, true, e);
    NowHasLive(acts[sorted[p]], c);
  }

  lemma ApartAt(rows: seq<Row>, limit: int, r: nat, q: nat)
    requires Unmixed(rows, limit) && r < |rows| && q < |rows| && rows[r].offset == rows[q].offset
    requires Under(rows[r].entries, limit) && Under(rows[q].entries, limit)
    ensures SameSet(rows[r].entries, rows[q].entries)
  {
    hide Under, SameSet;
  }

  lemma OffsetsReach(g: Grammar, ofst: seq<int>, mn: int, out: seq<int>)
    requires IsOffsets(ofst, mn - 1, out)
    ensures |out| <= |ofst|
  {
  }

  lemma PlacedRow(g: Grammar, acts: seq<seq<Action>>, sorted: seq<nat>, pos: seq<nat>, tkn: seq<int>, nt: seq<int>,
      rows: seq<Row>, p: nat)
    returns (r: nat)
    requires Input(g, acts, sorted, pos) && AllPlaced(g, acts, sorted, pos, tkn, nt, rows) && p < |acts| && p < |tkn|
    requires tkn[p] != NO_OFFSET
    ensures r < |rows| && rows[r] == Row(tkn[p], RowFor(g, acts, sorted, pos, p, true))
  {
    hide Input, RowFor, IsRowOf;
    assert Row(tkn[p], RowFor(g, acts, sorted, pos, p, true)) in rows;
    r :| 0 <= r < |rows| && rows[r] == Row(tkn[p], RowFor(g, acts, sorted, pos, p, true));
  }

  lemma SameSetHas(a: seq<Entry>, b: seq<Entry>, e: Entry)
    requires SameSet(a, b) && e in b
    ensures e in a
  {
  }

  lemma NowHasLive(ap: seq<Action>, a: Action)
    requires a in ap && Live(a)
    ensures HasLive(ap, a.sp)
  {
  }

  method EmitTable(g: Grammar, n: nat, tab: ActTab) returns (action: seq<int>, lookahead: seq<int>)
    requires tab.nAction <= |tab.aAction|
    ensures IsEmitted(g, n, tab.aAction, tab.nAction, action, lookahead)
  {
    action, lookahead := [], [];
    for i := 0 to tab.nAction
      invariant IsEmitted(g, n, tab.aAction, i, action, lookahead)
    {
      var (e, free) := (tab.aAction[i], n + |g.rules| + 2);
      action := action + [if e.action < 0 then free else e.action];
      lookahead := lookahead + [if e.lookahead < 0 then g.nsymbol else e.lookahead];
    }
  }

  lemma ValidSize(tab: ActTab)
    requires tab.Valid()
    ensures tab.nAction <= |tab.aAction|
  {
  }

  /** The table part of ReportTable. */
  method ReportTable(g: Grammar, acts: seq<seq<Action>>, sorted: seq<nat>, pos: seq<nat>)
    returns (t: Tables, ghost lay: Layout)
    requires Input(g, acts, sorted, pos)
    ensures IsReport(g, acts, sorted, pos, lay, t)
    ensures Refines(g, acts, sorted, pos, t) <==> Undisturbed(g, acts, sorted, pos, t)
    ensures IsOrder(g, acts, sorted, pos, lay.order, lay.k)
    ensures PackedTable(g, acts, sorted, pos, lay).kept ==> Refines(g, acts, sorted, pos, t)
  {
    hide *;
    var ax := MakeAxSets(g, acts, sorted, pos);
    AxOrder();
    var order := QSort.Sort(ax, AxCmp);
    SortedRows(g, acts, sorted, pos, ax, order);
    var tab, tkn, nt, mnT, mnN;
    ghost var k;
    tab, tkn, nt, mnT, mnN, k := PlaceRows(g, acts, sorted, pos, order);
    lay := Layout(order, k, tkn, nt, mnT, mnN);
    ValidSize(tab);
    var action, lookahead := EmitTable(g, |acts|, tab);
    var shiftOfst := EmitOffsets(tkn, mnT - 1);
    var reduceOfst := EmitOffsets(nt, mnN - 1);
    var dflt := EmitDefaults(g, acts, sorted, pos);
    t := Tables(|acts|, |g.rules|, g.nsymbol, action, lookahead, mnT - 1, shiftOfst, mnN - 1, reduceOfst, dflt,
                seq(|g.rules|, r requires 0 <= r < |g.rules| => g.rules[r].lhs),
                seq(|g.rules|, r requires 0 <= r < |g.rules| => |g.rules[r].rhs| % 256));
    NowReport(g, acts, sorted, pos, lay, t, tab);
    WrittenRefines(g, acts, sorted, pos, lay, t);
    ReportParts(g, acts, sorted, pos, lay, t);
    if PackedTable(g, acts, sorted, pos, lay).kept { KeptIsUndisturbed(g, acts, sorted, pos, lay, t); }
  }

  lemma AxOrder()
    ensures TotalOrder(AxCmp)
  {
  }

  lemma NowReport(g: Grammar, acts: seq<seq<Action>>, sorted: seq<nat>, pos: seq<nat>, lay: Layout, t: Tables,
      tab: ActTab)
    requires Input(g, acts, sorted, pos) && AllRows(g, acts, sorted, pos, lay.order) && SortedValues(AxCmp, lay.order)
    requires lay.k <= |lay.order| && (lay.k == |lay.order| || lay.order[lay.k].nAction == 0)
    requires forall j :: 0 <= j < lay.k ==> lay.order[j].nAction > 0
    requires tab.nAction <= |tab.aAction| && tab.Abs() == Replay(RowLists(g, acts, sorted, pos, lay.order, lay.k))
    requires Progress(g, acts, sorted, pos, lay.order, lay.k, lay.tkn, lay.nt, lay.mnT, lay.mnN, tab.rows)
    requires IsEmitted(g, |acts|, tab.aAction, tab.nAction, t.action, t.lookahead)
    requires t.shiftUseDflt == lay.mnT - 1 && IsOffsets(lay.tkn, lay.mnT - 1, t.shiftOfst)
    requires t.reduceUseDflt == lay.mnN - 1 && IsOffsets(lay.nt, lay.mnN - 1, t.reduceOfst)
    requires t.nstate == |acts| == |t.dflt| && t.nrule == |g.rules| && t.nsymbol == g.nsymbol
    requires forall p :: 0 <= p < |acts| ==> IsDefault(g, |acts|, acts[sorted[p]], t.dflt[p])
    requires |t.ruleLhs| == |t.ruleNrhs| == |g.rules|
    requires forall r :: 0 <= r < |g.rules| ==>
        t.ruleLhs[r] == g.rules[r].lhs && t.ruleNrhs[r] == |g.rules[r].rhs| % 256
    ensures IsReport(g, acts, sorted, pos, lay, t)
  {
    hide *;
    SortedInRange(g, acts, sorted, pos);
    NowOrder(g, acts, sorted, pos, lay);
    TableIs(g, acts, sorted, pos, lay, tab);
    NowFrame(g, acts, sorted, t);
    NowReportIs(g, acts, sorted, pos, lay, t);
  }

  lemma NowOrder(g: Grammar, acts: seq<seq<Action>>, sorted: seq<nat>, pos: seq<nat>, lay: Layout)
    requires Input(g, acts, sorted, pos) && AllRows(g, acts, sorted, pos, lay.order) && SortedValues(AxCmp, lay.order)
    requires lay.k <= |lay.order| && (lay.k == |lay.order| || lay.order[lay.k].nAction == 0)
    requires forall j :: 0 <= j < lay.k ==> lay.order[j].nAction > 0
    ensures IsOrder(g, acts, sorted, pos, lay.order, lay.k)
  {
    hide Input, AllRows;
  }

  lemma TableIs(g: Grammar, acts: seq<seq<Action>>, sorted: seq<nat>, pos: seq<nat>, lay: Layout, tab: ActTab)
    requires Input(g, acts, sorted, pos) && IsOrder(g, acts, sorted, pos, lay.order, lay.k)
    requires tab.Abs() == Replay(RowLists(g, acts, sorted, pos, lay.order, lay.k))
    ensures
      var p := PackedTable(g, acts, sorted, pos, lay);
      p.tab == tab.aAction && p.n == tab.nAction && p.rows == tab.rows
  {
    hide Input, Replay, RowLists;
  }

  lemma NowFrame(g: Grammar, acts: seq<seq<Action>>, sorted: seq<nat>, t: Tables)
    requires |sorted| == |acts| && forall p :: 0 <= p < |acts| ==> sorted[p] < |acts|
    requires t.nstate == |acts| == |t.dflt| && t.nrule == |g.rules| && t.nsymbol == g.nsymbol
    requires forall p :: 0 <= p < |acts| ==> IsDefault(g, |acts|, acts[sorted[p]], t.dflt[p])
    requires |t.ruleLhs| == |t.ruleNrhs| == |g.rules|
    requires forall r :: 0 <= r < |g.rules| ==>
        t.ruleLhs[r] == g.rules[r].lhs && t.ruleNrhs[r] == |g.rules[r].rhs| % 256
    ensures Frame(g, acts, sorted, t)
  {
    hide IsDefault;
  }

  lemma NowReportIs(g: Grammar, acts: seq<seq<Action>>, sorted: seq<nat>, pos: seq<nat>, lay: Layout, t: Tables)
    requires Input(g, acts, sorted, pos) && IsOrder(g, acts, sorted, pos, lay.order, lay.k)
    requires |sorted| == |acts| && (forall p :: 0 <= p < |acts| ==> sorted[p] < |acts|) && Frame(g, acts, sorted, t)
    requires AllRows(g, acts, sorted, pos, lay.order)
    requires
      var p := PackedTable(g, acts, sorted, pos, lay);
      && Progress(g, acts, sorted, pos, lay.order, lay.k, lay.tkn, lay.nt, lay.mnT, lay.mnN, p.rows)
      && IsEmitted(g, |acts|, p.tab, p.n, t.action, t.lookahead)
    requires t.shiftUseDflt == lay.mnT - 1 && IsOffsets(lay.tkn, lay.mnT - 1, t.shiftOfst)
    requires t.reduceUseDflt == lay.mnN - 1 && IsOffsets(lay.nt, lay.mnN - 1, t.reduceOfst)
    ensures IsReport(g, acts, sorted, pos, lay, t)
  {
    hide Input, IsOrder, AllRows, Progress, IsEmitted, IsOffsets, Frame, PackedTable;
  }

  // ----- there is one order -----

  ghost predicate Antisymmetric<T(!new)>(cmp: (T, T) -> int, a: seq<T>) {
    forall x, y :: x in a && y in a && cmp(x, y) <= 0 && cmp(y, x) <= 0 ==> x == y
  }

  lemma SameFirst<T(!new)>(cmp: (T, T) -> int, a: seq<T>, b: seq<T>)
    requires SortedValues(cmp, a) && SortedValues(cmp, b) && a != [] && b != [] && Antisymmetric(cmp, a)
    requires forall x :: x in a <==> x in b
    ensures a[0] == b[0]
  {
    assert a[0] in b && b[0] in a;
    var i :| 0 <= i < |b| && b[i] == a[0];
    var j :| 0 <= j < |a| && a[j] == b[0];
    if i > 0 { assert cmp(b[0], b[i]) <= 0; }
    if j > 0 { assert cmp(a[0], a[j]) <= 0; }
  }

  lemma TailsSame<T(!new)>(cmp: (T, T) -> int, a: seq<T>, b: seq<T>)
    requires a != [] && b != [] && a[0] == b[0] && multiset(a) == multiset(b) && Antisymmetric(cmp, a)
    requires SortedValues(cmp, a) && SortedValues(cmp, b)
    ensures multiset(a[1..]) == multiset(b[1..]) && Antisymmetric(cmp, a[1..])
    ensures SortedValues(cmp, a[1..]) && SortedValues(cmp, b[1..])
  {
    assert a == [a[0]] + a[1..] && b == [b[0]] + b[1..];
    assert multiset(a[1..]) == multiset(a) - multiset{a[0]} && multiset(b[1..]) == multiset(b) - multiset{b[0]};
    forall x | x in a[1..] ensures x in a { }
    hide SortedValues;
    TailSorted(cmp, a);
    TailSorted(cmp, b);
  }

  lemma TailSorted<T(!new)>(cmp: (T, T) -> int, a: seq<T>)
    requires a != [] && SortedValues(cmp, a)
    ensures SortedValues(cmp, a[1..])
  {
  }

  lemma {:induction false} SortedUnique<T(!new)>(cmp: (T, T) -> int, a: seq<T>, b: seq<T>)
    requires SortedValues(cmp, a) && SortedValues(cmp, b) && multiset(a) == multiset(b) && Antisymmetric(cmp, a)
    ensures a == b
    decreases |a|
  {
    hide *;
    SameElements(a, b);
    if a != [] {
      SameFirst(cmp, a, b);
      TailsSame(cmp, a, b);
      SortedUnique(cmp, a[1..], b[1..]);
      assert a == [a[0]] + a[1..] && b == [b[0]] + b[1..];
    }
  }

  lemma OnceEach<T>(a: seq<T>, b: seq<T>)
    requires NoDuplicates(a) && NoDuplicates(b) && forall x :: x in a <==> x in b
    ensures multiset(a) == multiset(b)
  {
    forall x ensures multiset(a)[x] == multiset(b)[x] {
      CountOnce(a, x);
      CountOnce(b, x);
    }
  }

  lemma CountOnce<T>(a: seq<T>, x: T)
    requires NoDuplicates(a)
    ensures multiset(a)[x] == if x in a then 1 else 0
  {
    if multiset(a)[x] >= 2 {
      var i :| 0 <= i < |a| && a[i] == x;
      var j := AnotherOne(a, i);
      assert false;
    }
  }

  /** axset_compare leaves no choice: the layout of the table is a function of the lists. */
  lemma OrderUnique(g: Grammar, acts: seq<seq<Action>>, sorted: seq<nat>, pos: seq<nat>, order: seq<AxSet>, k: nat,
      order': seq<AxSet>, k': nat)
    requires Input(g, acts, sorted, pos) && IsOrder(g, acts, sorted, pos, order, k)
    requires IsOrder(g, acts, sorted, pos, order', k')
    ensures order == order' && k == k'
  {
    hide Input, AxCmp;
    forall x ensures x in order <==> x in order' { AxIn(g, acts, sorted, pos, order, order', x); }
    OnceEach(order, order');
    forall x, y | x in order && y in order && AxCmp(x, y) <= 0 && AxCmp(y, x) <= 0 ensures x == y {
      AxAntisymmetric(g, acts, sorted, pos, order, x, y);
    }
    SortedUnique(AxCmp, order, order');
  }

  /** Larger rows come first; of rows with equally many entries that of the later state; and of the two rows of a state
      that of the nonterminals. */
  lemma LargerFirst(g: Grammar, acts: seq<seq<Action>>, sorted: seq<nat>, pos: seq<nat>, order: seq<AxSet>, k: nat,
      i: nat, j: nat)
    requires Input(g, acts, sorted, pos) && IsOrder(g, acts, sorted, pos, order, k) && i < j < |order|
    ensures |sorted| == |acts| && order[i].p < |acts| && order[j].p < |acts|
    ensures sorted[order[i].p] < |acts| && sorted[order[j].p] < |acts|
    ensures
      var (x, y) := (order[i], order[j]);
      var (m, n) := (|LiveOn(g, acts[sorted[x.p]], x.isTkn)|, |LiveOn(g, acts[sorted[y.p]], y.isTkn)|);
      m > n || (m == n && (x.p > y.p || (x.p == y.p && !x.isTkn && y.isTkn)))
  {
    OrderAt(g, acts, sorted, pos, order, i);
    OrderAt(g, acts, sorted, pos, order, j);
    assert AxCmp(order[i], order[j]) <= 0 && order[i] != order[j] by { hide Input, AxFor; }
    RowIsLiveOn(g, acts, sorted, pos, order[i].p, order[i].isTkn);
    RowIsLiveOn(g, acts, sorted, pos, order[j].p, order[j].isTkn);
    hide Input, RowFor, AllRows, LiveOn, SortedValues;
  }

  lemma RowIsLiveOn(g: Grammar, acts: seq<seq<Action>>, sorted: seq<nat>, pos: seq<nat>, p: nat, tkn: bool)
    requires Input(g, acts, sorted, pos) && p < |acts|
    ensures |sorted| == |acts| && sorted[p] < |acts|
    ensures |RowFor(g, acts, sorted, pos, p, tkn)| == |LiveOn(g, acts[sorted[p]], tkn)|
  {
    hide RowEntries, LiveOn, WellFormed;
    RowSize(g, |acts|, pos, acts[sorted[p]], tkn);
  }

  lemma AxIn(g: Grammar, acts: seq<seq<Action>>, sorted: seq<nat>, pos: seq<nat>, a: seq<AxSet>, b: seq<AxSet>,
      x: AxSet)
    requires Input(g, acts, sorted, pos) && AllRows(g, acts, sorted, pos, a) && AllRows(g, acts, sorted, pos, b)
    ensures x in a <==> x in b
  {
    hide Input, AxFor;
  }

  lemma AxAntisymmetric(g: Grammar, acts: seq<seq<Action>>, sorted: seq<nat>, pos: seq<nat>, order: seq<AxSet>,
      x: AxSet, y: AxSet)
    requires Input(g, acts, sorted, pos) && AllRows(g, acts, sorted, pos, order) && x in order && y in order
    requires AxCmp(x, y) <= 0 && AxCmp(y, x) <= 0
    ensures x == y
  {
    hide Input, RowFor;
    assert x.nAction == y.nAction && x.iOrder == y.iOrder;
  }

  // ----- and so does the layout -----

  lemma LeastOffsetUnique(g: Grammar, ofst: seq<int>, mn: int, mn': int)
    requires IsLeastOffset(g, ofst, mn) && IsLeastOffset(g, ofst, mn') && g.nsymbol < -NO_OFFSET
    ensures mn == mn'
  {
  }

  lemma OffsetSame(g: Grammar, acts: seq<seq<Action>>, sorted: seq<nat>, pos: seq<nat>, order: seq<AxSet>, k: nat,
      a: Layout, b: Layout, rows: seq<Row>, p: nat, isTkn: bool)
    requires Input(g, acts, sorted, pos) && AllRows(g, acts, sorted, pos, order) && k <= |order| && p < |acts|
    requires Progress(g, acts, sorted, pos, order, k, a.tkn, a.nt, a.mnT, a.mnN, rows)
    requires Progress(g, acts, sorted, pos, order, k, b.tkn, b.nt, b.mnT, b.mnN, rows)
    ensures if isTkn then a.tkn[p] == b.tkn[p] else a.nt[p] == b.nt[p]
  {
    hide Input, RowFor, IsLeastOffset;
    var x := AxFor(g, acts, sorted, pos, p, isTkn);
    assert x in order;
    var j :| 0 <= j < |order| && order[j] == x;
    if j < k {
      assert Placed(g, acts, sorted, pos, order[j], a.tkn, a.nt, rows[j]);
      assert Placed(g, acts, sorted, pos, order[j], b.tkn, b.nt, rows[j]);
    } else {
      assert Unplaced(order[j], a.tkn, a.nt) && Unplaced(order[j], b.tkn, b.nt);
    }
  }

  lemma OffsetsSame(g: Grammar, acts: seq<seq<Action>>, sorted: seq<nat>, pos: seq<nat>, order: seq<AxSet>, k: nat,
      a: Layout, b: Layout, rows: seq<Row>)
    requires Input(g, acts, sorted, pos) && AllRows(g, acts, sorted, pos, order) && k <= |order|
    requires Progress(g, acts, sorted, pos, order, k, a.tkn, a.nt, a.mnT, a.mnN, rows)
    requires Progress(g, acts, sorted, pos, order, k, b.tkn, b.nt, b.mnT, b.mnN, rows)
    ensures a.tkn == b.tkn && a.nt == b.nt && a.mnT == b.mnT && a.mnN == b.mnN
  {
    NoLimit(g, acts, sorted, pos);
    hide Input, RowFor, IsLeastOffset;
    forall p: nat | p < |acts| ensures a.tkn[p] == b.tkn[p] {
      OffsetSame(g, acts, sorted, pos, order, k, a, b, rows, p, true);
    }
    forall p: nat | p < |acts| ensures a.nt[p] == b.nt[p] {
      OffsetSame(g, acts, sorted, pos, order, k, a, b, rows, p, false);
    }
    LeastOffsetUnique(g, a.tkn, a.mnT, b.mnT);
    LeastOffsetUnique(g, a.nt, a.mnN, b.mnN);
  }

  lemma LayoutUnique(g: Grammar, acts: seq<seq<Action>>, sorted: seq<nat>, pos: seq<nat>, a: Layout, b: Layout)
    requires Input(g, acts, sorted, pos) && IsLayout(g, acts, sorted, pos, a) && IsLayout(g, acts, sorted, pos, b)
    ensures a == b
  {
    hide *;
    LayoutParts(g, acts, sorted, pos, a);
    LayoutParts(g, acts, sorted, pos, b);
    OrderUnique(g, acts, sorted, pos, a.order, a.k, b.order, b.k);
    TableReplays(g, acts, sorted, pos, a);
    TableReplays(g, acts, sorted, pos, b);
    OffsetsSame(g, acts, sorted, pos, a.order, a.k, a, b, PackedTable(g, acts, sorted, pos, a).rows);
  }

  lemma LayoutParts(g: Grammar, acts: seq<seq<Action>>, sorted: seq<nat>, pos: seq<nat>, lay: Layout)
    requires Input(g, acts, sorted, pos) && IsLayout(g, acts, sorted, pos, lay)
    ensures IsOrder(g, acts, sorted, pos, lay.order, lay.k) && lay.k <= |lay.order|
    ensures AllRows(g, acts, sorted, pos, lay.order)
    ensures Progress(g, acts, sorted, pos, lay.order, lay.k, lay.tkn, lay.nt, lay.mnT, lay.mnN,
                     PackedTable(g, acts, sorted, pos, lay).rows)
    ensures |lay.tkn| == |acts|
  {
    hide Input, AllRows, PackedTable, Placed, Unplaced, IsLeastOffset;
  }

  // ----- the condition, of the lists alone -----

  /** Positions `p` and `q` have equal offsets for their terminals, `q` has action `a` and `p` none on its symbol. */
  ghost predicate Meets(g: Grammar, acts: seq<seq<Action>>, sorted: seq<nat>, lay: Layout, p: nat, q: nat, a: Action) {
    && p < |acts| == |sorted| == |lay.tkn| && q < |acts| && sorted[p] < |acts| && sorted[q] < |acts|
    && lay.tkn[p] == lay.tkn[q] != NO_OFFSET
    && a in acts[sorted[q]] && Live(a) && a.sp < g.nterminal && !HasLive(acts[sorted[p]], a.sp)
  }

  /** In the one layout that the lists have, every action that a state meets is its default anyway. */
  ghost predicate Harmless(g: Grammar, acts: seq<seq<Action>>, sorted: seq<nat>, pos: seq<nat>)
    requires Input(g, acts, sorted, pos)
  {
    SortedInRange(g, acts, sorted, pos);
    forall lay: Layout, p: nat, q: nat, a ::
      IsLayout(g, acts, sorted, pos, lay) && Meets(g, acts, sorted, lay, p, q, a) ==>
        IsDefault(g, |acts|, acts[sorted[p]], Code(g, |acts|, pos, a))
  }

  lemma MeetsIsSees(g: Grammar, acts: seq<seq<Action>>, sorted: seq<nat>, pos: seq<nat>, lay: Layout, t: Tables,
      p: nat, q: nat, a: Action)
    requires Input(g, acts, sorted, pos) && IsReport(g, acts, sorted, pos, lay, t)
    ensures Meets(g, acts, sorted, lay, p, q, a) <==> Sees(g, acts, sorted, t, p, q, a)
  {
    hide *;
    ReportParts(g, acts, sorted, pos, lay, t);
    OffsetsReach(g, lay.tkn, lay.mnT, t.shiftOfst);
    if p < |acts| && q < |acts| {
      WrittenOffset(g, lay.tkn, lay.mnT, t.shiftOfst, p);
      WrittenOffset(g, lay.tkn, lay.mnT, t.shiftOfst, q);
    }
    SameOffsets(g, acts, sorted, lay, t, p, q, a);
  }

  lemma SameOffsets(g: Grammar, acts: seq<seq<Action>>, sorted: seq<nat>, lay: Layout, t: Tables, p: nat, q: nat,
      a: Action)
    requires |lay.tkn| == |acts| && |t.shiftOfst| <= |acts| && t.shiftUseDflt == lay.mnT - 1
    requires p < |acts| && q < |acts| ==>
      && (lay.tkn[p] != NO_OFFSET ==> p < |t.shiftOfst| && t.shiftOfst[p] == lay.tkn[p] != lay.mnT - 1)
      && (lay.tkn[q] != NO_OFFSET ==> q < |t.shiftOfst| && t.shiftOfst[q] == lay.tkn[q] != lay.mnT - 1)
      && (p < |t.shiftOfst| && t.shiftOfst[p] != lay.mnT - 1 ==> lay.tkn[p] != NO_OFFSET)
      && (q < |t.shiftOfst| && t.shiftOfst[q] != lay.mnT - 1 ==> lay.tkn[q] != NO_OFFSET)
    ensures Meets(g, acts, sorted, lay, p, q, a) <==> Sees(g, acts, sorted, t, p, q, a)
  {
    hide HasLive, Live;
  }

  lemma HarmlessIsUndisturbed(g: Grammar, acts: seq<seq<Action>>, sorted: seq<nat>, pos: seq<nat>, lay: Layout,
      t: Tables)
    requires Input(g, acts, sorted, pos) && IsReport(g, acts, sorted, pos, lay, t)
    ensures Harmless(g, acts, sorted, pos) <==> Undisturbed(g, acts, sorted, pos, t)
  {
    SortedInRange(g, acts, sorted, pos);
    ReportLayout(g, acts, sorted, pos, lay, t);
    hide Input, IsReport, IsLayout, Meets, Sees, IsDefault, Code;
    if Harmless(g, acts, sorted, pos) {
      forall p: nat, q: nat, a | Sees(g, acts, sorted, t, p, q, a)
        ensures p < |acts| && sorted[p] < |acts| && (a.kind == Shift ==> a.arg < |acts|)
        ensures IsDefault(g, |acts|, acts[sorted[p]], Code(g, |acts|, pos, a))
      {
        MeetsIsSees(g, acts, sorted, pos, lay, t, p, q, a);
        SeenAction(g, acts, sorted, t, p, q, a);
      }
    }
    if Undisturbed(g, acts, sorted, pos, t) {
      forall other: Layout, p: nat, q: nat, a
        | IsLayout(g, acts, sorted, pos, other) && Meets(g, acts, sorted, other, p, q, a)
        ensures p < |acts| && sorted[p] < |acts| && (a.kind == Shift ==> a.arg < |acts|)
        ensures IsDefault(g, |acts|, acts[sorted[p]], Code(g, |acts|, pos, a))
      {
        LayoutUnique(g, acts, sorted, pos, other, lay);
        MeetsIsSees(g, acts, sorted, pos, lay, t, p, q, a);
        SeenAction(g, acts, sorted, t, p, q, a);
      }
    }
  }

  lemma SeenAction(g: Grammar, acts: seq<seq<Action>>, sorted: seq<nat>, t: Tables, p: nat, q: nat, a: Action)
    requires Sees(g, acts, sorted, t, p, q, a) && forall s :: 0 <= s < |sorted| && sorted[s] < |acts| ==>
      ArgsInRange(g, |acts|, acts[sorted[s]])
    ensures p < |acts| == |sorted| && sorted[p] < |acts| && (a.kind == Shift ==> a.arg < |acts|)
  {
  }

  lemma ReportLayout(g: Grammar, acts: seq<seq<Action>>, sorted: seq<nat>, pos: seq<nat>, lay: Layout, t: Tables)
    requires Input(g, acts, sorted, pos) && IsReport(g, acts, sorted, pos, lay, t)
    ensures IsLayout(g, acts, sorted, pos, lay)
  {
    hide Input, IsLayout, Frame, IsEmitted, IsOffsets;
  }

  /** The arrays are right exactly if the lists are harmless. */
  lemma RefinesIffHarmless(g: Grammar, acts: seq<seq<Action>>, sorted: seq<nat>, pos: seq<nat>, lay: Layout, t: Tables)
    requires Input(g, acts, sorted, pos) && IsReport(g, acts, sorted, pos, lay, t)
    ensures Refines(g, acts, sorted, pos, t) <==> Harmless(g, acts, sorted, pos)
  {
    hide *;
    WrittenRefines(g, acts, sorted, pos, lay, t);
    HarmlessIsUndisturbed(g, acts, sorted, pos, lay, t);
  }

  lemma EmittedUnique(g: Grammar, n: nat, tab: seq<Entry>, nAction: nat, action: seq<int>, lookahead: seq<int>,
      action': seq<int>, lookahead': seq<int>)
    requires nAction <= |tab| && IsEmitted(g, n, tab, nAction, action, lookahead)
    requires IsEmitted(g, n, tab, nAction, action', lookahead')
    ensures action == action' && lookahead == lookahead'
  {
  }

  /** What lies behind one written array is all empty, and a written array never ends empty. */
  lemma OffsetsNoLonger(ofst: seq<int>, useDflt: int, out: seq<int>, out': seq<int>)
    requires IsOffsets(ofst, useDflt, out) && IsOffsets(ofst, useDflt, out')
    ensures |out'| <= |out|
  {
    if |out| < |out'| {
      assert false;
    }
  }

  lemma OffsetsUnique(ofst: seq<int>, useDflt: int, out: seq<int>, out': seq<int>)
    requires IsOffsets(ofst, useDflt, out) && IsOffsets(ofst, useDflt, out')
    ensures out == out'
  {
    OffsetsNoLonger(ofst, useDflt, out, out');
    OffsetsNoLonger(ofst, useDflt, out', out);
  }

  lemma DefaultUnique(g: Grammar, n: nat, ap: seq<Action>, code: int, code': int)
    requires Deterministic(ap) && IsDefault(g, n, ap, code) && IsDefault(g, n, ap, code')
    ensures code == code'
  {
    if a :| a in ap && Live(a) && a.sp == g.nsymbol && a.kind == Reduce {
      var x :| x in ap && Live(x) && x.sp == g.nsymbol && x.kind == Reduce && code == x.arg + n;
      var y :| y in ap && Live(y) && y.sp == g.nsymbol && y.kind == Reduce && code' == y.arg + n;
      assert x == y;
    }
  }

  lemma FrameUnique(g: Grammar, acts: seq<seq<Action>>, sorted: seq<nat>, pos: seq<nat>, t: Tables, t': Tables)
    requires Input(g, acts, sorted, pos) && |sorted| == |acts| && forall p :: 0 <= p < |acts| ==> sorted[p] < |acts|
    requires Frame(g, acts, sorted, t) && Frame(g, acts, sorted, t')
    ensures t.nstate == t'.nstate && t.nrule == t'.nrule && t.nsymbol == t'.nsymbol && t.dflt == t'.dflt
    ensures t.ruleLhs == t'.ruleLhs && t.ruleNrhs == t'.ruleNrhs
  {
    hide IsDefault, Renumbering, WellFormed;
    forall p | 0 <= p < |acts| ensures t.dflt[p] == t'.dflt[p] {
      DefaultUnique(g, |acts|, acts[sorted[p]], t.dflt[p], t'.dflt[p]);
    }
  }

  /** The tables are a function of the lists and their numbering. */
  lemma ReportUnique(g: Grammar, acts: seq<seq<Action>>, sorted: seq<nat>, pos: seq<nat>, lay: Layout, t: Tables,
      lay': Layout, t': Tables)
    requires Input(g, acts, sorted, pos) && IsReport(g, acts, sorted, pos, lay, t)
    requires IsReport(g, acts, sorted, pos, lay', t')
    ensures lay == lay' && t == t'
  {
    hide *;
    ReportLayout(g, acts, sorted, pos, lay, t);
    ReportLayout(g, acts, sorted, pos, lay', t');
    LayoutUnique(g, acts, sorted, pos, lay, lay');
    ReportIs(g, acts, sorted, pos, lay, t);
    ReportIs(g, acts, sorted, pos, lay', t');
    FrameUnique(g, acts, sorted, pos, t, t');
    var p := PackedTable(g, acts, sorted, pos, lay);
    EmittedUnique(g, |acts|, p.tab, p.n, t.action, t.lookahead, t'.action, t'.lookahead);
    OffsetsUnique(lay.tkn, lay.mnT - 1, t.shiftOfst, t'.shiftOfst);
    OffsetsUnique(lay.nt, lay.mnN - 1, t.reduceOfst, t'.reduceOfst);
  }
}
