/** acttab_action and acttab_insert: as a function of the rows collected so far, and as the object that
    does it in place. */
module LemonActTab {
  import opened LemonOverlay

  // ----- acttab_insert as a function -----

  ghost function Lowest(entries: seq<Entry>): int
    requires entries != []
  {
    var last := entries[|entries| - 1].lookahead;
    if |entries| == 1 then last
    else
      var m := Lowest(entries[..|entries| - 1]);
      if last < m then last else m
  }

  ghost function Highest(entries: seq<Entry>): int
    requires entries != []
  {
    var last := entries[|entries| - 1].lookahead;
    if |entries| == 1 then last
    else
      var m := Highest(entries[..|entries| - 1]);
      if last > m then last else m
  }

  lemma {:induction false} ExtremesAre(entries: seq<Entry>)
    requires entries != []
    ensures Extremes(entries, Lowest(entries), Highest(entries))
  {
    if |entries| > 1 {
      var front := entries[..|entries| - 1];
      ExtremesAre(front);
      var i :| 0 <= i < |front| && front[i].lookahead == Lowest(front);
      var k :| 0 <= k < |front| && front[k].lookahead == Highest(front);
      assert entries[i] == front[i] && entries[k] == front[k];
      assert forall j :: 0 <= j < |front| ==> entries[j] == front[j];
    }
  }

  lemma ExtremesUnique(entries: seq<Entry>, mn: int, mx: int)
    requires entries != [] && Extremes(entries, mn, mx)
    ensures mn == Lowest(entries) && mx == Highest(entries)
  {
    ExtremesAre(entries);
  }

  /** The duplicate that a search from slot `d - 1` downwards finds, or -1. */
  ghost function LastDuplicate(tab: seq<Entry>, n: nat, entries: seq<Entry>, mn: int, d: nat): int
    requires n <= |tab|
  {
    if d == 0 then -1
    else if DuplicateAt(tab, n, entries, mn, d - 1) then d - 1
    else LastDuplicate(tab, n, entries, mn, d - 1)
  }

  /** The hole that a search from slot `h` upwards finds, or `bound`. */
  ghost function FirstHole(tab: seq<Entry>, n: nat, entries: seq<Entry>, mn: int, h: int, bound: int): int
    requires n <= |tab|
    decreases bound - h
  {
    if h >= bound || HoleAt(tab, n, entries, mn, h) then h else FirstHole(tab, n, entries, mn, h + 1, bound)
  }

  lemma {:induction false} LastDuplicateIs(tab: seq<Entry>, n: nat, entries: seq<Entry>, mn: int, d: nat)
    requires n <= |tab|
    ensures
      var i := LastDuplicate(tab, n, entries, mn, d);
      && -1 <= i < d && (i >= 0 ==> DuplicateAt(tab, n, entries, mn, i))
      && forall j :: i < j < d ==> !DuplicateAt(tab, n, entries, mn, j)
  {
    hide DuplicateAt;
    if d > 0 { LastDuplicateIs(tab, n, entries, mn, d - 1); }
  }

  lemma {:induction false} FirstHoleIs(tab: seq<Entry>, n: nat, entries: seq<Entry>, mn: int, h: int, bound: int)
    requires n <= |tab| && h <= bound
    ensures
      var i := FirstHole(tab, n, entries, mn, h, bound);
      && h <= i <= bound && (i < bound ==> HoleAt(tab, n, entries, mn, i))
      && forall j :: h <= j < i ==> !HoleAt(tab, n, entries, mn, j)
    decreases bound - h
  {
    hide HoleAt;
    if h < bound { FirstHoleIs(tab, n, entries, mn, h + 1, bound); }
  }

  /** The slot of the smallest lookahead, from both searches. */
  ghost function PlaceFor(tab: seq<Entry>, n: nat, entries: seq<Entry>, mn: int, mx: int): int
    requires n <= |tab|
  {
    var d := LastDuplicate(tab, n, entries, mn, n);
    if d >= 0 then d else FirstHole(tab, n, entries, mn, 0, |tab| - mx)
  }

  lemma PlaceIsSearched(tab: seq<Entry>, n: nat, entries: seq<Entry>, mn: int, mx: int)
    requires 0 <= mx && n + mx + 1 < |tab|
    ensures SearchedTo(tab, n, entries, mn, mx, PlaceFor(tab, n, entries, mn, mx))
  {
    hide DuplicateAt, HoleAt;
    LastDuplicateIs(tab, n, entries, mn, n);
    FirstHoleIs(tab, n, entries, mn, 0, |tab| - mx);
  }

  /** The entries in their slots, and the number of slots in use after that. */
  ghost function WriteAll(tab: seq<Entry>, n: nat, o: int, entries: seq<Entry>): (r: (seq<Entry>, nat))
    requires n <= |tab|
    ensures r.1 <= |r.0| == |tab|
  {
    if entries == [] then (tab, n)
    else
      var e := entries[|entries| - 1];
      var (tab1, n1) := WriteAll(tab, n, o, entries[..|entries| - 1]);
      var k := o + e.lookahead;
      if 0 <= k < |tab| then (tab1[k := e], if k >= n1 then k + 1 else n1) else (tab1, n1)
  }

  lemma {:induction false} WriteAllIs(tab: seq<Entry>, n: nat, o: int, entries: seq<Entry>)
    requires n <= |tab| && forall k :: 0 <= k < |entries| ==> 0 <= o + entries[k].lookahead < |tab|
    requires forall k, l :: 0 <= k < l < |entries| ==> entries[k].lookahead != entries[l].lookahead
    ensures var (tab', n') := WriteAll(tab, n, o, entries); InsertedAt(tab, n, tab', n', o, entries)
  {
    if entries == [] {
      InsertNone(tab, n, o);
    } else {
      var (front, e) := (entries[..|entries| - 1], entries[|entries| - 1]);
      WriteAllIs(tab, n, o, front);
      var (tab1, n1) := WriteAll(tab, n, o, front);
      InsertOneMore(tab, n, tab1, n1, o, front, e);
      assert front + [e] == entries;
    }
  }

  /** The table, the rows inserted so far with their offsets, and whether every insertion met InsertKeepsPacked. */
  datatype Placing = Placing(tab: seq<Entry>, n: nat, rows: seq<Row>, kept: bool)

  /** acttab_insert with `entries` collected. */
  ghost function Insertion(p: Placing, entries: seq<Entry>): (p': Placing)
    requires p.n <= |p.tab| && GoodEntries(entries)
    ensures p'.n <= |p'.tab|
  {
    ExtremesAre(entries);
    var (mn, mx) := (Lowest(entries), Highest(entries));
    var tab := Grown(p.tab, p.n, mx);
    var o := PlaceFor(tab, p.n, entries, mn, mx) - mn;
    var (tab', n') := WriteAll(tab, p.n, o, entries);
    Placing(tab', n', p.rows + [Row(o, entries)], p.kept && InsertKeepsPacked(tab, p.n, entries, mn, mx))
  }

  ghost predicate AllGood(lists: seq<seq<Entry>>) {
    forall k :: 0 <= k < |lists| ==> GoodEntries(lists[k])
  }

  /** All rows in turn, from the empty table. */
  ghost function Replay(lists: seq<seq<Entry>>): (p: Placing)
    requires AllGood(lists)
    ensures p.n <= |p.tab|
  {
    if lists == [] then Placing([], 0, [], true) else Insertion(Replay(lists[..|lists| - 1]), lists[|lists| - 1])
  }

  // ----- what every table holds, packed or not -----

  ghost predicate Shown(tab: seq<Entry>, n: nat, row: Row)
    requires n <= |tab|
  {
    forall k :: 0 <= k < |row.entries| ==> Reads(tab, n, row.offset, row.entries[k])
  }

  ghost predicate Owned(rows: seq<Row>, j: int, e: Entry) {
    exists r :: 0 <= r < |rows| && rows[r].offset + e.lookahead == j && e in rows[r].entries
  }

  /** Every row shows its own entries, and every occupied slot belongs to a row. */
  ghost predicate Held(tab: seq<Entry>, n: nat, rows: seq<Row>)
    requires n <= |tab|
  {
    && (forall r :: 0 <= r < |rows| ==> GoodEntries(rows[r].entries) && Shown(tab, n, rows[r]))
    && (forall j :: 0 <= j < n && tab[j].lookahead >= 0 ==> Owned(rows, j, tab[j]))
  }

  /** Through the offset of a row its readers see the entries of all rows with that offset. */
  lemma HeldReads(tab: seq<Entry>, n: nat, rows: seq<Row>, o: int, e: Entry)
    requires n <= |tab| && Held(tab, n, rows) && e.lookahead >= 0
    ensures Reads(tab, n, o, e) <==> exists q :: 0 <= q < |rows| && rows[q].offset == o && e in rows[q].entries
  {
    if Reads(tab, n, o, e) {
      assert Owned(rows, o + e.lookahead, e);
    }
    if q :| 0 <= q < |rows| && rows[q].offset == o && e in rows[q].entries {
      assert Shown(tab, n, rows[q]);
    }
  }

  /** The slots of a transaction are free, or it is there already. */
  ghost predicate FreeOrThere(tab: seq<Entry>, n: nat, o: int, entries: seq<Entry>)
    requires n <= |tab|
  {
    FreeFor(tab, o, entries) || Shown(tab, n, Row(o, entries))
  }

  lemma SearchedIsFreeOrThere(tab: seq<Entry>, n: nat, entries: seq<Entry>, mn: int, mx: int, i: int)
    requires Shape(tab, n) && GoodEntries(entries) && Extremes(entries, mn, mx) && n <= n + mx + 1 < |tab|
    requires SearchedTo(tab, n, entries, mn, mx, i)
    ensures FreeOrThere(tab, n, i - mn, entries)
    ensures forall k :: 0 <= k < |entries| ==> 0 <= i - mn + entries[k].lookahead < |tab|
  {
    hide Extremes, Shape, GoodEntries;
    if 0 <= i < n && DuplicateAt(tab, n, entries, mn, i) {
      assert Shown(tab, n, Row(i - mn, entries));
    } else if i < |tab| - mx {
      HoleIsFree(tab, n, entries, mn, i);
    } else {
      ExhaustedIsFree(tab, n, entries, mn, mx);
    }
  }

  /** What could be read before can be read afterwards. */
  lemma ReadsStay(tab: seq<Entry>, n: nat, tab': seq<Entry>, n': nat, o: int, entries: seq<Entry>, o1: int, e: Entry)
    requires n <= |tab| && FreeOrThere(tab, n, o, entries) && InsertedAt(tab, n, tab', n', o, entries)
    requires Reads(tab, n, o1, e) && e.lookahead >= 0
    ensures Reads(tab', n', o1, e)
  {
    var j := o1 + e.lookahead;
    if j in Slots(entries, o) {
      var k := SlotOf(entries, o, j);
      assert Reads(tab', n', o, entries[k]);
      if !FreeFor(tab, o, entries) { assert Reads(tab, n, o, entries[k]); }
    }
  }

  lemma ShownStays(tab: seq<Entry>, n: nat, row: Row, tab': seq<Entry>, n': nat, o: int, entries: seq<Entry>)
    requires n <= |tab| && GoodEntries(row.entries) && Shown(tab, n, row) && FreeOrThere(tab, n, o, entries)
    requires InsertedAt(tab, n, tab', n', o, entries)
    ensures Shown(tab', n', row)
  {
    hide FreeOrThere, InsertedAt, Reads;
    InsertedExtent(tab, n, tab', n', o, entries);
    forall k | 0 <= k < |row.entries| ensures Reads(tab', n', row.offset, row.entries[k]) {
      ReadsStay(tab, n, tab', n', o, entries, row.offset, row.entries[k]);
    }
  }

  lemma OwnedAfter(tab: seq<Entry>, n: nat, rows: seq<Row>, tab': seq<Entry>, n': nat, o: int, entries: seq<Entry>,
      j: nat)
    requires Shape(tab, n) && Held(tab, n, rows) && InsertedAt(tab, n, tab', n', o, entries) && n' <= |tab'|
    requires j < n' && tab'[j].lookahead >= 0
    ensures Owned(rows + [Row(o, entries)], j, tab'[j])
  {
    var rows' := rows + [Row(o, entries)];
    hide GoodEntries, Shown;
    if j in Slots(entries, o) {
      var k := SlotOf(entries, o, j);
      assert Reads(tab', n', o, entries[k]) && rows'[|rows|] == Row(o, entries);
    } else {
      assert tab'[j] == tab[j] && j < n;
      HeldSlot(tab, n, rows, j);
      var r :| 0 <= r < |rows| && rows[r].offset + tab[j].lookahead == j && tab[j] in rows[r].entries;
      assert rows'[r] == rows[r];
    }
  }

  lemma HeldMore(tab: seq<Entry>, n: nat, rows: seq<Row>, tab': seq<Entry>, n': nat, o: int, entries: seq<Entry>)
    requires Shape(tab, n) && Held(tab, n, rows) && GoodEntries(entries) && FreeOrThere(tab, n, o, entries)
    requires InsertedAt(tab, n, tab', n', o, entries) && n <= |tab|
    ensures n' <= |tab'| && Held(tab', n', rows + [Row(o, entries)])
  {
    hide *;
    var rows' := rows + [Row(o, entries)];
    InsertedExtent(tab, n, tab', n', o, entries);
    forall r | 0 <= r < |rows'| ensures GoodEntries(rows'[r].entries) && Shown(tab', n', rows'[r]) {
      if r < |rows| {
        HeldRow(tab, n, rows, r);
        ShownStays(tab, n, rows[r], tab', n', o, entries);
      } else {
        NewIsShown(tab, n, tab', n', o, entries);
      }
    }
    forall j | 0 <= j < n' && tab'[j].lookahead >= 0 ensures Owned(rows', j, tab'[j]) {
      OwnedAfter(tab, n, rows, tab', n', o, entries, j);
    }
    NowHeld(tab', n', rows');
  }

  lemma NewIsShown(tab: seq<Entry>, n: nat, tab': seq<Entry>, n': nat, o: int, entries: seq<Entry>)
    requires InsertedAt(tab, n, tab', n', o, entries)
    ensures n' <= |tab'| && Shown(tab', n', Row(o, entries))
  {
    hide Slots;
  }

  lemma NowHeld(tab: seq<Entry>, n: nat, rows: seq<Row>)
    requires n <= |tab| && forall r :: 0 <= r < |rows| ==> GoodEntries(rows[r].entries) && Shown(tab, n, rows[r])
    requires forall j :: 0 <= j < n && tab[j].lookahead >= 0 ==> Owned(rows, j, tab[j])
    ensures Held(tab, n, rows)
  {
    hide GoodEntries, Shown, Owned;
  }

  lemma ExactBefore(tab: seq<Entry>, n: nat, row: Row, tab': seq<Entry>, n': nat, o: int, entries: seq<Entry>)
    requires n <= |tab| && GoodEntries(row.entries) && Shown(tab, n, row) && FreeOrThere(tab, n, o, entries)
    requires InsertedAt(tab, n, tab', n', o, entries) && Exact(tab', n', row)
    ensures Exact(tab, n, row)
  {
    hide FreeOrThere, InsertedAt, GoodEntries;
    forall e: Entry | e.lookahead >= 0 ensures Reads(tab, n, row.offset, e) <==> e in row.entries {
      if Reads(tab, n, row.offset, e) { ReadsStay(tab, n, tab', n', o, entries, row.offset, e); }
    }
  }

  lemma OwnedOffset(rows: seq<Row>, j: int, e: Entry)
    requires Owned(rows, j, e)
    ensures j - e.lookahead in Offsets(rows)
  {
    var r :| 0 <= r < |rows| && rows[r].offset + e.lookahead == j && e in rows[r].entries;
    OffsetIn(rows, r);
  }

  /** Rows that are exact after an insertion were exact before it. */
  lemma PackedBefore(tab: seq<Entry>, n: nat, rows: seq<Row>, tab': seq<Entry>, n': nat, o: int, entries: seq<Entry>)
    requires n <= |tab| && n' <= |tab'| && Held(tab, n, rows) && FreeOrThere(tab, n, o, entries)
    requires InsertedAt(tab, n, tab', n', o, entries) && Packed(tab', n', rows + [Row(o, entries)])
    ensures Packed(tab, n, rows)
  {
    hide *;
    forall r | 0 <= r < |rows| ensures GoodEntries(rows[r].entries) && Exact(tab, n, rows[r]) {
      HeldRow(tab, n, rows, r);
      PackedRow(tab', n', rows + [Row(o, entries)], r);
      ExactBefore(tab, n, rows[r], tab', n', o, entries);
    }
    forall j | 0 <= j < n && tab[j].lookahead >= 0 ensures j - tab[j].lookahead in Offsets(rows) {
      HeldSlot(tab, n, rows, j);
      OwnedOffset(rows, j, tab[j]);
    }
    forall r, q | 0 <= r < |rows| && 0 <= q < |rows| && SameSet(rows[r].entries, rows[q].entries)
      ensures rows[r].offset == rows[q].offset
    {
      SameRows(tab', n', rows + [Row(o, entries)], r, q);
    }
    NowPacked(tab, n, rows);
  }

  lemma HeldRow(tab: seq<Entry>, n: nat, rows: seq<Row>, r: nat)
    requires n <= |tab| && Held(tab, n, rows) && r < |rows|
    ensures GoodEntries(rows[r].entries) && Shown(tab, n, rows[r])
  {
    hide GoodEntries, Shown, Owned;
  }

  lemma HeldSlot(tab: seq<Entry>, n: nat, rows: seq<Row>, j: nat)
    requires n <= |tab| && Held(tab, n, rows) && j < n && tab[j].lookahead >= 0
    ensures Owned(rows, j, tab[j])
  {
    hide GoodEntries, Shown, Owned;
  }

  lemma PackedRow(tab: seq<Entry>, n: nat, rows: seq<Row>, r: nat)
    requires n <= |tab| && Packed(tab, n, rows) && r < |rows|
    ensures Exact(tab, n, rows[r])
  {
    hide GoodEntries, Exact, SameSet, Offsets;
  }

  lemma SameRows(tab: seq<Entry>, n: nat, rows: seq<Row>, r: nat, q: nat)
    requires n <= |tab| && Packed(tab, n, rows) && r < |rows| && q < |rows| && SameSet(rows[r].entries, rows[q].entries)
    ensures rows[r].offset == rows[q].offset
  {
    hide GoodEntries, Exact, SameSet, Offsets;
  }

  lemma NowPacked(tab: seq<Entry>, n: nat, rows: seq<Row>)
    requires n <= |tab|
    requires forall r :: 0 <= r < |rows| ==> GoodEntries(rows[r].entries) && Exact(tab, n, rows[r])
    requires forall j :: 0 <= j < n && tab[j].lookahead >= 0 ==> j - tab[j].lookahead in Offsets(rows)
    requires forall r, q {:trigger SameSet(rows[r].entries, rows[q].entries)} ::
      0 <= r < |rows| && 0 <= q < |rows| && SameSet(rows[r].entries, rows[q].entries) ==>
          rows[r].offset == rows[q].offset
    ensures Packed(tab, n, rows)
  {
    hide GoodEntries, Exact, SameSet, Offsets;
  }

  /** A placing from a series of insertions. */
  ghost predicate Sane(p: Placing) {
    && Shape(p.tab, p.n) && Held(p.tab, p.n, p.rows)
    && (p.kept <==> Packed(p.tab, p.n, p.rows))
  }

  lemma SanePlacing(p: Placing)
    requires Sane(p)
    ensures p.n <= |p.tab| && Shape(p.tab, p.n) && Held(p.tab, p.n, p.rows) && (p.kept <==> Packed(p.tab, p.n, p.rows))
  {
  }

  lemma GrownReads(tab: seq<Entry>, n: nat, mx: int)
    requires n <= |tab| && mx >= 0
    ensures n <= |Grown(tab, n, mx)| && n + mx + 1 < |Grown(tab, n, mx)|
    ensures forall o, e: Entry :: Reads(tab, n, o, e) <==> Reads(Grown(tab, n, mx), n, o, e)
    ensures forall j :: 0 <= j < n ==> Grown(tab, n, mx)[j] == tab[j]
  {
  }

  lemma HeldGrown(tab: seq<Entry>, tab': seq<Entry>, n: nat, rows: seq<Row>)
    requires n <= |tab| && n <= |tab'| && Held(tab, n, rows)
    requires forall o, e: Entry :: Reads(tab, n, o, e) <==> Reads(tab', n, o, e)
    requires forall j :: 0 <= j < n ==> tab'[j] == tab[j]
    ensures Held(tab', n, rows)
  {
    hide Reads, GoodEntries, Owned;
    forall r | 0 <= r < |rows| ensures Shown(tab', n, rows[r]) { assert Shown(tab, n, rows[r]); }
    forall j | 0 <= j < n && tab'[j].lookahead >= 0 ensures Owned(rows, j, tab'[j]) { assert Owned(rows, j, tab[j]); }
  }

  lemma SaneGrown(p: Placing, mx: int)
    requires Sane(p) && mx >= 0
    ensures Sane(p.(tab := Grown(p.tab, p.n, mx))) && p.n + mx + 1 < |Grown(p.tab, p.n, mx)|
  {
    hide *;
    SanePlacing(p);
    GrownStaysPacked(p.tab, p.n, mx, p.rows);
    GrownReads(p.tab, p.n, mx);
    HeldGrown(p.tab, Grown(p.tab, p.n, mx), p.n, p.rows);
    NowSane(p.(tab := Grown(p.tab, p.n, mx)));
  }

  lemma InsertedSane(q: Placing, tab': seq<Entry>, n': nat, entries: seq<Entry>, mn: int, mx: int, i: int)
    requires Sane(q) && GoodEntries(entries) && Extremes(entries, mn, mx) && 0 <= mx && q.n + mx + 1 < |q.tab|
    requires SearchedTo(q.tab, q.n, entries, mn, mx, i) && InsertedAt(q.tab, q.n, tab', n', i - mn, entries)
    ensures Sane(Placing(tab', n', q.rows + [Row(i - mn, entries)], q.kept
      && InsertKeepsPacked(q.tab, q.n, entries, mn, mx)))
  {
    hide *;
    SanePlacing(q);
    SearchedIsFreeOrThere(q.tab, q.n, entries, mn, mx, i);
    InsertedShape(q.tab, q.n, tab', n', i - mn, entries);
    HeldMore(q.tab, q.n, q.rows, tab', n', i - mn, entries);
    if q.kept {
      InsertOutcome(q.tab, q.n, q.rows, tab', n', entries, mn, mx, i, i - mn);
    } else if Packed(tab', n', q.rows + [Row(i - mn, entries)]) {
      InsertedExtent(q.tab, q.n, tab', n', i - mn, entries);
      PackedBefore(q.tab, q.n, q.rows, tab', n', i - mn, entries);
      assert false;
    }
    NowSane(Placing(tab', n', q.rows + [Row(i - mn, entries)], q.kept
      && InsertKeepsPacked(q.tab, q.n, entries, mn, mx)));
  }

  lemma InsertedExtent(tab: seq<Entry>, n: nat, tab': seq<Entry>, n': nat, o: int, entries: seq<Entry>)
    requires InsertedAt(tab, n, tab', n', o, entries)
    ensures n' <= |tab'|
  {
  }

  /** The row can be read through its offset in any case; all rows stay exact if and only if a
      search ended by `break`, or the offset that the exhausted second search falls back to was unused. */
  lemma InsertionSane(p: Placing, entries: seq<Entry>)
    requires Sane(p) && GoodEntries(entries)
    ensures p.n <= |p.tab| && Sane(Insertion(p, entries))
  {
    hide *;
    EntriesDiffer(entries);
    var (mn, mx) := (Lowest(entries), Highest(entries));
    ExtremesAre(entries);
    ExtremesOrdered(entries, mn, mx);
    SaneGrown(p, mx);
    SanePlacing(p);
    var q := p.(tab := Grown(p.tab, p.n, mx));
    PlaceIsSearched(q.tab, q.n, entries, mn, mx);
    var i := PlaceFor(q.tab, q.n, entries, mn, mx);
    SanePlacing(q);
    SearchedIsFreeOrThere(q.tab, q.n, entries, mn, mx, i);
    WriteAllIs(q.tab, q.n, i - mn, entries);
    var (tab', n') := WriteAll(q.tab, q.n, i - mn, entries);
    InsertedSane(q, tab', n', entries, mn, mx, i);
    InsertionIs(p, entries);
  }

  lemma NowSane(p: Placing)
    requires Shape(p.tab, p.n) && Held(p.tab, p.n, p.rows) && (p.kept <==> Packed(p.tab, p.n, p.rows))
    ensures Sane(p)
  {
  }

  lemma EntriesDiffer(entries: seq<Entry>)
    requires GoodEntries(entries)
    ensures entries != []
    ensures forall k, l :: 0 <= k < l < |entries| ==> entries[k].lookahead != entries[l].lookahead
  {
  }

  lemma InsertionIs(p: Placing, entries: seq<Entry>)
    requires p.n <= |p.tab| && GoodEntries(entries)
    ensures 0 <= Lowest(entries) <= Highest(entries)
    ensures
      var (mn, mx) := (Lowest(entries), Highest(entries));
      var tab := Grown(p.tab, p.n, mx);
      var o := PlaceFor(tab, p.n, entries, mn, mx) - mn;
      var (tab', n') := WriteAll(tab, p.n, o, entries);
      p.n <= |tab| &&
      Insertion(p, entries) == Placing(tab', n', p.rows + [Row(o, entries)], p.kept
        && InsertKeepsPacked(tab, p.n, entries, mn, mx))
  {
    ExtremesAre(entries);
    ExtremesOrdered(entries, Lowest(entries), Highest(entries));
    hide WriteAll, PlaceFor, InsertKeepsPacked, Lowest, Highest, Extremes, GoodEntries;
  }

  lemma InsertedShape(tab: seq<Entry>, n: nat, tab': seq<Entry>, n': nat, o: int, entries: seq<Entry>)
    requires Shape(tab, n) && GoodEntries(entries) && InsertedAt(tab, n, tab', n', o, entries)
    ensures Shape(tab', n')
  {
    forall j | 0 <= j < |tab'| ensures tab'[j].lookahead >= -1 && (j >= n' ==> tab'[j] == FREE) {
      if j in Slots(entries, o) {
        var k := SlotOf(entries, o, j);
        assert Reads(tab', n', o, entries[k]);
      }
    }
    if n' > n {
      var k := SlotOf(entries, o, n' - 1);
      assert Reads(tab', n', o, entries[k]);
    } else if n' > 0 && n' - 1 in Slots(entries, o) {
      var k := SlotOf(entries, o, n' - 1);
      assert Reads(tab', n', o, entries[k]);
    }
  }

  lemma {:induction false} ReplaySane(lists: seq<seq<Entry>>)
    requires AllGood(lists)
    ensures Sane(Replay(lists))
  {
    hide Sane, Insertion;
    if lists == [] {
      EmptySane();
    } else {
      ReplaySane(lists[..|lists| - 1]);
      InsertionSane(Replay(lists[..|lists| - 1]), lists[|lists| - 1]);
    }
  }

  lemma EmptySane()
    ensures Sane(Placing([], 0, [], true))
  {
  }

  /** Rows whose smallest lookahead is 0 or 1 are always packed exactly. */
  lemma {:induction false} LowRowsKeep(lists: seq<seq<Entry>>)
    requires AllGood(lists) && forall k :: 0 <= k < |lists| ==> lists[k] != [] && Lowest(lists[k]) <= 1
    ensures Replay(lists).kept
  {
    if lists != [] {
      var (front, entries) := (lists[..|lists| - 1], lists[|lists| - 1]);
      LowRowsKeep(front);
      var p := Replay(front);
      hide *;
      ReplayOne(lists);
      ReplaySane(front);
      SanePlacing(p);
      LowRowSucceeds(p, entries);
      InsertionIs(p, entries);
    }
  }

  lemma ReplayOne(lists: seq<seq<Entry>>)
    requires AllGood(lists) && lists != []
    ensures GoodEntries(lists[|lists| - 1]) && AllGood(lists[..|lists| - 1])
    ensures Replay(lists) == Insertion(Replay(lists[..|lists| - 1]), lists[|lists| - 1])
  {
    hide Insertion, GoodEntries;
  }

  /** Later rows leave the offsets of earlier ones alone, and repair nothing. */
  lemma {:induction false} ReplayPrefix(lists: seq<seq<Entry>>, k: nat)
    requires AllGood(lists) && k <= |lists|
    ensures AllGood(lists[..k]) && |Replay(lists).rows| == |lists|
    ensures Replay(lists).rows[..k] == Replay(lists[..k]).rows && (Replay(lists).kept ==> Replay(lists[..k]).kept)
    decreases |lists|
  {
    if lists == [] {
      assert lists[..k] == [];
    } else {
      var less := lists[..|lists| - 1];
      ReplayPrefix(less, if k < |lists| then k else k - 1);
      ReplayOne(lists);
      hide Replay, GoodEntries, PlaceFor, WriteAll, InsertKeepsPacked, Grown;
      if k < |lists| { assert less[..k] == lists[..k]; } else { assert lists[..k] == lists; }
    }
  }

  lemma LowRowSucceeds(p: Placing, entries: seq<Entry>)
    requires Shape(p.tab, p.n) && GoodEntries(entries) && Lowest(entries) <= 1
    ensures
      var (mn, mx) := (Lowest(entries), Highest(entries));
      mx >= 0 && p.n <= |Grown(p.tab, p.n, mx)| && InsertKeepsPacked(Grown(p.tab, p.n, mx), p.n, entries, mn, mx)
  {
    var (mn, mx) := (Lowest(entries), Highest(entries));
    ExtremesAre(entries);
    ExtremesOrdered(entries, mn, mx);
    GrownStaysPacked(p.tab, p.n, mx, []);
    var tab := Grown(p.tab, p.n, mx);
    hide Packed, DuplicateAt, Lowest, Highest;
    RoomBehindTable(tab, p.n, entries, mn, mx);
  }

  // ----- rows of two families -----

  /** All lookaheads are below `limit`. */
  ghost predicate Under(entries: seq<Entry>, limit: int) {
    forall k :: 0 <= k < |entries| ==> entries[k].lookahead < limit
  }

  ghost predicate Pure(entries: seq<Entry>, limit: int) {
    Under(entries, limit) || forall k :: 0 <= k < |entries| ==> entries[k].lookahead >= limit
  }

  ghost predicate AllPure(lists: seq<seq<Entry>>, limit: int) {
    forall k :: 0 <= k < |lists| ==> Pure(lists[k], limit)
  }

  /** Rows below the limit that share an offset are equal. */
  ghost predicate Unmixed(rows: seq<Row>, limit: int) {
    forall r, q :: 0 <= r < |rows| && 0 <= q < |rows| && Under(rows[r].entries, limit) && Under(rows[q].entries,
        limit) ==>
      (rows[r].offset == rows[q].offset ==> SameSet(rows[r].entries, rows[q].entries))
  }

  lemma PackedIsApart(tab: seq<Entry>, n: nat, rows: seq<Row>, limit: int)
    requires n <= |tab| && Packed(tab, n, rows)
    ensures Unmixed(rows, limit)
  {
    hide Packed, SameSet;
    forall r, q | 0 <= r < |rows| && 0 <= q < |rows| && rows[r].offset == rows[q].offset
      ensures SameSet(rows[r].entries, rows[q].entries)
    {
      SameOffsetSameRow(tab, n, rows, r, q);
    }
  }

  /** A row below the limit that is already there equals all such rows at its offset. */
  lemma DuplicateIsApart(tab: seq<Entry>, n: nat, rows: seq<Row>, entries: seq<Entry>, o: int, limit: int, r: nat)
    requires n <= |tab| && Held(tab, n, rows) && Unmixed(rows, limit) && Exact(tab, n, Row(o, entries))
    requires GoodEntries(entries)
    requires (forall q :: 0 <= q < |rows| ==> Pure(rows[q].entries, limit)) && Under(entries, limit)
    requires r < |rows| && rows[r].offset == o && Under(rows[r].entries, limit)
    ensures SameSet(rows[r].entries, entries)
  {
    HeldRow(tab, n, rows, r);
    forall e: Entry ensures e in rows[r].entries <==> e in entries {
      if e in rows[r].entries {
        assert e.lookahead >= 0;
        HeldReads(tab, n, rows, o, e);
      }
      if e in entries {
        assert e.lookahead >= 0 && e.lookahead < limit;
        HeldReads(tab, n, rows, o, e);
        var q :| 0 <= q < |rows| && rows[q].offset == o && e in rows[q].entries;
        assert Under(rows[q].entries, limit);
        assert SameSet(rows[r].entries, rows[q].entries);
      }
    }
  }

  lemma HeldIsUsed(tab: seq<Entry>, n: nat, rows: seq<Row>, r: nat)
    requires n <= |tab| && Held(tab, n, rows) && r < |rows|
    ensures Used(tab, n, rows[r].offset)
  {
    HeldRow(tab, n, rows, r);
    assert Reads(tab, n, rows[r].offset, rows[r].entries[0]);
  }

  lemma ApartOne(rows: seq<Row>, row: Row, limit: int)
    requires Unmixed(rows, limit)
    requires Under(row.entries, limit) ==>
      forall r :: 0 <= r < |rows| && rows[r].offset == row.offset && Under(rows[r].entries, limit) ==>
          SameSet(rows[r].entries, row.entries)
    ensures Unmixed(rows + [row], limit)
  {
    hide Under;
  }

  lemma ApartMore(p: Placing, entries: seq<Entry>, limit: int)
    requires Sane(p) && GoodEntries(entries) && Unmixed(p.rows, limit)
    requires forall q :: 0 <= q < |p.rows| ==> Pure(p.rows[q].entries, limit)
    requires Under(entries, limit) ==> Lowest(entries) <= 1
    ensures p.n <= |p.tab| && Unmixed(Insertion(p, entries).rows, limit)
  {
    hide *;
    EntriesDiffer(entries);
    var (mn, mx) := (Lowest(entries), Highest(entries));
    ExtremesAre(entries);
    ExtremesOrdered(entries, mn, mx);
    SaneGrown(p, mx);
    SanePlacing(p);
    var q := p.(tab := Grown(p.tab, p.n, mx));
    SanePlacing(q);
    var i := PlaceFor(q.tab, q.n, entries, mn, mx);
    PlaceIsSearched(q.tab, q.n, entries, mn, mx);
    InsertionIs(p, entries);
    if Under(entries, limit) {
      forall r | 0 <= r < |p.rows| && p.rows[r].offset == i - mn && Under(p.rows[r].entries, limit)
        ensures SameSet(p.rows[r].entries, entries)
      {
        LowRowApart(q, entries, mn, mx, i, limit, r);
      }
    }
    ApartOne(p.rows, Row(i - mn, entries), limit);
  }

  lemma LowRowApart(q: Placing, entries: seq<Entry>, mn: int, mx: int, i: int, limit: int, r: nat)
    requires Sane(q) && GoodEntries(entries) && Extremes(entries, mn, mx) && mn <= 1 && 0 <= mx
    requires q.n + mx + 1 < |q.tab|
    requires Unmixed(q.rows, limit) && (forall k :: 0 <= k < |q.rows| ==> Pure(q.rows[k].entries, limit))
    requires Under(entries, limit)
    requires SearchedTo(q.tab, q.n, entries, mn, mx, i)
    requires r < |q.rows| && q.rows[r].offset == i - mn && Under(q.rows[r].entries, limit)
    ensures SameSet(q.rows[r].entries, entries)
  {
    hide *;
    SanePlacing(q);
    var k := SearchEnds(q.tab, q.n, entries, mn, mx, i);
    if k {
      DuplicateIsExact(q.tab, q.n, entries, mn, i);
      DuplicateIsApart(q.tab, q.n, q.rows, entries, i - mn, limit, r);
    } else {
      HoleIsFree(q.tab, q.n, entries, mn, i);
      HeldIsUsed(q.tab, q.n, q.rows, r);
    }
  }

  /** For a low row a search ends by `break`. */
  lemma SearchEnds(tab: seq<Entry>, n: nat, entries: seq<Entry>, mn: int, mx: int, i: int) returns (found: bool)
    requires Shape(tab, n) && GoodEntries(entries) && Extremes(entries, mn, mx) && mn <= 1 && n <= n + mx + 1 < |tab|
    requires SearchedTo(tab, n, entries, mn, mx, i)
    ensures if found then DuplicateAt(tab, n, entries, mn, i) else HoleAt(tab, n, entries, mn, i)
  {
    RoomBehindTable(tab, n, entries, mn, mx);
    hide DuplicateAt, HoleAt, Shape, GoodEntries, Extremes;
    found := 0 <= i < n && DuplicateAt(tab, n, entries, mn, i);
  }

  /** If every row below the limit has an entry on lookahead 0 or 1, such rows never disturb each other. */
  lemma {:induction false} LowRowsApart(lists: seq<seq<Entry>>, limit: int)
    requires AllGood(lists) && AllPure(lists, limit)
    requires forall k :: 0 <= k < |lists| && Under(lists[k], limit) ==> lists[k] != [] && Lowest(lists[k]) <= 1
    ensures Unmixed(Replay(lists).rows, limit)
    ensures forall k :: 0 <= k < |Replay(lists).rows| ==> Pure(Replay(lists).rows[k].entries, limit)
  {
    hide Insertion, GoodEntries, Pure, Under, Lowest, SameSet;
    if lists != [] {
      var (front, entries) := (lists[..|lists| - 1], lists[|lists| - 1]);
      LowRowsApart(front, limit);
      ReplayOne(lists);
      ReplaySane(front);
      var p := Replay(front);
      hide *;
      ApartMore(p, entries, limit);
      InsertionIs(p, entries);
    }
  }

  // ----- rows that are not packed exactly -----

  /** Sixteen one-entry rows of lookahead 1, then one of lookahead 4: in the 22 slots of the first
      allocation the last one lands at offset 14, which one of the sixteen already has.  The actions are those that
      Lemon has for the rule `s ::= T^17 Q`. */
  function SixteenLists(k: nat): (r: seq<seq<Entry>>)
    ensures |r| == k
  {
    seq(k, i => [Entry(1, 17 - i)])
  }

  function Seventeen(): seq<seq<Entry>> { SixteenLists(16) + [[Entry(4, 1)]] }

  lemma SeventeenGood()
    ensures AllGood(Seventeen()) && forall k: nat :: AllGood(SixteenLists(k))
  {
  }

  /** The table after `k` of the sixteen. */
  function Filled(k: nat): seq<Entry> {
    if k == 0 then [] else seq(22, i => if 0 <= i < k then Entry(1, 17 - i) else FREE)
  }

  function FilledRows(k: nat): seq<Row> {
    seq(k, i => Row(i - 1, [Entry(1, 17 - i)]))
  }

  lemma NoneOfSixteen()
    ensures AllGood(SixteenLists(0))
    ensures Replay(SixteenLists(0)) == Placing(Filled(0), 0, FilledRows(0), true)
  {
    assert SixteenLists(0) == [] && FilledRows(0) == [];
  }

  lemma SixteenFront(k: nat)
    requires k > 0
    ensures SixteenLists(k)[..k - 1] == SixteenLists(k - 1) && SixteenLists(k)[k - 1] == [Entry(1, 18 - k)]
    ensures AllGood(SixteenLists(k)) && SixteenLists(k) != []
  {
    SeventeenGood();
  }

  lemma {:induction false} SixteenReplay(k: nat)
    requires k <= 16
    ensures AllGood(SixteenLists(k))
    ensures Replay(SixteenLists(k)) == Placing(Filled(k), k, FilledRows(k), true)
  {
    hide *;
    if k == 0 {
      NoneOfSixteen();
    } else {
      SixteenReplay(k - 1);
      SixteenFront(k);
      ReplayOne(SixteenLists(k));
      NextOfSixteen(k - 1);
    }
  }

  lemma OneEntry(e: Entry)
    ensures Lowest([e]) == Highest([e]) == e.lookahead
  {
  }

  /** `tab` holds the first `k` of the sixteen rows. */
  ghost predicate HoldsFirst(tab: seq<Entry>, k: nat) {
    |tab| == 22 && forall i :: 0 <= i < 22 ==> tab[i] == if i < k then Entry(1, 17 - i) else FREE
  }

  lemma FilledGrown(k: nat)
    requires k < 16
    ensures k <= |Filled(k)| && HoldsFirst(Grown(Filled(k), k, 1), k)
  {
  }

  lemma NextPlace(tab: seq<Entry>, k: nat)
    requires k < 16 && HoldsFirst(tab, k)
    ensures PlaceFor(tab, k, [Entry(1, 17 - k)], 1, 1) == k && InsertKeepsPacked(tab, k, [Entry(1, 17 - k)], 1, 1)
  {
    var entries := [Entry(1, 17 - k)];
    assert HoleAt(tab, k, entries, 1, k);
    forall d | 0 <= d < k ensures !DuplicateAt(tab, k, entries, 1, d) {
      assert !Reads(tab, k, d - 1, entries[0]);
    }
    forall h | 0 <= h < k ensures !HoleAt(tab, k, entries, 1, h) {
      assert tab[h].lookahead == 1;
    }
    hide DuplicateAt, HoleAt, Used;
    LastDuplicateIs(tab, k, entries, 1, k);
    FirstHoleIs(tab, k, entries, 1, 0, 21);
  }

  lemma NextWrite(tab: seq<Entry>, k: nat)
    requires k < 16 && HoldsFirst(tab, k)
    ensures WriteAll(tab, k, k - 1, [Entry(1, 17 - k)]) == (Filled(k + 1), k + 1)
  {
    assert [Entry(1, 17 - k)][..0] == [];
    assert WriteAll(tab, k, k - 1, []) == (tab, k);
    assert tab[k := Entry(1, 17 - k)] == Filled(k + 1);
  }

  lemma NextRows(k: nat)
    ensures FilledRows(k) + [Row(k - 1, [Entry(1, 17 - k)])] == FilledRows(k + 1)
    ensures GoodEntries([Entry(1, 17 - k)])
  {
  }

  lemma NextOfSixteen(k: nat)
    requires k < 16
    ensures k <= |Filled(k)| && GoodEntries([Entry(1, 17 - k)])
    ensures Insertion(Placing(Filled(k), k, FilledRows(k), true), [Entry(1, 17 - k)]) ==
        Placing(Filled(k + 1), k + 1, FilledRows(k + 1), true)
  {
    hide *;
    OneEntry(Entry(1, 17 - k));
    NextRows(k);
    FilledGrown(k);
    NextPlace(Grown(Filled(k), k, 1), k);
    NextWrite(Grown(Filled(k), k, 1), k);
    InsertionIs(Placing(Filled(k), k, FilledRows(k), true), [Entry(1, 17 - k)]);
  }

  /** The seventeenth row is put at an offset that is in use. */
  lemma SeventeenSpoiled()
    ensures AllGood(Seventeen()) && AllGood(SixteenLists(16))
    ensures
      var p := Replay(Seventeen());
      && !p.kept && |p.rows| == 17
      && p.rows[15] == Row(14, [Entry(1, 2)]) && p.rows[16] == Row(14, [Entry(4, 1)])
  {
    SeventeenGood();
    SixteenReplay(16);
    assert Seventeen()[..16] == SixteenLists(16) && Seventeen()[16] == [Entry(4, 1)];
    ReplayOne(Seventeen());
    hide Replay;
    LastOfSeventeen();
  }

  lemma LastOfSeventeen()
    ensures GoodEntries([Entry(4, 1)]) && |Filled(16)| == 22
    ensures
      var p := Insertion(Placing(Filled(16), 16, FilledRows(16), true), [Entry(4, 1)]);
      !p.kept && p.rows == FilledRows(16) + [Row(14, [Entry(4, 1)])]
  {
    hide *;
    OneEntry(Entry(4, 1));
    NoPlaceForLast();
    LastIsGood();
    LastPlace(Filled(16), [Entry(4, 1)]);
    InsertionIs(Placing(Filled(16), 16, FilledRows(16), true), [Entry(4, 1)]);
  }

  lemma LastIsGood()
    ensures GoodEntries([Entry(4, 1)])
  {
  }

  lemma LastPlace(tab: seq<Entry>, entries: seq<Entry>)
    requires |tab| == 22 && Used(tab, 16, 14)
    requires forall d :: 0 <= d < 16 ==> !DuplicateAt(tab, 16, entries, 4, d)
    requires forall h :: 0 <= h < 18 ==> !HoleAt(tab, 16, entries, 4, h)
    ensures PlaceFor(tab, 16, entries, 4, 4) == 18 && !InsertKeepsPacked(tab, 16, entries, 4, 4)
  {
    hide DuplicateAt, HoleAt, Used;
    LastDuplicateIs(tab, 16, entries, 4, 16);
    FirstHoleIs(tab, 16, entries, 4, 0, 18);
  }

  /** Both searches fail, and the offset that is left is in use. */
  lemma NoPlaceForLast()
    ensures |Filled(16)| == 22 && Grown(Filled(16), 16, 4) == Filled(16)
    ensures forall j :: 0 <= j < 16 ==> !DuplicateAt(Filled(16), 16, [Entry(4, 1)], 4, j)
    ensures forall h :: 0 <= h < 18 ==> !HoleAt(Filled(16), 16, [Entry(4, 1)], 4, h)
    ensures Used(Filled(16), 16, 14)
  {
    var (tab, entries) := (Filled(16), [Entry(4, 1)]);
    forall j | 0 <= j < 16 ensures !DuplicateAt(tab, 16, entries, 4, j) {
      assert !Reads(tab, 16, j - 4, entries[0]);
    }
    forall h | 0 <= h < 18 ensures !HoleAt(tab, 16, entries, 4, h) {
      assert h < 16 || tab[h - 3].lookahead == 1;
    }
    assert 15 - tab[15].lookahead == 14;
  }

  // ----- the class -----

  class ActTab {
    var nAction: nat
    var aAction: seq<Entry>
    var aLookahead: seq<Entry>
    var mnLookahead: int
    var mnAction: int
    var mxLookahead: int
    ghost var rows: seq<Row>   // what has been inserted, with the offsets returned
    ghost var kept: bool       // every insertion so far met InsertKeepsPacked

    ghost function Abs(): Placing
      reads this
    {
      Placing(aAction, nAction, rows, kept)
    }

    /** The transaction collected so far has distinct lookaheads, and the recorded extremes are its extremes. */
    ghost predicate Pending()
      reads this
    {
      aLookahead != [] ==>
        && GoodEntries(aLookahead)
        && Extremes(aLookahead, mnLookahead, mxLookahead)
        && Entry(mnLookahead, mnAction) in aLookahead
    }

    ghost predicate Valid()
      reads this
    {
      Sane(Abs()) && Pending()
    }

    constructor ()
      ensures Valid() && Abs() == Placing([], 0, [], true) && aLookahead == []
    {
      nAction, aAction, aLookahead := 0, [], [];
      mnLookahead, mnAction, mxLookahead := 0, 0, 0;
      rows, kept := [], true;
    }

    /** acttab_action: one more entry for the row being collected. */
    method Action(lookahead: int, action: int)
      requires Valid() && lookahead >= 0
      requires forall k :: 0 <= k < |aLookahead| ==> aLookahead[k].lookahead != lookahead
      modifies this
      ensures Valid() && aLookahead == old(aLookahead) + [Entry(lookahead, action)] && Abs() == old(Abs())
    {
      hide Sane, Extremes, GoodEntries;
      if aLookahead == [] {
        mxLookahead, mnLookahead, mnAction := lookahead, lookahead, action;
        FirstEntry(Entry(lookahead, action));
      } else {
        MoreEntries(aLookahead, mnLookahead, mxLookahead, Entry(lookahead, action));
        if mxLookahead < lookahead { mxLookahead := lookahead; }
        if mnLookahead > lookahead { mnLookahead, mnAction := lookahead, action; }
      }
      aLookahead := aLookahead + [Entry(lookahead, action)];
    }

    /** Number of slots that a reader with offset `o` would accept. */
    method CountAt(o: int) returns (c: nat)
      requires nAction <= |aAction|
      ensures c == |OfOffset(aAction, nAction, o)|
    {
      c := 0;
      for j := 0 to nAction
        invariant c == |OfOffset(aAction, j, o)|
      {
        assert OfOffset(aAction, j + 1, o) ==
               OfOffset(aAction, j, o) + if aAction[j].lookahead >= 0 && aAction[j].lookahead == j - o then {j} else {};
        if aAction[j].lookahead < 0 { continue; }
        if aAction[j].lookahead == j - o { c := c + 1; }
      }
    }

    /** First search of acttab_insert, from the top down: the slot of the smallest lookahead, or -1. */
    method FindDuplicate() returns (i: int)
      requires nAction <= |aAction| && aLookahead != [] && Pending()
      ensures i == LastDuplicate(aAction, nAction, aLookahead, mnLookahead, nAction)
      ensures -1 <= i < nAction
    {
      hide LastDuplicate, OfOffset;
      i := nAction - 1;
      while i >= 0
        invariant -1 <= i < nAction
        invariant LastDuplicate(aAction, nAction, aLookahead, mnLookahead, nAction)
               == LastDuplicate(aAction, nAction, aLookahead, mnLookahead, i + 1)
      {
        LastDuplicateStep(aAction, nAction, aLookahead, mnLookahead, i);
        if aAction[i] == Entry(mnLookahead, mnAction) {
          var j := 0;
          while j < |aLookahead| && Reads(aAction, nAction, i - mnLookahead, aLookahead[j])
            invariant j <= |aLookahead|
            invariant forall k :: 0 <= k < j ==> Reads(aAction, nAction, i - mnLookahead, aLookahead[k])
          {
            j := j + 1;
          }
          if j == |aLookahead| {
            var n := CountAt(i - mnLookahead);
            if n == |aLookahead| { return; }
          }
        } else {
          var k :| 0 <= k < |aLookahead| && aLookahead[k] == Entry(mnLookahead, mnAction);
          assert !Reads(aAction, nAction, i - mnLookahead, aLookahead[k]);
        }
        i := i - 1;
      }
      LastDuplicateNone(aAction, nAction, aLookahead, mnLookahead);
    }

    /** Whether the transaction fits with its smallest lookahead in slot `i`. */
    method FitsAt(i: nat) returns (fits: bool)
      requires nAction <= |aAction| && 0 <= mnLookahead <= mxLookahead && i < |aAction| - mxLookahead
      requires forall k :: 0 <= k < |aLookahead| ==> mnLookahead <= aLookahead[k].lookahead <= mxLookahead
      ensures fits == HoleAt(aAction, nAction, aLookahead, mnLookahead, i)
    {
      if aAction[i].lookahead >= 0 { return false; }
      var j := 0;
      while j < |aLookahead|
        invariant j <= |aLookahead|
        invariant forall k :: 0 <= k < j ==>
          var s := aLookahead[k].lookahead - mnLookahead + i; 0 <= s < |aAction| && aAction[s].lookahead < 0
      {
        var k := aLookahead[j].lookahead - mnLookahead + i;
        if k < 0 || aAction[k].lookahead >= 0 { return false; }
        j := j + 1;
      }
      j := 0;
      while j < nAction
        invariant j <= nAction
        invariant forall k :: 0 <= k < j ==> aAction[k].lookahead != k + mnLookahead - i
      {
        if aAction[j].lookahead == j + mnLookahead - i { return false; }
        j := j + 1;
      }
      fits := true;
    }

    /** Second search: the first slot whose offset is unused and whose slots are free; the bound if there is none. */
    method FindHole() returns (i: nat)
      requires Shape(aAction, nAction) && aLookahead != [] && Pending() && nAction + mxLookahead + 1 < |aAction|
      ensures i == FirstHole(aAction, nAction, aLookahead, mnLookahead, 0, |aAction| - mxLookahead)
    {
      hide FirstHole, HoleAt;
      ExtremesOrdered(aLookahead, mnLookahead, mxLookahead);
      i := 0;
      while i < |aAction| - mxLookahead
        invariant 0 <= i <= |aAction| - mxLookahead
        invariant FirstHole(aAction, nAction, aLookahead, mnLookahead, 0, |aAction| - mxLookahead)
               == FirstHole(aAction, nAction, aLookahead, mnLookahead, i, |aAction| - mxLookahead)
      {
        FirstHoleStep(aAction, nAction, aLookahead, mnLookahead, i, |aAction| - mxLookahead);
        var fits := FitsAt(i);
        if fits { return; }
        i := i + 1;
      }
      FirstHoleNone(aAction, nAction, aLookahead, mnLookahead, i, |aAction| - mxLookahead);
    }

    /** The copying loop of acttab_insert. */
    method CopyTo(o: int)
      requires nAction <= |aAction|
      requires forall k :: 0 <= k < |aLookahead| ==> 0 <= o + aLookahead[k].lookahead < |aAction|
      modifies this`aAction, this`nAction
      ensures (aAction, nAction) == WriteAll(old(aAction), old(nAction), o, aLookahead)
    {
      var j := 0;
      while j < |aLookahead|
        invariant j <= |aLookahead| && nAction <= |aAction| == |old(aAction)|
        invariant (aAction, nAction) == WriteAll(old(aAction), old(nAction), o, aLookahead[..j])
      {
        var k := o + aLookahead[j].lookahead;
        assert aLookahead[..j + 1][..j] == aLookahead[..j];
        aAction := aAction[k := aLookahead[j]];
        if k >= nAction { nAction := k + 1; }
        j := j + 1;
      }
      assert aLookahead[..j] == aLookahead;
    }

    /** The reallocation at the head of acttab_insert. */
    method Grow()
      requires nAction <= |aAction| && mxLookahead >= 0
      modifies this`aAction
      ensures aAction == Grown(old(aAction), nAction, mxLookahead)
    {
      if nAction + mxLookahead + 1 >= |aAction| {
        aAction := aAction + seq(nAction + mxLookahead + 1 + 20, _ => FREE);
      }
    }

    /** Both searches of acttab_insert. */
    method Search() returns (i: int)
      requires Shape(aAction, nAction) && aLookahead != [] && Pending() && nAction + mxLookahead + 1 < |aAction|
      ensures i == PlaceFor(aAction, nAction, aLookahead, mnLookahead, mxLookahead)
    {
      hide LastDuplicate, FirstHole, Pending;
      i := FindDuplicate();
      if i < 0 { i := FindHole(); }
    }

    /** acttab_insert. */
    method Insert() returns (offset: int)
      requires Valid() && aLookahead != []
      modifies this
      ensures Valid() && aLookahead == []
      ensures old(Abs()).n <= |old(Abs()).tab| && GoodEntries(old(aLookahead))
      ensures Abs() == Insertion(old(Abs()), old(aLookahead))
      ensures rows == old(rows) + [Row(offset, old(aLookahead))] && offset >= -old(mnLookahead)
    {
      ghost var (p, entries) := (Abs(), aLookahead);
      hide Sane, Packed, Shape, Extremes, GoodEntries, InsertKeepsPacked, Grown, WriteAll, PlaceFor, Held, Insertion;
      hide Lowest, Highest;
      ExtremesUnique(aLookahead, mnLookahead, mxLookahead);
      ExtremesOrdered(aLookahead, mnLookahead, mxLookahead);
      SanePlacing(p);
      SaneGrown(p, mxLookahead);
      SanePlacing(p.(tab := Grown(p.tab, p.n, mxLookahead)));
      InsertionIs(p, entries);
      InsertionSane(p, entries);
      Grow();
      var i := Search();
      PlaceIsSearched(aAction, nAction, aLookahead, mnLookahead, mxLookahead);
      SearchedIsFreeOrThere(aAction, nAction, aLookahead, mnLookahead, mxLookahead, i);
      PlaceNotNegative(aAction, nAction, aLookahead, mnLookahead, mxLookahead);
      offset := i - mnLookahead;
      kept := kept && InsertKeepsPacked(aAction, nAction, aLookahead, mnLookahead, mxLookahead);
      CopyTo(offset);
      rows := rows + [Row(offset, entries)];
      aLookahead := [];
    }
  }

  lemma LastDuplicateStep(tab: seq<Entry>, n: nat, entries: seq<Entry>, mn: int, i: nat)
    requires n <= |tab|
    ensures LastDuplicate(tab, n, entries, mn, i + 1) ==
      if DuplicateAt(tab, n, entries, mn, i) then i else LastDuplicate(tab, n, entries, mn, i)
  {
    hide DuplicateAt;
  }

  lemma LastDuplicateNone(tab: seq<Entry>, n: nat, entries: seq<Entry>, mn: int)
    requires n <= |tab|
    ensures LastDuplicate(tab, n, entries, mn, 0) == -1
  {
  }

  lemma FirstHoleStep(tab: seq<Entry>, n: nat, entries: seq<Entry>, mn: int, i: int, bound: int)
    requires n <= |tab| && i < bound
    ensures FirstHole(tab, n, entries, mn, i, bound) ==
      if HoleAt(tab, n, entries, mn, i) then i else FirstHole(tab, n, entries, mn, i + 1, bound)
  {
    hide HoleAt;
  }

  lemma FirstHoleNone(tab: seq<Entry>, n: nat, entries: seq<Entry>, mn: int, i: int, bound: int)
    requires n <= |tab| && i >= bound
    ensures FirstHole(tab, n, entries, mn, i, bound) == i
  {
  }

  lemma PlaceNotNegative(tab: seq<Entry>, n: nat, entries: seq<Entry>, mn: int, mx: int)
    requires n <= |tab| && mx <= |tab|
    ensures PlaceFor(tab, n, entries, mn, mx) >= 0
  {
    hide DuplicateAt, HoleAt;
    LastDuplicateIs(tab, n, entries, mn, n);
    FirstHoleIs(tab, n, entries, mn, 0, |tab| - mx);
  }

  /** The seventeen rows through the class itself. */
  method InsertSeventeen() returns (tab: ActTab)
    ensures fresh(tab) && tab.Valid() && tab.aLookahead == []
    ensures AllGood(Seventeen()) && tab.Abs() == Replay(Seventeen()) && !tab.Abs().kept
  {
    hide *;
    tab := new ActTab();
    var lists := Seventeen();
    SeventeenParts();
    for k := 0 to 17
      invariant fresh(tab) && tab.Valid() && tab.aLookahead == [] && tab.Abs() == Replay(lists[..k])
    {
      assert lists[..k + 1][..k] == lists[..k] && lists[..k + 1][k] == lists[k];
      tab.Action(lists[k][0].lookahead, lists[k][0].action);
      assert tab.aLookahead == lists[k] by { assert |lists[k]| == 1; }
      ReplayOne(lists[..k + 1]);
      var offset := tab.Insert();
    }
    assert lists[..17] == lists;
    SeventeenSpoiled();
  }

  lemma SeventeenParts()
    ensures |Seventeen()| == 17 && AllGood(Seventeen()) && Seventeen()[..0] == []
    ensures forall k :: 0 <= k < 17 ==> |Seventeen()[k]| == 1 && Seventeen()[k][0].lookahead >= 0
    ensures forall k :: 0 <= k <= 17 ==> AllGood(Seventeen()[..k])
    ensures Replay([]) == Placing([], 0, [], true)
  {
    SeventeenGood();
  }
}
