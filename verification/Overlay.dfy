/** The `acttab` module of Lemon: all rows of parser actions overlaid in one array.

    A row is a set of (lookahead, action) entries of one state.  It is stored at an
    offset `o`: the entry of lookahead `x` sits in slot `o + x`, and a reader trusts a
    slot only when the lookahead recorded there is the one it asked for. */
module LemonOverlay {

  /** One slot; a lookahead of -1 marks a free one. */
  datatype Entry = Entry(lookahead: int, action: int)

  const FREE := Entry(-1, -1)

  datatype Row = Row(offset: int, entries: seq<Entry>)

  /** Reading entry `e` through offset `o` of the first `n` slots succeeds. */
  predicate Reads(tab: seq<Entry>, n: nat, o: int, e: Entry)
    requires n <= |tab|
  {
    0 <= o + e.lookahead < n && tab[o + e.lookahead] == e
  }

  /** Through its offset a row shows its own entries and no other. */
  ghost predicate Exact(tab: seq<Entry>, n: nat, row: Row)
    requires n <= |tab|
  {
    forall e: Entry :: e.lookahead >= 0 ==> (Reads(tab, n, row.offset, e) <==> e in row.entries)
  }

  ghost predicate GoodEntries(entries: seq<Entry>) {
    && |entries| > 0
    && (forall k :: 0 <= k < |entries| ==> entries[k].lookahead >= 0)
    && (forall k, l :: 0 <= k < l < |entries| ==> entries[k].lookahead != entries[l].lookahead)
  }

  /** Some occupied slot belongs to offset `o`. */
  ghost predicate Used(tab: seq<Entry>, n: nat, o: int)
    requires n <= |tab|
  {
    exists j :: 0 <= j < n && tab[j].lookahead >= 0 && j - tab[j].lookahead == o
  }

  /** Every row inserted so far is exact, every occupied slot belongs to a row, and equal rows share one offset. */
  ghost predicate Packed(tab: seq<Entry>, n: nat, rows: seq<Row>)
    requires n <= |tab|
  {
    && (forall r :: 0 <= r < |rows| ==> GoodEntries(rows[r].entries) && Exact(tab, n, rows[r]))
    && (forall j :: 0 <= j < n && tab[j].lookahead >= 0 ==> j - tab[j].lookahead in Offsets(rows))
    && (forall r, q {:trigger SameSet(rows[r].entries, rows[q].entries)} ::
          0 <= r < |rows| && 0 <= q < |rows| && SameSet(rows[r].entries, rows[q].entries) ==>
          rows[r].offset == rows[q].offset)
  }

  ghost function Offsets(rows: seq<Row>): set<int> {
    if rows == [] then {} else Offsets(rows[..|rows| - 1]) + {rows[|rows| - 1].offset}
  }

  lemma {:induction false} OffsetOf(rows: seq<Row>, o: int) returns (r: nat)
    requires o in Offsets(rows)
    ensures r < |rows| && rows[r].offset == o
  {
    r := |rows| - 1;
    if rows[r].offset != o { r := OffsetOf(rows[..r], o); }
  }

  lemma {:induction false} OffsetIn(rows: seq<Row>, r: nat)
    requires r < |rows|
    ensures rows[r].offset in Offsets(rows)
  {
    if r < |rows| - 1 { OffsetIn(rows[..|rows| - 1], r); }
  }

  ghost predicate SameSet(a: seq<Entry>, b: seq<Entry>) {
    forall e :: e in a <==> e in b
  }

  /** What every table satisfies, packed or not: free beyond `n`, occupied at `n-1`. */
  ghost predicate Shape(tab: seq<Entry>, n: nat) {
    && n <= |tab|
    && (forall j :: 0 <= j < |tab| ==> tab[j].lookahead >= -1)
    && (forall j :: n <= j < |tab| ==> tab[j] == FREE)
    && (n > 0 ==> tab[n - 1].lookahead >= 0)
  }

  // ----- the two searches -----

  ghost function OfOffset(tab: seq<Entry>, n: nat, o: int): set<int>
    requires n <= |tab|
  {
    set j | 0 <= j < n && tab[j].lookahead >= 0 && tab[j].lookahead == j - o
  }

  /** The transaction is already there, with its smallest lookahead in slot `i`. */
  ghost predicate DuplicateAt(tab: seq<Entry>, n: nat, entries: seq<Entry>, mn: int, i: int)
    requires n <= |tab|
  {
    && (forall k :: 0 <= k < |entries| ==> Reads(tab, n, i - mn, entries[k]))
    && |OfOffset(tab, n, i - mn)| == |entries|
  }

  /** The transaction fits into free slots with its smallest lookahead in slot `i`, at an offset nobody uses. */
  ghost predicate HoleAt(tab: seq<Entry>, n: nat, entries: seq<Entry>, mn: int, i: int)
    requires n <= |tab|
  {
    && 0 <= i < |tab| && tab[i].lookahead < 0
    && (forall k :: 0 <= k < |entries| ==>
          var s := entries[k].lookahead - mn + i; 0 <= s < |tab| && tab[s].lookahead < 0)
    && (forall j :: 0 <= j < n ==> tab[j].lookahead != j + mn - i)
  }

  /** One of the searches ends by `break`. */
  ghost predicate SearchSucceeds(tab: seq<Entry>, n: nat, entries: seq<Entry>, mn: int, mx: int)
    requires n <= |tab|
  {
    || (exists i :: 0 <= i < n && DuplicateAt(tab, n, entries, mn, i))
    || (exists i :: 0 <= i < |tab| - mx && HoleAt(tab, n, entries, mn, i))
  }

  /** What the code relies on without checking it: a search ends by `break`, or the offset
      that the exhausted second search falls back to is unused. */
  ghost predicate InsertKeepsPacked(tab: seq<Entry>, n: nat, entries: seq<Entry>, mn: int, mx: int)
    requires n <= |tab|
  {
    SearchSucceeds(tab, n, entries, mn, mx) || !Used(tab, n, |tab| - mx - mn)
  }

  // ----- what an insertion does to the table -----

  /** The slots that a transaction takes at offset `o`. */
  ghost function Slots(entries: seq<Entry>, o: int): set<int> {
    if entries == [] then {}
    else Slots(entries[..|entries| - 1], o) + {o + entries[|entries| - 1].lookahead}
  }

  lemma {:induction false} SlotIn(entries: seq<Entry>, o: int, k: nat)
    requires k < |entries|
    ensures o + entries[k].lookahead in Slots(entries, o)
  {
    if k < |entries| - 1 { SlotIn(entries[..|entries| - 1], o, k); }
  }

  lemma {:induction false} SlotOf(entries: seq<Entry>, o: int, j: int) returns (k: nat)
    requires j in Slots(entries, o)
    ensures k < |entries| && o + entries[k].lookahead == j
  {
    k := |entries| - 1;
    if j != o + entries[k].lookahead { k := SlotOf(entries[..k], o, j); }
  }

  ghost predicate InsertedAt(tab: seq<Entry>, n: nat, tab': seq<Entry>, n': nat, o: int, entries: seq<Entry>) {
    && n <= n' <= |tab'| == |tab|
    && (forall k :: 0 <= k < |entries| ==> Reads(tab', n', o, entries[k]))
    && (forall j :: 0 <= j < |tab| && j !in Slots(entries, o) ==> tab'[j] == tab[j])
    && (n' > n ==> n' - 1 in Slots(entries, o))
  }

  /** Offsets of packed rows are exactly the used ones. */
  lemma RowsUseTheirOffset(tab: seq<Entry>, n: nat, rows: seq<Row>, r: nat)
    requires n <= |tab| && Packed(tab, n, rows) && r < |rows|
    ensures Used(tab, n, rows[r].offset)
  {
    var e := rows[r].entries[0];
    assert e in rows[r].entries && Reads(tab, n, rows[r].offset, e);
  }

  /** Rows share an offset exactly when they are the same set of entries, so the
      occupied slots are partitioned by slot minus lookahead. */
  lemma SameOffsetSameRow(tab: seq<Entry>, n: nat, rows: seq<Row>, r: nat, q: nat)
    requires n <= |tab| && Packed(tab, n, rows) && r < |rows| && q < |rows|
    ensures rows[r].offset == rows[q].offset <==> SameSet(rows[r].entries, rows[q].entries)
  {
    var (a, b) := (rows[r], rows[q]);
    if a.offset == b.offset {
      forall e: Entry ensures e in a.entries <==> e in b.entries {
        if e in a.entries { assert Reads(tab, n, a.offset, e); }
        if e in b.entries { assert Reads(tab, n, b.offset, e); }
      }
    }
  }

  lemma {:induction false} SlotsCount(entries: seq<Entry>, o: int)
    requires forall k, l :: 0 <= k < l < |entries| ==> entries[k].lookahead != entries[l].lookahead
    ensures |Slots(entries, o)| == |entries|
  {
    if entries != [] {
      var (last, front) := (|entries| - 1, entries[..|entries| - 1]);
      SlotsCount(front, o);
      if o + entries[last].lookahead in Slots(front, o) {
        var k := SlotOf(front, o, o + entries[last].lookahead);
        assert false;
      }
    }
  }

  lemma SubsetSameSize<T>(a: set<T>, b: set<T>)
    requires a <= b && |a| == |b|
    ensures a == b
  {
    assert a * b == a && |b - a| == |b| - |a * b|;
  }

  /** Counting the slots of an offset decides whether the row there has nothing else in it. */
  lemma DuplicateIsExact(tab: seq<Entry>, n: nat, entries: seq<Entry>, mn: int, i: int)
    requires n <= |tab| && GoodEntries(entries) && DuplicateAt(tab, n, entries, mn, i)
    ensures Exact(tab, n, Row(i - mn, entries))
  {
    var o := i - mn;
    SlotsCount(entries, o);
    forall j | j in Slots(entries, o) ensures j in OfOffset(tab, n, o) {
      var k := SlotOf(entries, o, j);
      assert Reads(tab, n, o, entries[k]);
    }
    SubsetSameSize(Slots(entries, o), OfOffset(tab, n, o));
    forall e: Entry | e.lookahead >= 0 ensures Reads(tab, n, o, e) <==> e in entries {
      if Reads(tab, n, o, e) {
        assert o + e.lookahead in OfOffset(tab, n, o);
        var k := SlotOf(entries, o, o + e.lookahead);
        assert Reads(tab, n, o, entries[k]);
      }
    }
  }

  lemma ExactIsDuplicate(tab: seq<Entry>, n: nat, row: Row, entries: seq<Entry>, mn: int)
    requires n <= |tab| && GoodEntries(entries) && Exact(tab, n, row) && SameSet(row.entries, entries)
    ensures DuplicateAt(tab, n, entries, mn, row.offset + mn)
  {
    var o := row.offset;
    forall k | 0 <= k < |entries| ensures Reads(tab, n, o, entries[k]) {
      assert entries[k] in entries && entries[k] in row.entries;
    }
    SlotsCount(entries, o);
    assert OfOffset(tab, n, o) == Slots(entries, o) by {
      forall j | j in OfOffset(tab, n, o) ensures j in Slots(entries, o) {
        assert Reads(tab, n, o, tab[j]) && tab[j] in entries;
        var k :| 0 <= k < |entries| && entries[k] == tab[j];
        SlotIn(entries, o, k);
      }
      forall j | j in Slots(entries, o) ensures j in OfOffset(tab, n, o) {
        var k := SlotOf(entries, o, j);
        assert Reads(tab, n, o, entries[k]);
      }
    }
  }

  /** The slots at offset `o` are inside the table and free. */
  ghost predicate FreeFor(tab: seq<Entry>, o: int, entries: seq<Entry>) {
    forall k :: 0 <= k < |entries| ==>
        0 <= o + entries[k].lookahead < |tab| && tab[o + entries[k].lookahead].lookahead < 0
  }

  lemma OldRowStaysExact(tab: seq<Entry>, n: nat, row: Row, tab': seq<Entry>, n': nat, o: int, entries: seq<Entry>)
    requires Shape(tab, n) && GoodEntries(entries) && FreeFor(tab, o, entries)
    requires InsertedAt(tab, n, tab', n', o, entries)
    requires Exact(tab, n, row) && row.offset != o
    ensures Exact(tab', n', row)
  {
    forall e: Entry | e.lookahead >= 0 ensures Reads(tab', n', row.offset, e) <==> e in row.entries {
      var j := row.offset + e.lookahead;
      assert Reads(tab, n, row.offset, e) <==> e in row.entries;
      if j in Slots(entries, o) {
        var k := SlotOf(entries, o, j);
        assert Reads(tab', n', o, entries[k]);
      }
    }
  }

  lemma NewRowIsExact(tab: seq<Entry>, n: nat, tab': seq<Entry>, n': nat, o: int, entries: seq<Entry>)
    requires Shape(tab, n) && GoodEntries(entries) && !Used(tab, n, o)
    requires InsertedAt(tab, n, tab', n', o, entries)
    ensures Exact(tab', n', Row(o, entries))
  {
    forall e: Entry | e.lookahead >= 0 ensures Reads(tab', n', o, e) <==> e in entries {
      var j := o + e.lookahead;
      if j in Slots(entries, o) {
        var k := SlotOf(entries, o, j);
        assert Reads(tab', n', o, entries[k]);
      } else if Reads(tab', n', o, e) {
        assert false;
      }
    }
  }

  lemma OccupiedSlotsHaveRows(tab: seq<Entry>, n: nat, rows: seq<Row>, tab': seq<Entry>, n': nat, o: int,
      entries: seq<Entry>, j: int)
    requires Shape(tab, n) && Packed(tab, n, rows) && GoodEntries(entries)
    requires InsertedAt(tab, n, tab', n', o, entries)
    requires 0 <= j < n' && tab'[j].lookahead >= 0
    ensures j - tab'[j].lookahead in Offsets(rows + [Row(o, entries)])
  {
    assert (rows + [Row(o, entries)])[..|rows|] == rows;
    if j in Slots(entries, o) {
      var k := SlotOf(entries, o, j);
      assert Reads(tab', n', o, entries[k]);
    } else {
      assert tab'[j] == tab[j] && j < n;
    }
  }

  lemma FreeSlotsStayPacked(tab: seq<Entry>, n: nat, rows: seq<Row>, tab': seq<Entry>, n': nat, o: int,
      entries: seq<Entry>)
    requires Shape(tab, n) && Packed(tab, n, rows) && GoodEntries(entries) && FreeFor(tab, o, entries)
    requires InsertedAt(tab, n, tab', n', o, entries) && !Used(tab, n, o)
    requires forall r :: 0 <= r < |rows| ==> !SameSet(rows[r].entries, entries)
    ensures Packed(tab', n', rows + [Row(o, entries)])
  {
    var rows' := rows + [Row(o, entries)];
    forall r | 0 <= r < |rows'| ensures GoodEntries(rows'[r].entries) && Exact(tab', n', rows'[r]) {
      if r < |rows| {
        RowsUseTheirOffset(tab, n, rows, r);
        OldRowStaysExact(tab, n, rows[r], tab', n', o, entries);
      } else {
        NewRowIsExact(tab, n, tab', n', o, entries);
      }
    }
    forall j | 0 <= j < n' && tab'[j].lookahead >= 0 ensures j - tab'[j].lookahead in Offsets(rows') {
      OccupiedSlotsHaveRows(tab, n, rows, tab', n', o, entries, j);
    }
  }

  /** A used offset cannot be shared: its reader would see the older entries too. */
  lemma UsedOffsetIsSpoiled(tab: seq<Entry>, n: nat, tab': seq<Entry>, n': nat, o: int, entries: seq<Entry>)
    requires Shape(tab, n) && GoodEntries(entries) && FreeFor(tab, o, entries)
    requires InsertedAt(tab, n, tab', n', o, entries) && Used(tab, n, o)
    ensures !Exact(tab', n', Row(o, entries))
  {
    var j :| 0 <= j < n && tab[j].lookahead >= 0 && j - tab[j].lookahead == o;
    if j in Slots(entries, o) {
      var k := SlotOf(entries, o, j);
      assert false;
    }
    assert Reads(tab', n', o, tab[j]);
    forall k | 0 <= k < |entries| ensures entries[k] != tab[j] {
      assert o + entries[k].lookahead != j;
    }
  }

  lemma InsertNone(tab: seq<Entry>, n: nat, o: int)
    requires n <= |tab|
    ensures InsertedAt(tab, n, tab, n, o, [])
  {
  }

  lemma InsertOneMore(tab: seq<Entry>, n: nat, tab': seq<Entry>, n': nat, o: int, entries: seq<Entry>, e: Entry)
    requires InsertedAt(tab, n, tab', n', o, entries)
    requires 0 <= o + e.lookahead < |tab|
    requires forall k :: 0 <= k < |entries| ==> entries[k].lookahead != e.lookahead
    ensures var s := o + e.lookahead;
            InsertedAt(tab, n, tab'[s := e], if s >= n' then s + 1 else n', o, entries + [e])
  {
    var s := o + e.lookahead;
    var (tab2, n2, more) := (tab'[s := e], if s >= n' then s + 1 else n', entries + [e]);
    assert more[..|entries|] == entries;
    if s in Slots(entries, o) {
      var k := SlotOf(entries, o, s);
      assert false;
    }
    forall k | 0 <= k < |more| ensures Reads(tab2, n2, o, more[k]) {
      if k < |entries| {
        assert more[k] == entries[k] && Reads(tab', n', o, entries[k]);
        SlotIn(entries, o, k);
      }
    }
  }

  // ----- the three ways an insertion ends -----

  /** `mn` and `mx` are the extreme lookaheads of the transaction. */
  ghost predicate Extremes(entries: seq<Entry>, mn: int, mx: int) {
    && (forall k :: 0 <= k < |entries| ==> mn <= entries[k].lookahead <= mx)
    && (exists k :: 0 <= k < |entries| && entries[k].lookahead == mn)
    && (exists k :: 0 <= k < |entries| && entries[k].lookahead == mx)
  }

  lemma FirstEntry(e: Entry)
    requires e.lookahead >= 0
    ensures GoodEntries([] + [e]) && Extremes([] + [e], e.lookahead, e.lookahead)
  {
    assert ([] + [e])[0] == e;
  }

  lemma MoreEntries(entries: seq<Entry>, mn: int, mx: int, e: Entry)
    requires GoodEntries(entries) && Extremes(entries, mn, mx) && e.lookahead >= 0
    requires forall k :: 0 <= k < |entries| ==> entries[k].lookahead != e.lookahead
    ensures GoodEntries(entries + [e])
    ensures Extremes(entries + [e], if mn > e.lookahead then e.lookahead else mn,
        if mx < e.lookahead then e.lookahead else mx)
  {
    var more := entries + [e];
    assert more[|entries|] == e && forall k :: 0 <= k < |entries| ==> more[k] == entries[k];
  }

  lemma ExtremesOrdered(entries: seq<Entry>, mn: int, mx: int)
    requires GoodEntries(entries) && Extremes(entries, mn, mx)
    ensures 0 <= mn <= mx
  {
  }

  /** Found again: nothing is written. */
  lemma DuplicateWritesNothing(tab: seq<Entry>, n: nat, tab': seq<Entry>, n': nat, entries: seq<Entry>, mn: int, i: int,
      o: int)
    requires n <= |tab| && DuplicateAt(tab, n, entries, mn, i)
    requires InsertedAt(tab, n, tab', n', o, entries) && o == i - mn
    ensures tab' == tab && n' == n
  {
    forall j | 0 <= j < |tab| ensures tab'[j] == tab[j] {
      if j in Slots(entries, o) {
        var k := SlotOf(entries, o, j);
        assert Reads(tab, n, o, entries[k]) && Reads(tab', n', o, entries[k]);
      }
    }
    if n' > n {
      var k := SlotOf(entries, o, n' - 1);
      assert false;
    }
  }

  /** Two rows that are both exact at one offset hold the same entries. */
  lemma ExactAtOneOffset(tab: seq<Entry>, n: nat, a: Row, b: Row)
    requires n <= |tab| && GoodEntries(a.entries) && GoodEntries(b.entries)
    requires Exact(tab, n, a) && Exact(tab, n, b) && a.offset == b.offset
    ensures SameSet(a.entries, b.entries)
  {
    forall e: Entry ensures e in a.entries <==> e in b.entries {
      if e in a.entries { assert Reads(tab, n, a.offset, e); }
      if e in b.entries { assert Reads(tab, n, b.offset, e); }
    }
  }

  /** A repeated row can be added to the list of rows. */
  lemma RepeatedRow(tab: seq<Entry>, n: nat, rows: seq<Row>, row: Row, q: nat)
    requires n <= |tab| && Packed(tab, n, rows) && GoodEntries(row.entries) && Exact(tab, n, row)
    requires q < |rows| && rows[q].offset == row.offset && SameSet(rows[q].entries, row.entries)
    ensures Packed(tab, n, rows + [row])
  {
    var rows' := rows + [row];
    forall r, p | 0 <= r < |rows'| && 0 <= p < |rows'| && SameSet(rows'[r].entries, rows'[p].entries)
      ensures rows'[r].offset == rows'[p].offset
    {
      var (r1, p1) := (if r == |rows| then q else r, if p == |rows| then q else p);
      assert SameSet(rows[r1].entries, rows[p1].entries);
    }
    assert rows'[..|rows|] == rows;
  }

  lemma DuplicateKeepsPacked(tab: seq<Entry>, n: nat, rows: seq<Row>, entries: seq<Entry>, mn: int, i: int)
    requires n <= |tab| && Packed(tab, n, rows) && GoodEntries(entries) && DuplicateAt(tab, n, entries, mn, i)
    ensures Packed(tab, n, rows + [Row(i - mn, entries)])
  {
    var row := Row(i - mn, entries);
    DuplicateIsExact(tab, n, entries, mn, i);
    var j := row.offset + entries[0].lookahead;
    assert Reads(tab, n, row.offset, entries[0]);
    var q := OffsetOf(rows, j - tab[j].lookahead);
    ExactAtOneOffset(tab, n, rows[q], row);
    RepeatedRow(tab, n, rows, row, q);
  }

  /** When the first search fails, no row has this set of entries. */
  lemma NoDuplicateNoRow(tab: seq<Entry>, n: nat, rows: seq<Row>, entries: seq<Entry>, mn: int, mx: int, r: nat)
    requires n <= |tab| && Packed(tab, n, rows) && GoodEntries(entries) && Extremes(entries, mn, mx) && r < |rows|
    requires forall d :: 0 <= d < n ==> !DuplicateAt(tab, n, entries, mn, d)
    ensures !SameSet(rows[r].entries, entries)
  {
    var k :| 0 <= k < |entries| && entries[k].lookahead == mn;
    if SameSet(rows[r].entries, entries) {
      ExactIsDuplicate(tab, n, rows[r], entries, mn);
      assert false;
    }
  }

  lemma HoleIsFree(tab: seq<Entry>, n: nat, entries: seq<Entry>, mn: int, i: int)
    requires Shape(tab, n) && HoleAt(tab, n, entries, mn, i)
    ensures FreeFor(tab, i - mn, entries) && !Used(tab, n, i - mn)
  {
    forall k | 0 <= k < |entries|
      ensures 0 <= i - mn + entries[k].lookahead < |tab| && tab[i - mn + entries[k].lookahead].lookahead < 0
    {
      assert entries[k].lookahead - mn + i == i - mn + entries[k].lookahead;
    }
  }

  /** The slot `mn` behind the last one in use always fits, if it is inside the searched range. */
  lemma RoomBehindTable(tab: seq<Entry>, n: nat, entries: seq<Entry>, mn: int, mx: int)
    requires Shape(tab, n) && GoodEntries(entries) && Extremes(entries, mn, mx)
    requires n + mn + mx < |tab|
    ensures HoleAt(tab, n, entries, mn, n + mn)
  {
  }

  /** So the search is exhausted only for rows whose smallest lookahead is at least 2, and then the slots at its bound
      are inside the table and free. */
  lemma ExhaustedIsFree(tab: seq<Entry>, n: nat, entries: seq<Entry>, mn: int, mx: int)
    requires Shape(tab, n) && GoodEntries(entries) && Extremes(entries, mn, mx) && n + mx + 1 < |tab|
    requires forall h :: 0 <= h < |tab| - mx ==> !HoleAt(tab, n, entries, mn, h)
    ensures mn >= 2 && n + mn + mx >= |tab|
    ensures FreeFor(tab, |tab| - mx - mn, entries)
  {
    if n + mn + mx < |tab| { RoomBehindTable(tab, n, entries, mn, mx); }
  }

  /** Writing into free slots keeps everything packed exactly when the offset was unused. */
  lemma FreeSlotsOutcome(tab: seq<Entry>, n: nat, rows: seq<Row>, tab': seq<Entry>, n': nat, o: int,
      entries: seq<Entry>)
    requires Shape(tab, n) && Packed(tab, n, rows) && GoodEntries(entries) && FreeFor(tab, o, entries)
    requires InsertedAt(tab, n, tab', n', o, entries)
    requires forall r :: 0 <= r < |rows| ==> !SameSet(rows[r].entries, entries)
    ensures Packed(tab', n', rows + [Row(o, entries)]) == !Used(tab, n, o)
  {
    if Used(tab, n, o) {
      UsedOffsetIsSpoiled(tab, n, tab', n', o, entries);
      assert (rows + [Row(o, entries)])[|rows|] == Row(o, entries);
    } else {
      FreeSlotsStayPacked(tab, n, rows, tab', n', o, entries);
    }
  }

  /** Where the two searches of acttab_insert can leave `i`. */
  ghost predicate SearchedTo(tab: seq<Entry>, n: nat, entries: seq<Entry>, mn: int, mx: int, i: int)
    requires n <= |tab|
  {
    if 0 <= i < n && DuplicateAt(tab, n, entries, mn, i) then true
    else
      && (forall d :: 0 <= d < n ==> !DuplicateAt(tab, n, entries, mn, d))
      && (if 0 <= i < |tab| - mx then HoleAt(tab, n, entries, mn, i)
          else i == |tab| - mx && forall h :: 0 <= h < |tab| - mx ==> !HoleAt(tab, n, entries, mn, h))
  }

  lemma SearchedToMeans(tab: seq<Entry>, n: nat, entries: seq<Entry>, mn: int, mx: int, i: int)
    requires 0 <= mx && n + mx + 1 < |tab| && SearchedTo(tab, n, entries, mn, mx, i)
    ensures SearchSucceeds(tab, n, entries, mn, mx) == (i < |tab| - mx)
    ensures i < n || HoleAt(tab, n, entries, mn, i) || i == |tab| - mx
  {
  }

  lemma NotDuplicate(tab: seq<Entry>, n: nat, rows: seq<Row>, entries: seq<Entry>, mn: int, mx: int, i: int, o: int)
    requires Shape(tab, n) && Packed(tab, n, rows) && GoodEntries(entries) && Extremes(entries, mn, mx)
    requires n + mx + 1 < |tab|
    requires o == i - mn && SearchedTo(tab, n, entries, mn, mx, i)
    requires !(0 <= i < n && DuplicateAt(tab, n, entries, mn, i))
    ensures FreeFor(tab, o, entries)
    ensures i < |tab| - mx ==> !Used(tab, n, o)
    ensures forall r :: 0 <= r < |rows| ==> !SameSet(rows[r].entries, entries)
  {
    if i < |tab| - mx {
      HoleIsFree(tab, n, entries, mn, i);
    } else {
      ExhaustedIsFree(tab, n, entries, mn, mx);
    }
    forall r | 0 <= r < |rows| ensures !SameSet(rows[r].entries, entries) {
      NoDuplicateNoRow(tab, n, rows, entries, mn, mx, r);
    }
  }

  lemma OutcomeFound(tab: seq<Entry>, n: nat, rows: seq<Row>, tab': seq<Entry>, n': nat, entries: seq<Entry>, mn: int,
      i: int, o: int)
    requires n <= |tab| && Packed(tab, n, rows) && GoodEntries(entries)
    requires DuplicateAt(tab, n, entries, mn, i) && o == i - mn
    requires InsertedAt(tab, n, tab', n', o, entries)
    ensures Packed(tab', n', rows + [Row(o, entries)])
  {
    hide *;
    DuplicateWritesNothing(tab, n, tab', n', entries, mn, i, o);
    DuplicateKeepsPacked(tab, n, rows, entries, mn, i);
  }

  lemma OutcomeWritten(tab: seq<Entry>, n: nat, rows: seq<Row>, tab': seq<Entry>, n': nat, entries: seq<Entry>, mn: int,
      mx: int, i: int, o: int)
    requires Shape(tab, n) && Packed(tab, n, rows) && GoodEntries(entries) && Extremes(entries, mn, mx)
    requires n + mx + 1 < |tab|
    requires SearchedTo(tab, n, entries, mn, mx, i) && o == i - mn
    requires !(0 <= i < n && DuplicateAt(tab, n, entries, mn, i))
    requires InsertedAt(tab, n, tab', n', o, entries)
    ensures Packed(tab', n', rows + [Row(o, entries)]) == !Used(tab, n, o)
    ensures i < |tab| - mx ==> !Used(tab, n, o)
  {
    NotDuplicate(tab, n, rows, entries, mn, mx, i, o);
    FreeSlotsOutcome(tab, n, rows, tab', n', o, entries);
  }

  /** How a call of acttab_insert ends, from where its searches end. */
  lemma InsertOutcome(tab: seq<Entry>, n: nat, rows: seq<Row>, tab': seq<Entry>, n': nat, entries: seq<Entry>, mn: int,
      mx: int, i: int, o: int)
    requires Shape(tab, n) && Packed(tab, n, rows) && GoodEntries(entries) && Extremes(entries, mn, mx)
    requires n + mx + 1 < |tab|
    requires SearchedTo(tab, n, entries, mn, mx, i) && o == i - mn
    requires InsertedAt(tab, n, tab', n', o, entries)
    ensures Packed(tab', n', rows + [Row(o, entries)]) == InsertKeepsPacked(tab, n, entries, mn, mx)
  {
    SearchedToMeans(tab, n, entries, mn, mx, i);
    if 0 <= i < n && DuplicateAt(tab, n, entries, mn, i) {
      OutcomeFound(tab, n, rows, tab', n', entries, mn, i, o);
    } else {
      OutcomeWritten(tab, n, rows, tab', n', entries, mn, mx, i, o);
    }
  }

  /** The table after the reallocation at the head of acttab_insert. */
  function Grown(tab: seq<Entry>, n: nat, mx: int): seq<Entry>
    requires mx >= 0
  {
    if n + mx + 1 >= |tab| then tab + seq(n + mx + 1 + 20, _ => FREE) else tab
  }

  lemma GrownStaysPacked(tab: seq<Entry>, n: nat, mx: int, rows: seq<Row>)
    requires Shape(tab, n) && mx >= 0
    ensures Shape(Grown(tab, n, mx), n)
    ensures Packed(tab, n, rows) <==> Packed(Grown(tab, n, mx), n, rows)
  {
    var tab' := Grown(tab, n, mx);
    assert forall o, e: Entry :: Reads(tab, n, o, e) <==> Reads(tab', n, o, e);
    assert forall j :: 0 <= j < n ==> tab'[j] == tab[j];
  }
}
