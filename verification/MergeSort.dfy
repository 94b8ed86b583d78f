/** Lemon's msort: an in-place merge sort of a linked list, with 30 bins that
    work like the digits of a binary counter. */
module LemonMergeSort {
  import opened Basics

  class Node<T> {
    const data: T
    var next: Node?<T>

    constructor (data: T, next: Node?<T>)
      ensures this.data == data && this.next == next
    {
      this.data, this.next := data, next;
    }
  }

  /** `head` is the first of the linked `nodes`, and the last one ends the list. */
  ghost predicate IsList<T>(head: Node?<T>, nodes: seq<Node<T>>)
    reads nodes
  {
    && head == (if nodes == [] then null else nodes[0])
    && Linked(nodes)
    && (nodes != [] ==> nodes[|nodes| - 1].next == null)
  }

  ghost predicate Linked<T>(nodes: seq<Node<T>>)
    reads nodes
  {
    forall i :: 0 <= i < |nodes| - 1 ==> nodes[i].next == nodes[i + 1]
  }

  ghost predicate TotalOrder<T(!new)>(cmp: (T, T) -> int) {
    && (forall x, y :: cmp(x, y) <= 0 || cmp(y, x) <= 0)
    && (forall x, y, z :: cmp(x, y) <= 0 && cmp(y, z) <= 0 ==> cmp(x, z) <= 0)
  }

  ghost predicate Sorted<T>(cmp: (T, T) -> int, nodes: seq<Node<T>>) {
    forall i, j :: 0 <= i < j < |nodes| ==> cmp(nodes[i].data, nodes[j].data) <= 0
  }

  ghost predicate Apart<T>(xs: seq<Node<T>>, ys: seq<Node<T>>) {
    forall n :: n in xs ==> n !in ys
  }

  /** Three lists without a node in common or repeated. */
  ghost predicate Separate<T>(out: seq<Node<T>>, xs: seq<Node<T>>, ys: seq<Node<T>>) {
    && NoDuplicates(out) && NoDuplicates(xs) && NoDuplicates(ys)
    && Apart(out, xs) && Apart(out, ys) && Apart(xs, ys)
  }

  lemma TakeSeparate<T>(out: seq<Node<T>>, xs: seq<Node<T>>, ys: seq<Node<T>>)
    requires Separate(out, xs, ys) && xs != []
    ensures Separate(out + [xs[0]], xs[1..], ys)
  {
    assert xs[0] in xs;
    forall n | n in xs[1..] ensures n in xs && n != xs[0] {
      var i :| 0 <= i < |xs| - 1 && xs[1..][i] == n;
      assert xs[i + 1] == n;
    }
    forall i, j | 0 <= i < j < |out + [xs[0]]| ensures (out + [xs[0]])[i] != (out + [xs[0]])[j] {
      assert out[i] in out;
    }
  }

  lemma SeparateFlip<T>(out: seq<Node<T>>, xs: seq<Node<T>>, ys: seq<Node<T>>)
    requires Separate(out, xs, ys)
    ensures Separate(out, ys, xs)
  {
  }

  lemma SeparateJoin<T>(out: seq<Node<T>>, xs: seq<Node<T>>, ys: seq<Node<T>>)
    requires Separate(out, xs, ys)
    ensures NoDuplicates(out + xs)
  {
    forall i, j | 0 <= i < j < |out + xs| ensures (out + xs)[i] != (out + xs)[j] {
      if i < |out| && j >= |out| { assert out[i] in out && xs[j - |out|] in xs; }
    }
  }

  lemma TakeFirst<T(!new)>(cmp: (T, T) -> int, out: seq<Node<T>>, xs: seq<Node<T>>, ys: seq<Node<T>>)
    requires TotalOrder(cmp) && xs != [] && Sorted(cmp, out + xs) && Sorted(cmp, out + ys)
    requires ys == [] || cmp(xs[0].data, ys[0].data) <= 0
    ensures Sorted(cmp, (out + [xs[0]]) + xs[1..]) && Sorted(cmp, (out + [xs[0]]) + ys)
    ensures multiset(out + [xs[0]]) + multiset(xs[1..]) == multiset(out) + multiset(xs)
  {
    assert xs == [xs[0]] + xs[1..];
    assert (out + [xs[0]]) + xs[1..] == out + xs;
    var all := (out + [xs[0]]) + ys;
    forall i, j | 0 <= i < j < |all| ensures cmp(all[i].data, all[j].data) <= 0 {
      if i < |out| && j == |out| {
        assert (out + xs)[i] == all[i] && (out + xs)[j] == all[j];
      } else if i < |out| {
        assert (out + ys)[i] == all[i] && (out + ys)[if j < |out| then j else j - 1] == all[j];
      } else if i == |out| {
        assert ys[0] == (out + ys)[|out|] && all[j] == (out + ys)[j - 1];
      } else {
        assert all[i] == (out + ys)[i - 1] && all[j] == (out + ys)[j - 1];
      }
    }
  }

  /** NEXT(ptr) = a, with `ptr` the last node of `out`: the lists behind stay as they are. */
  method Append<T>(ptr: Node<T>, a: Node<T>, b: Node?<T>, ghost out: seq<Node<T>>, ghost xs: seq<Node<T>>,
      ghost ys: seq<Node<T>>)
    requires out != [] && ptr == out[|out| - 1] && Linked(out) && IsList(a, xs) && IsList(b, ys)
    requires Separate(out, xs, ys)
    modifies ptr
    ensures ptr.next == a
    ensures Linked(out + [a]) && IsList(a, xs) && IsList(b, ys) && IsList(out[0], out + xs)
  {
    assert ptr in out;
    forall i | 0 <= i < |xs| ensures xs[i] != ptr { assert xs[i] in xs; }
    forall i | 0 <= i < |ys| ensures ys[i] != ptr { assert ys[i] in ys; }
    ptr.next := a;
  }

  lemma ListTail<T>(a: Node<T>, xs: seq<Node<T>>)
    requires IsList(a, xs)
    ensures xs != [] && xs[0] == a && IsList(a.next, xs[1..])
  {
    forall i | 0 <= i < |xs[1..]| - 1 ensures xs[1..][i].next == xs[1..][i + 1] {
      assert xs[i + 1].next == xs[i + 2];
    }
    if |xs| > 1 { assert xs[0].next == xs[1]; }
  }

  /** A merge underway: `out` is linked and ends in `ptr`, and `a` and `b` are what is left of the lists. */
  ghost predicate Underway<T>(cmp: (T, T) -> int, ptr: Node<T>, a: Node?<T>, b: Node?<T>, out: seq<Node<T>>,
      xs: seq<Node<T>>, ys: seq<Node<T>>)
    reads out, xs, ys
  {
    && out != [] && ptr == out[|out| - 1] && Linked(out) && IsList(a, xs) && IsList(b, ys)
    && Separate(out, xs, ys) && Sorted(cmp, out + xs) && Sorted(cmp, out + ys)
  }

  ghost function Total<T>(out: seq<Node<T>>, xs: seq<Node<T>>, ys: seq<Node<T>>): multiset<Node<T>> {
    multiset(out) + multiset(xs) + multiset(ys)
  }

  /** NEXT(ptr) = a; ptr = a; a = NEXT(a). */
  method Move<T(!new)>(cmp: (T, T) -> int, ptr: Node<T>, a: Node<T>, b: Node?<T>, ghost out: seq<Node<T>>,
      ghost xs: seq<Node<T>>, ghost ys: seq<Node<T>>) returns (a': Node?<T>)
    requires TotalOrder(cmp) && Underway(cmp, ptr, a, b, out, xs, ys) && (b == null || cmp(a.data, b.data) <= 0)
    modifies ptr
    ensures xs != [] && xs[0] == a && Underway(cmp, a, a', b, out + [a], xs[1..], ys)
    ensures Total(out + [a], xs[1..], ys) == Total(out, xs, ys)
  {
    hide Sorted, Separate, TotalOrder;
    TakeFirst(cmp, out, xs, ys);
    TakeSeparate(out, xs, ys);
    Append(ptr, a, b, out, xs, ys);
    ListTail(a, xs);
    a' := a.next;
  }

  method Finish<T>(cmp: (T, T) -> int, ptr: Node<T>, a: Node?<T>, b: Node?<T>, ghost out: seq<Node<T>>,
      ghost xs: seq<Node<T>>, ghost ys: seq<Node<T>>)
    requires Underway(cmp, ptr, a, b, out, xs, ys) && b == null
    modifies ptr
    ensures IsList(out[0], out + xs) && Sorted(cmp, out + xs) && NoDuplicates(out + xs)
    ensures multiset(out + xs) == Total(out, xs, ys)
  {
    SeparateJoin(out, xs, ys);
    assert multiset(out + xs) == multiset(out) + multiset(xs);
    if a != null {
      Append(ptr, a, b, out, xs, ys);
    } else {
      assert out + xs == out;
      forall i | 0 <= i < |out| - 1 ensures out[i] != ptr { }
      ptr.next := a;
    }
  }

  lemma UnderwayFlip<T>(cmp: (T, T) -> int, ptr: Node<T>, a: Node?<T>, b: Node?<T>, out: seq<Node<T>>, xs: seq<Node<T>>,
      ys: seq<Node<T>>)
    requires Underway(cmp, ptr, a, b, out, xs, ys)
    ensures Underway(cmp, ptr, b, a, out, ys, xs) && Total(out, ys, xs) == Total(out, xs, ys)
  {
    SeparateFlip(out, xs, ys);
  }

  lemma UnderwayStart<T(!new)>(cmp: (T, T) -> int, a: Node<T>, b: Node<T>, xs: seq<Node<T>>, ys: seq<Node<T>>)
    requires TotalOrder(cmp) && IsList(a, xs) && IsList(b, ys) && cmp(a.data, b.data) <= 0
    requires Separate([], xs, ys) && Sorted(cmp, xs) && Sorted(cmp, ys)
    ensures xs != [] && xs[0] == a && Underway(cmp, a, a.next, b, [a], xs[1..], ys)
    ensures Total([a], xs[1..], ys) == multiset(xs) + multiset(ys)
  {
    assert [] + xs == xs && [] + ys == ys && [] + [a] == [a];
    TakeFirst(cmp, [], xs, ys);
    TakeSeparate([], xs, ys);
    ListTail(a, xs);
  }

  /** The order of the merged list: as long as both have nodes the smaller head, of equal ones that of the first list.
      */
  ghost function MergeOf<T>(cmp: (T, T) -> int, xs: seq<Node<T>>, ys: seq<Node<T>>): seq<Node<T>>
    decreases |xs| + |ys|
  {
    if xs == [] then ys
    else if ys == [] then xs
    else if cmp(xs[0].data, ys[0].data) <= 0 then [xs[0]] + MergeOf(cmp, xs[1..], ys)
    else [ys[0]] + MergeOf(cmp, xs, ys[1..])
  }

  lemma NextMerged<T>(out: seq<Node<T>>, x: Node<T>, rest: seq<Node<T>>)
    ensures out + ([x] + rest) == (out + [x]) + rest
  {
  }

  /** One turn of merge's loop: the smaller head moves. */
  method Step<T(!new)>(cmp: (T, T) -> int, ptr: Node<T>, a: Node<T>, b: Node<T>, ghost out: seq<Node<T>>,
      ghost xs: seq<Node<T>>, ghost ys: seq<Node<T>>)
    returns (ptr': Node<T>, a': Node?<T>, b': Node?<T>, ghost xs': seq<Node<T>>, ghost ys': seq<Node<T>>)
    requires TotalOrder(cmp) && Underway(cmp, ptr, a, b, out, xs, ys)
    modifies ptr
    ensures Underway(cmp, ptr', a', b', out + [ptr'], xs', ys')
    ensures Total(out + [ptr'], xs', ys') == Total(out, xs, ys) && |xs'| + |ys'| < |xs| + |ys|
    ensures MergeOf(cmp, xs, ys) == [ptr'] + MergeOf(cmp, xs', ys')
  {
    assert xs != [] && xs[0] == a && ys != [] && ys[0] == b;
    hide Underway, Total;
    ptr', a', b', xs', ys' := a, a, b, xs, ys;
    if cmp(a.data, b.data) <= 0 {
      a' := Move(cmp, ptr, a, b, out, xs, ys);
      xs' := xs[1..];
    } else {
      LessOrEqual(cmp, a.data, b.data);
      UnderwayFlip(cmp, ptr, a, b, out, xs, ys);
      b' := Move(cmp, ptr, b, a, out, ys, xs);
      UnderwayFlip(cmp, b, b', a, out + [b], ys[1..], xs);
      ptr', ys' := b, ys[1..];
    }
  }

  /** The loop of merge, and the hanging on of what is left. */
  method MergeLoop<T(!new)>(cmp: (T, T) -> int, ptr0: Node<T>, a0: Node?<T>, b0: Node?<T>, ghost xs0: seq<Node<T>>,
      ghost ys0: seq<Node<T>>) returns (ghost out: seq<Node<T>>)
    requires TotalOrder(cmp) && Underway(cmp, ptr0, a0, b0, [ptr0], xs0, ys0)
    modifies ptr0, xs0, ys0
    ensures IsList(ptr0, out) && Sorted(cmp, out) && NoDuplicates(out)
    ensures multiset(out) == Total([ptr0], xs0, ys0)
    ensures out == [ptr0] + MergeOf(cmp, xs0, ys0)
  {
    hide Underway, Total, TotalOrder, MergeOf;
    var a, b, ptr := a0, b0, ptr0;
    ghost var (xs, ys) := (xs0, ys0);
    out := [ptr];
    while a != null && b != null
      invariant out != [] && out[0] == ptr0 && Underway(cmp, ptr, a, b, out, xs, ys)
      invariant Total(out, xs, ys) == Total([ptr0], xs0, ys0)
      invariant out + MergeOf(cmp, xs, ys) == [ptr0] + MergeOf(cmp, xs0, ys0)
      decreases |xs| + |ys|
    {
      InFrame(cmp, ptr, a, b, out, xs, ys, [ptr0], xs0, ys0);
      ptr, a, b, xs, ys := Step(cmp, ptr, a, b, out, xs, ys);
      NextMerged(out, ptr, MergeOf(cmp, xs, ys));
      out := out + [ptr];
    }
    InFrame(cmp, ptr, a, b, out, xs, ys, [ptr0], xs0, ys0);
    LastMerged(cmp, xs, ys);
    if a != null {
      Finish(cmp, ptr, a, b, out, xs, ys);
      out := out + xs;
    } else {
      UnderwayFlip(cmp, ptr, a, b, out, xs, ys);
      Finish(cmp, ptr, b, a, out, ys, xs);
      out := out + ys;
    }
  }

  lemma LastMerged<T>(cmp: (T, T) -> int, xs: seq<Node<T>>, ys: seq<Node<T>>)
    ensures ys == [] ==> MergeOf(cmp, xs, ys) == xs
    ensures xs == [] ==> MergeOf(cmp, xs, ys) == ys
  {
  }

  /** merge: both lists become one, node by node, in place. */
  method Merge<T(!new)>(a: Node?<T>, b: Node?<T>, cmp: (T, T) -> int, ghost xs: seq<Node<T>>, ghost ys: seq<Node<T>>)
    returns (head: Node?<T>, ghost out: seq<Node<T>>)
    requires TotalOrder(cmp) && IsList(a, xs) && IsList(b, ys)
    requires Separate([], xs, ys) && Sorted(cmp, xs) && Sorted(cmp, ys)
    modifies xs, ys
    ensures IsList(head, out) && Sorted(cmp, out) && NoDuplicates(out)
    ensures multiset(out) == multiset(xs) + multiset(ys)
    ensures out == MergeOf(cmp, xs, ys)
  {
    hide TotalOrder, Sorted, Separate, Underway, MergeOf, Linked, Total;
    LastMerged(cmp, xs, ys);
    if a == null {
      head, out := b, ys;
      NothingThere(a, xs, ys);
      SeparateParts([], xs, ys);
    } else if b == null {
      head, out := a, xs;
      NothingThere(b, ys, xs);
      SeparateParts([], xs, ys);
    } else {
      HeadsMerged(cmp, a, b, xs, ys);
      if cmp(a.data, b.data) <= 0 {
        UnderwayStart(cmp, a, b, xs, ys);
        head := a;
        out := MergeLoop(cmp, a, a.next, b, xs[1..], ys);
      } else {
        SeparateFlip([], xs, ys);
        LessOrEqual(cmp, a.data, b.data);
        UnderwayStart(cmp, b, a, ys, xs);
        UnderwayFlip(cmp, b, b.next, a, [b], ys[1..], xs);
        head := b;
        out := MergeLoop(cmp, b, a, b.next, xs, ys[1..]);
      }
    }
  }

  lemma SeparateParts<T>(out: seq<Node<T>>, xs: seq<Node<T>>, ys: seq<Node<T>>)
    requires Separate(out, xs, ys)
    ensures NoDuplicates(xs) && NoDuplicates(ys)
  {
  }

  lemma NothingThere<T>(a: Node?<T>, xs: seq<Node<T>>, ys: seq<Node<T>>)
    requires IsList(a, xs) && a == null
    ensures xs == [] && multiset(ys) == multiset(xs) + multiset(ys)
  {
  }

  lemma HeadsMerged<T>(cmp: (T, T) -> int, a: Node<T>, b: Node<T>, xs: seq<Node<T>>, ys: seq<Node<T>>)
    requires IsList(a, xs) && IsList(b, ys)
    ensures xs != [] && ys != [] && xs[0] == a && ys[0] == b
    ensures MergeOf(cmp, xs, ys) ==
      if cmp(a.data, b.data) <= 0 then [a] + MergeOf(cmp, xs[1..], ys) else [b] + MergeOf(cmp, xs, ys[1..])
  {
    hide Linked;
  }

  lemma LessOrEqual<T(!new)>(cmp: (T, T) -> int, x: T, y: T)
    requires TotalOrder(cmp)
    ensures cmp(x, y) <= 0 || cmp(y, x) <= 0
  {
  }

  lemma InFrame<T>(cmp: (T, T) -> int, ptr: Node<T>, a: Node?<T>, b: Node?<T>, out: seq<Node<T>>, xs: seq<Node<T>>,
      ys: seq<Node<T>>, out0: seq<Node<T>>, xs0: seq<Node<T>>, ys0: seq<Node<T>>)
    requires Underway(cmp, ptr, a, b, out, xs, ys)
    requires Total(out, xs, ys) == Total(out0, xs0, ys0)
    ensures ptr in out0 || ptr in xs0 || ptr in ys0
    ensures a == null ==> xs == []
    ensures b == null ==> ys == []
  {
    assert ptr in Total(out0, xs0, ys0);
  }

  // ----- the bins -----

  const LISTSIZE: nat := 30

  ghost function Pow2(n: nat): nat {
    if n == 0 then 1 else 2 * Pow2(n - 1)
  }

  /** Thirty bins hold less than 2^30 nodes. */
  lemma AllBins()
    ensures Pow2(LISTSIZE) == 0x4000_0000
  {
    assert Pow2(4) == 0x10;
    assert Pow2(8) == 0x100;
    assert Pow2(12) == 0x1000;
    assert Pow2(16) == 0x1_0000;
    assert Pow2(20) == 0x10_0000;
    assert Pow2(24) == 0x100_0000;
    assert Pow2(28) == 0x1000_0000;
  }

  ghost function Content<T>(bins: seq<seq<Node<T>>>): multiset<Node<T>> {
    if bins == [] then multiset{} else Content(bins[..|bins| - 1]) + multiset(bins[|bins| - 1])
  }

  lemma {:induction false} ContentUpdate<T>(bins: seq<seq<Node<T>>>, i: nat, xs: seq<Node<T>>)
    requires i < |bins|
    ensures Content(bins[i := xs]) + multiset(bins[i]) == Content(bins) + multiset(xs)
  {
    var last := |bins| - 1;
    if i == last {
      assert bins[i := xs][..last] == bins[..last];
    } else {
      assert bins[i := xs][..last] == bins[..last][i := xs];
      ContentUpdate(bins[..last], i, xs);
      MultisetCarry(Content(bins[..last][i := xs]), multiset(bins[i]), Content(bins[..last]), multiset(xs),
          multiset(bins[last]));
    }
  }

  lemma MultisetCarry<T>(a: multiset<T>, b: multiset<T>, c: multiset<T>, d: multiset<T>, e: multiset<T>)
    requires a + b == c + d
    ensures (a + e) + b == (c + e) + d
  {
    assert (a + e) + b == (a + b) + e;
  }

  lemma {:induction false} InContent<T>(bins: seq<seq<Node<T>>>, i: nat, n: Node<T>)
    requires i < |bins| && n in bins[i]
    ensures n in Content(bins)
  {
    if i < |bins| - 1 { InContent(bins[..|bins| - 1], i, n); }
  }

  /** Bin `i` is empty or holds a sorted run of 2^i of the nodes `all`; no node is anywhere twice. */
  ghost predicate Bins<T>(cmp: (T, T) -> int, all: seq<Node<T>>, heads: seq<Node?<T>>, bins: seq<seq<Node<T>>>)
    reads all
  {
    && |heads| == |bins| == LISTSIZE
    && (forall i :: 0 <= i < |bins| ==> Within(bins[i], all) && IsListIn(heads[i], bins[i], all))
    && Runs(cmp, bins)
  }

  ghost predicate Within<T>(xs: seq<Node<T>>, all: seq<Node<T>>) {
    forall i :: 0 <= i < |xs| ==> xs[i] in all
  }

  ghost predicate IsListIn<T>(head: Node?<T>, xs: seq<Node<T>>, all: seq<Node<T>>)
    requires Within(xs, all)
    reads all
  {
    assert forall n: object :: n in xs ==> n in all;
    IsList(head, xs)
  }

  /** The run `eps`, of the size of bin `i`, is on its way into the bins. */
  ghost predicate Carrying<T>(cmp: (T, T) -> int, all: seq<Node<T>>, ep: Node?<T>, eps: seq<Node<T>>, i: nat,
      bins: seq<seq<Node<T>>>, rest: seq<Node<T>>)
    reads all
  {
    && Within(eps, all) && IsListIn(ep, eps, all) && Sorted(cmp, eps) && NoDuplicates(eps) && |eps| == Pow2(i)
    && Outside(bins, eps) && Outside(bins, rest) && Apart(rest, eps) && Apart(eps, rest)
  }

  ghost predicate Runs<T>(cmp: (T, T) -> int, bins: seq<seq<Node<T>>>) {
    && (forall i :: 0 <= i < |bins| ==>
        Sorted(cmp, bins[i]) && NoDuplicates(bins[i]) && (bins[i] == [] || |bins[i]| == Pow2(i)))
    && (forall i, j :: 0 <= i < |bins| && 0 <= j < |bins| && i != j ==> Apart(bins[i], bins[j]))
  }

  /** A list in no bin. */
  ghost predicate Outside<T>(bins: seq<seq<Node<T>>>, xs: seq<Node<T>>) {
    forall i :: 0 <= i < |bins| ==> Apart(bins[i], xs) && Apart(xs, bins[i])
  }

  lemma {:induction false} ContentBound<T>(cmp: (T, T) -> int, bins: seq<seq<Node<T>>>)
    requires Runs(cmp, bins)
    ensures |Content(bins)| < Pow2(|bins|)
  {
    if bins != [] {
      ContentBound(cmp, bins[..|bins| - 1]);
    }
  }

  lemma EmptiedBin<T>(cmp: (T, T) -> int, bins: seq<seq<Node<T>>>, i: nat, eps: seq<Node<T>>, rest: seq<Node<T>>,
      out: seq<Node<T>>)
    requires Runs(cmp, bins) && i < |bins| && Outside(bins, eps) && Outside(bins, rest) && Apart(rest, eps)
    requires Apart(eps, rest)
    requires multiset(out) == multiset(eps) + multiset(bins[i])
    ensures Runs(cmp, bins[i := []])
    ensures Outside(bins[i := []], out) && Outside(bins[i := []], rest) && Apart(rest, out) && Apart(out, rest)
    ensures forall n :: n in out ==> n in eps || n in bins[i]
    ensures |out| == |eps| + |bins[i]|
  {
    forall n | n in out ensures n in eps || n in bins[i] {
      assert n in multiset(out);
    }
    assert |multiset(out)| == |out|;
    var bins' := bins[i := []];
    forall j, k | 0 <= j < |bins'| && 0 <= k < |bins'| && j != k ensures Apart(bins'[j], bins'[k]) { }
  }

  lemma EmptiedContent<T>(bins: seq<seq<Node<T>>>, i: nat, eps: seq<Node<T>>, out: seq<Node<T>>)
    requires i < |bins| && multiset(out) == multiset(eps) + multiset(bins[i])
    ensures Content(bins[i := []]) + multiset(out) == Content(bins) + multiset(eps)
  {
    ContentUpdate(bins, i, []);
    assert Content(bins[i := []]) + multiset(bins[i]) == Content(bins);
    assert Content(bins[i := []]) + multiset(out) == (Content(bins[i := []]) + multiset(bins[i])) + multiset(eps);
  }

  /** The bins from their parts. */
  lemma BinsFromLists<T>(cmp: (T, T) -> int, all: seq<Node<T>>, heads: seq<Node?<T>>, bins: seq<seq<Node<T>>>)
    requires |heads| == |bins| == LISTSIZE && Runs(cmp, bins)
    requires forall i :: 0 <= i < |bins| ==> Within(bins[i], all) && IsListIn(heads[i], bins[i], all)
    ensures Bins(cmp, all, heads, bins)
  {
  }

  /** ep = merge(ep, set[i]); set[i] = 0. */
  method MergeBin<T(!new)>(cmp: (T, T) -> int, bin: array<Node?<T>>, i: nat, ep: Node<T>, ghost all: seq<Node<T>>,
      ghost bins: seq<seq<Node<T>>>, ghost eps: seq<Node<T>>, ghost rest: seq<Node<T>>)
    returns (ep': Node<T>, ghost eps': seq<Node<T>>)
    requires TotalOrder(cmp) && bin.Length == LISTSIZE && i < LISTSIZE && bin[i] != null
    requires Bins(cmp, all, bin[..], bins) && Carrying(cmp, all, ep, eps, i, bins, rest)
    modifies bin, eps, bins[i]
    ensures Bins(cmp, all, bin[..], bins[i := []]) && Carrying(cmp, all, ep', eps', i + 1, bins[i := []], rest)
    ensures Content(bins[i := []]) + multiset(eps') == Content(bins) + multiset(eps)
    ensures bin[..] == old(bin[..])[i := null]
    ensures forall n :: n in rest ==> n.next == old(n.next)
  {
    hide TotalOrder, Content;
    assert IsListIn(bin[i], bins[i], all) && Within(bins[i], all);
    assert Apart(eps, bins[i]) && Apart(bins[i], rest) && Apart(eps, rest);
    NothingSeparate(eps, bins[i]);
    var head;
    head, eps' := Merge(ep, bin[i], cmp, eps, bins[i]);
    EmptiedBin(cmp, bins, i, eps, rest, eps');
    EmptiedContent(bins, i, eps, eps');
    forall j | 0 <= j < |bins| && j != i ensures IsListIn(bin[j], bins[j], all) {
      assert old(IsListIn(bin[j], bins[j], all));
      assert Apart(bins[j], eps) && Apart(bins[j], bins[i]);
      forall k | 0 <= k < |bins[j]| ensures bins[j][k].next == old(bins[j][k].next) {
        assert bins[j][k] in bins[j];
      }
    }
    bin[i] := null;
    assert bin[..] == old(bin[..])[i := null];
    BinsFromLists(cmp, all, bin[..], bins[i := []]);
    CarryingNext(cmp, all, ep, eps, i, bins, rest, head, eps');
    ep' := head;
  }

  lemma InAll<T>(cmp: (T, T) -> int, all: seq<Node<T>>, heads: seq<Node?<T>>, bins: seq<seq<Node<T>>>, i: nat,
      ep: Node<T>, eps: seq<Node<T>>, rest: seq<Node<T>>)
    requires Bins(cmp, all, heads, bins) && Carrying(cmp, all, ep, eps, i, bins, rest) && i < LISTSIZE
    ensures Within(eps, all) && Within(bins[i], all)
  {
    assert Within(bins[i], all);
  }

  lemma CarryingSize<T>(cmp: (T, T) -> int, all: seq<Node<T>>, ep: Node<T>, eps: seq<Node<T>>, i: nat,
      bins: seq<seq<Node<T>>>, rest: seq<Node<T>>)
    requires Carrying(cmp, all, ep, eps, i, bins, rest)
    ensures |eps| == Pow2(i)
  {
  }

  lemma CarryingNext<T>(cmp: (T, T) -> int, all: seq<Node<T>>, ep: Node<T>, eps: seq<Node<T>>, i: nat,
      bins: seq<seq<Node<T>>>, rest: seq<Node<T>>, ep': Node?<T>, eps': seq<Node<T>>)
    requires i < |bins| && |eps| == Pow2(i) == |bins[i]| && Within(eps, all) && Within(bins[i], all)
    requires IsList(ep', eps') && Sorted(cmp, eps') && NoDuplicates(eps')
    requires forall n :: n in eps' ==> n in eps || n in bins[i]
    requires |eps'| == |eps| + |bins[i]|
    requires Outside(bins[i := []], eps') && Outside(bins[i := []], rest) && Apart(rest, eps') && Apart(eps', rest)
    ensures ep' != null && Carrying(cmp, all, ep', eps', i + 1, bins[i := []], rest)
  {
    assert eps' != [] by { Pow2Positive(i); }
    forall k | 0 <= k < |eps'| ensures eps'[k] in all {
      assert eps'[k] in eps';
    }
  }

  lemma Pow2Positive(n: nat)
    ensures Pow2(n) >= 1
  {
  }

  /** set[i] = ep. */
  lemma PutKeepsBins<T>(cmp: (T, T) -> int, all: seq<Node<T>>, heads: seq<Node?<T>>, bins: seq<seq<Node<T>>>, i: nat,
      ep: Node<T>, eps: seq<Node<T>>, rest: seq<Node<T>>)
    requires Bins(cmp, all, heads, bins) && Carrying(cmp, all, ep, eps, i, bins, rest) && i < LISTSIZE
    ensures Bins(cmp, all, heads[i := ep], bins[i := eps]) && Outside(bins[i := eps], rest)
    ensures bins[i] != [] ==> |bins[i]| == Pow2(i)
    ensures heads[i] == null <==> bins[i] == []
  {
    hide Sorted, NoDuplicates, Content;
    assert IsListIn(heads[i], bins[i], all);
    var (heads', bins') := (heads[i := ep], bins[i := eps]);
    forall j | 0 <= j < |bins'| ensures Within(bins'[j], all) && IsListIn(heads'[j], bins'[j], all) { }
    forall j, k | 0 <= j < |bins'| && 0 <= k < |bins'| && j != k ensures Apart(bins'[j], bins'[k]) { }
  }

  /** Nothing is lost by that if the bin is empty, and if it is full all the bins were. */
  lemma PutContent<T>(before: multiset<Node<T>>, n: Node<T>, bins: seq<seq<Node<T>>>, i: nat, eps: seq<Node<T>>)
    requires i < |bins| && Content(bins) + multiset(eps) == before + multiset{n}
    ensures bins[i] == [] ==> Content(bins[i := eps]) == before + multiset{n}
    ensures Content(bins[i := eps]) <= before + multiset{n}
    ensures |before| + 1 >= |bins[i]| + |eps|
  {
    ContentUpdate(bins, i, eps);
    ContentUpdate(bins, i, []);
    assert |Content(bins) + multiset(eps)| == |Content(bins)| + |eps|;
    assert |before + multiset{n}| == |before| + 1;
    assert Content(bins) == Content(bins[i := []]) + multiset(bins[i]);
    assert |Content(bins)| == |Content(bins[i := []])| + |bins[i]|;
    assert Content(bins[i := eps]) <= Content(bins[i := eps]) + multiset(bins[i]);
  }

  lemma NothingSeparate<T>(xs: seq<Node<T>>, ys: seq<Node<T>>)
    requires NoDuplicates(xs) && NoDuplicates(ys) && Apart(xs, ys)
    ensures Separate([], xs, ys)
  {
  }

  /** The carry loop of msort: `ep` goes up through the full bins to the first empty one, or to the last. */
  method Carry<T(!new)>(cmp: (T, T) -> int, bin: array<Node?<T>>, n: Node<T>, ghost all: seq<Node<T>>,
      ghost bins: seq<seq<Node<T>>>, ghost rest: seq<Node<T>>)
    returns (ghost bins': seq<seq<Node<T>>>, ghost lost: bool)
    requires TotalOrder(cmp) && bin.Length == LISTSIZE
    requires Bins(cmp, all, bin[..], bins) && Carrying(cmp, all, n, [n], 0, bins, rest)
    modifies bin, all
    ensures Bins(cmp, all, bin[..], bins') && Outside(bins', rest)
    ensures forall n :: n in rest ==> n.next == old(n.next)
    ensures if lost then Content(bins') <= Content(bins) + multiset{n} && |Content(bins)| + 1 >= Pow2(LISTSIZE)
            else Content(bins') == Content(bins) + multiset{n}
  {
    bins', lost := bins, false;
    var ep: Node<T> := n;
    ghost var eps := [n];
    var i := 0;
    hide Runs, TotalOrder, Content, Carrying;
    while i < LISTSIZE - 1 && bin[i] != null
      invariant 0 <= i < LISTSIZE && Bins(cmp, all, bin[..], bins') && Carrying(cmp, all, ep, eps, i, bins', rest)
      invariant Content(bins') + multiset(eps) == Content(bins) + multiset{n}
      invariant forall n :: n in rest ==> n.next == old(n.next)
    {
      InAll(cmp, all, bin[..], bins', i, ep, eps, rest);
      ep, eps := MergeBin(cmp, bin, i, ep, all, bins', eps, rest);
      bins' := bins'[i := []];
      i := i + 1;
    }
    PutContent(Content(bins), n, bins', i, eps);
    PutKeepsBins(cmp, all, bin[..], bins', i, ep, eps, rest);
    assert |eps| == Pow2(i) by { CarryingSize(cmp, all, ep, eps, i, bins', rest); }
    lost := bins'[i] != [];
    assert lost ==> i == LISTSIZE - 1 && Pow2(LISTSIZE) == 2 * Pow2(i);
    ghost var heads := bin[..];
    bin[i] := ep;
    bins' := bins'[i := eps];
    assert bin[..] == heads[i := ep];
  }

  // ----- msort -----

  /** The state of msort's main loop: `rest` is still to come, and unless a bin was overwritten nothing is missing. */
  ghost predicate Sorting<T>(cmp: (T, T) -> int, all: seq<Node<T>>, heads: seq<Node?<T>>, bins: seq<seq<Node<T>>>,
      list: Node?<T>, rest: seq<Node<T>>, lost: bool)
    reads all
  {
    && Bins(cmp, all, heads, bins) && Within(rest, all) && IsListIn(list, rest, all) && NoDuplicates(rest)
      && Outside(bins, rest)
    && Content(bins) + multiset(rest) <= multiset(all)
    && (if lost then |all| >= Pow2(LISTSIZE) else Content(bins) + multiset(rest) == multiset(all))
  }

  lemma FirstOut<T>(bins: seq<seq<Node<T>>>, rest: seq<Node<T>>)
    requires rest != [] && NoDuplicates(rest) && Outside(bins, rest)
    ensures Outside(bins, [rest[0]]) && Outside(bins, rest[1..]) && NoDuplicates(rest[1..])
    ensures Apart(rest[1..], [rest[0]]) && Apart([rest[0]], rest[1..])
  {
    assert rest[0] in rest;
    forall n | n in rest[1..] ensures n in rest && n != rest[0] {
      var i :| 0 <= i < |rest| - 1 && rest[1..][i] == n;
      assert rest[i + 1] == n;
    }
  }

  /** What the loop keeps, from what the bins took in. */
  lemma InsertedOne<T>(all: seq<Node<T>>, before: multiset<Node<T>>, after: multiset<Node<T>>, rest: seq<Node<T>>,
      lost: bool, over: bool)
    requires rest != [] && before + multiset(rest) <= multiset(all)
    requires if lost then |all| >= Pow2(LISTSIZE) else before + multiset(rest) == multiset(all)
    requires if over then after <= before + multiset{rest[0]} && |before| + 1 >= Pow2(LISTSIZE)
             else after == before + multiset{rest[0]}
    ensures after + multiset(rest[1..]) <= multiset(all)
    ensures if lost || over then |all| >= Pow2(LISTSIZE) else after + multiset(rest[1..]) == multiset(all)
  {
    assert rest == [rest[0]] + rest[1..];
    assert (before + multiset{rest[0]}) + multiset(rest[1..]) == before + multiset(rest);
    SubMultisetSize(before + multiset(rest), multiset(all));
    assert |multiset(all)| == |all| && |before + multiset(rest)| == |before| + |rest|;
  }

  lemma SubMultisetSize<T>(a: multiset<T>, b: multiset<T>)
    requires a <= b
    ensures |a| <= |b|
  {
    assert b == a + (b - a);
  }

  /** The body of the main loop: the head of the list goes into the bins. */
  method Insert<T(!new)>(cmp: (T, T) -> int, bin: array<Node?<T>>, list: Node<T>, ghost all: seq<Node<T>>,
      ghost bins: seq<seq<Node<T>>>, ghost rest: seq<Node<T>>, ghost lost: bool)
    returns (list': Node?<T>, ghost bins': seq<seq<Node<T>>>, ghost lost': bool)
    requires TotalOrder(cmp) && bin.Length == LISTSIZE && Sorting(cmp, all, bin[..], bins, list, rest, lost)
    modifies bin, all
    ensures rest != [] && Sorting(cmp, all, bin[..], bins', list', rest[1..], lost')
  {
    hide TotalOrder, Runs, Content;
    ListTail(list, rest);
    FirstOut(bins, rest);
    list' := list.next;
    list.next := null;
    forall i | 0 <= i < |bins| ensures Within(bins[i], all) && IsListIn(bin[i], bins[i], all) {
      assert old(IsListIn(bin[i], bins[i], all));
      assert Apart(bins[i], [list]);
      forall k | 0 <= k < |bins[i]| ensures bins[i][k].next == old(bins[i][k].next) {
        assert bins[i][k] in bins[i] && list in [list];
      }
    }
    assert IsListIn(list', rest[1..], all);
    ghost var over;
    bins', over := Carry(cmp, bin, list, all, bins, rest[1..]);
    assert IsListIn(list', rest[1..], all);
    InsertedOne(all, Content(bins), Content(bins'), rest, lost, over);
    lost' := lost || over;
  }

  /** The last loop of msort underway: `eps` has everything of the first `i` bins. */
  ghost predicate Gathering<T>(cmp: (T, T) -> int, all: seq<Node<T>>, heads: seq<Node?<T>>, bins: seq<seq<Node<T>>>,
      i: nat, ep: Node?<T>, eps: seq<Node<T>>)
    reads all
  {
    && |heads| == |bins| == LISTSIZE && i <= LISTSIZE && Runs(cmp, bins)
    && (forall j :: 0 <= j < |bins| ==> Within(bins[j], all))
    && (forall j :: i <= j < |bins| ==> IsListIn(heads[j], bins[j], all))
    && Within(eps, all) && IsListIn(ep, eps, all) && Sorted(cmp, eps) && NoDuplicates(eps)
    && (forall j :: i <= j < |bins| ==> Apart(bins[j], eps) && Apart(eps, bins[j]))
    && multiset(eps) == Content(bins[..i])
  }

  lemma GatheredOne<T>(all: seq<Node<T>>, bins: seq<seq<Node<T>>>, i: nat, eps: seq<Node<T>>, out: seq<Node<T>>)
    requires i < |bins| && (forall j, k :: 0 <= j < |bins| && 0 <= k < |bins| && j != k ==> Apart(bins[j], bins[k]))
    requires forall j :: i <= j < |bins| ==> Apart(bins[j], eps) && Apart(eps, bins[j])
    requires Within(eps, all) && Within(bins[i], all) && multiset(eps) == Content(bins[..i])
    requires multiset(out) == multiset(bins[i]) + multiset(eps)
    ensures Within(out, all) && multiset(out) == Content(bins[..i + 1])
    ensures forall j :: i + 1 <= j < |bins| ==> Apart(bins[j], out) && Apart(out, bins[j])
  {
    assert bins[..i + 1][..i] == bins[..i];
    forall n | n in out ensures n in eps || n in bins[i] { assert n in multiset(out); }
    forall k | 0 <= k < |out| ensures out[k] in all { assert out[k] in out; }
  }

  /** if( set[i] ) ep = merge(set[i],ep). */
  method GatherBin<T(!new)>(cmp: (T, T) -> int, bin: array<Node?<T>>, i: nat, ep: Node?<T>, ghost all: seq<Node<T>>,
      ghost bins: seq<seq<Node<T>>>, ghost eps: seq<Node<T>>)
    returns (ep': Node?<T>, ghost eps': seq<Node<T>>)
    requires TotalOrder(cmp) && i < bin.Length && Gathering(cmp, all, bin[..], bins, i, ep, eps)
    modifies bins[i], eps
    ensures Gathering(cmp, all, bin[..], bins, i + 1, ep', eps')
  {
    hide TotalOrder, Content;
    ep', eps' := ep, eps;
    assert IsListIn(bin[i], bins[i], all);
    if bin[i] != null {
      NothingSeparate(bins[i], eps);
      ep', eps' := Merge(bin[i], ep, cmp, bins[i], eps);
    }
    GatheredOne(all, bins, i, eps, eps');
    forall j | i + 1 <= j < |bins| ensures IsListIn(bin[j], bins[j], all) {
      assert old(IsListIn(bin[j], bins[j], all));
      assert Apart(bins[j], eps) && Apart(bins[j], bins[i]);
      forall k | 0 <= k < |bins[j]| ensures bins[j][k].next == old(bins[j][k].next) {
        assert bins[j][k] in bins[j];
      }
    }
  }

  /** msort: a sorted list of nodes of the original one, and of all of them exactly when
      there are fewer than 2^30; beyond that the last bin is overwritten. */
  method MSort<T(!new)>(list0: Node?<T>, cmp: (T, T) -> int, ghost all: seq<Node<T>>)
    returns (ep: Node?<T>, ghost out: seq<Node<T>>)
    requires TotalOrder(cmp) && IsList(list0, all) && NoDuplicates(all)
    modifies all
    ensures IsList(ep, out) && Sorted(cmp, out) && NoDuplicates(out)
    ensures multiset(out) <= multiset(all)
    ensures multiset(out) == multiset(all) <==> |all| < 0x4000_0000
  {
    hide TotalOrder, Bins, Runs;
    AllBins();
    var bin := new Node?<T>[LISTSIZE](_ => null);
    ghost var (bins, rest, lost) := (seq(LISTSIZE, _ => []), all, false);
    SortingStart(cmp, all, bin[..], bins, list0);
    var list := list0;
    while list != null
      invariant Sorting(cmp, all, bin[..], bins, list, rest, lost)
      decreases |rest|
    {
      list, bins, lost := Insert(cmp, bin, list, all, bins, rest, lost);
      rest := rest[1..];
    }
    SortingEnd(cmp, all, bin[..], bins, list, rest, lost);
    hide Sorting, Gathering;
    ep, out := null, [];
    for i := 0 to LISTSIZE
      invariant Gathering(cmp, all, bin[..], bins, i, ep, out)
    {
      GatherFrame(cmp, all, bin[..], bins, i, ep, out);
      ep, out := GatherBin(cmp, bin, i, ep, all, bins, out);
    }
    GatherEnd(cmp, all, bin[..], bins, ep, out, lost);
  }

  lemma {:induction false} EmptyContent<T>(bins: seq<seq<Node<T>>>)
    requires forall i :: 0 <= i < |bins| ==> bins[i] == []
    ensures Content(bins) == multiset{}
  {
    if bins != [] { EmptyContent(bins[..|bins| - 1]); }
  }

  lemma SortingStart<T>(cmp: (T, T) -> int, all: seq<Node<T>>, heads: seq<Node?<T>>, bins: seq<seq<Node<T>>>,
      list: Node?<T>)
    requires |heads| == |bins| == LISTSIZE && forall i :: 0 <= i < LISTSIZE ==> heads[i] == null && bins[i] == []
    requires IsList(list, all) && NoDuplicates(all)
    ensures Sorting(cmp, all, heads, bins, list, all, false)
  {
    EmptyContent(bins);
    assert multiset{} + multiset(all) == multiset(all);
    forall i | 0 <= i < |bins| ensures Within(bins[i], all) && IsListIn(heads[i], bins[i], all) { }
  }

  lemma SortingEnd<T>(cmp: (T, T) -> int, all: seq<Node<T>>, heads: seq<Node?<T>>, bins: seq<seq<Node<T>>>,
      list: Node?<T>, rest: seq<Node<T>>, lost: bool)
    requires Sorting(cmp, all, heads, bins, list, rest, lost) && list == null
    ensures Gathering(cmp, all, heads, bins, 0, null, [])
    ensures Content(bins) <= multiset(all) && (multiset(all) == Content(bins) <==> |all| < Pow2(LISTSIZE))
  {
    assert bins[..0] == [] && Content(bins[..0]) == multiset{};
    assert Content(bins) + multiset(rest) == Content(bins);
    ContentBound(cmp, bins);
    assert multiset(all) == Content(bins) ==> |all| == |multiset(all)|;
  }

  lemma GatherFrame<T>(cmp: (T, T) -> int, all: seq<Node<T>>, heads: seq<Node?<T>>, bins: seq<seq<Node<T>>>, i: nat,
      ep: Node?<T>, eps: seq<Node<T>>)
    requires i < LISTSIZE && Gathering(cmp, all, heads, bins, i, ep, eps)
    ensures |bins| == LISTSIZE && Within(eps, all) && Within(bins[i], all)
  {
  }

  lemma GatherEnd<T>(cmp: (T, T) -> int, all: seq<Node<T>>, heads: seq<Node?<T>>, bins: seq<seq<Node<T>>>, ep: Node?<T>,
      out: seq<Node<T>>, lost: bool)
    requires Gathering(cmp, all, heads, bins, LISTSIZE, ep, out)
    ensures IsList(ep, out) && Sorted(cmp, out) && NoDuplicates(out) && multiset(out) == Content(bins)
  {
    assert bins[..LISTSIZE] == bins;
  }

  // ----- sorting the values of a list -----

  function Data<T>(nodes: seq<Node<T>>): seq<T> {
    seq(|nodes|, i requires 0 <= i < |nodes| => nodes[i].data)
  }

  ghost predicate SortedValues<T>(cmp: (T, T) -> int, s: seq<T>) {
    forall i, j :: 0 <= i < j < |s| ==> cmp(s[i], s[j]) <= 0
  }

  lemma WithoutOne<T>(b: seq<Node<T>>, i: nat)
    requires i < |b|
    ensures var rest := b[..i] + b[i + 1..];
      && multiset(b) == multiset(rest) + multiset{b[i]}
      && multiset(Data(b)) == multiset(Data(rest)) + multiset{b[i].data}
  {
    assert b == b[..i] + [b[i]] + b[i + 1..];
    assert Data(b) == Data(b[..i]) + [b[i].data] + Data(b[i + 1..]);
    assert Data(b[..i] + b[i + 1..]) == Data(b[..i]) + Data(b[i + 1..]);
  }

  lemma Cancel<T>(x: multiset<T>, y: multiset<T>, n: T)
    requires x + multiset{n} == y + multiset{n}
    ensures x == y
  {
    assert (x + multiset{n}) - multiset{n} == x && (y + multiset{n}) - multiset{n} == y;
  }

  /** A node that both lists have, taken out of both. */
  lemma WithoutFirst<T>(a: seq<Node<T>>, b: seq<Node<T>>) returns (i: nat)
    requires multiset(a) == multiset(b) && a != []
    ensures i < |b| && b[i] == a[0]
    ensures var rest: seq<Node<T>> := b[..i] + b[i + 1..]; multiset(a[1..]) == multiset(rest)
  {
    assert a[0] in multiset(a);
    i :| 0 <= i < |b| && b[i] == a[0];
    assert a == [a[0]] + a[1..];
    assert b == b[..i] + [b[i]] + b[i + 1..];
    var rest := b[..i] + b[i + 1..];
    assert multiset(b) == multiset(rest) + multiset{b[i]};
    Cancel(multiset(a[1..]), multiset(rest), a[0]);
  }

  lemma FirstData<T>(a: seq<Node<T>>)
    requires a != []
    ensures multiset(Data(a)) == multiset{a[0].data} + multiset(Data(a[1..]))
  {
    assert Data(a) == [a[0].data] + Data(a[1..]);
  }

  lemma {:induction false} SameNodesSameData<T>(a: seq<Node<T>>, b: seq<Node<T>>)
    requires multiset(a) == multiset(b)
    ensures multiset(Data(a)) == multiset(Data(b))
  {
    assert |multiset(a)| == |a| && |multiset(b)| == |b|;
    hide *;
    if a != [] {
      var i := WithoutFirst(a, b);
      WithoutOne(b, i);
      FirstData(a);
      SameNodesSameData(a[1..], b[..i] + b[i + 1..]);
    } else {
      assert a == b;
    }
  }

  /** A list of the values, in their order. */
  method ListOf<T>(s: seq<T>) returns (head: Node?<T>, ghost nodes: seq<Node<T>>)
    ensures IsList(head, nodes) && NoDuplicates(nodes) && Data(nodes) == s && fresh(nodes)
  {
    head, nodes := null, [];
    var i := |s|;
    while i > 0
      invariant 0 <= i <= |s| && IsList(head, nodes) && NoDuplicates(nodes) && Data(nodes) == s[i..] && fresh(nodes)
    {
      i := i - 1;
      var n := new Node(s[i], head);
      ghost var before := nodes;
      nodes := [n] + nodes;
      forall k | 0 <= k < |before| ensures before[k] != n { assert before[k] in before; }
      assert Data(nodes) == [s[i]] + Data(before);
      head := n;
    }
  }

  method ValuesOf<T>(head: Node?<T>, ghost nodes: seq<Node<T>>) returns (s: seq<T>)
    requires IsList(head, nodes)
    ensures s == Data(nodes)
  {
    s := [];
    var n := head;
    ghost var i := 0;
    while n != null
      invariant 0 <= i <= |nodes| && s == Data(nodes[..i]) && n == (if i < |nodes| then nodes[i] else null)
      decreases |nodes| - i
    {
      s := s + [n.data];
      n := n.next;
      i := i + 1;
    }
    assert nodes[..i] == nodes;
  }

  /** Sorting a list through its head: the values come out sorted, and all of them if there are fewer than 2^30. */
  method SortList<T(!new)>(s: seq<T>, cmp: (T, T) -> int) returns (r: seq<T>)
    requires TotalOrder(cmp)
    ensures SortedValues(cmp, r)
    ensures |s| < Pow2(LISTSIZE) ==> multiset(r) == multiset(s)
  {
    hide Pow2;
    AllBins();
    ghost var nodes, out;
    var list, head;
    list, nodes := ListOf(s);
    head, out := MSort(list, cmp, nodes);
    r := ValuesOf(head, out);
    if multiset(out) == multiset(nodes) { SameNodesSameData(out, nodes); }
  }
}
