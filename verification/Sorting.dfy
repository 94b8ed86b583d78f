/** The C library's qsort, for comparisons that never call two elements equal. */
module QSort {
  import opened LemonMergeSort

  method Insert<T(!new)>(r: seq<T>, x: T, cmp: (T, T) -> int) returns (r': seq<T>)
    requires TotalOrder(cmp) && SortedValues(cmp, r)
    ensures multiset(r') == multiset(r) + multiset{x} && SortedValues(cmp, r')
  {
    var k := |r|;
    hide SortedValues;
    while k > 0 && cmp(x, r[k - 1]) <= 0
      invariant 0 <= k <= |r|
      invariant forall j :: k <= j < |r| ==> cmp(x, r[j]) <= 0
    {
      k := k - 1;
    }
    InsertKeepsSorted(cmp, r, x, k);
    assert r == r[..k] + r[k..];
    r' := r[..k] + [x] + r[k..];
  }

  /** Any algorithm will do: with a strict order there is only one result. */
  method Sort<T(!new)>(s: seq<T>, cmp: (T, T) -> int) returns (r: seq<T>)
    requires TotalOrder(cmp)
    ensures multiset(r) == multiset(s) && SortedValues(cmp, r)
  {
    r := [];
    for i := 0 to |s|
      invariant multiset(r) == multiset(s[..i]) && SortedValues(cmp, r)
    {
      assert s[..i + 1] == s[..i] + [s[i]];
      r := Insert(r, s[i], cmp);
    }
    assert s[..|s|] == s;
  }

  lemma InsertKeepsSorted<T(!new)>(cmp: (T, T) -> int, r: seq<T>, x: T, k: nat)
    requires TotalOrder(cmp) && SortedValues(cmp, r) && k <= |r|
    requires forall j :: k <= j < |r| ==> cmp(x, r[j]) <= 0
    requires k > 0 ==> cmp(x, r[k - 1]) > 0
    ensures SortedValues(cmp, r[..k] + [x] + r[k..])
  {
    forall j | 0 <= j < k ensures cmp(r[j], x) <= 0 {
      assert cmp(r[k - 1], x) <= 0;
      if j < k - 1 { assert cmp(r[j], r[k - 1]) <= 0; }
    }
    hide TotalOrder;
    Between(cmp, r, x, k);
  }

  lemma Between<T(!new)>(cmp: (T, T) -> int, r: seq<T>, x: T, k: nat)
    requires SortedValues(cmp, r) && k <= |r|
    requires forall j :: 0 <= j < k ==> cmp(r[j], x) <= 0
    requires forall j :: k <= j < |r| ==> cmp(x, r[j]) <= 0
    ensures SortedValues(cmp, r[..k] + [x] + r[k..])
  {
  }
}
