/// Sorting of the index table: the column/order setting and the stable sort
/// of `slice::sort_by` under the comparator the setting selects.
module Sort {
  import opened Base
  import opened Models
  import opened UiTypes

  // ---------------------------------------------------------------------
  // The comparator

  /// `Ord for str`: lexicographic by character code (the byte order of UTF-8
  /// agrees with code-point order).
  function StrCmp(a: string, b: string): Ordering
    decreases |a|
  {
    if |a| == 0 then (if |b| == 0 then Equal else Less)
    else if |b| == 0 then Greater
    else if a[0] < b[0] then Less
    else if a[0] > b[0] then Greater
    else StrCmp(a[1..], b[1..])
  }

  /// `Ord for u64`.
  function NatCmp(a: nat, b: nat): Ordering {
    if a < b then Less else if a > b then Greater else Equal
  }

  /// `f64::partial_cmp`, which never fails on the reals of this model.
  function RealCmp(a: real, b: real): Ordering {
    if a < b then Less else if a > b then Greater else Equal
  }

  /// The comparison by the active column alone.
  function KeyCmp(column: SortColumn, a: IndexRate, b: IndexRate): Ordering {
    match column
    case Name => StrCmp(a.name, b.name)
    case DocCount => NatCmp(a.docCount, b.docCount)
    case Rate => RealCmp(a.ratePerSec, b.ratePerSec)
    case Size => NatCmp(a.sizeBytes, b.sizeBytes)
    case Health => StrCmp(a.health, b.health)
  }

  /// The closure given to `sort_by`: the column comparison, reversed when
  /// the order is descending.
  function Compare(column: SortColumn, order: SortOrder, a: IndexRate, b: IndexRate): Ordering {
    var cmp := KeyCmp(column, a, b);
    match order
    case Ascending => cmp
    case Descending => cmp.Reverse()
  }

  /// Two rows carry the same value in the active column.
  predicate SameKeyValue(column: SortColumn, a: IndexRate, b: IndexRate) {
    match column
    case Name => a.name == b.name
    case DocCount => a.docCount == b.docCount
    case Rate => a.ratePerSec == b.ratePerSec
    case Size => a.sizeBytes == b.sizeBytes
    case Health => a.health == b.health
  }

  lemma {:induction false} StrCmpAntisymmetric(a: string, b: string)
    ensures StrCmp(b, a) == StrCmp(a, b).Reverse()
    decreases |a|
  {
    if |a| > 0 && |b| > 0 && a[0] == b[0] {
      StrCmpAntisymmetric(a[1..], b[1..]);
    }
  }

  lemma {:induction false} StrCmpEqualIff(a: string, b: string)
    ensures StrCmp(a, b) == Equal <==> a == b
    decreases |a|
  {
    if |a| > 0 && |b| > 0 && a[0] == b[0] {
      StrCmpEqualIff(a[1..], b[1..]);
      assert a == [a[0]] + a[1..] && b == [b[0]] + b[1..];
    }
  }

  /// The comparator is antisymmetric for every column and order, and it
  /// reports equality exactly when the two rows agree on the active column.
  lemma CompareProperties(column: SortColumn, order: SortOrder, a: IndexRate, b: IndexRate)
    ensures Compare(column, order, b, a) == Compare(column, order, a, b).Reverse()
    ensures Compare(column, order, a, b) == Equal <==> SameKeyValue(column, a, b)
  {
    StrCmpAntisymmetric(a.name, b.name);
    StrCmpAntisymmetric(a.health, b.health);
    StrCmpEqualIff(a.name, b.name);
    StrCmpEqualIff(a.health, b.health);
  }

  // ---------------------------------------------------------------------
  // The stable sort, as a function

  /// Places `x` after every element of the sorted `t` that does not compare
  /// greater than it: the step of a stable insertion sort.
  function Insert(column: SortColumn, order: SortOrder, t: seq<IndexRate>, x: IndexRate): seq<IndexRate>
    decreases |t|
  {
    if |t| == 0 then [x]
    else if Compare(column, order, t[|t| - 1], x) == Greater then
      Insert(column, order, t[..|t| - 1], x) + [t[|t| - 1]]
    else t + [x]
  }

  /// What `sort_by` leaves in the slice.
  function SortedBy(column: SortColumn, order: SortOrder, s: seq<IndexRate>): seq<IndexRate>
    decreases |s|
  {
    if |s| == 0 then []
    else Insert(column, order, SortedBy(column, order, s[..|s| - 1]), s[|s| - 1])
  }

  /// Adjacent rows never compare `Greater`.
  predicate Sorted(column: SortColumn, order: SortOrder, s: seq<IndexRate>) {
    forall i :: 0 < i < |s| ==> Compare(column, order, s[i - 1], s[i]) != Greater
  }

  /// The rows of `s` whose active-column value equals that of `z`, in order.
  function SameKey(column: SortColumn, z: IndexRate, s: seq<IndexRate>): seq<IndexRate>
    decreases |s|
  {
    if |s| == 0 then []
    else SameKey(column, z, s[..|s| - 1]) + (if SameKeyValue(column, s[|s| - 1], z) then [s[|s| - 1]] else [])
  }

  lemma SameKeySnoc(column: SortColumn, z: IndexRate, s: seq<IndexRate>, y: IndexRate)
    ensures SameKey(column, z, s + [y]) == SameKey(column, z, s) + (if SameKeyValue(column, y, z) then [y] else [])
  {
    assert (s + [y])[..|s|] == s;
  }

  lemma {:induction false} InsertShape(column: SortColumn, order: SortOrder, t: seq<IndexRate>, x: IndexRate)
    ensures |Insert(column, order, t, x)| == |t| + 1
    ensures multiset(Insert(column, order, t, x)) == multiset(t) + multiset{x}
    ensures Insert(column, order, t, x)[|t|] ==
      if |t| > 0 && Compare(column, order, t[|t| - 1], x) == Greater then t[|t| - 1] else x
    decreases |t|
  {
    if |t| > 0 {
      var t' := t[..|t| - 1];
      assert t == t' + [t[|t| - 1]];
      if Compare(column, order, t[|t| - 1], x) == Greater {
        InsertShape(column, order, t', x);
      }
    }
  }

  lemma {:induction false} InsertSorted(column: SortColumn, order: SortOrder, t: seq<IndexRate>, x: IndexRate)
    requires Sorted(column, order, t)
    ensures Sorted(column, order, Insert(column, order, t, x))
    decreases |t|
  {
    if |t| > 0 {
      var t', l := t[..|t| - 1], t[|t| - 1];
      CompareProperties(column, order, l, x);
      if Compare(column, order, l, x) == Greater {
        assert Sorted(column, order, t') by {
          forall i | 0 < i < |t'| ensures Compare(column, order, t'[i - 1], t'[i]) != Greater {
            assert t'[i - 1] == t[i - 1] && t'[i] == t[i];
          }
        }
        InsertSorted(column, order, t', x);
        InsertShape(column, order, t', x);
        var r := Insert(column, order, t', x);
        assert Compare(column, order, r[|t'|], l) != Greater by {
          if |t'| > 0 && Compare(column, order, t'[|t'| - 1], x) == Greater {
            assert r[|t'|] == t[|t| - 2];
          } else {
            assert r[|t'|] == x;
          }
        }
        LastJoinSorted(column, order, r, l);
      } else {
        LastJoinSorted(column, order, t, x);
      }
    }
  }

  /// Appending an element that is not below the last one keeps a sequence sorted.
  lemma LastJoinSorted(column: SortColumn, order: SortOrder, r: seq<IndexRate>, y: IndexRate)
    requires Sorted(column, order, r)
    requires |r| > 0 ==> Compare(column, order, r[|r| - 1], y) != Greater
    ensures Sorted(column, order, r + [y])
  {
    var R := r + [y];
    forall i | 0 < i < |R| ensures Compare(column, order, R[i - 1], R[i]) != Greater {
      if i < |r| {
        assert R[i - 1] == r[i - 1] && R[i] == r[i];
      }
    }
  }

  lemma {:induction false} InsertStable(column: SortColumn, order: SortOrder, t: seq<IndexRate>, x: IndexRate, z: IndexRate)
    ensures SameKey(column, z, Insert(column, order, t, x)) ==
      SameKey(column, z, t) + (if SameKeyValue(column, x, z) then [x] else [])
    decreases |t|
  {
    if |t| == 0 {
      SameKeySnoc(column, z, [], x);
    } else {
      var t', l := t[..|t| - 1], t[|t| - 1];
      assert t == t' + [l];
      if Compare(column, order, l, x) == Greater {
        CompareProperties(column, order, l, x);
        InsertStable(column, order, t', x, z);
        SameKeySnoc(column, z, Insert(column, order, t', x), l);
        SameKeySnoc(column, z, t', l);
        // l and x differ in the active column, so at most one of them is kept.
        assert !(SameKeyValue(column, l, z) && SameKeyValue(column, x, z));
      } else {
        SameKeySnoc(column, z, t, x);
      }
    }
  }

  /// One step of the scan from the right: a prefix element that compares
  /// greater than `x` ends up after it.
  lemma InsertStepLeft(column: SortColumn, order: SortOrder, t: seq<IndexRate>, j: nat, x: IndexRate)
    requires 0 < j <= |t|
    requires Compare(column, order, t[j - 1], x) == Greater
    ensures Insert(column, order, t[..j], x) + t[j..] == Insert(column, order, t[..j - 1], x) + t[j - 1..]
  {
    assert t[..j][..j - 1] == t[..j - 1];
    assert t[j - 1..] == [t[j - 1]] + t[j..];
  }

  lemma SortedBySnoc(column: SortColumn, order: SortOrder, s: seq<IndexRate>, i: nat)
    requires i < |s|
    ensures SortedBy(column, order, s[..i + 1]) == Insert(column, order, SortedBy(column, order, s[..i]), s[i])
  {
    assert s[..i + 1][..i] == s[..i];
  }

  lemma PrefixSplit(done: seq<IndexRate>, rest: seq<IndexRate>)
    requires |rest| > 0
    ensures (done + rest)[..|done|] == done
    ensures (done + rest)[|done|] == rest[0]
    ensures (done + rest)[|done| + 1..] == rest[1..]
  {
  }

  /// Exchanging `x` with its left neighbour in the array's contents.
  lemma SwapStep(t: seq<IndexRate>, j: nat, x: IndexRate, rest: seq<IndexRate>)
    requires 0 < j <= |t|
    ensures (t[..j] + [x] + t[j..] + rest)[j - 1 := x][j := t[j - 1]] ==
      t[..j - 1] + [x] + t[j - 1..] + rest
  {
    var lhs := (t[..j] + [x] + t[j..] + rest)[j - 1 := x][j := t[j - 1]];
    var rhs := t[..j - 1] + [x] + t[j - 1..] + rest;
    assert |lhs| == |rhs|;
    forall k | 0 <= k < |lhs| ensures lhs[k] == rhs[k] {
    }
  }

  /// Where the scan stops, `x` is simply appended to the prefix.
  lemma InsertStop(column: SortColumn, order: SortOrder, t: seq<IndexRate>, j: nat, x: IndexRate)
    requires j <= |t|
    requires j > 0 ==> Compare(column, order, t[j - 1], x) != Greater
    ensures Insert(column, order, t[..j], x) == t[..j] + [x]
  {
  }

  /// `sort_by` sorts: adjacent rows are in comparator order.
  lemma {:induction false} SortedByIsSorted(column: SortColumn, order: SortOrder, s: seq<IndexRate>)
    ensures Sorted(column, order, SortedBy(column, order, s))
    decreases |s|
  {
    if |s| > 0 {
      SortedByIsSorted(column, order, s[..|s| - 1]);
      InsertSorted(column, order, SortedBy(column, order, s[..|s| - 1]), s[|s| - 1]);
    }
  }

  /// `sort_by` permutes: the result holds the same rows, as a multiset.
  lemma {:induction false} SortedByIsPermutation(column: SortColumn, order: SortOrder, s: seq<IndexRate>)
    ensures |SortedBy(column, order, s)| == |s|
    ensures multiset(SortedBy(column, order, s)) == multiset(s)
    decreases |s|
  {
    if |s| > 0 {
      SortedByIsPermutation(column, order, s[..|s| - 1]);
      SortedBySnocShape(column, order, s);
      MultisetSnoc(s);
    }
  }

  lemma MultisetSnoc(s: seq<IndexRate>)
    requires |s| > 0
    ensures multiset(s) == multiset(s[..|s| - 1]) + multiset{s[|s| - 1]}
  {
    assert s == s[..|s| - 1] + [s[|s| - 1]];
  }

  /// One step of the sort specification, with the shape of the insertion.
  lemma SortedBySnocShape(column: SortColumn, order: SortOrder, s: seq<IndexRate>)
    requires |s| > 0
    ensures |SortedBy(column, order, s)| == |SortedBy(column, order, s[..|s| - 1])| + 1
    ensures multiset(SortedBy(column, order, s))
         == multiset(SortedBy(column, order, s[..|s| - 1])) + multiset{s[|s| - 1]}
  {
    InsertShape(column, order, SortedBy(column, order, s[..|s| - 1]), s[|s| - 1]);
  }

  /// `sort_by` is stable: rows that agree on the active column keep their
  /// input order.
  lemma {:induction false} SortedByIsStable(column: SortColumn, order: SortOrder, s: seq<IndexRate>, z: IndexRate)
    ensures SameKey(column, z, SortedBy(column, order, s)) == SameKey(column, z, s)
    decreases |s|
  {
    if |s| > 0 {
      SortedByIsStable(column, order, s[..|s| - 1], z);
      InsertStable(column, order, SortedBy(column, order, s[..|s| - 1]), s[|s| - 1], z);
    }
  }

  /// Ascending order by name puts "a" before "z".
  lemma SortByNameExample(a: IndexRate, z: IndexRate)
    requires a.name == "a" && z.name == "z"
    ensures SortedBy(Name, Ascending, [z, a]) == [a, z]
  {
    assert [z, a][..1] == [z] && [z][..0] == [];
    assert SortedBy(Name, Ascending, [z]) == [z];
    assert Compare(Name, Ascending, z, a) == Greater;
    assert Insert(Name, Ascending, [z], a) == Insert(Name, Ascending, [], a) + [z];
  }

  /// Descending order by rate puts the 5.0 row before the 1.0 row.
  lemma SortByRateDescendingExample(a: IndexRate, b: IndexRate)
    requires a.name == "a" && a.ratePerSec == 1.0
    requires b.name == "b" && b.ratePerSec == 5.0
    ensures SortedBy(Rate, Descending, [a, b]) == [b, a]
  {
    assert [a, b][..1] == [a] && [a][..0] == [];
    assert SortedBy(Rate, Descending, [a]) == [a];
    assert Compare(Rate, Descending, a, b) == Greater;
    assert Insert(Rate, Descending, [a], b) == Insert(Rate, Descending, [], b) + [a];
  }

  // ---------------------------------------------------------------------
  // The sort setting

  class SortState {
    var column: SortColumn
    var order: SortOrder

    /// `SortState::default()`.
    constructor ()
      ensures column == DEFAULT_SORT_COLUMN && order == DEFAULT_SORT_ORDER
    {
      column := DEFAULT_SORT_COLUMN;
      order := DEFAULT_SORT_ORDER;
    }

    method NextColumn()
      modifies this
      ensures column == UiTypes.NextColumn(old(column)) && order == old(order)
    {
      column := UiTypes.NextColumn(column);
    }

    method PrevColumn()
      modifies this
      ensures column == UiTypes.PrevColumn(old(column)) && order == old(order)
    {
      column := UiTypes.PrevColumn(column);
    }

    method ToggleOrder()
      modifies this
      ensures order == UiTypes.ToggleOrder(old(order)) && column == old(column)
    {
      order := UiTypes.ToggleOrder(order);
    }

    /// Sorts the slice in place; the result is the stable sort under the
    /// current setting (so sorted, a permutation, and stable by the lemmas above).
    method Sort(a: array<IndexRate>)
      modifies a
      ensures a[..] == SortedBy(column, order, old(a[..]))
    {
      ghost var s := a[..];
      var i := 0;
      while i < a.Length
        invariant 0 <= i <= a.Length
        invariant a[..] == SortedBy(column, order, s[..i]) + s[i..]
      {
        ghost var done := SortedBy(column, order, s[..i]);
        SortedByIsPermutation(column, order, s[..i]);
        PrefixSplit(done, s[i..]);
        SortedBySnoc(column, order, s, i);
        InsertAt(a, i);
        i := i + 1;
      }
      assert s[..a.Length] == s;
    }

    /// One pass of insertion sort: moves `a[i]` left past the rows of the
    /// sorted prefix that compare greater than it.
    method InsertAt(a: array<IndexRate>, i: nat)
      requires i < a.Length
      modifies a
      ensures a[..] == Insert(column, order, old(a[..i]), old(a[i])) + old(a[i + 1..])
    {
      ghost var t, rest := a[..i], a[i + 1..];
      var x := a[i];
      var j := i;
      assert a[..] == t[..j] + [x] + t[j..] + rest;
      assert t[..j] == t && t[j..] == [];
      while j > 0 && Compare(column, order, a[j - 1], x) == Greater
        invariant 0 <= j <= i
        invariant a[..] == t[..j] + [x] + t[j..] + rest
        invariant Insert(column, order, t, x) == Insert(column, order, t[..j], x) + t[j..]
      {
        assert a[j - 1] == t[j - 1];
        InsertStepLeft(column, order, t, j, x);
        SwapStep(t, j, x, rest);
        a[j - 1], a[j] := x, a[j - 1];
        j := j - 1;
      }
      if j > 0 {
        assert a[j - 1] == t[j - 1];
      }
      InsertStop(column, order, t, j, x);
    }
  }
}
