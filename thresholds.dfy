/**
  The threshold-table lookup shared by the random coat/build roll and the
  litter-size roll: the table is sorted ascending by weight and the first
  entry whose weight is at least the roll is picked; when every weight is
  below the roll nothing is picked (the function falls off its loop and
  yields `undefined`).
 */
module Thresholds {
  import opened Wrappers
  import opened Seqs

  /** The first entry of `sorted`, scanning from the front, whose key is at least `roll`. */
  function FirstAtLeast<T(==)>(sorted: seq<T>, key: T -> real, roll: real): (r: Option<T>)
    ensures r.Some? ==> r.value in sorted && roll <= key(r.value)
    ensures r.None? <==> forall x :: x in sorted ==> key(x) < roll
    decreases |sorted|
  {
    if |sorted| == 0 then None
    else if roll <= key(sorted[0]) then Some(sorted[0])
    else
      assert sorted == [sorted[0]] + sorted[1..];
      FirstAtLeast(sorted[1..], key, roll)
  }

  /** Scanning a sorted table, the entry found has the least key among those at least the roll. */
  lemma {:induction false} FirstAtLeastLeast<T>(sorted: seq<T>, key: T -> real, roll: real)
    requires SortedBy(sorted, key)
    ensures var r := FirstAtLeast(sorted, key, roll);
      r.Some? ==> forall x :: x in sorted && roll <= key(x) ==> key(r.value) <= key(x)
    decreases |sorted|
  {
    if |sorted| > 0 {
      assert sorted == [sorted[0]] + sorted[1..];
      if roll <= key(sorted[0]) {
        forall x | x in sorted && roll <= key(x) ensures key(sorted[0]) <= key(x) {
          var j :| 0 <= j < |sorted| && sorted[j] == x;
        }
      } else {
        assert SortedBy(sorted[1..], key) by {
          forall i, j | 0 <= i < j < |sorted[1..]| ensures key(sorted[1..][i]) <= key(sorted[1..][j]) {
            assert sorted[1..][i] == sorted[i + 1] && sorted[1..][j] == sorted[j + 1];
          }
        }
        FirstAtLeastLeast(sorted[1..], key, roll);
      }
    }
  }

  /** `toSorted` ascending by key, then the scan. */
  function Threshold<T(==)>(entries: seq<T>, key: T -> real, roll: real): Option<T>
  {
    FirstAtLeast(SortBy(entries, key), key, roll)
  }

  /**
    The lookup picks an entry of the table whose key is at least the roll and
    least among those; it picks nothing exactly when every key is below the roll.
   */
  lemma ThresholdFacts<T>(entries: seq<T>, key: T -> real, roll: real)
    ensures var r := Threshold(entries, key, roll);
      (r.Some? ==> r.value in entries && roll <= key(r.value) &&
                   forall x :: x in entries && roll <= key(x) ==> key(r.value) <= key(x)) &&
      (r.None? <==> forall x :: x in entries ==> key(x) < roll)
  {
    var sorted := SortBy(entries, key);
    FirstAtLeastLeast(sorted, key, roll);
    assert forall x :: x in entries <==> x in multiset(sorted);
  }

  /** No two entries share a key. */
  predicate DistinctKeys<T>(entries: seq<T>, key: T -> real)
  {
    forall i, j :: 0 <= i < j < |entries| ==> key(entries[i]) != key(entries[j])
  }

  /** With distinct keys, a roll equal to an entry's key picks that entry. */
  lemma ThresholdExact<T>(entries: seq<T>, key: T -> real, k: nat)
    requires DistinctKeys(entries, key) && k < |entries|
    ensures Threshold(entries, key, key(entries[k])) == Some(entries[k])
  {
    var roll := key(entries[k]);
    ThresholdFacts(entries, key, roll);
    var r := Threshold(entries, key, roll);
    assert entries[k] in entries;
    var i :| 0 <= i < |entries| && entries[i] == r.value;
    assert key(entries[i]) == key(entries[k]);
  }
}
