/** Collection idioms of the client: building a lookup from a list of
    key/value pairs (an object filled by `reduce`, or `new Map(entries)`),
    where a later entry overwrites an earlier one with the same key; and
    `Array.from(new Set(xs))`, which keeps each value once. */
module Collections {

  /** No value occurs twice. */
  predicate NoDuplicates<T(==)>(s: seq<T>) {
    forall i, j :: 0 <= i < j < |s| ==> s[i] != s[j]
  }

  /** The entry at `i` is the last one in `pairs` with its key. */
  predicate IsLastWithKey<K(==), V>(pairs: seq<(K, V)>, i: int) {
    0 <= i < |pairs| && forall j :: i < j < |pairs| ==> pairs[j].0 != pairs[i].0
  }

  /** The keys of `pairs`. */
  function KeysOf<K, V>(pairs: seq<(K, V)>): set<K> {
    set i | 0 <= i < |pairs| :: pairs[i].0
  }

  /** The lookup built by inserting `pairs` left to right: it holds exactly
      the keys of `pairs`, each with the value of its last entry. */
  function MapFromPairs<K(==), V>(pairs: seq<(K, V)>): (m: map<K, V>)
    ensures m.Keys == KeysOf(pairs)
  {
    if pairs == [] then map[]
    else
      var n := |pairs| - 1;
      var front := pairs[..n];
      assert KeysOf(pairs) == KeysOf(front) + {pairs[n].0} by {
        assert forall i :: 0 <= i < n ==> front[i] == pairs[i];
      }
      MapFromPairs(front)[pairs[n].0 := pairs[n].1]
  }

  /** The last entry for a key decides its value. */
  lemma {:induction false} LastEntryWins<K, V>(pairs: seq<(K, V)>, i: int)
    requires IsLastWithKey(pairs, i)
    ensures MapFromPairs(pairs)[pairs[i].0] == pairs[i].1
  {
    var n := |pairs| - 1;
    if i < n {
      var front := pairs[..n];
      assert front[i] == pairs[i];
      assert IsLastWithKey(front, i);
      LastEntryWins(front, i);
    }
  }

  /** Every key in the lookup is the key of some last entry, whose value it holds. */
  lemma LookupHasLastValue<K, V>(pairs: seq<(K, V)>, k: K)
    requires k in MapFromPairs(pairs)
    ensures exists i :: IsLastWithKey(pairs, i) && pairs[i].0 == k && MapFromPairs(pairs)[k] == pairs[i].1
  {
    var i :| 0 <= i < |pairs| && pairs[i].0 == k;
    while !IsLastWithKey(pairs, i)
      invariant 0 <= i < |pairs| && pairs[i].0 == k
      decreases |pairs| - i
    {
      var j :| i < j < |pairs| && pairs[j].0 == k;
      i := j;
    }
    LastEntryWins(pairs, i);
  }

  /** `Array.from(new Set(s))`: the distinct values of `s`, each once. The
      order of the result is not stated: its one use feeds a set-membership
      query. */
  function Distinct<T(==)>(s: seq<T>): (r: seq<T>)
    ensures NoDuplicates(r)
    ensures forall i :: 0 <= i < |r| ==> r[i] in s
    ensures forall i :: 0 <= i < |s| ==> s[i] in r
    ensures |r| <= |s|
  {
    if s == [] then []
    else
      var n := |s| - 1;
      var r' := Distinct(s[..n]);
      assert forall i :: 0 <= i < n ==> s[..n][i] == s[i];
      if s[n] in r' then r' else r' + [s[n]]
  }

  /** Values already distinct are kept as they are. */
  lemma {:induction false} DistinctOfDistinct<T>(s: seq<T>)
    requires NoDuplicates(s)
    ensures Distinct(s) == s
  {
    if s != [] {
      var n := |s| - 1;
      assert NoDuplicates(s[..n]);
      DistinctOfDistinct(s[..n]);
      assert s[n] !in s[..n];
      assert s[..n] + [s[n]] == s;
    }
  }
}
