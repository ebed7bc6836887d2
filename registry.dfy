// The registry snapshot: Python's dict() over a list of (key, value) pairs.
module Registry {

  /** dict(pairs): every key of the list is a key of the dictionary, and a
      later pair overwrites an earlier one with the same key. */
  function ToDict<K, V>(pairs: seq<(K, V)>): (d: map<K, V>)
    ensures d.Keys == set i | 0 <= i < |pairs| :: pairs[i].0
  {
    if pairs == [] then map[]
    else
      var last := pairs[|pairs| - 1];
      var front := pairs[..|pairs| - 1];
      var d := ToDict(front);
      assert forall i | 0 <= i < |front| :: front[i] == pairs[i];
      d[last.0 := last.1]
  }

  /** `pairs[i]` is the last pair for its key. */
  ghost predicate LastFor<K, V>(pairs: seq<(K, V)>, i: int)
  {
    0 <= i < |pairs| && forall j :: i < j < |pairs| ==> pairs[j].0 != pairs[i].0
  }

  /** The last pair for a key gives that key's value. */
  lemma {:induction false} ToDictLastWins<K, V>(pairs: seq<(K, V)>, i: int)
    requires LastFor(pairs, i)
    ensures pairs[i].0 in ToDict(pairs) && ToDict(pairs)[pairs[i].0] == pairs[i].1
  {
    var n := |pairs|;
    if i < n - 1 {
      var front := pairs[..n - 1];
      assert front[i] == pairs[i];
      assert LastFor(front, i) by {
        forall j | i < j < |front| ensures front[j].0 != front[i].0 {
          assert front[j] == pairs[j];
        }
      }
      ToDictLastWins(front, i);
    }
  }

  /** Every key of the dictionary has a last pair, and its value came from it. */
  lemma {:induction false} ToDictFindsLast<K, V>(pairs: seq<(K, V)>, k: K)
    requires k in ToDict(pairs)
    ensures exists i :: LastFor(pairs, i) && pairs[i].0 == k && ToDict(pairs)[k] == pairs[i].1
  {
    var n := |pairs|;
    if pairs[n - 1].0 == k {
      assert LastFor(pairs, n - 1);
    } else {
      var front := pairs[..n - 1];
      ToDictFindsLast(front, k);
      var i :| LastFor(front, i) && front[i].0 == k && ToDict(front)[k] == front[i].1;
      assert pairs[i] == front[i];
      assert LastFor(pairs, i) by {
        forall j | i < j < n ensures pairs[j].0 != pairs[i].0 {
          if j < n - 1 { assert front[j] == pairs[j]; }
        }
      }
    }
  }
}
