/** `Object.fromEntries`: a list of (key, value) pairs becomes a record in
    which, for a repeated key, the last pair wins. Used for the path
    parameters, the query string and form bodies. */
module Entries {

  /** The record built from `entries`, pair by pair, later pairs overriding
      earlier ones. */
  function FromEntries<V>(entries: seq<(string, V)>): map<string, V>
    decreases |entries|
  {
    if entries == [] then map[]
    else
      var last := entries[|entries| - 1];
      FromEntries(entries[..|entries| - 1])[last.0 := last.1]
  }

  /** The keys of `entries`, as a set. */
  function KeysOf<V>(entries: seq<(string, V)>): set<string> {
    set i | 0 <= i < |entries| :: entries[i].0
  }

  /** Index `i` holds the last pair with key `k`. */
  predicate IsLastWith<V>(entries: seq<(string, V)>, k: string, i: int) {
    0 <= i < |entries| && entries[i].0 == k
    && forall j :: i < j < |entries| ==> entries[j].0 != k
  }

  /** The record has exactly the keys of the list. */
  lemma {:induction false} FromEntriesKeys<V>(entries: seq<(string, V)>)
    ensures FromEntries(entries).Keys == KeysOf(entries)
    decreases |entries|
  {
    if entries != [] {
      var init := entries[..|entries| - 1];
      FromEntriesKeys(init);
      assert KeysOf(entries) == KeysOf(init) + {entries[|entries| - 1].0} by {
        forall k | k in KeysOf(entries) ensures k in KeysOf(init) + {entries[|entries| - 1].0} {
          var i :| 0 <= i < |entries| && entries[i].0 == k;
          if i < |entries| - 1 { assert init[i] == entries[i]; }
        }
        forall k | k in KeysOf(init) ensures k in KeysOf(entries) {
          var i :| 0 <= i < |init| && init[i].0 == k;
          assert entries[i] == init[i];
        }
      }
    }
  }

  /** Last value wins: the value recorded for a key is the value of the last
      pair carrying that key. */
  lemma {:induction false} FromEntriesLastWins<V>(entries: seq<(string, V)>, k: string, i: int)
    requires IsLastWith(entries, k, i)
    ensures k in FromEntries(entries) && FromEntries(entries)[k] == entries[i].1
    decreases |entries|
  {
    var n := |entries|;
    if i < n - 1 {
      var init := entries[..n - 1];
      assert entries[n - 1].0 != k;
      assert init[i] == entries[i];
      FromEntriesLastWins(init, k, i);
    }
  }

  /** Every key of a non-empty list has a last occurrence. */
  lemma {:induction false} LastOccurrenceExists<V>(entries: seq<(string, V)>, k: string)
    requires k in KeysOf(entries)
    ensures exists i :: IsLastWith(entries, k, i)
    decreases |entries|
  {
    var n := |entries|;
    if entries[n - 1].0 == k {
      assert IsLastWith(entries, k, n - 1);
    } else {
      var init := entries[..n - 1];
      var i :| 0 <= i < n && entries[i].0 == k;
      assert init[i] == entries[i];
      LastOccurrenceExists(init, k);
      var j :| IsLastWith(init, k, j);
      assert entries[j] == init[j];
      assert IsLastWith(entries, k, j);
    }
  }

  /** Every key of the list is in the record, with the value of the last
      pair carrying it. */
  lemma {:induction false} FromEntriesValue<V>(entries: seq<(string, V)>, k: string)
    requires k in KeysOf(entries)
    ensures k in FromEntries(entries)
    ensures exists i :: IsLastWith(entries, k, i) && FromEntries(entries)[k] == entries[i].1
  {
    LastOccurrenceExists(entries, k);
    var i :| IsLastWith(entries, k, i);
    FromEntriesLastWins(entries, k, i);
  }
}
