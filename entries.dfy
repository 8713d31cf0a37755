/**
 * Adding the entries of a dictionary, one at a time, to a collection keyed
 * by name: `for name, value in entries.iteritems(): coll.add(name, ...)`.
 * The entries are listed in the order the iteration visits them.
 */
module Entries {
  import opened Wrappers

  /**
   * The collection after adding each entry in turn under its name, with the
   * value `make` builds from it; an entry `make` refuses adds nothing.
   */
  function AddAll<V, E>(make: (string, int) -> Result<V, E>, coll: map<string, V>, entries: seq<(string, int)>): map<string, V>
  {
    if entries == [] then coll
    else
      var m := AddAll(make, coll, entries[..|entries| - 1]);
      var (name, value) := entries[|entries| - 1];
      match make(name, value)
      case Success(v) => m[name := v]
      case Failure(_) => m
  }

  /** Adding one more entry: the collection so far, with the new entry's value under its name if `make` accepts it. */
  lemma AddAllStep<V, E>(make: (string, int) -> Result<V, E>, coll: map<string, V>, entries: seq<(string, int)>, i: nat)
    requires i < |entries|
    ensures make(entries[i].0, entries[i].1).Success? ==>
      AddAll(make, coll, entries[..i + 1]) == AddAll(make, coll, entries[..i])[entries[i].0 := make(entries[i].0, entries[i].1).value]
    ensures make(entries[i].0, entries[i].1).Failure? ==>
      AddAll(make, coll, entries[..i + 1]) == AddAll(make, coll, entries[..i])
  {
    assert entries[..i + 1][..i] == entries[..i];
  }

  /** Index of the first entry `make` refuses, or the number of entries. */
  function FirstRefused<V, E>(make: (string, int) -> Result<V, E>, entries: seq<(string, int)>): (n: nat)
    ensures n <= |entries|
    ensures forall i :: 0 <= i < n ==> make(entries[i].0, entries[i].1).Success?
    ensures n < |entries| ==> make(entries[n].0, entries[n].1).Failure?
  {
    if entries == [] || make(entries[0].0, entries[0].1).Failure? then 0
    else
      var n := 1 + FirstRefused(make, entries[1..]);
      assert forall i :: 1 <= i < |entries| ==> entries[i] == entries[1..][i - 1];
      n
  }

  /** The names of a dictionary's entries are distinct. */
  predicate DistinctNames(entries: seq<(string, int)>)
  {
    forall i, j :: 0 <= i < j < |entries| ==> entries[i].0 != entries[j].0
  }

  /** Every name in the collection after adding entries to an empty one is the name of one of the entries. */
  lemma {:induction false} AddAllNames<V, E>(make: (string, int) -> Result<V, E>, entries: seq<(string, int)>)
    ensures forall k :: k in AddAll(make, map[], entries) ==> exists i :: 0 <= i < |entries| && entries[i].0 == k
  {
    if entries != [] {
      var n := |entries| - 1;
      var init := entries[..n];
      AddAllNames(make, init);
      forall k | k in AddAll(make, map[], entries) ensures exists i :: 0 <= i < |entries| && entries[i].0 == k {
        if k in AddAll(make, map[], init) {
          var i :| 0 <= i < |init| && init[i].0 == k;
          assert entries[i].0 == k;
        } else {
          assert entries[n].0 == k;
        }
      }
    }
  }

  /**
   * Adding entries with distinct names to an empty collection holds the name
   * of each entry `make` accepts, with the value built from that entry.
   */
  lemma {:induction false} AddAllContents<V, E>(make: (string, int) -> Result<V, E>, entries: seq<(string, int)>)
    requires DistinctNames(entries)
    ensures forall i :: 0 <= i < |entries| && make(entries[i].0, entries[i].1).Success? ==>
      entries[i].0 in AddAll(make, map[], entries) &&
      AddAll(make, map[], entries)[entries[i].0] == make(entries[i].0, entries[i].1).value
  {
    if entries != [] {
      var n := |entries| - 1;
      var init, last := entries[..n], entries[n];
      assert forall i :: 0 <= i < |init| ==> init[i] == entries[i];
      AddAllContents(make, init);
      var m := AddAll(make, map[], init);
      var made := make(last.0, last.1);
      assert AddAll(make, map[], entries) == if made.Success? then m[last.0 := made.value] else m;
      forall i | 0 <= i < n && make(entries[i].0, entries[i].1).Success?
        ensures entries[i].0 in AddAll(make, map[], entries)
        ensures AddAll(make, map[], entries)[entries[i].0] == make(entries[i].0, entries[i].1).value
      {
        assert entries[i] == init[i];
        assert entries[i].0 != last.0;
      }
    }
  }
}
