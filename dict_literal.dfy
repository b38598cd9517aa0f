/**
 A Python dict display `{k1: v1, k2: v2, ...}` is evaluated left to right:
 each entry is inserted in turn, so a key written twice silently keeps the
 value of its last occurrence. This module models a dict display as the
 sequence of its entries, in the order they are written, and gives the map
 it evaluates to.
 */
module DictLiteral {

  /** A list in which no element appears twice, so it can be read as an ordered set. */
  predicate NoRepeats<T(==)>(s: seq<T>)
  {
    forall i, j :: 0 <= i < j < |s| ==> s[i] != s[j]
  }

  /** The keys written in a display, in the order they are written; without
      repeated keys this is also the order in which the dict iterates them. */
  function Keys<K, V>(entries: seq<(K, V)>): (keys: seq<K>)
    ensures |keys| == |entries|
    ensures forall i :: 0 <= i < |entries| ==> keys[i] == entries[i].0
  {
    seq(|entries|, i requires 0 <= i < |entries| => entries[i].0)
  }

  /** The keys written in a display, as a set. */
  function KeySet<K(==), V>(entries: seq<(K, V)>): set<K>
  {
    set k | k in Keys(entries)
  }

  /** No key is written twice, so no entry is overwritten. */
  predicate DistinctKeys<K(==), V>(entries: seq<(K, V)>)
  {
    NoRepeats(Keys(entries))
  }

  /** The dict a display evaluates to: entries inserted one after another. */
  function DictOf<K(==), V>(entries: seq<(K, V)>): (m: map<K, V>)
    ensures m.Keys == KeySet(entries)
    decreases |entries|
  {
    if entries == [] then map[]
    else
      var last := entries[|entries| - 1];
      var front := entries[..|entries| - 1];
      assert KeySet(entries) == KeySet(front) + {last.0} by {
        forall k | k in KeySet(entries) ensures k in KeySet(front) + {last.0} {
          var i :| 0 <= i < |entries| && entries[i].0 == k;
          if i < |front| { assert front[i] == entries[i]; }
        }
        forall k | k in KeySet(front) ensures k in KeySet(entries) {
          var i :| 0 <= i < |front| && front[i].0 == k;
          assert entries[i] == front[i];
        }
      }
      DictOf(front)[last.0 := last.1]
  }

  /** The value a key maps to is the one of its last occurrence. */
  lemma {:induction false} LastOccurrenceWins<K, V>(entries: seq<(K, V)>, i: nat)
    requires i < |entries|
    requires forall j :: i < j < |entries| ==> entries[j].0 != entries[i].0
    ensures entries[i].0 in DictOf(entries)
    ensures DictOf(entries)[entries[i].0] == entries[i].1
    decreases |entries|
  {
    var n := |entries|;
    var front := entries[..n - 1];
    assert DictOf(entries) == DictOf(front)[entries[n - 1].0 := entries[n - 1].1];
    if i < n - 1 {
      assert front[i] == entries[i];
      forall j | i < j < |front| ensures front[j].0 != front[i].0 {
        assert front[j] == entries[j];
      }
      LastOccurrenceWins(front, i);
      assert entries[n - 1].0 != entries[i].0;
    }
  }

  /** Without repeated keys, the entry at position `i` survives. */
  lemma DistinctValueAt<K, V>(entries: seq<(K, V)>, i: nat)
    requires DistinctKeys(entries) && i < |entries|
    ensures entries[i].0 in DictOf(entries) && DictOf(entries)[entries[i].0] == entries[i].1
  {
    var ks := Keys(entries);
    assert forall j :: i < j < |entries| ==> ks[j] == entries[j].0 && ks[i] == entries[i].0;
    LastOccurrenceWins(entries, i);
  }

  /** The keys of a display without its last entry are its keys without the last one. */
  lemma KeysOfFront<K, V>(entries: seq<(K, V)>)
    requires entries != []
    ensures Keys(entries[..|entries| - 1]) == Keys(entries)[..|entries| - 1]
  {
  }

  /** Dropping the last entry of a display keeps its keys distinct, and the
      dropped key is not among the remaining ones. */
  lemma DistinctKeysFront<K, V>(entries: seq<(K, V)>)
    requires entries != [] && DistinctKeys(entries)
    ensures DistinctKeys(entries[..|entries| - 1])
    ensures entries[|entries| - 1].0 !in KeySet(entries[..|entries| - 1])
  {
    var n := |entries|;
    var ks := Keys(entries);
    KeysOfFront(entries);
    assert forall i :: 0 <= i < n - 1 ==> ks[..n - 1][i] == ks[i];
    assert ks[n - 1] == entries[n - 1].0;
  }

  /** Without repeated keys every entry survives, and the dict has as many keys as entries. */
  lemma {:induction false} DistinctDisplay<K, V>(entries: seq<(K, V)>)
    requires DistinctKeys(entries)
    ensures |DictOf(entries)| == |entries|
    ensures forall i :: 0 <= i < |entries| ==> DictOf(entries)[entries[i].0] == entries[i].1
    decreases |entries|
  {
    if entries != [] {
      var n := |entries|;
      var front := entries[..n - 1];
      DistinctKeysFront(entries);
      DistinctDisplay(front);
      assert |DictOf(entries)| == |DictOf(front)| + 1;
      forall i | 0 <= i < n ensures DictOf(entries)[entries[i].0] == entries[i].1 {
        DistinctValueAt(entries, i);
      }
    }
  }

  /** A repeated key loses an entry: the dict is smaller than the display. */
  lemma {:induction false} RepeatedKeyShrinks<K, V>(entries: seq<(K, V)>)
    requires !DistinctKeys(entries)
    ensures |DictOf(entries)| < |entries|
  {
    KeySetSize(entries);
  }

  /** A key set never has more keys than the display has entries, and has
      exactly as many only when no key repeats. */
  lemma {:induction false} KeySetSize<K, V>(entries: seq<(K, V)>)
    ensures |KeySet(entries)| <= |entries|
    ensures |KeySet(entries)| == |entries| ==> DistinctKeys(entries)
    decreases |entries|
  {
    if entries != [] {
      var n := |entries|;
      var front := entries[..n - 1];
      var last := entries[n - 1];
      assert DictOf(entries).Keys == DictOf(front).Keys + {last.0};
      KeySetSize(front);
      if |KeySet(entries)| == n {
        assert last.0 !in KeySet(front);
        assert DistinctKeys(front);
        forall i, j | 0 <= i < j < n ensures entries[i].0 != entries[j].0 {
          if j < n - 1 {
            assert front[i] == entries[i] && front[j] == entries[j];
          } else {
            assert front[i] == entries[i];
          }
        }
      }
    }
  }

  /** A key is in the dict exactly when it is written in the display. */
  lemma KeysAreDictKeys<K, V>(entries: seq<(K, V)>)
    ensures forall k :: k in Keys(entries) <==> k in DictOf(entries)
  {
    forall k | k in DictOf(entries) ensures k in Keys(entries) {
      var i :| 0 <= i < |entries| && entries[i].0 == k;
      assert Keys(entries)[i] == k;
    }
  }

  /** Two displays that write the same keys in the same order agree on repeating one. */
  lemma SameKeysSameRepeats<K, V, W>(a: seq<(K, V)>, b: seq<(K, W)>)
    requires Keys(a) == Keys(b)
    ensures DistinctKeys(a) <==> DistinctKeys(b)
  {
    assert |a| == |Keys(a)| == |Keys(b)| == |b|;
    assert forall i :: 0 <= i < |a| ==> a[i].0 == Keys(a)[i] == Keys(b)[i] == b[i].0;
  }

  /** The keys of two displays written one after the other. */
  lemma KeysOfAppend<K, V>(a: seq<(K, V)>, b: seq<(K, V)>)
    ensures Keys(a + b) == Keys(a) + Keys(b)
  {
    assert forall i :: 0 <= i < |a| ==> (a + b)[i] == a[i];
    assert forall i :: |a| <= i < |a + b| ==> (a + b)[i] == b[i - |a|];
  }
}
