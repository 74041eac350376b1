/**
  Picking one element per key while walking a list and filling a dictionary, in the two forms the
  program uses: keep the first element seen for a key (`if key not in d: d[key] = x`), or replace
  the kept element whenever a later one is better (`if key not in d or better(x, d[key]): d[key] = x`).
*/
module Selection {

  /** The dictionary after the "keep the first" loop over `s`. */
  function FirstByKey<T, K>(s: seq<T>, key: T -> K): map<K, T>
    decreases |s|
  {
    if s == [] then map[]
    else
      var kept := FirstByKey(s[..|s| - 1], key);
      var x := s[|s| - 1];
      if key(x) in kept then kept else kept[key(x) := x]
  }

  /** The dictionary after the "replace when better" loop over `s`. */
  function BestByKey<T, K>(s: seq<T>, key: T -> K, better: (T, T) -> bool): map<K, T>
    decreases |s|
  {
    if s == [] then map[]
    else
      var kept := BestByKey(s[..|s| - 1], key, better);
      var x := s[|s| - 1];
      if key(x) !in kept || better(x, kept[key(x)]) then kept[key(x) := x] else kept
  }

  /**
    "Keep the first" has an entry for exactly the keys that occur, and each entry is the first
    element with that key.
  */
  lemma {:induction false} FirstByKeyIsFirst<T, K>(s: seq<T>, key: T -> K)
    ensures forall i :: 0 <= i < |s| ==> key(s[i]) in FirstByKey(s, key)
    ensures forall k :: k in FirstByKey(s, key) ==>
      exists i :: 0 <= i < |s| && s[i] == FirstByKey(s, key)[k] && key(s[i]) == k &&
                  forall j :: 0 <= j < i ==> key(s[j]) != k
    decreases |s|
  {
    if s != [] {
      var n := |s| - 1;
      var prefix := s[..n];
      FirstByKeyIsFirst(prefix, key);
      var kept := FirstByKey(prefix, key);
      forall i | 0 <= i < n ensures key(s[i]) in FirstByKey(s, key) {
        assert prefix[i] == s[i];
      }
      forall k | k in FirstByKey(s, key)
        ensures exists i :: 0 <= i < |s| && s[i] == FirstByKey(s, key)[k] && key(s[i]) == k &&
                            forall j :: 0 <= j < i ==> key(s[j]) != k
      {
        if k in kept {
          var i :| 0 <= i < |prefix| && prefix[i] == kept[k] && key(prefix[i]) == k &&
                   forall j :: 0 <= j < i ==> key(prefix[j]) != k;
          assert s[i] == prefix[i];
          assert forall j :: 0 <= j < i ==> s[j] == prefix[j];
        } else {
          assert k == key(s[n]);
          forall j | 0 <= j < n ensures key(s[j]) != k {
            assert prefix[j] == s[j];
          }
        }
      }
    }
  }

  /** "Replace when better" has an entry for exactly the keys that occur, each an element with that key. */
  lemma {:induction false} BestByKeyKeys<T, K>(s: seq<T>, key: T -> K, better: (T, T) -> bool)
    ensures forall i :: 0 <= i < |s| ==> key(s[i]) in BestByKey(s, key, better)
    ensures forall k :: k in BestByKey(s, key, better) ==>
      BestByKey(s, key, better)[k] in s && key(BestByKey(s, key, better)[k]) == k
    decreases |s|
  {
    if s != [] {
      var n := |s| - 1;
      var prefix := s[..n];
      BestByKeyKeys(prefix, key, better);
      assert s == prefix + [s[n]];
      forall i | 0 <= i < n ensures key(s[i]) in BestByKey(s, key, better) {
        assert prefix[i] == s[i];
      }
    }
  }

  /** With a strict, transitive comparison, no element is better than the one kept for its key. */
  lemma {:induction false} BestByKeyIsBest<T, K>(s: seq<T>, key: T -> K, better: (T, T) -> bool)
    requires forall a :: !better(a, a)
    requires forall a, b, c :: better(a, b) && better(b, c) ==> better(a, c)
    ensures forall k, i :: k in BestByKey(s, key, better) && 0 <= i < |s| && key(s[i]) == k ==>
      !better(s[i], BestByKey(s, key, better)[k])
    decreases |s|
  {
    if s != [] {
      var n := |s| - 1;
      var prefix := s[..n];
      BestByKeyIsBest(prefix, key, better);
      BestByKeyKeys(prefix, key, better);
      var kept := BestByKey(prefix, key, better);
      var x := s[n];
      forall k, i | k in BestByKey(s, key, better) && 0 <= i < |s| && key(s[i]) == k
        ensures !better(s[i], BestByKey(s, key, better)[k])
      {
        if i < n {
          assert prefix[i] == s[i];
          assert k in kept;
        }
      }
    }
  }

  /**
    When no element is better than an earlier one (the list is sorted best first), keeping the first
    and keeping the best select the same elements.
  */
  lemma {:induction false} FirstIsBestWhenSorted<T, K>(s: seq<T>, key: T -> K, better: (T, T) -> bool)
    requires forall i, j :: 0 <= i < j < |s| ==> !better(s[j], s[i])
    ensures FirstByKey(s, key) == BestByKey(s, key, better)
    decreases |s|
  {
    if s != [] {
      var n := |s| - 1;
      var prefix := s[..n];
      FirstIsBestWhenSorted(prefix, key, better);
      var x := s[n];
      var kept := FirstByKey(prefix, key);
      if key(x) in kept {
        FirstByKeyIsFirst(prefix, key);
        var i :| 0 <= i < |prefix| && prefix[i] == kept[key(x)];
        assert s[i] == prefix[i];
      }
    }
  }
}
