/**
 * Sequence operations behind the DataFrame pipeline: projection, filtering, concatenation
 * and pandas' `drop_duplicates(keep="first")` on a key.
 */
module Seqs {

  /** Apply `f` to every element, keeping order (a column projection). */
  function Map<T, U>(s: seq<T>, f: T -> U): (r: seq<U>)
    ensures |r| == |s|
    ensures forall i :: 0 <= i < |s| ==> r[i] == f(s[i])
  {
    if |s| == 0 then [] else [f(s[0])] + Map(s[1..], f)
  }

  /** Keep the elements satisfying `p`, in order (a boolean row mask). */
  function Filter<T(==)>(s: seq<T>, p: T -> bool): (r: seq<T>)
    ensures |r| <= |s|
    ensures forall i :: 0 <= i < |r| ==> r[i] in s && p(r[i])
    ensures forall i :: 0 <= i < |s| && p(s[i]) ==> s[i] in r
  {
    if |s| == 0 then [] else (if p(s[0]) then [s[0]] else []) + Filter(s[1..], p)
  }

  /** A mask that every element passes keeps the sequence as it is. */
  lemma {:induction false} FilterKeepsAll<T>(s: seq<T>, p: T -> bool)
    requires forall i :: 0 <= i < |s| ==> p(s[i])
    ensures Filter(s, p) == s
  {
    if |s| > 0 {
      FilterKeepsAll(s[1..], p);
    }
  }

  /** Concatenate the pieces in order (`pd.concat` / `explode`). */
  function Flatten<T>(ss: seq<seq<T>>): (r: seq<T>)
  {
    if |ss| == 0 then [] else Flatten(ss[..|ss| - 1]) + ss[|ss| - 1]
  }

  lemma FlattenAppend<T>(ss: seq<seq<T>>, s: seq<T>)
    ensures Flatten(ss + [s]) == Flatten(ss) + s
  {
    assert (ss + [s])[..|ss|] == ss;
  }

  lemma {:induction false} FlattenCons<T>(s: seq<T>, ss: seq<seq<T>>)
    ensures Flatten([s] + ss) == s + Flatten(ss)
    decreases |ss|
  {
    if |ss| > 0 {
      var init := ss[..|ss| - 1];
      assert ([s] + ss)[..|ss|] == [s] + init;
      FlattenCons(s, init);
    }
  }

  lemma {:induction false} InFlatten<T>(ss: seq<seq<T>>, x: T)
    ensures x in Flatten(ss) <==> exists i :: 0 <= i < |ss| && x in ss[i]
  {
    if |ss| > 0 {
      var init := ss[..|ss| - 1];
      InFlatten(init, x);
      if x in Flatten(ss) && x !in ss[|ss| - 1] {
        var i :| 0 <= i < |init| && x in init[i];
        assert x in ss[i];
      }
      if exists i :: 0 <= i < |ss| && x in ss[i] {
        var i :| 0 <= i < |ss| && x in ss[i];
        if i < |init| {
          assert x in init[i];
        }
      }
    }
  }

  /** The set of keys occurring in `s`. */
  function KeySet<T, K>(s: seq<T>, key: T -> K): set<K> {
    set i | 0 <= i < |s| :: key(s[i])
  }

  predicate DistinctKeys<T, K(==)>(s: seq<T>, key: T -> K) {
    forall i, j :: 0 <= i < j < |s| ==> key(s[i]) != key(s[j])
  }

  lemma KeySetCons<T, K>(s: seq<T>, key: T -> K)
    requires |s| > 0
    ensures KeySet(s, key) == {key(s[0])} + KeySet(s[1..], key)
  {
    forall k | k in KeySet(s, key) ensures k in {key(s[0])} + KeySet(s[1..], key) {
      var i :| 0 <= i < |s| && key(s[i]) == k;
      if i > 0 {
        assert key(s[1..][i - 1]) == k;
      }
    }
    forall k | k in KeySet(s[1..], key) ensures k in KeySet(s, key) {
      var i :| 0 <= i < |s| - 1 && key(s[1..][i]) == k;
      assert key(s[i + 1]) == k;
    }
  }

  lemma KeySetSnoc<T, K>(s: seq<T>, key: T -> K)
    requires |s| > 0
    ensures KeySet(s, key) == KeySet(s[..|s| - 1], key) + {key(s[|s| - 1])}
  {
    var init := s[..|s| - 1];
    forall k | k in KeySet(s, key) ensures k in KeySet(init, key) + {key(s[|s| - 1])} {
      var i :| 0 <= i < |s| && key(s[i]) == k;
      if i < |s| - 1 {
        assert key(init[i]) == k;
      }
    }
    forall k | k in KeySet(init, key) ensures k in KeySet(s, key) {
      var i :| 0 <= i < |init| && key(init[i]) == k;
      assert key(s[i]) == k;
    }
  }

  /** Position of the first element of `s` whose key is `k`. */
  function IndexOfKey<T, K(==)>(s: seq<T>, key: T -> K, k: K): (i: nat)
    requires k in KeySet(s, key)
    ensures i < |s| && key(s[i]) == k
    ensures forall j :: 0 <= j < i ==> key(s[j]) != k
  {
    if key(s[0]) == k then 0
    else
      KeySetCons(s, key);
      1 + IndexOfKey(s[1..], key, k)
  }

  /**
   * `drop_duplicates(keep="first")` on the key `key`, scanning left to right and skipping
   * every element whose key is in `seen` or was already kept.
   */
  function DropSeen<T, K(==)>(s: seq<T>, key: T -> K, seen: set<K>): (r: seq<T>)
    ensures |r| <= |s|
    ensures forall i :: 0 <= i < |r| ==> key(r[i]) !in seen
    ensures DistinctKeys(r, key)
    ensures KeySet(r, key) == KeySet(s, key) - seen
  {
    if |s| == 0 then []
    else
      KeySetCons(s, key);
      if key(s[0]) in seen then DropSeen(s[1..], key, seen)
      else
        var rest := DropSeen(s[1..], key, seen + {key(s[0])});
        KeySetCons([s[0]] + rest, key);
        assert ([s[0]] + rest)[1..] == rest;
        [s[0]] + rest
  }

  function DropDuplicates<T, K(==)>(s: seq<T>, key: T -> K): (r: seq<T>)
    ensures DistinctKeys(r, key)
    ensures KeySet(r, key) == KeySet(s, key)
  {
    DropSeen(s, key, {})
  }

  /**
   * Every element that `drop_duplicates` keeps is the FIRST element of the input with its
   * key, and the kept elements appear in the order of those first occurrences.
   */
  lemma {:induction false} DropSeenKeepsFirst<T, K>(s: seq<T>, key: T -> K, seen: set<K>)
    ensures forall i :: 0 <= i < |DropSeen(s, key, seen)| ==>
      && key(DropSeen(s, key, seen)[i]) in KeySet(s, key)
      && DropSeen(s, key, seen)[i] == s[IndexOfKey(s, key, key(DropSeen(s, key, seen)[i]))]
    ensures forall i, j :: 0 <= i < j < |DropSeen(s, key, seen)| ==>
      IndexOfKey(s, key, key(DropSeen(s, key, seen)[i])) < IndexOfKey(s, key, key(DropSeen(s, key, seen)[j]))
  {
    var r := DropSeen(s, key, seen);
    if |s| > 0 {
      var tail := s[1..];
      if key(s[0]) in seen {
        assert r == DropSeen(tail, key, seen);
        DropSeenKeepsFirst(tail, key, seen);
        FirstsOfTail(s, key, r);
      } else {
        var rest := DropSeen(tail, key, seen + {key(s[0])});
        DropSeenKeepsFirst(tail, key, seen + {key(s[0])});
        FirstsOfTail(s, key, rest);
        assert r == [s[0]] + rest;
        FirstsCons(s, key, rest);
      }
    }
  }

  /**
   * First occurrences in the tail of `s` of keys other than that of `s[0]` are first
   * occurrences in `s`, one position further on.
   */
  lemma FirstsOfTail<T, K>(s: seq<T>, key: T -> K, r: seq<T>)
    requires |s| > 0
    requires forall i :: 0 <= i < |r| ==> key(r[i]) != key(s[0])
    requires forall i :: 0 <= i < |r| ==> key(r[i]) in KeySet(s[1..], key) && r[i] == s[1..][IndexOfKey(s[1..], key, key(r[i]))]
    requires forall i, j :: 0 <= i < j < |r| ==> IndexOfKey(s[1..], key, key(r[i])) < IndexOfKey(s[1..], key, key(r[j]))
    ensures forall i :: 0 <= i < |r| ==> key(r[i]) in KeySet(s, key) && r[i] == s[IndexOfKey(s, key, key(r[i]))]
    ensures forall i :: 0 <= i < |r| ==> IndexOfKey(s, key, key(r[i])) > 0
    ensures forall i, j :: 0 <= i < j < |r| ==> IndexOfKey(s, key, key(r[i])) < IndexOfKey(s, key, key(r[j]))
  {
    KeySetCons(s, key);
    forall i | 0 <= i < |r|
      ensures key(r[i]) in KeySet(s, key)
      ensures IndexOfKey(s, key, key(r[i])) == 1 + IndexOfKey(s[1..], key, key(r[i]))
    {
    }
  }

  /** Putting `s[0]` in front of first occurrences found further on keeps them first occurrences, in order. */
  lemma FirstsCons<T, K>(s: seq<T>, key: T -> K, rest: seq<T>)
    requires |s| > 0
    requires forall i :: 0 <= i < |rest| ==> key(rest[i]) in KeySet(s, key) && rest[i] == s[IndexOfKey(s, key, key(rest[i]))]
    requires forall i :: 0 <= i < |rest| ==> IndexOfKey(s, key, key(rest[i])) > 0
    requires forall i, j :: 0 <= i < j < |rest| ==> IndexOfKey(s, key, key(rest[i])) < IndexOfKey(s, key, key(rest[j]))
    ensures var r := [s[0]] + rest;
            forall i :: 0 <= i < |r| ==> key(r[i]) in KeySet(s, key) && r[i] == s[IndexOfKey(s, key, key(r[i]))]
    ensures var r := [s[0]] + rest;
            forall i, j :: 0 <= i < j < |r| ==> IndexOfKey(s, key, key(r[i])) < IndexOfKey(s, key, key(r[j]))
  {
    assert key(s[0]) in KeySet(s, key);
    assert IndexOfKey(s, key, key(s[0])) == 0;
    FirstsConsFirst(s, key, rest);
    FirstsConsOrdered(s, key, rest);
  }

  lemma FirstsConsFirst<T, K>(s: seq<T>, key: T -> K, rest: seq<T>)
    requires |s| > 0 && key(s[0]) in KeySet(s, key) && IndexOfKey(s, key, key(s[0])) == 0
    requires forall i :: 0 <= i < |rest| ==> key(rest[i]) in KeySet(s, key) && rest[i] == s[IndexOfKey(s, key, key(rest[i]))]
    ensures var r := [s[0]] + rest;
            forall i :: 0 <= i < |r| ==> key(r[i]) in KeySet(s, key) && r[i] == s[IndexOfKey(s, key, key(r[i]))]
  {
    var r := [s[0]] + rest;
    forall i | 0 <= i < |r| ensures key(r[i]) in KeySet(s, key) && r[i] == s[IndexOfKey(s, key, key(r[i]))] {
      if i > 0 {
        assert r[i] == rest[i - 1];
      }
    }
  }

  lemma FirstsConsOrdered<T, K>(s: seq<T>, key: T -> K, rest: seq<T>)
    requires |s| > 0 && key(s[0]) in KeySet(s, key) && IndexOfKey(s, key, key(s[0])) == 0
    requires forall i :: 0 <= i < |rest| ==> key(rest[i]) in KeySet(s, key)
    requires forall i :: 0 <= i < |rest| ==> IndexOfKey(s, key, key(rest[i])) > 0
    requires forall i, j :: 0 <= i < j < |rest| ==> IndexOfKey(s, key, key(rest[i])) < IndexOfKey(s, key, key(rest[j]))
    ensures var r := [s[0]] + rest;
            forall i :: 0 <= i < |r| ==> key(r[i]) in KeySet(s, key)
    ensures var r := [s[0]] + rest;
            forall i, j :: 0 <= i < j < |r| ==> IndexOfKey(s, key, key(r[i])) < IndexOfKey(s, key, key(r[j]))
  {
    var r := [s[0]] + rest;
    forall i | 0 <= i < |r| ensures key(r[i]) in KeySet(s, key) {
      if i > 0 {
        assert r[i] == rest[i - 1];
      }
    }
    forall i, j | 0 <= i < j < |r| ensures IndexOfKey(s, key, key(r[i])) < IndexOfKey(s, key, key(r[j])) {
      assert r[j] == rest[j - 1];
      if i > 0 {
        assert r[i] == rest[i - 1];
      }
    }
  }

  /** On input whose keys are already distinct, `drop_duplicates` changes nothing. */
  lemma {:induction false} DropSeenDistinct<T, K>(s: seq<T>, key: T -> K, seen: set<K>)
    requires DistinctKeys(s, key)
    requires forall i :: 0 <= i < |s| ==> key(s[i]) !in seen
    ensures DropSeen(s, key, seen) == s
  {
    if |s| > 0 {
      var tail := s[1..];
      forall i | 0 <= i < |tail| ensures key(tail[i]) !in seen + {key(s[0])} {
        assert tail[i] == s[i + 1];
      }
      DropSeenDistinct(tail, key, seen + {key(s[0])});
      assert [s[0]] + tail == s;
    }
  }

  /** Dropping duplicates twice is the same as dropping them once. */
  lemma DropDuplicatesIdempotent<T, K>(s: seq<T>, key: T -> K)
    ensures DropDuplicates(DropDuplicates(s, key), key) == DropDuplicates(s, key)
  {
    DropSeenDistinct(DropDuplicates(s, key), key, {});
  }
  /** The first position with key `k` is determined by its defining property. */
  lemma IndexOfKeyUnique<T, K>(s: seq<T>, key: T -> K, k: K, i: nat)
    requires i < |s| && key(s[i]) == k
    requires forall j :: 0 <= j < i ==> key(s[j]) != k
    ensures k in KeySet(s, key) && IndexOfKey(s, key, k) == i
  {
    assert k in KeySet(s, key);
  }

  /** Keying a projection by `key` is keying the original by `key0` when the two keys agree. */
  lemma KeysOfMap<T, U, K>(s: seq<T>, f: T -> U, key: U -> K, key0: T -> K)
    requires forall i :: 0 <= i < |s| ==> key(f(s[i])) == key0(s[i])
    ensures KeySet(Map(s, f), key) == KeySet(s, key0)
    ensures forall k :: k in KeySet(s, key0) ==> IndexOfKey(Map(s, f), key, k) == IndexOfKey(s, key0, k)
  {
    var m := Map(s, f);
    assert forall i :: 0 <= i < |s| ==> key(m[i]) == key0(s[i]);
    assert KeySet(m, key) == KeySet(s, key0);
    forall k | k in KeySet(s, key0) ensures IndexOfKey(m, key, k) == IndexOfKey(s, key0, k) {
      var i := IndexOfKey(s, key0, k);
      IndexOfKeyUnique(m, key, k, i);
    }
  }
}
