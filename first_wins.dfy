/**
 * First-wins collapsing by key, as a JavaScript `Set` or `Map` filled in
 * a loop does it: an element is kept only when no earlier element had its
 * key, and the kept elements come out in insertion (first-appearance)
 * order. The scraper's per-page e-mail set and the job-wide candidate
 * deduplication are both instances.
 */
module FirstWins {

  /** The keys of the elements of `s`. */
  function Keys<T, K>(s: seq<T>, key: T -> K): set<K>
  {
    set i | 0 <= i < |s| :: key(s[i])
  }

  /** No earlier element of `s` has the key of `s[i]`. */
  predicate IsFirst<T, K(==)>(s: seq<T>, key: T -> K, i: nat)
    requires i < |s|
  {
    forall j :: 0 <= j < i ==> key(s[j]) != key(s[i])
  }

  /** No two elements of `s` share a key. */
  predicate DistinctKeys<T, K(==)>(s: seq<T>, key: T -> K)
  {
    forall i, j :: 0 <= i < j < |s| ==> key(s[i]) != key(s[j])
  }

  /** The first element of each key of `s`, in order of first appearance. */
  function KeepFirst<T, K(==)>(s: seq<T>, key: T -> K): (r: seq<T>)
    ensures Keys(r, key) == Keys(s, key)
    ensures |r| <= |s|
  {
    if s == [] then []
    else
      var prev := KeepFirst(s[..|s| - 1], key);
      var x := s[|s| - 1];
      if key(x) in Keys(prev, key) then prev
      else
        KeysAppend(prev, key, x);
        KeysAppend(s[..|s| - 1], key, x);
        assert s[..|s| - 1] + [x] == s;
        prev + [x]
  }

  /** The positions of `s` that hold the first element of their key, in increasing order. */
  function FirstPositions<T, K(==)>(s: seq<T>, key: T -> K): seq<nat>
  {
    if s == [] then []
    else
      var prev := FirstPositions(s[..|s| - 1], key);
      if IsFirst(s, key, |s| - 1) then prev + [|s| - 1] else prev
  }

  lemma KeysAppend<T, K>(s: seq<T>, key: T -> K, x: T)
    ensures Keys(s + [x], key) == Keys(s, key) + {key(x)}
  {
    forall k | k in Keys(s + [x], key)
      ensures k in Keys(s, key) + {key(x)}
    {
      var i :| 0 <= i < |s| + 1 && key((s + [x])[i]) == k;
      if i < |s| {
        assert (s + [x])[i] == s[i];
      }
    }
    forall k | k in Keys(s, key) + {key(x)}
      ensures k in Keys(s + [x], key)
    {
      if k == key(x) {
        assert (s + [x])[|s|] == x;
      } else {
        var i :| 0 <= i < |s| && key(s[i]) == k;
        assert (s + [x])[i] == s[i];
      }
    }
  }

  /**
   * What `KeepFirst` keeps: exactly the elements at the first position
   * of their key, each once, in the order they appear in `s`.
   */
  lemma {:induction false} KeepFirstSelects<T, K>(s: seq<T>, key: T -> K)
    ensures var r, pos := KeepFirst(s, key), FirstPositions(s, key);
      && |pos| == |r|
      && (forall k :: 0 <= k < |pos| ==> pos[k] < |s| && r[k] == s[pos[k]] && IsFirst(s, key, pos[k]))
      && (forall k, l :: 0 <= k < l < |pos| ==> pos[k] < pos[l])
      && (forall i :: 0 <= i < |s| && IsFirst(s, key, i) ==> i in pos)
  {
    if s != [] {
      var n := |s| - 1;
      var init := s[..n];
      KeepFirstSelects(init, key);
      var prev, prevPos := KeepFirst(init, key), FirstPositions(init, key);
      assert forall i :: 0 <= i < n ==> init[i] == s[i];
      assert forall i :: 0 <= i < n ==> (IsFirst(init, key, i) <==> IsFirst(s, key, i));
      assert key(s[n]) in Keys(prev, key) <==> !IsFirst(s, key, n) by {
        assert Keys(prev, key) == Keys(init, key);
        if !IsFirst(s, key, n) {
          var j :| 0 <= j < n && key(s[j]) == key(s[n]);
          assert key(init[j]) in Keys(init, key);
        }
      }
    }
  }

  /** The elements `KeepFirst` keeps have pairwise distinct keys. */
  lemma KeepFirstDistinct<T, K>(s: seq<T>, key: T -> K)
    ensures DistinctKeys(KeepFirst(s, key), key)
  {
    KeepFirstSelects(s, key);
  }

  /** A sequence whose keys are already distinct is left as it is. */
  lemma {:induction false} KeepFirstOfDistinct<T, K>(s: seq<T>, key: T -> K)
    requires DistinctKeys(s, key)
    ensures KeepFirst(s, key) == s
  {
    if s != [] {
      var n := |s| - 1;
      assert DistinctKeys(s[..n], key);
      KeepFirstOfDistinct(s[..n], key);
      assert key(s[n]) !in Keys(s[..n], key);
      assert s[..n] + [s[n]] == s;
    }
  }

  /** Collapsing twice is collapsing once. */
  lemma KeepFirstIdempotent<T, K>(s: seq<T>, key: T -> K)
    ensures KeepFirst(KeepFirst(s, key), key) == KeepFirst(s, key)
  {
    KeepFirstDistinct(s, key);
    KeepFirstOfDistinct(KeepFirst(s, key), key);
  }
}
