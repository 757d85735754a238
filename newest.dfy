/**
 * `findMany` with a `where` filter and `orderBy: { createdAt: 'desc' }`
 * over a table whose rows are stored in creation order.
 */
module Newest {

  /** The rows of `s` that `keep` accepts, last-created first. */
  function NewestFirst<T>(s: seq<T>, keep: T -> bool): (r: seq<T>)
    ensures |r| <= |s|
  {
    if s == [] then []
    else
      var last := s[|s| - 1];
      (if keep(last) then [last] else []) + NewestFirst(s[..|s| - 1], keep)
  }

  /** The query returns exactly the accepted rows. */
  lemma {:induction false} NewestFirstMembers<T>(s: seq<T>, keep: T -> bool)
    ensures forall x :: x in NewestFirst(s, keep) <==> x in s && keep(x)
  {
    if s != [] {
      var n := |s| - 1;
      NewestFirstMembers(s[..n], keep);
      assert s == s[..n] + [s[n]];
    }
  }

  /** When each row's id is its position, the rows come in strictly decreasing id order. */
  lemma {:induction false} NewestFirstOrder<T>(s: seq<T>, keep: T -> bool, id: T -> int)
    requires forall i :: 0 <= i < |s| ==> id(s[i]) == i
    ensures forall i :: 0 <= i < |NewestFirst(s, keep)| ==> 0 <= id(NewestFirst(s, keep)[i]) < |s|
    ensures forall i, j :: 0 <= i < j < |NewestFirst(s, keep)| ==> id(NewestFirst(s, keep)[i]) > id(NewestFirst(s, keep)[j])
  {
    if s != [] {
      var n := |s| - 1;
      var init := s[..n];
      assert forall i :: 0 <= i < |init| ==> id(init[i]) == i;
      NewestFirstOrder(init, keep, id);
      var rest := NewestFirst(init, keep);
      var head: seq<T> := if keep(s[n]) then [s[n]] else [];
      var r := NewestFirst(s, keep);
      assert r == head + rest;
      forall i | 0 <= i < |r|
        ensures 0 <= id(r[i]) < |s|
      {
        if i < |head| {
          assert r[i] == s[n];
        } else {
          assert r[i] == rest[i - |head|];
          assert id(rest[i - |head|]) < |init|;
        }
      }
      forall i, j | 0 <= i < j < |r|
        ensures id(r[i]) > id(r[j])
      {
        assert r[j] == rest[j - |head|];
        assert id(rest[j - |head|]) < n;
        if i < |head| {
          assert r[i] == s[n];
        } else {
          assert r[i] == rest[i - |head|];
        }
      }
    }
  }
}
