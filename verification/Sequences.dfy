/**
 What several components say about their lists: elements without repetition, and cutting one out.
 */
module Sequences {

  datatype Option<T> = None | Some(value: T)

  ghost predicate NoDuplicates<T>(s: seq<T>) {
    forall i, j :: 0 <= i < j < |s| ==> s[i] != s[j]
  }

  function WithoutFirst<T(==)>(s: seq<T>, x: T): seq<T> {
    if s == [] then [] else if s[0] == x then s[1..] else [s[0]] + WithoutFirst(s[1..], x)
  }

  /** Without repetition, cutting out an element removes it and nothing else. */
  lemma {:induction false} WithoutFirstMembers<T>(s: seq<T>, x: T)
    requires NoDuplicates(s)
    ensures NoDuplicates(WithoutFirst(s, x)) && |WithoutFirst(s, x)| <= |s|
    ensures forall y :: y in WithoutFirst(s, x) <==> y in s && y != x
  {
    if s != [] {
      WithoutFirstMembers(s[1..], x);
      assert forall y :: y in s <==> y == s[0] || y in s[1..];
      assert s[0] !in s[1..];
      if s[0] != x {
        var t := [s[0]] + WithoutFirst(s[1..], x);
        assert forall y :: y in t <==> y == s[0] || y in WithoutFirst(s[1..], x);
      }
    }
  }

  /** Cutting at the first place where an element is found. */
  lemma {:induction false} CutFirst<T>(s: seq<T>, k: nat, x: T)
    requires k < |s| && s[k] == x && forall i :: 0 <= i < k ==> s[i] != x
    ensures WithoutFirst(s, x) == s[..k] + s[k + 1..]
  {
    if k > 0 {
      CutFirst(s[1..], k - 1, x);
      assert s[1..][..k - 1] == s[1..k] && s[1..][k..] == s[k + 1..];
      assert [s[0]] + s[1..k] == s[..k];
    }
  }

  lemma {:induction false} Absent<T>(s: seq<T>, x: T)
    requires x !in s
    ensures WithoutFirst(s, x) == s
  {
    if s != [] {
      Absent(s[1..], x);
    }
  }
}
