/** The two operations of .NET's `List<T>` the scripts rely on beyond
    indexing and appending: `Remove`, and the distinctness a pool keeps. */
module Lists {
  /** `List.Remove`: drops the first occurrence, if there is one. */
  function RemoveFirst<T(==)>(s: seq<T>, e: T): seq<T> {
    if s == [] then []
    else if s[0] == e then s[1..]
    else [s[0]] + RemoveFirst(s[1..], e)
  }

  /** Index of the first occurrence. */
  function IndexOf<T(==)>(s: seq<T>, e: T): (k: nat)
    requires e in s
    ensures k < |s| && s[k] == e && e !in s[..k]
  {
    if s[0] == e then 0 else 1 + IndexOf(s[1..], e)
  }

  /** Removing an absent element is a no-op. */
  lemma {:induction false} RemoveFirstAbsent<T>(s: seq<T>, e: T)
    requires e !in s
    ensures RemoveFirst(s, e) == s
  {
    if s != [] {
      RemoveFirstAbsent(s[1..], e);
      assert s == [s[0]] + s[1..];
    }
  }

  /** Removal takes out exactly the first match and keeps the others in order. */
  lemma {:induction false} RemoveFirstAt<T>(s: seq<T>, e: T)
    requires e in s
    ensures RemoveFirst(s, e) == s[..IndexOf(s, e)] + s[IndexOf(s, e) + 1..]
  {
    if s[0] != e {
      RemoveFirstAt(s[1..], e);
      var k := IndexOf(s[1..], e);
      assert s[..k + 1] == [s[0]] + s[1..][..k];
      assert s[k + 2..] == s[1..][k + 1..];
    }
  }

  /** Removal takes one copy out of the multiset, if there was one. */
  lemma {:induction false} RemoveFirstMultiset<T>(s: seq<T>, e: T)
    ensures multiset(RemoveFirst(s, e)) == multiset(s) - multiset{e}
  {
    if e in s {
      RemoveFirstAt(s, e);
      var k := IndexOf(s, e);
      var before, after := s[..k], s[k + 1..];
      assert s == before + [e] + after;
      assert multiset(s) == multiset(before) + multiset{e} + multiset(after);
      assert RemoveFirst(s, e) == before + after;
    } else {
      RemoveFirstAbsent(s, e);
    }
  }

  /** No element occurs twice. */
  predicate Distinct<T(==)>(s: seq<T>) {
    forall i, j :: 0 <= i < j < |s| ==> s[i] != s[j]
  }

  /** In a duplicate-free sequence the removal drops every copy, so the element is gone. */
  lemma RemoveFirstOfDistinct<T>(s: seq<T>, e: T)
    requires Distinct(s) && e in s
    ensures Distinct(RemoveFirst(s, e))
    ensures e !in RemoveFirst(s, e)
    ensures forall x :: x in RemoveFirst(s, e) <==> x in s && x != e
  {
    RemoveFirstAt(s, e);
    var k := IndexOf(s, e);
    var r := s[..k] + s[k + 1..];
    assert forall i :: 0 <= i < |r| ==> r[i] == if i < k then s[i] else s[i + 1];
    forall x
      ensures x in r <==> x in s && x != e
    {
      if x in s && x != e {
        var i :| 0 <= i < |s| && s[i] == x;
        assert i != k;
        if i < k { assert r[i] == x; } else { assert r[i - 1] == x; }
      }
    }
  }
}
