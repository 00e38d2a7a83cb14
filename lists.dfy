/** `MutableList.remove(element)`: drops the first occurrence, if any. */
module Lists {

  predicate NoDuplicates<T(==)>(s: seq<T>)
  {
    forall i, j :: 0 <= i < j < |s| ==> s[i] != s[j]
  }

  function RemoveFirst<T(==)>(s: seq<T>, x: T): (r: seq<T>)
    ensures |r| == if x in s then |s| - 1 else |s|
    ensures forall y :: y in r ==> y in s
  {
    if s == [] then []
    else if s[0] == x then s[1..]
    else [s[0]] + RemoveFirst(s[1..], x)
  }

  /** Position of the first occurrence of `x`. */
  function IndexOf<T(==)>(s: seq<T>, x: T): (i: nat)
    requires x in s
    ensures i < |s| && s[i] == x && x !in s[..i]
  {
    if s[0] == x then 0 else 1 + IndexOf(s[1..], x)
  }

  /** Removing an element that is absent changes nothing. */
  lemma {:induction false} RemoveFirstAbsent<T>(s: seq<T>, x: T)
    requires x !in s
    ensures RemoveFirst(s, x) == s
  {
    if s != [] {
      RemoveFirstAbsent(s[1..], x);
    }
  }

  /** The structural half of `RemoveFirstPresent`. */
  lemma {:induction false} RemoveFirstSplices<T>(s: seq<T>, x: T)
    requires x in s
    ensures RemoveFirst(s, x) == s[..IndexOf(s, x)] + s[IndexOf(s, x) + 1..]
  {
    if s[0] != x {
      RemoveFirstSplices(s[1..], x);
      var i := IndexOf(s[1..], x);
      calc {
        RemoveFirst(s, x);
        [s[0]] + (s[1..][..i] + s[1..][i + 1..]);
        { assert s[1..][..i] == s[1..i + 1]; assert s[1..][i + 1..] == s[i + 2..]; }
        [s[0]] + (s[1..i + 1] + s[i + 2..]);
        { assert [s[0]] + s[1..i + 1] == s[..i + 1]; }
        s[..i + 1] + s[i + 2..];
      }
    }
  }

  /** Removing a present element cuts out exactly its first occurrence and
      keeps every other element in order. */
  lemma {:induction false} RemoveFirstPresent<T>(s: seq<T>, x: T)
    requires x in s
    ensures RemoveFirst(s, x) == s[..IndexOf(s, x)] + s[IndexOf(s, x) + 1..]
    ensures multiset(RemoveFirst(s, x)) == multiset(s) - multiset{x}
  {
    RemoveFirstSplices(s, x);
    var i := IndexOf(s, x);
    var before, after := s[..i], s[i + 1..];
    assert s == before + [x] + after;
    assert multiset(s) == multiset(before) + multiset{x} + multiset(after);
    assert multiset(before + after) == multiset(before) + multiset(after);
  }

  /** Every element of the spliced list sits one place left of where it was
      in `s` once past the cut. */
  lemma SpliceIndex<T>(s: seq<T>, i: nat)
    requires i < |s|
    ensures |s[..i] + s[i + 1..]| == |s| - 1
    ensures forall k :: 0 <= k < |s| - 1 ==> (s[..i] + s[i + 1..])[k] == if k < i then s[k] else s[k + 1]
  {
  }

  /** Cutting out position `i` keeps every value other than `s[i]`. */
  lemma SpliceKeepsOthers<T>(s: seq<T>, i: nat, y: T)
    requires i < |s| && y != s[i]
    ensures y in s[..i] + s[i + 1..] <==> y in s
  {
    var r := s[..i] + s[i + 1..];
    SpliceIndex(s, i);
    if y in s {
      var j :| 0 <= j < |s| && s[j] == y;
      if j < i { assert r[j] == y; } else { assert r[j - 1] == y; }
    }
    if y in r {
      var j :| 0 <= j < |r| && r[j] == y;
      if j < i { assert s[j] == y; } else { assert s[j + 1] == y; }
    }
  }

  /** Cutting a position out of a duplicate-free list removes that value
      entirely and keeps the list duplicate-free. */
  lemma SpliceNoDuplicates<T>(s: seq<T>, i: nat)
    requires i < |s| && NoDuplicates(s)
    ensures s[i] !in s[..i] + s[i + 1..]
    ensures NoDuplicates(s[..i] + s[i + 1..])
  {
    var r := s[..i] + s[i + 1..];
    SpliceIndex(s, i);
    forall k | 0 <= k < |r| ensures r[k] != s[i] {
      if k >= i { assert s[i] != s[k + 1]; } else { assert s[k] != s[i]; }
    }
    forall a, b | 0 <= a < b < |r| ensures r[a] != r[b] {
      var a' := if a < i then a else a + 1;
      var b' := if b < i then b else b + 1;
      assert r[a] == s[a'] && r[b] == s[b'];
    }
  }

  /** In a list without duplicates, removal takes the element out entirely,
      keeps the list free of duplicates, and leaves every other element in. */
  lemma {:induction false} RemoveFirstNoDuplicates<T>(s: seq<T>, x: T)
    requires NoDuplicates(s)
    ensures x !in RemoveFirst(s, x)
    ensures NoDuplicates(RemoveFirst(s, x))
    ensures forall y :: y != x ==> (y in RemoveFirst(s, x) <==> y in s)
  {
    if x in s {
      RemoveFirstSplices(s, x);
      var i := IndexOf(s, x);
      SpliceNoDuplicates(s, i);
      forall y | y != x ensures y in RemoveFirst(s, x) <==> y in s {
        SpliceKeepsOthers(s, i, y);
      }
    } else {
      RemoveFirstAbsent(s, x);
    }
  }
}
