/** Ordered lists of record ids, as the blog and account entities keep them
    (followers, follow requests, following blogs). */
module Sequences {

  /** No id occurs twice: the lists behave as ordered sets. */
  predicate NoDup(s: seq<int>) {
    forall i, j :: 0 <= i < j < |s| ==> s[i] != s[j]
  }

  /** Position of the first occurrence of x in s. */
  function IndexOf(s: seq<int>, x: int): (i: nat)
    requires x in s
    ensures i < |s| && s[i] == x && x !in s[..i]
  {
    if s[0] == x then 0
    else
      var j := IndexOf(s[1..], x);
      assert s[..j + 1] == [s[0]] + s[1..][..j];
      j + 1
  }

  /** x and y both occur in s, and the first x comes before the first y. */
  predicate Before(s: seq<int>, x: int, y: int) {
    x in s && y in s && IndexOf(s, x) < IndexOf(s, y)
  }

  /** Positions in t are one less than the same ids' positions in h :: t. */
  lemma IndexOfCons(h: int, t: seq<int>, x: int)
    requires x in t && x != h
    ensures IndexOf([h] + t, x) == IndexOf(t, x) + 1
  {
    assert ([h] + t)[1..] == t;
  }

  /** java.util.List.remove(Object): drops the first occurrence of x, if there is one. */
  function Remove(s: seq<int>, x: int): (r: seq<int>) {
    if s == [] then []
    else if s[0] == x then s[1..]
    else [s[0]] + Remove(s[1..], x)
  }

  /** Cutting position j + 1 out of h :: t is cutting position j out of t. */
  lemma SpliceCons(h: int, t: seq<int>, j: nat)
    requires j < |t|
    ensures ([h] + t)[..j + 1] + ([h] + t)[j + 2..] == [h] + (t[..j] + t[j + 1..])
  {
    assert ([h] + t)[..j + 1] == [h] + t[..j];
    assert ([h] + t)[j + 2..] == t[j + 1..];
  }

  /** Remove leaves a list without x alone, and otherwise cuts out exactly the
      position of the first x. */
  lemma {:induction false} RemoveFirst(s: seq<int>, x: int)
    ensures x !in s ==> Remove(s, x) == s
    ensures x in s ==> Remove(s, x) == s[..IndexOf(s, x)] + s[IndexOf(s, x) + 1..]
  {
    if s != [] && s[0] != x {
      var h, t := s[0], s[1..];
      assert s == [h] + t;
      RemoveFirst(t, x);
      assert Remove(s, x) == [h] + Remove(t, x);
      if x in t {
        var j := IndexOf(t, x);
        assert IndexOf(s, x) == j + 1;
        SpliceCons(h, t, j);
      }
    }
  }

  /** Cutting position i out of a list without duplicates removes exactly the id
      stored there and keeps the list a set. */
  lemma CutFromSet(s: seq<int>, i: nat)
    requires NoDup(s) && i < |s|
    ensures NoDup(s[..i] + s[i + 1..])
    ensures forall y :: y in s[..i] + s[i + 1..] <==> y in s && y != s[i]
  {
    var r := s[..i] + s[i + 1..];
    assert |r| == |s| - 1;
    assert forall p :: 0 <= p < i ==> r[p] == s[p];
    assert forall p :: i <= p < |r| ==> r[p] == s[p + 1];
    forall p, q | 0 <= p < q < |r| ensures r[p] != r[q] {
      var p', q' := (if p < i then p else p + 1), (if q < i then q else q + 1);
      assert r[p] == s[p'] && r[q] == s[q'] && p' < q';
    }
    forall y | y in r ensures y in s && y != s[i] {
      var p :| 0 <= p < |r| && r[p] == y;
      var p' := if p < i then p else p + 1;
      assert s[p'] == y && p' != i;
    }
    forall y | y in s && y != s[i] ensures y in r {
      var q :| 0 <= q < |s| && s[q] == y;
      if q < i { assert r[q] == y; } else { assert r[q - 1] == y; }
    }
  }

  /** On a list without duplicates, removing x removes exactly x and keeps the list a set. */
  lemma RemoveFromSet(s: seq<int>, x: int)
    requires NoDup(s)
    ensures NoDup(Remove(s, x))
    ensures forall y :: y in Remove(s, x) <==> y in s && y != x
  {
    RemoveFirst(s, x);
    if x in s {
      CutFromSet(s, IndexOf(s, x));
    }
  }

  /** Appending an id that is not yet there keeps the list a set. */
  lemma AppendToSet(s: seq<int>, x: int)
    requires NoDup(s) && x !in s
    ensures NoDup(s + [x])
    ensures forall y :: y in s + [x] <==> y in s || y == x
  {
  }
}
