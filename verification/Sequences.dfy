/** Order-preserving facts about sequences without repetitions, which is what every
    list of the kernel is: an intrusive node can be on a list at most once. */
module Sequences {

  datatype Option<+T> = None | Some(value: T)

  ghost predicate NoDup<T>(s: seq<T>) {
    forall i, j :: 0 <= i < j < |s| ==> s[i] != s[j]
  }

  /** `s` without the first occurrence of `x`: what unlinking a node does to its list. */
  function Remove<T(==)>(s: seq<T>, x: T): (r: seq<T>)
    ensures x !in s ==> r == s
    ensures x in s ==> |r| == |s| - 1
    ensures forall y :: y in r ==> y in s
    ensures forall y :: y in s && y != x ==> y in r
  {
    if s == [] then []
    else if s[0] == x then s[1..]
    else [s[0]] + Remove(s[1..], x)
  }

  lemma {:induction false} RemoveNoDup<T>(s: seq<T>, x: T)
    requires NoDup(s)
    ensures NoDup(Remove(s, x)) && x !in Remove(s, x)
  {
    if s != [] && s[0] != x {
      RemoveNoDup(s[1..], x);
      assert s[0] !in s[1..];
    }
  }

  lemma {:induction false} RemoveAppend<T>(s: seq<T>, t: seq<T>, x: T)
    ensures x !in s ==> Remove(s + t, x) == s + Remove(t, x)
    ensures x in s ==> Remove(s + t, x) == Remove(s, x) + t
  {
    if s == [] {
      assert s + t == t;
    } else {
      assert (s + t)[0] == s[0] && (s + t)[1..] == s[1..] + t;
      if s[0] != x {
        RemoveAppend(s[1..], t, x);
        assert x in s <==> x in s[1..];
      }
    }
  }

  function InsertAt<T>(s: seq<T>, i: nat, x: T): seq<T>
    requires i <= |s|
  {
    s[..i] + [x] + s[i..]
  }

  lemma InsertMembers<T>(s: seq<T>, i: nat, x: T)
    requires i <= |s|
    ensures forall y :: y in InsertAt(s, i, x) <==> y in s || y == x
  {
    var r := InsertAt(s, i, x);
    forall y | y in s || y == x ensures y in r {
      if y in s {
        var j :| 0 <= j < |s| && s[j] == y;
        assert r[if j < i then j else j + 1] == y;
      } else {
        assert r[i] == y;
      }
    }
  }

  lemma InsertNoDup<T>(s: seq<T>, i: nat, x: T)
    requires i <= |s| && NoDup(s) && x !in s
    ensures NoDup(InsertAt(s, i, x))
  {
  }

  lemma AppendNoDup<T>(s: seq<T>, x: T)
    requires NoDup(s) && x !in s
    ensures NoDup(s + [x])
  {
  }

  lemma PrependNoDup<T>(s: seq<T>, x: T)
    requires NoDup(s) && x !in s
    ensures NoDup([x] + s)
  {
  }
}
