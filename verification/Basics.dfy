/** Vocabulary shared by every module: the library's return codes and the
    sequence operations that std::find and vector::erase stand for. */
module Basics {

  datatype Option<+T> = None | Some(value: T)

  /** RETURN_CODE.  PASSABLE is a failure after which it is fine to go on. */
  datatype ReturnCode = OK | NOK | PASSABLE

  ghost predicate Distinct<T>(s: seq<T>) {
    forall i, j :: 0 <= i < j < |s| ==> s[i] != s[j]
  }

  /** std::find: the first position that holds x, or |s|. */
  ghost function Find<T>(s: seq<T>, x: T): (i: nat)
    ensures i <= |s|
    ensures i < |s| ==> s[i] == x
    ensures forall j :: 0 <= j < i ==> s[j] != x
  {
    if |s| == 0 || s[0] == x then 0 else 1 + Find(s[1..], x)
  }

  function RemoveAt<T>(s: seq<T>, i: nat): (r: seq<T>)
    requires i < |s|
    ensures |r| == |s| - 1
    ensures forall k :: 0 <= k < |r| ==> r[k] == if k < i then s[k] else s[k + 1]
  {
    s[..i] + s[i + 1..]
  }

  /** Find followed by erase, which does nothing at end(). */
  ghost function Erase<T>(s: seq<T>, x: T): seq<T> {
    var i := Find(s, x);
    if i < |s| then RemoveAt(s, i) else s
  }

  /** All occurrences of x taken out, the others in their order. */
  ghost function Without<T>(s: seq<T>, x: T): seq<T> {
    if s == [] then []
    else (if s[0] == x then [] else [s[0]]) + Without(s[1..], x)
  }

  lemma WithoutAbsent<T>(s: seq<T>, x: T)
    requires x !in s
    ensures Without(s, x) == s
  {
  }

  lemma WithoutMembers<T>(s: seq<T>, x: T)
    ensures forall y :: y in Without(s, x) <==> y in s && y != x
    ensures Distinct(s) ==> Distinct(Without(s, x))
  {
    if s != [] {
      WithoutMembers(s[1..], x);
      assert s == [s[0]] + s[1..];
      assert Distinct(s) ==> s[0] !in s[1..];
    }
  }

  lemma WithoutCons<T>(h: T, t: seq<T>, x: T)
    ensures Without([h] + t, x) == (if h == x then [] else [h]) + Without(t, x)
  {
    assert ([h] + t)[1..] == t;
  }

  lemma {:induction false} WithoutAppend<T>(a: seq<T>, b: seq<T>, x: T)
    ensures Without(a + b, x) == Without(a, x) + Without(b, x)
  {
    if a == [] {
      assert a + b == b;
    } else {
      hide Without;
      var h, t := a[0], a[1..];
      WithoutAppend(t, b, x);
      WithoutCons(h, t, x);
      WithoutCons(h, t + b, x);
      assert a == [h] + t && a + b == [h] + (t + b);
    }
  }

  lemma RemoveOnly<T>(a: seq<T>, b: seq<T>, x: T)
    requires x !in a && x !in b
    ensures Without(a + ([x] + b), x) == a + b
  {
    hide Without;
    WithoutAbsent(a, x);
    WithoutAbsent(b, x);
    WithoutCons(x, b, x);
    WithoutAppend(a, [x] + b, x);
    assert [] + b == b;
  }

  /** On a list without repetition, erasing the first occurrence is filtering. */
  lemma EraseIsWithout<T>(s: seq<T>, x: T)
    requires Distinct(s)
    ensures Erase(s, x) == Without(s, x)
  {
    hide Without;
    var i := Find(s, x);
    if i < |s| {
      RemoveOnly(s[..i], s[i + 1..], x);
      assert s == s[..i] + ([x] + s[i + 1..]);
    } else {
      WithoutAbsent(s, x);
    }
  }
}
