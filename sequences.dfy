/** Order-preserving filtering and mapping of sequences, the two shapes in which
    the registry walks its arrays (skip what fails a test, keep the rest in order). */
module Sequences {

  /** The elements of `s` that satisfy `f`, in their original order. Defined on the
      prefix so that it follows a left-to-right loop step by step. */
  function Keep<T>(s: seq<T>, f: T -> bool): (r: seq<T>)
    ensures |r| <= |s|
  {
    if s == [] then []
    else Keep(s[..|s| - 1], f) + (if f(s[|s| - 1]) then [s[|s| - 1]] else [])
  }

  /** `f` applied to every element of `s`, in order. */
  function Map<T, U>(s: seq<T>, f: T -> U): (r: seq<U>)
    ensures |r| == |s|
    ensures forall i :: 0 <= i < |s| ==> r[i] == f(s[i])
  {
    seq(|s|, i requires 0 <= i < |s| => f(s[i]))
  }

  /** One more element at the end adds at most that element at the end of the filter. */
  lemma KeepSnoc<T>(s: seq<T>, x: T, f: T -> bool)
    ensures Keep(s + [x], f) == Keep(s, f) + (if f(x) then [x] else [])
  {
    assert (s + [x])[..|s + [x]| - 1] == s;
  }

  /** Mapping commutes with appending one element. */
  lemma MapSnoc<T, U>(s: seq<T>, x: T, f: T -> U)
    ensures Map(s + [x], f) == Map(s, f) + [f(x)]
  {
  }

  /** Extending the prefix `s[..i]` by one element adds at most that element's
      image at the end of the filtered map. */
  lemma KeepMapStep<T, U>(s: seq<T>, i: nat, f: T -> bool, g: T -> U)
    requires i < |s|
    ensures Map(Keep(s[..i + 1], f), g) == Map(Keep(s[..i], f), g) + (if f(s[i]) then [g(s[i])] else [])
  {
    assert s[..i + 1] == s[..i] + [s[i]];
    KeepSnoc(s[..i], s[i], f);
    if f(s[i]) {
      MapSnoc(Keep(s[..i], f), s[i], g);
    } else {
      assert Keep(s[..i + 1], f) == Keep(s[..i], f);
    }
  }

  /** An element survives the filter exactly when it occurs in `s` and passes `f`. */
  lemma {:induction false} KeepMembers<T>(s: seq<T>, f: T -> bool)
    ensures forall x :: x in Keep(s, f) ==> x in s && f(x)
    ensures forall x :: x in s && f(x) ==> x in Keep(s, f)
  {
    if s != [] {
      var p := s[..|s| - 1];
      KeepMembers(p, f);
      assert s == p + [s[|s| - 1]];
    }
  }

  /** The filter keeps everything exactly when every element passes. */
  lemma {:induction false} KeepAll<T>(s: seq<T>, f: T -> bool)
    ensures Keep(s, f) == s <==> forall x :: x in s ==> f(x)
  {
    if s != [] {
      var p, last := s[..|s| - 1], s[|s| - 1];
      assert s == p + [last];
      KeepAll(p, f);
      if f(last) {
        assert Keep(s, f) == Keep(p, f) + [last];
        if Keep(s, f) == s {
          assert Keep(p, f) == Keep(s, f)[..|p|];
        }
      } else {
        assert Keep(s, f) == Keep(p, f);
        assert last in s;
      }
    }
  }

  /** The filter is empty exactly when no element passes. */
  lemma {:induction false} KeepNone<T>(s: seq<T>, f: T -> bool)
    ensures Keep(s, f) == [] <==> forall x :: x in s ==> !f(x)
  {
    KeepMembers(s, f);
    if Keep(s, f) != [] {
      var x := Keep(s, f)[0];
      assert x in Keep(s, f);
      assert x in s && f(x);
    }
  }
}
