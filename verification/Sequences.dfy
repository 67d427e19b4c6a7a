/** Values shared by every module, and counting over the lists a cloud service returns. */
module Sequences {
  datatype Option<+T> = None | Some(value: T)

  /** The number of elements of `s` that satisfy `p`. */
  function Count<T>(p: T -> bool, s: seq<T>): nat {
    if s == [] then 0
    else Count(p, s[..|s| - 1]) + (if p(s[|s| - 1]) then 1 else 0)
  }

  /** The elements of `s` that satisfy `p`, in order. */
  function Keep<T(!new)>(p: T -> bool, s: seq<T>): (r: seq<T>)
    ensures forall x :: x in r <==> x in s && p(x)
  {
    if s == [] then []
    else Keep(p, s[..|s| - 1]) + (if p(s[|s| - 1]) then [s[|s| - 1]] else [])
  }

  lemma {:induction false} CountConcat<T>(p: T -> bool, s: seq<T>, t: seq<T>)
    ensures Count(p, s + t) == Count(p, s) + Count(p, t)
  {
    if t == [] {
      assert s + t == s;
    } else {
      assert (s + t)[..|s + t| - 1] == s + t[..|t| - 1];
      CountConcat(p, s, t[..|t| - 1]);
    }
  }

  lemma {:induction false} CountAll<T>(p: T -> bool, s: seq<T>)
    requires forall x | x in s :: p(x)
    ensures Count(p, s) == |s|
  {
    if s != [] {
      CountAll(p, s[..|s| - 1]);
    }
  }

  /** A list counts zero exactly when no element satisfies the predicate. */
  lemma {:induction false} CountZero<T>(p: T -> bool, s: seq<T>)
    ensures Count(p, s) == 0 <==> forall x | x in s :: !p(x)
  {
    if s != [] {
      CountZero(p, s[..|s| - 1]);
      assert s == s[..|s| - 1] + [s[|s| - 1]];
    }
  }

  /** Appending elements that all satisfy `p` counts them all; appending others changes nothing. */
  lemma CountGrown<T>(p: T -> bool, s: seq<T>, t: seq<T>)
    requires s <= t
    ensures (forall i | |s| <= i < |t| :: p(t[i])) ==> Count(p, t) == Count(p, s) + |t| - |s|
    ensures (forall i | |s| <= i < |t| :: !p(t[i])) ==> Count(p, t) == Count(p, s)
  {
    var a := t[|s|..];
    assert t == s + a;
    CountConcat(p, s, a);
    CountZero(p, a);
    if forall i | |s| <= i < |t| :: p(t[i]) {
      CountAll(p, a);
    }
  }

  /** Removing elements never raises a count. */
  lemma {:induction false} CountKeep<T(!new)>(p: T -> bool, q: T -> bool, s: seq<T>)
    ensures Count(p, Keep(q, s)) <= Count(p, s)
  {
    if s != [] {
      CountKeep(p, q, s[..|s| - 1]);
      CountConcat(p, Keep(q, s[..|s| - 1]), if q(s[|s| - 1]) then [s[|s| - 1]] else []);
      assert Keep(q, s) == Keep(q, s[..|s| - 1]) + (if q(s[|s| - 1]) then [s[|s| - 1]] else []);
      assert [s[|s| - 1]][..0] == [];
    }
  }

  /** Replacing each element by one that satisfies `p` no more often never raises a count. */
  lemma {:induction false} CountPointwise<T>(p: T -> bool, s: seq<T>, t: seq<T>)
    requires |s| == |t|
    requires forall i | 0 <= i < |s| :: p(t[i]) ==> p(s[i])
    ensures Count(p, t) <= Count(p, s)
  {
    if s != [] {
      CountPointwise(p, s[..|s| - 1], t[..|t| - 1]);
    }
  }

  /** The first element that satisfies `p`. */
  function First<T>(p: T -> bool, s: seq<T>): (r: Option<T>)
    ensures r.Some? ==> r.value in s && p(r.value)
    ensures r.None? ==> forall i | 0 <= i < |s| :: !p(s[i])
  {
    if s == [] then None
    else if p(s[0]) then Some(s[0])
    else First(p, s[1..])
  }

  /** At this place the predicate holds, and nowhere before it. */
  predicate FoundAt<T>(p: T -> bool, s: seq<T>, i: int) {
    0 <= i < |s| && p(s[i]) && forall n | 0 <= n < i :: !p(s[n])
  }

  /** What a search finds is the element at that place, if there is one. */
  lemma {:induction false} FirstAt<T>(p: T -> bool, s: seq<T>)
    ensures First(p, s).Some? <==> exists i :: FoundAt(p, s, i)
    ensures forall i | FoundAt(p, s, i) :: First(p, s) == Some(s[i])
  {
    if s != [] {
      if p(s[0]) {
        assert FoundAt(p, s, 0);
      } else {
        FirstAt(p, s[1..]);
        forall i | FoundAt(p, s, i) ensures FoundAt(p, s[1..], i - 1) {
        }
        if i :| FoundAt(p, s[1..], i) {
          assert FoundAt(p, s, i + 1);
        }
      }
    }
  }

  /** A search fails exactly when the count is zero. */
  lemma FirstNone<T>(p: T -> bool, s: seq<T>)
    ensures First(p, s).None? <==> Count(p, s) == 0
  {
    CountZero(p, s);
  }

  /** Appending does not change what was found first. */
  lemma {:induction false} FirstPrefix<T>(p: T -> bool, s: seq<T>, t: seq<T>)
    requires s <= t && First(p, s).Some?
    ensures First(p, t) == First(p, s)
  {
    if !p(s[0]) {
      FirstPrefix(p, s[1..], t[1..]);
    }
  }

  /** What is kept begins with what is found first. */
  lemma {:induction false} KeepFirst<T(!new)>(p: T -> bool, s: seq<T>)
    ensures if Keep(p, s) == [] then First(p, s).None? else First(p, s) == Some(Keep(p, s)[0])
  {
    if s != [] {
      var front, last := s[..|s| - 1], s[|s| - 1];
      KeepFirst(p, front);
      assert s == front + [last];
      if Keep(p, front) != [] {
        FirstPrefix(p, front, s);
      }
    }
  }

  /** Where `x` first occurs, or the length if it does not. */
  function IndexOf<T(==)>(s: seq<T>, x: T): (i: nat)
    ensures i <= |s| && (forall k | 0 <= k < i :: s[k] != x) && (i < |s| ==> s[i] == x)
  {
    if s == [] || s[0] == x then 0 else 1 + IndexOf(s[1..], x)
  }

  /** The linear scan behind every find-by-name call. */
  method FindFirst<T>(p: T -> bool, s: seq<T>) returns (r: Option<T>)
    ensures r == First(p, s)
  {
    for i := 0 to |s|
      invariant First(p, s) == First(p, s[i..])
    {
      if p(s[i]) {
        return Some(s[i]);
      }
      assert s[i..][1..] == s[i + 1..];
    }
    assert s[|s|..] == [];
    r := None;
  }
}
