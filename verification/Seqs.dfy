/**
 Sequence vocabulary shared by the models: splitting and joining on a separator (Python's
 `str.split(sep)`, JavaScript's `split(sep)`), concatenation of pieces, occurrence counts; and the least
 and greatest of two numbers.
 */
module Seqs {

  datatype Option<+T> = None | Some(value: T)

  function Min(a: int, b: int): int { if a <= b then a else b }

  function Max(a: int, b: int): int { if a >= b then a else b }

  function Last<T>(s: seq<T>): T
    requires s != []
  {
    s[|s| - 1]
  }

  function Init<T>(s: seq<T>): seq<T>
    requires s != []
  {
    s[..|s| - 1]
  }

  /** The pieces between consecutive separators; always at least one piece. */
  function SplitOn<T(==)>(s: seq<T>, sep: T): (parts: seq<seq<T>>)
    ensures |parts| > 0
    ensures forall p | p in parts :: sep !in p
  {
    if s == [] then [[]]
    else if s[0] == sep then [[]] + SplitOn(s[1..], sep)
    else
      var rest := SplitOn(s[1..], sep);
      [[s[0]] + rest[0]] + rest[1..]
  }

  function Join<T>(parts: seq<seq<T>>, sep: T): seq<T>
    requires |parts| > 0
  {
    if |parts| == 1 then parts[0] else parts[0] + [sep] + Join(parts[1..], sep)
  }

  function Flatten<T>(parts: seq<seq<T>>): seq<T> {
    if parts == [] then [] else parts[0] + Flatten(parts[1..])
  }

  function Count<T(==)>(s: seq<T>, x: T): nat {
    if s == [] then 0 else (if s[0] == x then 1 else 0) + Count(s[1..], x)
  }

  function FirstIndex<T(==)>(s: seq<T>, x: T): (k: nat)
    requires x in s
    ensures k < |s| && s[k] == x && x !in s[..k]
  {
    if s[0] == x then 0
    else
      assert s == [s[0]] + s[1..];
      var k := FirstIndex(s[1..], x) + 1;
      assert s[..k] == [s[0]] + s[1..][..k - 1];
      k
  }

  /** A sequence with `x` in it, taken apart around the first `x`. */
  lemma CutAtFirst<T>(s: seq<T>, x: T) returns (a: seq<T>, b: seq<T>)
    requires x in s
    ensures s == a + [x] + b && x !in a
  {
    var k := FirstIndex(s, x);
    a, b := s[..k], s[k + 1..];
  }

  lemma Associates<T>(a: seq<T>, b: seq<T>, c: seq<T>)
    ensures a + (b + c) == (a + b) + c
  {
  }

  function MapSeq<A, B>(f: A -> B, s: seq<A>): (r: seq<B>)
    ensures |r| == |s|
    ensures forall i | 0 <= i < |s| :: r[i] == f(s[i])
  {
    seq(|s|, i requires 0 <= i < |s| => f(s[i]))
  }

  function Fold<S, A>(f: (S, A) -> S, s: S, xs: seq<A>): S
    decreases |xs|
  {
    if xs == [] then s else Fold(f, f(s, xs[0]), xs[1..])
  }

  lemma {:induction false} FoldConcat<S, A>(f: (S, A) -> S, s: S, a: seq<A>, b: seq<A>)
    ensures Fold(f, s, a + b) == Fold(f, Fold(f, s, a), b)
    decreases |a|
  {
    if a == [] {
      assert a + b == b;
    } else {
      FoldConcat(f, f(s, a[0]), a[1..], b);
      assert (a + b)[1..] == a[1..] + b;
    }
  }

  /** Repeats `step` until it declines, at most `times` times. */
  function Iterate<S>(step: S -> Option<S>, s: S, times: nat): S
    decreases times
  {
    if times == 0 then s
    else
      var next := step(s);
      if next.None? then s else Iterate(step, next.value, times - 1)
  }

  lemma {:induction false} IterateKeeps<S(!new)>(step: S -> Option<S>, s: S, times: nat, good: S -> bool)
    requires good(s)
    requires forall x :: good(x) && step(x).Some? ==> good(step(x).value)
    ensures good(Iterate(step, s, times))
    decreases times
  {
    if times > 0 && step(s).Some? { IterateKeeps(step, step(s).value, times - 1, good); }
  }

  lemma {:induction false} CountConcat<T>(a: seq<T>, b: seq<T>, x: T)
    ensures Count(a + b, x) == Count(a, x) + Count(b, x)
  {
    if a == [] {
      assert a + b == b;
    } else {
      CountConcat(a[1..], b, x);
      assert (a + b)[1..] == a[1..] + b;
    }
  }

  lemma {:induction false} FlattenConcat<T>(a: seq<seq<T>>, b: seq<seq<T>>)
    ensures Flatten(a + b) == Flatten(a) + Flatten(b)
  {
    if a == [] {
      assert a + b == b;
    } else {
      FlattenConcat(a[1..], b);
      assert (a + b)[1..] == a[1..] + b;
      Associates(a[0], Flatten(a[1..]), Flatten(b));
    }
  }

  lemma {:induction false} SplitLength<T>(s: seq<T>, sep: T)
    ensures |SplitOn(s, sep)| == Count(s, sep) + 1
  {
    if s != [] { SplitLength(s[1..], sep); }
  }

  lemma {:induction false} SplitAbsent<T>(s: seq<T>, sep: T)
    requires sep !in s
    ensures SplitOn(s, sep) == [s]
  {
    if s != [] {
      SplitAbsent(s[1..], sep);
      assert s == [s[0]] + s[1..];
    }
  }

  /** Two lists of pieces glued at the seam: the last piece of `a` continues into the first of `b`. */
  function Glue<T>(a: seq<seq<T>>, b: seq<seq<T>>): (r: seq<seq<T>>)
    requires a != [] && b != []
    ensures r != []
  {
    Init(a) + [Last(a) + b[0]] + b[1..]
  }

  /** Splitting a concatenation: the last piece of `a` and the first piece of `b` grow together. */
  lemma {:induction false} SplitConcat<T>(a: seq<T>, b: seq<T>, sep: T)
    ensures SplitOn(a + b, sep) == Glue(SplitOn(a, sep), SplitOn(b, sep))
  {
    var sb := SplitOn(b, sep);
    if a == [] {
      assert a + b == b;
      assert [] + sb[0] == sb[0];
    } else {
      SplitConcat(a[1..], b, sep);
      assert (a + b)[1..] == a[1..] + b;
      GlueFirst(a[0], SplitOn(a[1..], sep), sb);
    }
  }

  /** Only the last piece of `a` is still open: the rest of a split never changes again. */
  lemma SplitContinue<T>(a: seq<T>, b: seq<T>, sep: T)
    ensures SplitOn(a + b, sep) == Init(SplitOn(a, sep)) + SplitOn(Last(SplitOn(a, sep)) + b, sep)
  {
    hide SplitOn;
    var last := Last(SplitOn(a, sep));
    SplitConcat(a, b, sep);
    SplitConcat(last, b, sep);
    SplitAbsent(last, sep);
  }

  lemma InitOfConcat<T>(a: seq<T>, b: seq<T>)
    requires b != []
    ensures Init(a + b) == a + Init(b) && Last(a + b) == Last(b)
  {
  }

  lemma GlueFirst<T>(x: T, a: seq<seq<T>>, b: seq<seq<T>>)
    requires a != [] && b != []
    ensures Glue([[]] + a, b) == [[]] + Glue(a, b)
    ensures Glue([[x] + a[0]] + a[1..], b) == [[x] + Glue(a, b)[0]] + Glue(a, b)[1..]
  {
    var e: seq<T> := [];
    assert Init([e] + a) == [e] + Init(a);
    if |a| == 1 {
      assert [x] + (a[0] + b[0]) == ([x] + a[0]) + b[0];
    } else {
      assert Init([[x] + a[0]] + a[1..]) == [[x] + a[0]] + Init(a)[1..];
    }
  }

  lemma {:induction false} JoinSplit<T>(s: seq<T>, sep: T)
    ensures Join(SplitOn(s, sep), sep) == s
  {
    if s != [] {
      JoinSplit(s[1..], sep);
      var rest := SplitOn(s[1..], sep);
      if s[0] == sep {
        assert ([[]] + rest)[1..] == rest;
      } else {
        assert ([[s[0]] + rest[0]] + rest[1..])[1..] == rest[1..];
      }
    }
  }

  lemma SplitAtFirst<T>(a: seq<T>, sep: T, b: seq<T>)
    requires sep !in a
    ensures SplitOn(a + [sep] + b, sep) == [a] + SplitOn(b, sep)
  {
    SplitAbsent(a, sep);
    var tail := [sep] + b;
    assert tail[1..] == b;
    SplitConcat(a, tail, sep);
    assert a + [sep] + b == a + tail;
    assert a + [] == a;
  }

  /** Joining is undone by splitting exactly because no part contains the separator. */
  lemma {:induction false} SplitJoin<T>(parts: seq<seq<T>>, sep: T)
    requires |parts| > 0
    requires forall p | p in parts :: sep !in p
    ensures SplitOn(Join(parts, sep), sep) == parts
  {
    if |parts| == 1 {
      SplitAbsent(parts[0], sep);
    } else {
      SplitJoin(parts[1..], sep);
      SplitAtFirst(parts[0], sep, Join(parts[1..], sep));
    }
  }
}
