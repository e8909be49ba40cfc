/** Weighted sums over sequences. A channel, a queue and a table are all sequences here, so one
    notion of sum states every conservation law of the simulator: counting is a sum of zeros and ones. */
module Sums {

  function Sum<T>(s: seq<T>, f: T -> int): int
  {
    if s == [] then 0 else Sum(s[..|s| - 1], f) + f(s[|s| - 1])
  }

  /** The sequence without its element at index `i`. */
  function RemoveAt<T>(s: seq<T>, i: nat): (r: seq<T>)
    requires i < |s|
    ensures |r| == |s| - 1
  {
    s[..i] + s[i + 1..]
  }

  ghost predicate NonNegative<T(!new)>(f: T -> int)
  {
    forall x :: f(x) >= 0
  }

  ghost predicate Zero<T>(s: seq<T>, f: T -> int)
  {
    forall i :: 0 <= i < |s| ==> f(s[i]) == 0
  }

  lemma SumOne<T>(x: T, f: T -> int)
    ensures Sum([x], f) == f(x)
  {
    assert [x][..0] == [];
  }

  lemma SumAppend<T>(s: seq<T>, x: T, f: T -> int)
    ensures Sum(s + [x], f) == Sum(s, f) + f(x)
  {
    assert (s + [x])[..|s|] == s;
  }

  lemma {:induction false} SumConcat<T>(a: seq<T>, b: seq<T>, f: T -> int)
    ensures Sum(a + b, f) == Sum(a, f) + Sum(b, f)
  {
    if b == [] {
      assert a + b == a;
    } else {
      SumConcat(a, b[..|b| - 1], f);
      assert (a + b)[..|a + b| - 1] == a + b[..|b| - 1];
    }
  }

  lemma SumSplit<T>(s: seq<T>, i: nat, f: T -> int)
    requires i < |s|
    ensures Sum(s, f) == Sum(s[..i], f) + f(s[i]) + Sum(s[i + 1..], f)
  {
    SumAppend(s[..i], s[i], f);
    SumConcat(s[..i] + [s[i]], s[i + 1..], f);
    assert s == s[..i] + [s[i]] + s[i + 1..];
  }

  lemma SumRemove<T>(s: seq<T>, i: nat, f: T -> int)
    requires i < |s|
    ensures Sum(RemoveAt(s, i), f) == Sum(s, f) - f(s[i])
  {
    SumSplit(s, i, f);
    SumConcat(s[..i], s[i + 1..], f);
  }

  lemma SumInsert<T>(s: seq<T>, x: T, i: nat, f: T -> int)
    requires i <= |s|
    ensures Sum(s[..i] + [x] + s[i..], f) == Sum(s, f) + f(x)
  {
    var a, b := s[..i], s[i..];
    SumAppend(a, x, f);
    SumConcat(a + [x], b, f);
    SumConcat(a, b, f);
    assert s == a + b;
  }

  lemma SumUpdate<T>(s: seq<T>, i: nat, x: T, f: T -> int)
    requires i < |s|
    ensures Sum(s[i := x], f) == Sum(s, f) - f(s[i]) + f(x)
  {
    SumSplit(s, i, f);
    SumSplit(s[i := x], i, f);
    assert s[i := x][..i] == s[..i];
    assert s[i := x][i + 1..] == s[i + 1..];
  }

  lemma {:induction false} SumNonNegative<T(!new)>(s: seq<T>, f: T -> int)
    requires NonNegative(f)
    ensures Sum(s, f) >= 0
  {
    if s != [] {
      SumNonNegative(s[..|s| - 1], f);
    }
  }

  /** A sum of non-negative terms is at least any one of them. */
  lemma SumAtLeast<T(!new)>(s: seq<T>, i: nat, f: T -> int)
    requires NonNegative(f) && i < |s|
    ensures Sum(s, f) >= f(s[i])
  {
    SumRemove(s, i, f);
    SumNonNegative(RemoveAt(s, i), f);
  }

  lemma {:induction false} SumZero<T>(s: seq<T>, f: T -> int)
    requires Zero(s, f)
    ensures Sum(s, f) == 0
  {
    if s != [] {
      SumZero(s[..|s| - 1], f);
    }
  }

  lemma {:induction false} SumPositive<T>(s: seq<T>, f: T -> int) returns (i: nat)
    requires Sum(s, f) > 0
    ensures i < |s| && f(s[i]) > 0
  {
    if f(s[|s| - 1]) > 0 {
      i := |s| - 1;
    } else {
      i := SumPositive(s[..|s| - 1], f);
    }
  }

  /** Sums of measures that agree on every element agree. */
  lemma {:induction false} SumSame<T>(s: seq<T>, f: T -> int, g: T -> int)
    requires forall i :: 0 <= i < |s| ==> f(s[i]) == g(s[i])
    ensures Sum(s, f) == Sum(s, g)
  {
    if s != [] {
      SumSame(s[..|s| - 1], f, g);
    }
  }

  lemma {:induction false} SumLinear<T>(s: seq<T>, f: T -> int, g: T -> int, h: T -> int, c: int)
    requires forall i :: 0 <= i < |s| ==> h(s[i]) == f(s[i]) + c * g(s[i])
    ensures Sum(s, h) == Sum(s, f) + c * Sum(s, g)
  {
    if s != [] {
      SumLinear(s[..|s| - 1], f, g, h, c);
    }
  }

  function One<T>(): T -> int
  {
    (_: T) => 1
  }

  lemma {:induction false} SumOfOnes<T>(s: seq<T>)
    ensures Sum(s, One<T>()) == |s|
  {
    if s != [] {
      SumOfOnes(s[..|s| - 1]);
    }
  }

  lemma {:induction false} SumConstant<T>(s: seq<T>, f: T -> int, c: int)
    requires forall i :: 0 <= i < |s| ==> f(s[i]) == c
    ensures Sum(s, f) == c * |s|
  {
    if s != [] {
      SumConstant(s[..|s| - 1], f, c);
    }
  }
}
