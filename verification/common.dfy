/** Failure-compatible wrappers shared by every module of the model. */
module Common {

  /** A value that may be absent (Rust's `Option`). */
  datatype Option<+T> = None | Some(value: T)

  /** A value or an error (Rust's `Result`). */
  datatype Result<+T, +E> = Ok(value: T) | Err(error: E)

  /** Rust's `u8`. */
  newtype byte = b: int | 0 <= b < 256

  /** Number of elements of `s` satisfying `p`. */
  function CountIf<T>(s: seq<T>, p: T -> bool): nat
  {
    if |s| == 0 then 0 else CountIf(s[..|s| - 1], p) + (if p(s[|s| - 1]) then 1 else 0)
  }

  lemma {:induction false} CountIfAppend<T>(a: seq<T>, b: seq<T>, p: T -> bool)
    ensures CountIf(a + b, p) == CountIf(a, p) + CountIf(b, p)
    decreases |b|
  {
    if |b| == 0 {
      assert a + b == a;
    } else {
      assert (a + b)[..|a + b| - 1] == a + b[..|b| - 1];
      CountIfAppend(a, b[..|b| - 1], p);
    }
  }

  lemma CountIfSnoc<T>(s: seq<T>, x: T, p: T -> bool)
    ensures CountIf(s + [x], p) == CountIf(s, p) + (if p(x) then 1 else 0)
  {
    assert (s + [x])[..|s|] == s;
  }

  lemma CountIfCons<T>(x: T, s: seq<T>, p: T -> bool)
    ensures CountIf([x] + s, p) == (if p(x) then 1 else 0) + CountIf(s, p)
  {
    CountIfAppend([x], s, p);
    assert [x][..0] == [];
  }

  lemma CountIfFour<T>(a: T, b: T, c: T, d: T, p: T -> bool)
    ensures CountIf([a, b, c, d], p) ==
            (if p(a) then 1 else 0) + (if p(b) then 1 else 0) + (if p(c) then 1 else 0) + (if p(d) then 1 else 0)
  {
    CountIfSnoc([], a, p);
    assert [] + [a] == [a];
    CountIfSnoc([a], b, p);
    assert [a] + [b] == [a, b];
    CountIfSnoc([a, b], c, p);
    assert [a, b] + [c] == [a, b, c];
    CountIfSnoc([a, b, c], d, p);
    assert [a, b, c] + [d] == [a, b, c, d];
  }

  lemma CountIfSix<T>(a: T, b: T, c: T, d: T, e: T, f: T, p: T -> bool)
    ensures CountIf([a, b, c, d, e, f], p) ==
            (if p(a) then 1 else 0) + (if p(b) then 1 else 0) + (if p(c) then 1 else 0) +
            (if p(d) then 1 else 0) + (if p(e) then 1 else 0) + (if p(f) then 1 else 0)
  {
    CountIfFour(a, b, c, d, p);
    CountIfSnoc([a, b, c, d], e, p);
    assert [a, b, c, d] + [e] == [a, b, c, d, e];
    CountIfSnoc([a, b, c, d, e], f, p);
    assert [a, b, c, d, e] + [f] == [a, b, c, d, e, f];
  }

  /** `f` applied to every element of `s`, the results concatenated in order. */
  function FlatMap<T, U>(f: T -> seq<U>, s: seq<T>): seq<U>
  {
    if |s| == 0 then [] else f(s[0]) + FlatMap(f, s[1..])
  }

  lemma {:induction false} FlatMapAppend<T, U>(f: T -> seq<U>, a: seq<T>, b: seq<T>)
    ensures FlatMap(f, a + b) == FlatMap(f, a) + FlatMap(f, b)
    decreases |a|
  {
    if |a| == 0 {
      assert a + b == b;
    } else {
      assert (a + b)[0] == a[0];
      assert (a + b)[1..] == a[1..] + b;
      FlatMapAppend(f, a[1..], b);
    }
  }

  /** When every element contributes exactly one matching item or none,
      counting over the concatenation is counting over the elements. */
  lemma {:induction false} FlatMapCount<T, U>(f: T -> seq<U>, s: seq<T>, p: U -> bool, q: T -> bool)
    requires forall x :: CountIf(f(x), p) == (if q(x) then 1 else 0)
    ensures CountIf(FlatMap(f, s), p) == CountIf(s, q)
  {
    if |s| > 0 {
      FlatMapCount(f, s[1..], p, q);
      CountIfAppend(f(s[0]), FlatMap(f, s[1..]), p);
      assert s == [s[0]] + s[1..];
      CountIfCons(s[0], s[1..], q);
    }
  }
}
