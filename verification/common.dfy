/**
 * Shared helpers: the Option and Result wrappers, Min and Max on reals, one
 * monotonicity fact of multiplication, and an order-preserving FlatMap.
 */
module Common {
  datatype Option<T> = None | Some(value: T)

  datatype Result<T, E> = Ok(value: T) | Err(error: E)

  function Min(a: real, b: real): real { if a <= b then a else b }

  function Max(a: real, b: real): real { if a >= b then a else b }

  /** Multiplying by a positive factor keeps the order. */
  lemma MulMonotone(a: real, b: real, c: real)
    requires a <= b && c > 0.0
    ensures a * c <= b * c
  {
  }

  /** The concatenation of f(x) over the elements x of s, in order. */
  function FlatMap<T, U>(s: seq<T>, f: T -> seq<U>): seq<U>
    decreases |s|
  {
    if s == [] then [] else FlatMap(s[..|s| - 1], f) + f(s[|s| - 1])
  }

  lemma FlatMapSnoc<T, U>(s: seq<T>, x: T, f: T -> seq<U>)
    ensures FlatMap(s + [x], f) == FlatMap(s, f) + f(x)
  {
    assert (s + [x])[..|s + [x]| - 1] == s;
  }

  /** FlatMap distributes over concatenation, so the order of the input is the order of the output. */
  lemma {:induction false} FlatMapAppend<T, U>(a: seq<T>, b: seq<T>, f: T -> seq<U>)
    ensures FlatMap(a + b, f) == FlatMap(a, f) + FlatMap(b, f)
    decreases |b|
  {
    if b == [] {
      assert a + b == a;
    } else {
      var init, last := b[..|b| - 1], b[|b| - 1];
      assert b == init + [last];
      calc {
        FlatMap(a + b, f);
        { assert a + b == (a + init) + [last]; }
        FlatMap((a + init) + [last], f);
        { FlatMapSnoc(a + init, last, f); }
        FlatMap(a + init, f) + f(last);
        { FlatMapAppend(a, init, f); }
        FlatMap(a, f) + FlatMap(init, f) + f(last);
        { FlatMapSnoc(init, last, f); }
        FlatMap(a, f) + FlatMap(init + [last], f);
      }
    }
  }
}
