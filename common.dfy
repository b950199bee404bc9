/** Shared vocabulary: bytes, optional values, and flattening a chunked body. */
module Common {

  /** A byte of the HTTP body or of a spool file (Rust `u8`). */
  type byte = x: int | 0 <= x < 256

  datatype Option<+T> = None | Some(value: T) {
    /** `unwrap_or(default)` */
    function GetOr(default: T): T {
      match this
      case Some(v) => v
      case None => default
    }
  }

  /** The pieces of a chunked sequence (a response body, a run of connections), in arrival order. */
  function Flatten<T>(chunks: seq<seq<T>>): seq<T>
    decreases |chunks|
  {
    if chunks == [] then [] else chunks[0] + Flatten(chunks[1..])
  }

  /** Flattening two runs of chunks is flattening each and joining the results. */
  lemma {:induction false} FlattenAppend<T>(a: seq<seq<T>>, b: seq<seq<T>>)
    ensures Flatten(a + b) == Flatten(a) + Flatten(b)
    decreases |a|
  {
    if a != [] {
      assert (a + b)[0] == a[0] && (a + b)[1..] == a[1..] + b;
      FlattenAppend(a[1..], b);
    } else {
      assert a + b == b;
    }
  }

  /** Regrouping a concatenation, stated apart so that large proof contexts need not rediscover it. */
  lemma Regroup<T>(a: seq<T>, b: seq<T>, c: seq<T>, d: seq<T>)
    ensures a + (b + c + d) == a + b + c + d
  {
  }

  /** Associativity of concatenation, stated apart for the same reason. */
  lemma Associate<T>(a: seq<T>, b: seq<T>, c: seq<T>)
    ensures a + b + c == a + (b + c)
  {
  }

  /** `n` copies of `x`. */
  function Repeat<T>(x: T, n: nat): (r: seq<T>)
    ensures |r| == n && forall i :: 0 <= i < n ==> r[i] == x
    decreases n
  {
    if n == 0 then [] else [x] + Repeat(x, n - 1)
  }

  lemma {:induction false} RepeatAdd<T>(x: T, a: nat, b: nat)
    ensures Repeat(x, a + b) == Repeat(x, a) + Repeat(x, b)
    decreases a
  {
    if a > 0 {
      RepeatAdd(x, a - 1, b);
    }
  }
}
