/** Small shared vocabulary: optional values, results, the JavaScript
    `value || fallback` idiom on strings, the abstract distributed lock, and
    counting and division facts the other modules share. */
module Common {

  datatype Option<+T> = None | Some(value: T)

  datatype Result<+T, +E> = Ok(value: T) | Err(error: E)

  /** A JSON document that is only passed along, never inspected. */
  type Json = string

  /** JavaScript truthiness of an optional string: `undefined` and `''` are falsy. */
  predicate Truthy(s: Option<string>) {
    s.Some? && s.value != ""
  }

  /** `s || fallback` for an optional string. */
  function OrElse(s: Option<string>, fallback: string): string {
    if Truthy(s) then s.value else fallback
  }

  const DefaultLockKey: string := "redis-sharder"

  /** `lockKey || 'redis-sharder'`, the default used by every client. */
  function LockKeyOrDefault(lockKey: Option<string>): (key: string)
    ensures key != ""
    ensures Truthy(lockKey) ==> key == lockKey.value
    ensures !Truthy(lockKey) ==> key == DefaultLockKey
  {
    OrElse(lockKey, DefaultLockKey)
  }

  /** The options handed to the lock binding's `createLock`. */
  datatype LockOptions = LockOptions(timeout: int, retries: int, delay: int)

  /** How a promise returned by the lock settles: resolved with `null`,
      resolved with an `Error` value, or rejected. */
  datatype LockOutcome = Resolved | ResolvedWithError | Rejected

  // ---------------------------------------------------------------------------
  // Counting occurrences in a log.

  /** The number of times `x` occurs in `xs`. */
  function Occurrences<T(==)>(xs: seq<T>, x: T): nat {
    if xs == [] then 0 else (if xs[0] == x then 1 else 0) + Occurrences(xs[1..], x)
  }

  lemma {:induction false} OccurrencesAppend<T>(a: seq<T>, b: seq<T>, x: T)
    ensures Occurrences(a + b, x) == Occurrences(a, x) + Occurrences(b, x)
  {
    if a == [] {
      assert a + b == b;
    } else {
      assert (a + b)[1..] == a[1..] + b;
      OccurrencesAppend(a[1..], b, x);
    }
  }

  lemma {:induction false} OccurrencesAbsent<T>(xs: seq<T>, x: T)
    requires forall i | 0 <= i < |xs| :: xs[i] != x
    ensures Occurrences(xs, x) == 0
  {
    if xs != [] {
      OccurrencesAbsent(xs[1..], x);
    }
  }

  // ---------------------------------------------------------------------------
  // Exact division.

  /** Dividing a multiple of a non-zero `s` by `s` gives back the factor, with no remainder. */
  lemma QuotientOfMultiple(s: int, k: int)
    requires s != 0
    ensures (s * k) / s == k && (s * k) % s == 0
  {
    var d, r := (s * k) / s, (s * k) % s;
    assert s * k == d * s + r;
    assert (k - d) * s == r;
    if k != d {
      MulMagnitude(k - d, s);
    }
  }

  function Abs(x: int): nat { if x < 0 then -x else x }

  /** A non-zero multiple of `s` is at least as large as `s` in magnitude. */
  lemma MulMagnitude(x: int, s: int)
    requires x != 0 && s != 0
    ensures Abs(x * s) >= Abs(s)
  {
    MulAtLeast(Abs(x), Abs(s));
    if x < 0 && s < 0 { assert x * s == Abs(x) * Abs(s); }
    else if x < 0 { assert x * s == -(Abs(x) * Abs(s)); }
    else if s < 0 { assert x * s == -(Abs(x) * Abs(s)); }
  }

  lemma {:induction false} MulAtLeast(x: nat, t: nat)
    requires x >= 1
    ensures x * t >= t
  {
    if x > 1 {
      MulAtLeast(x - 1, t);
      assert x * t == (x - 1) * t + t;
    }
  }
}
