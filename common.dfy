/** Values shared by every part of the benchmark model: bytes, optional values,
    the ways a benchmark can fail, and the few string operations the
    report serialisers need. */
module Common {

  /** One element of a `Uint8Array`. */
  type byte = x: int | 0 <= x < 256

  datatype Option<+T> = None | Some(value: T)

  /** Why a computation threw instead of producing a value. */
  datatype Failure =
    | EmptyReduce          // `reduce` without an initial value on an empty array (a TypeError)
    | ProviderRejected     // the platform's crypto provider rejected generateKey, sign or verify
    | InvalidArrayLength   // `new Uint8Array(size)` with a negative size (a RangeError)
    | QuotaExceeded        // `crypto.getRandomValues` asked for too many bytes (a QuotaExceededError)

  datatype Result<+T> = Success(value: T) | Failure(error: Failure)

  /** `Math.ceil(a / b)` for a positive divisor, in exact arithmetic. */
  function CeilDiv(a: int, b: int): (q: int)
    requires b > 0
    ensures q * b >= a
    ensures (q - 1) * b < a
  {
    -((-a) / b)
  }

  /** `q` is the least integer whose multiple of `b` reaches `a`. */
  lemma CeilDivIsLeast(a: int, b: int, q: int)
    requires b > 0
    requires q * b >= a
    ensures CeilDiv(a, b) <= q
  {
    var x := CeilDiv(a, b) - 1 - q;
    assert x * b == (CeilDiv(a, b) - 1) * b - q * b;
    NonNegativeProduct(x, b);
  }

  lemma NonNegativeProduct(x: int, b: int)
    requires b > 0
    ensures x >= 0 ==> x * b >= 0
  {
  }

  /** `xs.join(sep)`. */
  function Join(xs: seq<string>, sep: string): (r: string)
    ensures |xs| == 0 ==> r == ""
    ensures |xs| == 1 ==> r == xs[0]
  {
    if |xs| == 0 then ""
    else if |xs| == 1 then xs[0]
    else Join(xs[..|xs| - 1], sep) + sep + xs[|xs| - 1]
  }

  /** `s.split(c)` for a one-character separator: the pieces between the
      occurrences of `c`, of which there is always at least one. */
  function Split(s: string, c: char): (parts: seq<string>)
    ensures |parts| > 0
  {
    if |s| == 0 then [""]
    else
      var init := Split(s[..|s| - 1], c);
      if s[|s| - 1] == c then init + [""]
      else init[..|init| - 1] + [init[|init| - 1] + [s[|s| - 1]]]
  }

  /** A separator followed by text free of it starts exactly one new piece. */
  lemma {:induction false} SplitAppend(a: string, b: string, c: char)
    requires c !in b
    ensures Split(a + [c] + b, c) == Split(a, c) + [b]
  {
    if |b| == 0 {
      assert a + [c] + b == a + [c];
      assert (a + [c])[..|a|] == a;
    } else {
      var s := a + [c] + b;
      var b' := b[..|b| - 1];
      assert s[..|s| - 1] == a + [c] + b';
      assert b[|b| - 1] in b;
      SplitAppend(a, b', c);
      assert b' + [b[|b| - 1]] == b;
    }
  }

  /** Splitting undoes joining, so long as no piece holds the separator. */
  lemma {:induction false} SplitJoin(xs: seq<string>, c: char)
    requires |xs| > 0
    requires forall i :: 0 <= i < |xs| ==> c !in xs[i]
    ensures Split(Join(xs, [c]), c) == xs
  {
    if |xs| == 1 {
      SplitFree(xs[0], c);
    } else {
      var init := xs[..|xs| - 1];
      SplitJoin(init, c);
      SplitAppend(Join(init, [c]), xs[|xs| - 1], c);
      assert init + [xs[|xs| - 1]] == xs;
    }
  }

  /** Text without the separator is a single piece. */
  lemma {:induction false} SplitFree(s: string, c: char)
    requires c !in s
    ensures Split(s, c) == [s]
  {
    if |s| > 0 {
      assert s[|s| - 1] in s;
      assert s[..|s| - 1] <= s;
      SplitFree(s[..|s| - 1], c);
      assert s[..|s| - 1] + [s[|s| - 1]] == s;
    }
  }

  /** A joined text holds a character only if a piece or the separator does. */
  lemma {:induction false} JoinAvoids(xs: seq<string>, sep: string, c: char)
    requires c !in sep
    requires forall i :: 0 <= i < |xs| ==> c !in xs[i]
    ensures c !in Join(xs, sep)
  {
    if |xs| > 1 {
      JoinAvoids(xs[..|xs| - 1], sep, c);
    }
  }

  /** `"=".repeat(n)` and friends. */
  function RepeatChar(c: char, n: nat): (r: string)
    ensures |r| == n
    ensures forall i :: 0 <= i < n ==> r[i] == c
  {
    seq(n, _ => c)
  }
}
