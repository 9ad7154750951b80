/** Small shared vocabulary: an Option type, real-number helpers, sums and string helpers. */
module Common {

  /** Rust's `Option`. */
  datatype Option<+T> = None | Some(value: T) {
    function GetOr(default: T): T {
      match this
      case Some(v) => v
      case None => default
    }
  }

  /** 2^64: the modulus of Rust's `u64`. */
  const U64Modulus: int := 0x1_0000_0000_0000_0000

  /** `a.wrapping_sub(b)` on `u64` values, i.e. the release-build meaning of `a - b`. */
  function WrappingSub(a: nat, b: nat): (r: nat)
    requires a < U64Modulus && b < U64Modulus
    ensures r < U64Modulus
    ensures b <= a ==> r == a - b
    ensures a < b ==> r == U64Modulus - (b - a)
  {
    (a - b) % U64Modulus
  }

  /** 2^63: the bound of Rust's `i64`. */
  const I64Bound: int := 0x8000_0000_0000_0000

  /** `x as i64` for a `u64` value: values from 2^63 up wrap to negatives. */
  function U64AsI64(x: nat): (v: int)
    requires x < U64Modulus
    ensures -I64Bound <= v < I64Bound
    ensures x < I64Bound ==> v == x
  {
    if x < I64Bound then x else x - U64Modulus
  }

  /** `v as u64` for an `i64` value: negatives wrap to values from 2^63 up. */
  function I64AsU64(v: int): (x: nat)
    requires -I64Bound <= v < I64Bound
    ensures x < U64Modulus
    ensures v >= 0 ==> x == v
  {
    if v >= 0 then v else v + U64Modulus
  }

  /** The two casts are inverse to each other, so a `u64` survives a round trip through an `i64` column. */
  lemma CastRoundTrip(x: nat, v: int)
    requires x < U64Modulus && -I64Bound <= v < I64Bound
    ensures I64AsU64(U64AsI64(x)) == x
    ensures U64AsI64(I64AsU64(v)) == v
  {
  }

  /**
   * The value of an `f64` quotient whose operands are finite: a zero divisor
   * gives an infinity of the dividend's sign, or NaN for 0/0.
   */
  datatype Quotient = Finite(value: real) | PosInfinity | NegInfinity | NotANumber {
    /** `q * k` for a positive finite factor `k`. */
    function Scale(k: real): Quotient
      requires k > 0.0
    {
      match this
      case Finite(v) => Finite(v * k)
      case _ => this
    }

    /** `q > t` for a finite `t`; NaN compares false. */
    predicate Gt(t: real) {
      match this
      case Finite(v) => v > t
      case PosInfinity => true
      case _ => false
    }

    /** `q < t` for a finite `t`; NaN compares false. */
    predicate Lt(t: real) {
      match this
      case Finite(v) => v < t
      case NegInfinity => true
      case _ => false
    }
  }

  /** `num / den` on finite operands, with a zero divisor read as positive zero. */
  function Div(num: real, den: real): (q: Quotient)
    ensures den != 0.0 ==> q == Finite(num / den)
    ensures den == 0.0 ==> (q.Gt(0.0) <==> num > 0.0) && (q.Lt(0.0) <==> num < 0.0)
  {
    if den != 0.0 then Finite(num / den)
    else if num > 0.0 then PosInfinity
    else if num < 0.0 then NegInfinity
    else NotANumber
  }

  /**
   * `(now - base) / base * unit` for a positive `unit` (100 for percent,
   * 10000 for basis points), with the `f64` outcomes of a zero base.
   */
  function RelativeChange(now: real, base: real, unit: real): Quotient
    requires unit > 0.0
  {
    Div(now - base, base).Scale(unit)
  }

  /** A value compared with itself shows no change: never above a non-negative threshold, never below a non-positive one. */
  lemma NoChangeAgainstItself(price: real, unit: real, t: real)
    requires unit > 0.0
    ensures t >= 0.0 ==> !RelativeChange(price, price, unit).Gt(t)
    ensures t <= 0.0 ==> !RelativeChange(price, price, unit).Lt(t)
  {
    assert price - price == 0.0;
    if price != 0.0 {
      ZeroOver(price);
      assert Div(0.0, price) == Finite(0.0);
      assert RelativeChange(price, price, unit) == Finite(0.0);
    } else {
      assert RelativeChange(price, price, unit) == NotANumber;
    }
  }

  lemma ZeroOver(d: real)
    requires d != 0.0
    ensures 0.0 / d == 0.0
  {
    assert (0.0 / d) * d == 0.0;
  }

  /** A quotient is never both above and below the same threshold. */
  lemma QuotientTrichotomy(q: Quotient, t: real)
    ensures !(q.Gt(t) && q.Lt(t))
  {
  }

  function Abs(x: real): real {
    if x < 0.0 then -x else x
  }

  function Max(a: real, b: real): real {
    if a < b then b else a
  }

  function Min(a: real, b: real): real {
    if a < b then a else b
  }

  /** Sum of a sequence of naturals, folded from the front. */
  function NatSum(s: seq<nat>): nat {
    if s == [] then 0 else s[0] + NatSum(s[1..])
  }

  /** Sum of a sequence of reals, folded from the front. */
  function RealSum(s: seq<real>): real {
    if s == [] then 0.0 else s[0] + RealSum(s[1..])
  }

  /** Overwriting one element changes the sum by the difference. */
  lemma {:induction false} NatSumUpdate(s: seq<nat>, k: nat, v: nat)
    requires k < |s|
    ensures NatSum(s[k := v]) == NatSum(s) - s[k] + v
  {
    if k > 0 {
      assert s[k := v][1..] == s[1..][k - 1 := v];
      NatSumUpdate(s[1..], k - 1, v);
    } else {
      assert s[k := v][1..] == s[1..];
    }
  }

  /** Every element is at most the sum. */
  lemma {:induction false} NatSumBoundsElement(s: seq<nat>, k: nat)
    requires k < |s|
    ensures s[k] <= NatSum(s)
  {
    if k > 0 {
      NatSumBoundsElement(s[1..], k - 1);
    }
  }

  /** Dividing every element by `d` divides the sum by `d`. */
  lemma {:induction false} RealSumScaled(s: seq<real>, t: seq<real>, d: real)
    requires d != 0.0
    requires |t| == |s|
    requires forall i :: 0 <= i < |s| ==> t[i] == s[i] / d
    ensures RealSum(t) == RealSum(s) / d
  {
    if s != [] {
      RealSumScaled(s[1..], t[1..], d);
    }
  }

  /** A sum of naturals, read as a real, is the real sum of the same values. */
  lemma {:induction false} NatSumAsReal(s: seq<nat>, t: seq<real>)
    requires |t| == |s|
    requires forall i :: 0 <= i < |s| ==> t[i] == s[i] as real
    ensures RealSum(t) == NatSum(s) as real
  {
    if s != [] {
      NatSumAsReal(s[1..], t[1..]);
    }
  }

  /** The decimal rendering of a natural number, as Rust's `to_string`/`{}` prints it. */
  function NatToString(n: nat): (s: string)
    ensures |s| >= 1
    ensures forall i :: 0 <= i < |s| ==> '0' <= s[i] <= '9'
    decreases n
  {
    var digit := ['0' + (n % 10) as char];
    if n < 10 then digit else NatToString(n / 10) + digit
  }

  /** Whether `needle` occurs as a contiguous substring of `s` (Rust's `str::contains`). */
  predicate Contains(s: string, needle: string)
    decreases |s|
  {
    (|needle| <= |s| && s[..|needle|] == needle) || (s != [] && Contains(s[1..], needle))
  }

  /** ASCII upper-casing of one character. */
  function UpperChar(c: char): char {
    if 'a' <= c <= 'z' then (c as int - 32) as char else c
  }

  /** ASCII upper-casing of a string. */
  function ToUpper(s: string): (r: string)
    ensures |r| == |s|
    ensures forall i :: 0 <= i < |s| ==> r[i] == UpperChar(s[i])
  {
    seq(|s|, i requires 0 <= i < |s| => UpperChar(s[i]))
  }

  /** Number of occurrences of `c` in `s`. */
  function CountChar(s: string, c: char): nat {
    if s == [] then 0 else (if s[0] == c then 1 else 0) + CountChar(s[1..], c)
  }

  /** Rust's `str::split(sep)` for a one-character separator: the pieces between separators. */
  function Split(s: string, sep: char): (parts: seq<string>)
    ensures |parts| == CountChar(s, sep) + 1
    ensures forall i :: 0 <= i < |parts| ==> sep !in parts[i]
    decreases |s|
  {
    if s == [] then [""]
    else
      var rest := Split(s[1..], sep);
      if s[0] == sep then [""] + rest
      else [[s[0]] + rest[0]] + rest[1..]
  }

  /** Splitting `a + [sep] + b`, with no separator in `a` or `b`, gives back `a` and `b`. */
  lemma {:induction false} SplitJoin(a: string, b: string, sep: char)
    requires sep !in a && sep !in b
    ensures Split(a + [sep] + b, sep) == [a, b]
    decreases |a|
  {
    if a == [] {
      assert [sep] + b == a + [sep] + b;
      SplitNoSep(b, sep);
      assert ([sep] + b)[1..] == b;
    } else {
      assert (a + [sep] + b)[1..] == a[1..] + [sep] + b;
      SplitJoin(a[1..], b, sep);
      assert [a[0]] + a[1..] == a;
    }
  }

  /** A string without the separator splits into itself. */
  lemma {:induction false} SplitNoSep(s: string, sep: char)
    requires sep !in s
    ensures Split(s, sep) == [s]
    decreases |s|
  {
    if s != [] {
      assert sep !in s[1..];
      SplitNoSep(s[1..], sep);
      assert [s[0]] + s[1..] == s;
    }
  }
}
