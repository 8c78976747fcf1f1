/** The few pieces of Python's string behaviour that the run summary relies on. */
module PyStr {

  /** One decimal digit of `d`. */
  function Digit(d: nat): (c: char)
    requires d < 10
    ensures '0' <= c <= '9'
    ensures c as int - '0' as int == d
  {
    ['0', '1', '2', '3', '4', '5', '6', '7', '8', '9'][d]
  }

  /** Python's `str(n)` for a non-negative integer: its decimal digits, without leading zeros. */
  function DecimalString(n: nat): (s: string)
    ensures |s| >= 1
    ensures forall i :: 0 <= i < |s| ==> '0' <= s[i] <= '9'
    ensures s[0] == '0' ==> n == 0
    ensures |s| > 1 ==> s[0] != '0'
    decreases n
  {
    if n < 10 then [Digit(n)] else DecimalString(n / 10) + [Digit(n % 10)]
  }

  /** Reads a string of decimal digits back as a number: the inverse of `DecimalString`. */
  function ParseDecimal(s: string): nat
    requires forall i :: 0 <= i < |s| ==> '0' <= s[i] <= '9'
  {
    if |s| == 0 then 0
    else 10 * ParseDecimal(s[..|s| - 1]) + (s[|s| - 1] as int - '0' as int)
  }

  /** `str(n)` can be read back as `n`. */
  lemma {:induction false} DecimalRoundTrip(n: nat)
    ensures ParseDecimal(DecimalString(n)) == n
    decreases n
  {
    var s := DecimalString(n);
    if n >= 10 {
      DecimalRoundTrip(n / 10);
      assert s[..|s| - 1] == DecimalString(n / 10);
    }
  }

  /** The number of occurrences of `c` in `s`. */
  function CountChar(s: string, c: char): (k: nat)
    ensures k <= |s|
    ensures k == 0 <==> c !in s
  {
    if |s| == 0 then 0
    else CountChar(s[..|s| - 1], c) + (if s[|s| - 1] == c then 1 else 0)
  }

  /** Counting a character distributes over concatenation. */
  lemma {:induction false} CountCharAppend(a: string, b: string, c: char)
    ensures CountChar(a + b, c) == CountChar(a, c) + CountChar(b, c)
    decreases |b|
  {
    if |b| > 0 {
      var b' := b[..|b| - 1];
      assert (a + b)[..|a + b| - 1] == a + b';
      CountCharAppend(a, b', c);
    } else {
      assert a + b == a;
    }
  }

  /** Python's `x[-k:]` for `k > 0`: the last `k` characters, or all of `x` when it is shorter. */
  function SliceFromEnd(x: string, k: nat): (r: string)
    requires k > 0
    ensures |r| == if |x| >= k then k else |x|
    ensures |x| <= k ==> r == x
    ensures forall i :: 0 <= i < |r| ==> r[i] == x[|x| - |r| + i]
  {
    if |x| >= k then x[|x| - k..] else x
  }
}
