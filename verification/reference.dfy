/** The booking reference `HS-<code>-<time>`: `code` is up to six base-36
    digits of a random number, upper-cased, and `time` is the last four
    decimal digits of the clock in milliseconds. The random rendering and the
    clock are inputs. */
module Reference {
  import opened Common

  function Clamp(x: int, lo: int, hi: int): int
    requires lo <= hi
  {
    if x < lo then lo else if x > hi then hi else x
  }

  /** `s.substring(start, end)`: both ends clamped into the string, swapped
      when reversed. */
  function Substring(s: string, start: int, end: int): (r: string)
    ensures 0 <= start <= end ==> |r| <= end - start
    ensures 0 <= start <= end <= |s| ==> r == s[start..end]
  {
    var a := Clamp(start, 0, |s|);
    var b := Clamp(end, 0, |s|);
    if a <= b then s[a..b] else s[b..a]
  }

  function UpperChar(c: char): char {
    if 'a' <= c <= 'z' then (c as int - 32) as char else c
  }

  /** `toUpperCase` on the ASCII letters a base-36 rendering can contain. */
  function ToUpper(s: string): (r: string)
    ensures |r| == |s|
    ensures forall i :: 0 <= i < |s| ==> r[i] == UpperChar(s[i])
  {
    seq(|s|, i requires 0 <= i < |s| => UpperChar(s[i]))
  }

  // ---------------------------------------------------------------------
  // Decimal rendering of the clock

  function DigitChar(d: int): char
    requires 0 <= d <= 9
  {
    ('0' as int + d) as char
  }

  /** `n.toString()`. */
  function Decimal(n: nat): (r: string)
    ensures |r| >= 1
    ensures forall i :: 0 <= i < |r| ==> '0' <= r[i] <= '9'
  {
    if n < 10 then [DigitChar(n)] else Decimal(n / 10) + [DigitChar(n % 10)]
  }

  /** The number a string of decimal digits denotes (leading zeros allowed). */
  function DigitsValue(s: string): int {
    if s == [] then 0 else 10 * DigitsValue(s[..|s| - 1]) + (s[|s| - 1] as int - '0' as int)
  }

  function Pow10(k: nat): (p: nat)
    ensures p >= 1
  {
    if k == 0 then 1 else 10 * Pow10(k - 1)
  }

  /** `s.slice(-k)` for k >= 1: the last k characters, or all of a shorter string. */
  function Last(s: string, k: nat): (r: string)
    ensures |r| == if |s| <= k then |s| else k
    ensures r == s[|s| - |r|..]
  {
    if |s| <= k then s else s[|s| - k..]
  }

  lemma {:induction false} DecimalValue(n: nat)
    ensures DigitsValue(Decimal(n)) == n
    ensures n < Pow10(|Decimal(n)|)
    decreases n
  {
    if n >= 10 {
      DecimalValue(n / 10);
      var d := Decimal(n);
      assert d[..|d| - 1] == Decimal(n / 10);
    }
  }

  lemma ModOfSplit(n: nat, m: nat)
    requires m > 0
    ensures 10 * ((n / 10) % m) + n % 10 == n % (10 * m)
  {
    var q, r := n / 10, n % 10;
    var a, b := q / m, q % m;
    assert q == m * a + b;
    assert n == 10 * q + r;
    assert n == (10 * m) * a + (10 * b + r) by {
      calc {
        n;
        10 * q + r;
        10 * (m * a + b) + r;
        { assert 10 * (m * a) == (10 * m) * a; }
        (10 * m) * a + (10 * b + r);
      }
    }
    assert 0 <= 10 * b + r < 10 * m;
    ModUnique(n, 10 * m, a, 10 * b + r);
  }

  lemma MulAtLeast(d: int, y: int)
    requires d > 0 && y > 0
    ensures d * y >= d
  {
  }

  /** Euclidean division has one remainder. */
  lemma ModUnique(n: int, d: int, a: int, x: int)
    requires d > 0 && n == d * a + x && 0 <= x < d
    ensures n % d == x
  {
    var q, r := n / d, n % d;
    assert d * (q - a) == x - r;
    assert (q - a > 0 ==> d * (q - a) >= d) by { if q - a > 0 { MulAtLeast(d, q - a); } }
    assert (a - q > 0 ==> d * (a - q) >= d) by { if a - q > 0 { MulAtLeast(d, a - q); } }
  }

  lemma DigitsValueSnoc(s: string, d: int)
    requires 0 <= d <= 9
    ensures DigitsValue(s + [DigitChar(d)]) == 10 * DigitsValue(s) + d
  {
    assert (s + [DigitChar(d)])[..|s|] == s;
  }

  lemma LastSnoc(hi: string, c: char, k: nat)
    requires 1 <= k <= |hi|
    ensures Last(hi + [c], k) == Last(hi, k - 1) + [c]
  {
    var s := hi + [c];
    assert Last(s, k) == s[|s| - k..];
    assert Last(hi, k - 1) == hi[|hi| - (k - 1)..];
    assert s[|s| - k..] == hi[|hi| - (k - 1)..] + [c];
  }

  lemma DecimalSnoc(n: nat)
    requires n >= 10
    ensures Decimal(n) == Decimal(n / 10) + [DigitChar(n % 10)]
  {
  }

  lemma ShortDecimalMod(n: nat, k: nat)
    requires |Decimal(n)| <= k
    ensures n % Pow10(k) == n
  {
    DecimalValue(n);
    Pow10Monotone(|Decimal(n)|, k);
    ModUnique(n, Pow10(k), 0, n);
  }

  /** The last k digits of the clock denote the clock modulo 10^k. */
  lemma {:induction false} LastDigitsValue(n: nat, k: nat)
    requires k >= 1
    ensures DigitsValue(Last(Decimal(n), k)) == n % Pow10(k)
    decreases n
  {
    var d := Decimal(n);
    if |d| <= k {
      ShortDecimalMod(n, k);
      DecimalValue(n);
    } else {
      var hi := Decimal(n / 10);
      DecimalSnoc(n);
      LastSnoc(hi, DigitChar(n % 10), k);
      DigitsValueSnoc(Last(hi, k - 1), n % 10);
      assert DigitsValue(Last(d, k)) == 10 * DigitsValue(Last(hi, k - 1)) + n % 10;
      if k > 1 {
        LastDigitsValue(n / 10, k - 1);
        ModOfSplit(n, Pow10(k - 1));
        assert Pow10(k) == 10 * Pow10(k - 1);
      } else {
        assert Last(hi, 0) == [];
        assert Pow10(1) == 10;
      }
    }
  }

  lemma {:induction false} Pow10Monotone(i: nat, j: nat)
    requires i <= j
    ensures Pow10(i) <= Pow10(j)
    decreases j
  {
    if i < j {
      Pow10Monotone(i, j - 1);
    }
  }

  // ---------------------------------------------------------------------
  // The reference

  predicate Base36Char(c: char) {
    '0' <= c <= '9' || 'a' <= c <= 'z'
  }

  /** What `Math.random().toString(36)` produces: "0", or "0." followed by
      base-36 digits. */
  predicate RandomRendering(s: string) {
    s == "0" || (|s| >= 2 && s[..2] == "0." && forall i :: 2 <= i < |s| ==> Base36Char(s[i]))
  }

  function Code(random36: string): string {
    ToUpper(Substring(random36, 2, 8))
  }

  function TimeSuffix(now: nat): string {
    Last(Decimal(now), 4)
  }

  function Make(random36: string, now: nat): string {
    "HS-" + Code(random36) + "-" + TimeSuffix(now)
  }

  /** Reads a reference back into its code and time suffix. */
  function Split(r: string): Option<(string, string)> {
    if |r| < 3 || r[..3] != "HS-" then None
    else
      var rest := r[3..];
      var code := TakeUntil(rest, '-');
      if |code| == |rest| then None else Some((code, rest[|code| + 1..]))
  }

  /** The code is at most six upper-case base-36 digits. */
  lemma CodeShape(random36: string)
    requires RandomRendering(random36)
    ensures |Code(random36)| <= 6
    ensures forall i :: 0 <= i < |Code(random36)| ==>
      '0' <= Code(random36)[i] <= '9' || 'A' <= Code(random36)[i] <= 'Z'
  {
    var raw := Substring(random36, 2, 8);
    if |random36| >= 2 {
      var e := if |random36| < 8 then |random36| else 8;
      assert raw == random36[2..e];
      assert forall i :: 0 <= i < |raw| ==> Base36Char(raw[i]) by {
        assert forall i :: 0 <= i < |raw| ==> raw[i] == random36[i + 2];
      }
    } else {
      assert raw == [];
    }
  }

  /** Any code without a dash reads back out of a reference. */
  lemma SplitJoin(code: string, suffix: string)
    requires '-' !in code
    ensures Split("HS-" + code + "-" + suffix) == Some((code, suffix))
  {
    var r := "HS-" + code + "-" + suffix;
    assert r[..3] == "HS-";
    var rest := r[3..];
    assert rest == code + "-" + suffix;
    assert rest[..|code|] == code;
    TakeUntilUnique(rest, '-', code);
    assert rest[|code| + 1..] == suffix;
  }

  lemma CodeHasNoDash(random36: string)
    requires RandomRendering(random36)
    ensures '-' !in Code(random36)
  {
    CodeShape(random36);
    var code := Code(random36);
    assert forall i :: 0 <= i < |code| ==> code[i] != '-';
  }

  /** A reference reads back into its parts: a code of at most six
      upper-case base-36 digits and a suffix of one to four decimal digits
      that denotes the clock modulo 10000. */
  lemma ReferenceParts(random36: string, now: nat)
    requires RandomRendering(random36)
    ensures Split(Make(random36, now)) == Some((Code(random36), TimeSuffix(now)))
    ensures |Code(random36)| <= 6
    ensures 1 <= |TimeSuffix(now)| <= 4
    ensures DigitsValue(TimeSuffix(now)) == now % 10000
  {
    CodeShape(random36);
    CodeHasNoDash(random36);
    SplitJoin(Code(random36), TimeSuffix(now));
    LastDigitsValue(now, 4);
    assert Pow10(4) == 10000;
  }
}
