/** Decimal numbers as text: Go's `%d` and `%04d`, `strconv.Atoi`, and the two ways a
    shell may read a number in `$(( ))`. */
module Decimal {
  import opened Text

  predicate IsDigit(c: char) { '0' <= c <= '9' }

  predicate AllDigits(s: string) {
    forall i | 0 <= i < |s| :: IsDigit(s[i])
  }

  function DigitChar(k: nat): (c: char)
    requires k < 10
    ensures IsDigit(c)
  {
    ('0' as int + k) as char
  }

  function DigitValue(c: char): (v: nat)
    requires IsDigit(c)
    ensures v < 10
  {
    c as int - '0' as int
  }

  // At least `width` digits, zero-padded on the left: `%0<width>d`.
  function Pad(n: nat, width: nat): (s: string)
    ensures AllDigits(s) && |s| >= 1 && |s| >= width
    decreases n + width
  {
    if n < 10 && width <= 1 then [DigitChar(n)]
    else Pad(n / 10, if width > 0 then width - 1 else 0) + [DigitChar(n % 10)]
  }

  function Value(s: string): nat
    requires AllDigits(s)
  {
    if s == "" then 0 else 10 * Value(s[..|s| - 1]) + DigitValue(s[|s| - 1])
  }

  lemma {:induction false} ValueOfPad(n: nat, width: nat)
    ensures Value(Pad(n, width)) == n
    decreases n + width
  {
    if n < 10 && width <= 1 {
      assert Pad(n, width)[..0] == "";
    } else {
      var w := if width > 0 then width - 1 else 0;
      ValueOfPad(n / 10, w);
      var s := Pad(n, width);
      assert s[..|s| - 1] == Pad(n / 10, w);
    }
  }

  // strconv.Atoi: an optional sign and at least one digit.
  function Atoi(s: string): Option<int> {
    if s != "" && (s[0] == '-' || s[0] == '+') then
      if |s| > 1 && AllDigits(s[1..]) then
        var v: int := Value(s[1..]);
        Some(if s[0] == '-' then -v else v)
      else None
    else if s != "" && AllDigits(s) then Some(Value(s))
    else None
  }

  lemma AtoiOfPad(n: nat, width: nat)
    ensures Atoi(Pad(n, width)) == Some(n)
  {
    ValueOfPad(n, width);
    assert IsDigit(Pad(n, width)[0]);
  }

  // -------------------------------------------------------------------------
  // Order: digits of one length compare as their values
  // -------------------------------------------------------------------------

  function Pow10(k: nat): (p: nat)
    ensures p >= 1
  {
    if k == 0 then 1 else 10 * Pow10(k - 1)
  }

  lemma {:induction false} ValueBelow(s: string)
    requires AllDigits(s)
    ensures Value(s) < Pow10(|s|)
  {
    if s != "" {
      ValueBelow(s[..|s| - 1]);
    }
  }

  lemma Regroup(a: int, b: int)
    ensures a * (10 * b) == 10 * (a * b)
  {
  }

  lemma {:induction false} ValueSplit(p: string, q: string)
    requires AllDigits(p) && AllDigits(q)
    ensures AllDigits(p + q) && Value(p + q) == Value(p) * Pow10(|q|) + Value(q)
  {
    if q == "" {
      assert p + q == p;
    } else {
      var q' := q[..|q| - 1];
      ValueSplit(p, q');
      assert (p + q)[..|p + q| - 1] == p + q';
      assert Value(p + q) == 10 * Value(p + q') + DigitValue(q[|q| - 1]);
      assert Pow10(|q|) == 10 * Pow10(|q'|);
      Regroup(Value(p), Pow10(|q'|));
    }
  }

  lemma {:induction false} SameLengthOrder(a: string, b: string)
    requires |a| == |b| && AllDigits(a) && AllDigits(b)
    ensures Before(a, b) <==> Value(a) < Value(b)
    ensures a == b <==> Value(a) == Value(b)
  {
    if a != "" {
      var k := |a| - 1;
      SameLengthOrder(a[..k], b[..k]);
      assert a == a[..k] + [a[k]] && b == b[..k] + [b[k]];
      BeforeBack(a[..k], b[..k], [a[k]], [b[k]]);
    }
  }

  lemma MultipleGrows(k: int, m: int)
    requires m >= 0
    ensures k >= 1 ==> k * m >= m
    ensures k <= -1 ==> k * m <= -m
  {
    if k >= 1 {
      assert k * m == m + (k - 1) * m;
    } else if k <= -1 {
      assert k * m == -m - (-k - 1) * m;
    }
  }

  lemma DivideSplit(p: nat, m: nat, r: nat)
    requires r < m
    ensures (p * m + r) / m == p
  {
    var x := p * m + r;
    var q := x / m;
    assert x == q * m + x % m;
    assert (q - p) * m == q * m - p * m;
    MultipleGrows(q - p, m);
  }

  // Cutting digits off the right divides.
  lemma FrontValue(t: string, k: nat)
    requires AllDigits(t) && k <= |t|
    ensures Value(t[..k]) == Value(t) / Pow10(|t| - k)
  {
    assert t == t[..k] + t[k..];
    ValueSplit(t[..k], t[k..]);
    ValueBelow(t[k..]);
    DivideSplit(Value(t[..k]), Pow10(|t| - k), Value(t[k..]));
  }

  lemma DottedFront(s: string, t: string, x: string, y: string)
    requires AllDigits(s) && AllDigits(t) && |s| <= |t|
    requires |s| == |t| ==> s != t
    ensures Before(s + "." + x, t + "." + y) <==> Before(s, t[..|s|]) || s == t[..|s|]
  {
    var p, q := t[..|s|], t[|s|..];
    assert t == p + q;
    assert s + "." + x == s + ("." + x);
    assert t + "." + y == p + (q + "." + y);
    BeforeBack(s, p, "." + x, q + "." + y);
    if q != "" {
      assert (q + "." + y)[0] == q[0] == t[|s|];
    } else {
      assert p == t;
    }
  }

  // Two zero-padded numbers, each followed by a dot, sort by text as the text of the longer
  // one, cut to the length of the shorter, compares with it.
  lemma DottedOrder(a: nat, b: nat, x: string, y: string)
    requires a < b && |Pad(a, 4)| <= |Pad(b, 4)|
    ensures Before(Pad(a, 4) + "." + x, Pad(b, 4) + "." + y)
       <==> a <= b / Pow10(|Pad(b, 4)| - |Pad(a, 4)|)
  {
    var s, t := Pad(a, 4), Pad(b, 4);
    ValueOfPad(a, 4);
    ValueOfPad(b, 4);
    DottedFront(s, t, x, y);
    FrontValue(t, |s|);
    SameLengthOrder(s, t[..|s|]);
  }

  lemma {:induction false} PadLength(n: nat, width: nat, k: nat)
    requires k >= 1 && k >= width && n < Pow10(k)
    ensures |Pad(n, width)| <= k
    decreases k
  {
    assert Pow10(1) == 10 * Pow10(0);
    if k > 1 {
      PadLength(n / 10, if width > 0 then width - 1 else 0, k - 1);
    }
  }

  // A longer number is not shorter on paper.
  lemma {:induction false} PadLengthMonotone(a: nat, b: nat, width: nat)
    requires a <= b
    ensures |Pad(a, width)| <= |Pad(b, width)|
    decreases b + width
  {
    if !(b < 10 && width <= 1) && !(a < 10 && width <= 1) {
      PadLengthMonotone(a / 10, b / 10, if width > 0 then width - 1 else 0);
    }
  }

  // -------------------------------------------------------------------------
  // Numbers in shell arithmetic
  // -------------------------------------------------------------------------

  function OctalValue(s: string): Option<nat>
    requires AllDigits(s)
  {
    if s == "" then Some(0)
    else
      var front := OctalValue(s[..|s| - 1]);
      var d := DigitValue(s[|s| - 1]);
      if front.None? || d >= 8 then None else Some(8 * front.value + d)
  }

  // A constant as section 2.6.4 of POSIX.1-2017 XCU reads it: a leading zero means octal.
  function PosixConstant(s: string): Option<nat>
    requires AllDigits(s) && s != ""
  {
    if |s| > 1 && s[0] == '0' then OctalValue(s) else Some(Value(s))
  }

  lemma {:induction false} NoLeadingZero(n: nat)
    requires n >= 1
    ensures Pad(n, 1)[0] != '0' && Pad(n, 0)[0] != '0'
  {
    if n >= 10 {
      NoLeadingZero(n / 10);
      assert Pad(n, 1)[0] == Pad(n / 10, 0)[0];
    }
  }

  lemma {:induction false} PadFirst(n: nat)
    requires n >= 1000
    ensures Pad(n, 4)[0] != '0'
  {
    NoLeadingZero(n / 10 / 10 / 10);
    assert Pad(n, 4)[0] == Pad(n / 10, 3)[0];
    assert Pad(n / 10, 3)[0] == Pad(n / 10 / 10, 2)[0];
    assert Pad(n / 10 / 10, 2)[0] == Pad(n / 10 / 10 / 10, 1)[0];
  }

  lemma {:induction false} OctalOfDigits(a: nat, b: nat, c: nat)
    requires a < 10 && b < 10 && c < 10
    ensures OctalValue(['0', DigitChar(a), DigitChar(b), DigitChar(c)])
         == if a >= 8 || b >= 8 || c >= 8 then None else Some(64 * a + 8 * b + c)
  {
    var z := "0";
    var za, zab, zabc := z + [DigitChar(a)], z + [DigitChar(a), DigitChar(b)],
      z + [DigitChar(a), DigitChar(b), DigitChar(c)];
    assert z[..0] == "" && za[..1] == z && zab[..2] == za && zabc[..3] == zab;
    assert OctalValue(z) == Some(0);
    assert OctalValue(za) == if a >= 8 then None else Some(a);
    assert OctalValue(zab) == if a >= 8 || b >= 8 then None else Some(8 * a + b);
    assert zabc == ['0', DigitChar(a), DigitChar(b), DigitChar(c)];
  }

  lemma {:induction false} PadOfDigits(a: nat, b: nat, c: nat)
    requires a < 10 && b < 10 && c < 10
    ensures Pad(100 * a + 10 * b + c, 4) == ['0', DigitChar(a), DigitChar(b), DigitChar(c)]
  {
    var n := 100 * a + 10 * b + c;
    assert Pad(0, 1) == "0";
    assert Pad(a, 2) == Pad(0, 1) + [DigitChar(a)];
    assert Pad(10 * a + b, 3) == Pad(a, 2) + [DigitChar(b)];
    assert Pad(n, 4) == Pad(10 * a + b, 3) + [DigitChar(c)];
  }

  // The padded sequence numbers the hook feeds back into `$(( ))` mean the same under the
  // octal rule as in decimal exactly up to 7 and from 1000 up.
  lemma PosixReadsPadded(n: nat)
    ensures PosixConstant(Pad(n, 4)) == Some(n) <==> n <= 7 || n >= 1000
  {
    if n >= 1000 {
      PosixReadsFrom1000(n);
    } else {
      var a, b, c := ThreeDigits(n);
      PosixReadsBelow1000(a, b, c);
    }
  }

  lemma ThreeDigits(n: nat) returns (a: nat, b: nat, c: nat)
    requires n < 1000
    ensures a < 10 && b < 10 && c < 10 && n == 100 * a + 10 * b + c
  {
    a, b, c := n / 100, n / 10 % 10, n % 10;
  }

  lemma PosixReadsFrom1000(n: nat)
    requires n >= 1000
    ensures PosixConstant(Pad(n, 4)) == Some(n)
  {
    ValueOfPad(n, 4);
    PadFirst(n);
  }

  lemma PosixReadsBelow1000(a: nat, b: nat, c: nat)
    requires a < 10 && b < 10 && c < 10
    ensures var n := 100 * a + 10 * b + c;
            PosixConstant(Pad(n, 4)) == Some(n) <==> n <= 7
  {
    PadOfDigits(a, b, c);
    OctalOfDigits(a, b, c);
  }
}
