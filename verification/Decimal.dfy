/** Decimal notation: `String(n)`, `parseInt` on a digit run and `padStart(width, '0')`. */
module Decimal {

  predicate IsDigit(c: char) { '0' <= c <= '9' }

  predicate AllDigits(s: string) { forall i | 0 <= i < |s| :: IsDigit(s[i]) }

  function DigitChar(d: nat): (c: char)
    requires d < 10
    ensures IsDigit(c) && c as int - '0' as int == d
  {
    ('0' as int + d) as char
  }

  function NatToString(n: nat): (s: string)
    ensures |s| > 0 && AllDigits(s)
  {
    if n < 10 then [DigitChar(n)] else NatToString(n / 10) + [DigitChar(n % 10)]
  }

  function IntToString(n: int): string { if n < 0 then "-" + NatToString(-n) else NatToString(n) }

  /** The value of a digit run, read from the left as `parseInt` does; leading zeros are allowed. */
  function ParseNat(s: string): nat
    requires AllDigits(s)
  {
    if s == "" then 0 else 10 * ParseNat(s[..|s| - 1]) + (s[|s| - 1] as int - '0' as int)
  }

  function Zeros(n: nat): (s: string)
    ensures |s| == n && AllDigits(s)
  {
    seq(n, _ => '0')
  }

  function PadStart(s: string, width: nat): (r: string)
    ensures |r| == if |s| < width then width else |s|
  {
    if |s| < width then Zeros(width - |s|) + s else s
  }

  lemma {:induction false} ParsePrinted(n: nat)
    ensures ParseNat(NatToString(n)) == n
  {
    if n >= 10 {
      ParsePrinted(n / 10);
      assert NatToString(n)[..|NatToString(n)| - 1] == NatToString(n / 10);
    }
  }

  lemma {:induction false} ParseZeros(k: nat)
    ensures ParseNat(Zeros(k)) == 0
  {
    if k > 0 {
      ParseZeros(k - 1);
      assert Zeros(k)[..k - 1] == Zeros(k - 1);
    }
  }

  lemma OneMoreDigit(v: nat, d: nat)
    requires v > 0 && d < 10
    ensures NatToString(10 * v + d) == NatToString(v) + [DigitChar(d)]
  {
    assert (10 * v + d) / 10 == v && (10 * v + d) % 10 == d;
  }

  lemma PadOneMore(s: string, c: char, width: nat)
    ensures PadStart(s + [c], width + 1) == PadStart(s, width) + [c]
  {
    if |s| < width { assert Zeros(width - |s|) + (s + [c]) == (Zeros(width - |s|) + s) + [c]; }
  }

  lemma PadZero(width: nat)
    requires width > 0
    ensures PadStart("0", width) == Zeros(width)
  {
  }

  /** Printing the value of a digit run back at its own width restores the run, zeros included. */
  lemma {:induction false} PadRestores(s: string)
    requires AllDigits(s) && s != ""
    ensures PadStart(NatToString(ParseNat(s)), |s|) == s
  {
    var k := |s| - 1;
    var head, c, d := s[..k], s[k], s[k] as int - '0' as int;
    assert s == head + [c];
    if k == 0 {
      assert head == "";
    } else {
      PadRestores(head);
      var v := ParseNat(head);
      if v == 0 {
        PadZero(k);
        assert NatToString(d) == "" + [c];
        assert Zeros(k) + [c] == PadStart([c], k + 1);
      } else {
        OneMoreDigit(v, d);
        PadOneMore(NatToString(v), c, k);
      }
    }
  }

  lemma {:induction false} ParsePadded(k: nat, s: string)
    requires AllDigits(s)
    ensures ParseNat(Zeros(k) + s) == ParseNat(s)
  {
    if s == "" {
      ParseZeros(k);
      assert Zeros(k) + s == Zeros(k);
    } else {
      ParsePadded(k, s[..|s| - 1]);
      assert (Zeros(k) + s)[..k + |s| - 1] == Zeros(k) + s[..|s| - 1];
    }
  }

  /** Padding with zeros does not change the value read back. */
  lemma PaddedReads(n: nat, width: nat)
    ensures AllDigits(PadStart(NatToString(n), width))
    ensures ParseNat(PadStart(NatToString(n), width)) == n
  {
    var s := NatToString(n);
    ParsePrinted(n);
    if |s| < width { ParsePadded(width - |s|, s); }
  }
}
