/** Text helpers of the browser code: trimming and searching. */
module Text {
  import opened Decimal
  import opened Seqs

  const ESC: char := '\U{1B}'

  predicate LooksAt(s: string, i: nat, word: string) {
    i + |word| <= |s| && s[i..i + |word|] == word
  }

  predicate Contains(s: string, word: string) {
    exists i | 0 <= i <= |s| :: LooksAt(s, i, word)
  }

  predicate IsSpace(c: char) {
    '\t' <= c <= '\r' || c == ' ' || c == '\U{A0}' || c == '\U{1680}' || '\U{2000}' <= c <= '\U{200A}'
    || c == '\U{2028}' || c == '\U{2029}' || c == '\U{202F}' || c == '\U{205F}' || c == '\U{3000}' || c == '\U{FEFF}'
  }

  function TrimStart(s: string): string {
    if s != "" && IsSpace(s[0]) then TrimStart(s[1..]) else s
  }

  function TrimEnd(s: string): string {
    if s != "" && IsSpace(Last(s)) then TrimEnd(Init(s)) else s
  }

  function Trim(s: string): string { TrimEnd(TrimStart(s)) }

  predicate AllSpace(s: string) { forall i | 0 <= i < |s| :: IsSpace(s[i]) }

  lemma {:induction false} TrimStartExactly(s: string) returns (lead: string)
    ensures s == lead + TrimStart(s) && AllSpace(lead) && (TrimStart(s) != "" ==> !IsSpace(TrimStart(s)[0]))
  {
    if s != "" && IsSpace(s[0]) {
      var rest := TrimStartExactly(s[1..]);
      lead := [s[0]] + rest;
      assert s == [s[0]] + s[1..];
    } else {
      lead := "";
    }
  }

  lemma {:induction false} TrimEndExactly(s: string) returns (tail: string)
    ensures s == TrimEnd(s) + tail && AllSpace(tail) && (TrimEnd(s) != "" ==> !IsSpace(Last(TrimEnd(s))))
    ensures TrimEnd(s) != "" ==> TrimEnd(s)[0] == s[0]
  {
    if s != "" && IsSpace(Last(s)) {
      var rest := TrimEndExactly(Init(s));
      tail := rest + [Last(s)];
      assert s == Init(s) + [Last(s)];
    } else {
      tail := "";
    }
  }

  /** Trimming takes off blanks and nothing else, and leaves none at either end. */
  lemma TrimExactly(s: string) returns (lead: string, tail: string)
    ensures s == lead + Trim(s) + tail && AllSpace(lead) && AllSpace(tail)
    ensures Trim(s) != "" ==> !IsSpace(Trim(s)[0]) && !IsSpace(Last(Trim(s)))
  {
    lead := TrimStartExactly(s);
    tail := TrimEndExactly(TrimStart(s));
    Associates(lead, Trim(s), tail);
  }

  function OrElse(s: string, fallback: string): string {
    if s != "" then s else fallback
  }

  /** End of the longest run of characters satisfying `p` from `i` on. */
  function Span(s: string, i: nat, p: char -> bool): (k: nat)
    requires i <= |s|
    ensures i <= k <= |s|
    ensures forall j | i <= j < k :: p(s[j])
    ensures k < |s| ==> !p(s[k])
    decreases |s| - i
  {
    if i < |s| && p(s[i]) then Span(s, i + 1, p) else i
  }

  /** A run of matching characters up to a character that does not match, or to the end. */
  lemma {:induction false} SpanIs(s: string, i: nat, k: nat, p: char -> bool)
    requires i <= k <= |s| && (forall j | i <= j < k :: p(s[j])) && (k < |s| ==> !p(s[k]))
    ensures Span(s, i, p) == k
    decreases k - i
  {
    if i < k { SpanIs(s, i + 1, k, p); }
  }

  /** A text without one leading sign, and whether that sign was a minus. */
  function Unsigned(s: string): (r: (string, bool)) {
    if s != "" && (s[0] == '-' || s[0] == '+') then (s[1..], s[0] == '-') else (s, false)
  }

  function Signed(n: nat, minus: bool): int { if minus then 0 - n else n }

  /** JavaScript's `parseInt`: leading blanks, a sign, a run of decimal digits; None stands for NaN. */
  function JsInt(s: string): Option<int> {
    var (t, minus) := Unsigned(TrimStart(s));
    var k := Span(t, 0, IsDigit);
    if k > 0 then Some(Signed(ParseNat(t[..k]), minus)) else None
  }

  /** Python's `int`: blanks around a sign and decimal digits; None stands for ValueError. */
  function PyInt(s: string): Option<int> {
    var (t, minus) := Unsigned(Trim(s));
    if t != "" && AllDigits(t) then Some(Signed(ParseNat(t), minus)) else None
  }

  lemma {:induction false} SpanDigits(s: string, i: nat)
    requires AllDigits(s) && i <= |s|
    ensures Span(s, i, IsDigit) == |s|
    decreases |s| - i
  {
    if i < |s| { SpanDigits(s, i + 1); }
  }

  lemma DigitsUntouched(s: string)
    requires s != "" && AllDigits(s)
    ensures TrimStart(s) == s == Trim(s) && Unsigned(s) == (s, false)
  {
    assert IsDigit(s[0]) && IsDigit(s[|s| - 1]);
  }

  lemma NatPrinted(n: nat)
    ensures JsInt(NatToString(n)) == Some(n) && PyInt(NatToString(n)) == Some(n)
  {
    var s := NatToString(n);
    ParsePrinted(n);
    DigitsUntouched(s);
    SpanDigits(s, 0);
    assert s[..|s|] == s;
  }

  /** A printed integer reads back as itself. */
  lemma IntPrinted(n: int)
    ensures JsInt(IntToString(n)) == Some(n)
  {
    if n >= 0 {
      NatPrinted(n);
    } else {
      var digits := NatToString(-n);
      var s := "-" + digits;
      ParsePrinted(-n);
      SpanDigits(digits, 0);
      assert s[0] == '-' && s[1..] == digits && digits[..|digits|] == digits;
    }
  }
}
