/** The marker recognisers of logParser.ts as explicit scanners over the line. */
module Markers {
  import opened Seqs
  import opened Decimal
  import opened LogParser
  import opened Text

  const START_PREFIX: string := "\U{1B}[0Ksection_start:"
  const END_PREFIX: string := "\U{1B}[0Ksection_end:"
  const MARKER_CLOSE: string := "\r\U{1B}[0K"

  predicate NameChar(c: char) {
    IsDigit(c) || 'a' <= c <= 'z' || 'A' <= c <= 'Z' || c == '_' || c == '.' || c == '-'
  }

  /** The longest run of characters satisfying `p` at the start, and what follows it. */
  function Take(s: string, p: char -> bool): (r: (string, string))
    ensures AllOf(r.0, p)
  {
    var k := Span(s, 0, p);
    (s[..k], s[k..])
  }

  predicate AllOf(s: string, p: char -> bool) { forall i | 0 <= i < |s| :: p(s[i]) }

  function AfterWord(s: string, word: string): Option<string> {
    if LooksAt(s, 0, word) then Some(s[|word|..]) else None
  }

  predicate NoBracket(c: char) { c != ']' }

  /** Options `[...]` at the start of `s`, or nothing, and what follows. */
  function TakeOptions(s: string): (string, string) {
    if s == "" || s[0] != '[' then ("", s)
    else
      var (inner, rest) := Take(s[1..], NoBracket);
      if rest == "" then ("", s) else ("[" + (inner + "]"), rest[1..])
  }

  /** The marker `<prefix><digits>:<name>[options]<close>` that `s` begins with; `before` precedes `s`. */
  function MarkerFrom(before: string, s: string, prefix: string, withOptions: bool): Option<Marker> {
    match AfterWord(s, prefix)
    case None => None
    case Some(fromDigits) =>
      var (digits, fromColon) := Take(fromDigits, IsDigit);
      assert AllDigits(digits);
      if digits == "" || fromColon == "" || fromColon[0] != ':' then None
      else
        var (name, fromOptions) := Take(fromColon[1..], NameChar);
        if name == "" then None
        else
          var (options, fromClose) := if withOptions then TakeOptions(fromOptions) else ("", fromOptions);
          match AfterWord(fromClose, MARKER_CLOSE)
          case None => None
          case Some(after) => Some(Marker(before, ParseNat(digits), name, options, after))
  }

  /** Leftmost marker from `i` on, as `RegExp.exec` searches. */
  function FindMarker(s: string, i: nat, prefix: string, withOptions: bool): Option<Marker>
    requires i <= |s|
    decreases |s| - i
  {
    var here := MarkerFrom(s[..i], s[i..], prefix, withOptions);
    if here.Some? || i == |s| then here else FindMarker(s, i + 1, prefix, withOptions)
  }

  function FindStart(s: string): Option<Marker> { FindMarker(s, 0, START_PREFIX, true) }

  function FindEnd(s: string): Option<Marker> { FindMarker(s, 0, END_PREFIX, false) }

  predicate LineBreak(c: char) { c == '\n' || c == '\r' || c == '\U{2028}' || c == '\U{2029}' }

  /** Title of a `::group::` line; `.` in the pattern stops at line terminators. */
  function GithubGroup(s: string): Option<string> {
    var word := "::group::";
    if LooksAt(s, 0, word) && forall i | |word| <= i < |s| :: !LineBreak(s[i]) then Some(s[|word|..]) else None
  }

  predicate GithubEnd(s: string) {
    LooksAt(s, 0, "::endgroup::") && TrimStart(s[|"::endgroup::"|..]) == ""
  }

  function JobLogRules(isError: string -> bool, isWarn: string -> bool): Rules {
    Rules(isError, isWarn, FindStart, FindEnd, GithubGroup, GithubEnd)
  }

  // ---- Printed markers are found ---------------------------------------------------------------

  predicate MarkerName(name: string) { name != "" && forall i | 0 <= i < |name| :: NameChar(name[i]) }

  /** Options as a runner prints them: nothing, or one bracket pair. */
  predicate MarkerOptions(options: string) {
    options == ""
    || (|options| >= 2 && options[0] == '[' && Last(options) == ']' && ']' !in options[..|options| - 1])
  }

  /** The marker text after its prefix. */
  function MarkerTail(m: Marker): string {
    NatToString(m.ts) + (":" + (m.name + (m.options + (MARKER_CLOSE + m.after))))
  }

  function PrintMarker(m: Marker, prefix: string): string { m.before + (prefix + MarkerTail(m)) }

  lemma TakeRun(run: string, rest: string, p: char -> bool)
    requires AllOf(run, p) && (rest != "" ==> !p(rest[0]))
    ensures Take(run + rest, p) == (run, rest)
  {
    var s := run + rest;
    assert forall j | 0 <= j < |run| :: s[j] == run[j];
    assert rest != "" ==> s[|run|] == rest[0];
    SpanIs(s, 0, |run|, p);
  }

  lemma AfterWordRead(word: string, rest: string)
    ensures AfterWord(word + rest, word) == Some(rest)
  {
  }

  lemma OptionsRead(options: string, rest: string)
    requires MarkerOptions(options) && rest != "" && rest[0] != '['
    ensures TakeOptions(options + rest) == (options, rest)
  {
    if options == "" {
      assert options + rest == rest;
    } else {
      var inner := options[1..|options| - 1];
      InnerOptions(options, inner);
      TakeRun(inner, "]" + rest, NoBracket);
      assert (options + rest)[1..] == inner + ("]" + rest);
      assert options == "[" + (inner + "]");
    }
  }

  lemma InnerOptions(options: string, inner: string)
    requires |options| >= 2 && inner == options[1..|options| - 1] && ']' !in options[..|options| - 1]
    ensures AllOf(inner, NoBracket)
  {
    assert forall i | 0 <= i < |inner| :: inner[i] == options[..|options| - 1][i + 1];
  }

  lemma NameTaken(m: Marker, end: string)
    requires MarkerName(m.name) && MarkerOptions(m.options) && end != "" && end[0] == '\r'
    ensures Take(m.name + (m.options + end), NameChar) == (m.name, m.options + end)
  {
    assert AllOf(m.name, NameChar);
    TakeRun(m.name, m.options + end, NameChar);
  }

  /** The printed marker is read where it begins. */
  lemma MarkerReads(m: Marker, prefix: string, withOptions: bool)
    requires MarkerName(m.name) && MarkerOptions(m.options) && (!withOptions ==> m.options == "")
    ensures MarkerFrom(m.before, prefix + MarkerTail(m), prefix, withOptions) == Some(m)
  {
    var digits, end := NatToString(m.ts), MARKER_CLOSE + m.after;
    var named := m.name + (m.options + end);
    AfterWordRead(prefix, MarkerTail(m));
    DigitsTaken(m.ts, named);
    assert (":" + named)[1..] == named;
    NameTaken(m, end);
    if withOptions { OptionsRead(m.options, end); } else { assert m.options + end == end; }
    AfterWordRead(MARKER_CLOSE, m.after);
    hide Take, AfterWord, TakeOptions, NatToString, ParseNat, MarkerOptions, NameChar;
  }

  lemma DigitsTaken(ts: nat, rest: string)
    ensures Take(NatToString(ts) + (":" + rest), IsDigit) == (NatToString(ts), ":" + rest)
    ensures NatToString(ts) != "" && ParseNat(NatToString(ts)) == ts
  {
    ParsePrinted(ts);
    assert AllOf(NatToString(ts), IsDigit);
    TakeRun(NatToString(ts), ":" + rest, IsDigit);
  }

  lemma {:induction false} SkipsTo(s: string, i: nat, k: nat, prefix: string, withOptions: bool)
    requires i <= k <= |s| && forall j | i <= j < k :: !LooksAt(s[j..], 0, prefix)
    ensures FindMarker(s, i, prefix, withOptions) == FindMarker(s, k, prefix, withOptions)
    decreases k - i
  {
    if i < k { SkipsTo(s, i + 1, k, prefix, withOptions); }
  }

  lemma NoPrefixWithout(s: string, j: nat, prefix: string)
    requires prefix != "" && j < |s| && s[j] != prefix[0]
    ensures !LooksAt(s[j..], 0, prefix)
  {
  }

  /** A marker printed after text without an escape character is found as it was printed. */
  lemma PrintedMarkerFound(m: Marker)
    requires MarkerName(m.name) && MarkerOptions(m.options) && ESC !in m.before
    ensures FindStart(PrintMarker(m, START_PREFIX)) == Some(m)
    ensures m.options == "" ==> FindEnd(PrintMarker(m, END_PREFIX)) == Some(m)
  {
    PrintedFoundAt(m, START_PREFIX, true);
    if m.options == "" { PrintedFoundAt(m, END_PREFIX, false); }
  }

  lemma PrintedFoundAt(m: Marker, prefix: string, withOptions: bool)
    requires MarkerName(m.name) && MarkerOptions(m.options) && (!withOptions ==> m.options == "")
    requires ESC !in m.before && prefix != "" && prefix[0] == ESC
    ensures FindMarker(PrintMarker(m, prefix), 0, prefix, withOptions) == Some(m)
  {
    var s := PrintMarker(m, prefix);
    forall j | 0 <= j < |m.before| ensures !LooksAt(s[j..], 0, prefix) {
      assert s[j] == m.before[j] && m.before[j] in m.before;
      NoPrefixWithout(s, j, prefix);
    }
    SkipsTo(s, 0, |m.before|, prefix, withOptions);
    MarkerReads(m, prefix, withOptions);
    assert s[..|m.before|] == m.before && s[|m.before|..] == prefix + MarkerTail(m);
  }

  lemma {:induction false} NothingFound(s: string, i: nat, prefix: string, withOptions: bool)
    requires i <= |s| && forall j | i <= j <= |s| :: !LooksAt(s[j..], 0, prefix)
    ensures FindMarker(s, i, prefix, withOptions).None?
    decreases |s| - i
  {
    if i < |s| { NothingFound(s, i + 1, prefix, withOptions); }
  }

  /** A line that is one end marker. */
  function EndLine(ts: nat, name: string): string { PrintMarker(Marker("", ts, name, "", ""), END_PREFIX) }

  /** An end marker is not taken for a start marker. */
  lemma EndLineHasNoStart(ts: nat, name: string)
    requires MarkerName(name)
    ensures FindStart(EndLine(ts, name)).None?
  {
    var s, middle := EndLine(ts, name), NatToString(ts) + (":" + name);
    assert s == END_PREFIX + middle + MARKER_CLOSE;
    PlainMiddle(ts, name);
    forall j | 0 <= j <= |s| ensures !LooksAt(s[j..], 0, START_PREFIX) { NoStartAt(middle, j); }
    NothingFound(s, 0, START_PREFIX, true);
  }

  lemma PlainMiddle(ts: nat, name: string)
    requires MarkerName(name)
    ensures ESC !in NatToString(ts) + (":" + name)
  {
    assert forall i | 0 <= i < |NatToString(ts)| :: IsDigit(NatToString(ts)[i]);
    assert forall i | 0 <= i < |name| :: NameChar(name[i]);
  }

  lemma NoStartAt(middle: string, j: nat)
    requires ESC !in middle && j <= |END_PREFIX + middle + MARKER_CLOSE|
    ensures !LooksAt((END_PREFIX + middle + MARKER_CLOSE)[j..], 0, START_PREFIX)
  {
    var s := END_PREFIX + middle + MARKER_CLOSE;
    if j == 0 {
      assert s[12] == 'e' && START_PREFIX[12] == 's';
    } else if j + |START_PREFIX| <= |s| {
      assert j < |END_PREFIX| ==> s[j] == END_PREFIX[j] && END_PREFIX[j] != ESC;
      assert |END_PREFIX| <= j < |END_PREFIX| + |middle| ==> s[j] == middle[j - |END_PREFIX|] && s[j] in middle;
      assert s[j] != ESC;
      NoPrefixWithout(s, j, START_PREFIX);
    }
  }
}
