/** Sections of the page's log: what a start line opens, which rows it holds, and what an end line closes. */
module LogSections {
  import opened Seqs
  import opened Decimal
  import opened LineFeed
  import opened LogParser
  import opened LogLines
  import opened Markers
  import opened Text

  // ---- End lines --------------------------------------------------------------------------------

  /** A line that is one end marker ends the outermost open section of its name, and does nothing else. */
  lemma EndLineEnds(isError: string -> bool, isWarn: string -> bool, rows: Rows, ts: nat, name: string)
    requires MarkerName(name)
    ensures EndsFirst(rows, PushRaw(JobLogRules(isError, isWarn), rows, EndLine(ts, name)), name, Some(ts))
  {
    SectionEndCloses(isError, isWarn, rows, ts, name);
    CloseSectionExactly(rows, name, Some(ts));
  }

  /** No open section has the name of another one. */
  ghost predicate DistinctNames(rows: Rows) {
    forall i, j | 0 <= i < j < |rows.openSections| ::
      rows.sections[rows.openSections[i]].name != rows.sections[rows.openSections[j]].name
  }

  /** A GitHub end line, by its shape alone. */
  predicate GithubEndLine(raw: string) { GithubEnd(raw) && ESC !in raw }

  lemma NothingPeels(rules: Rules, rows: Rows, raw: string)
    requires rules.findStart(raw).None? && rules.findEnd(raw).None?
    ensures Peel(rules, rows, raw) == (rows, raw)
  {
    assert PeelOne(rules)((rows, raw)).None?;
  }

  lemma GithubEndUnmarked(raw: string)
    requires GithubEndLine(raw)
    ensures FindStart(raw).None? && FindEnd(raw).None? && GithubGroup(raw).None?
  {
    NoEscNoMarker(raw, 0, START_PREFIX, true);
    NoEscNoMarker(raw, 0, END_PREFIX, false);
    assert raw[..11] == "::endgroup::"[..11] && raw[2] == 'e';
  }

  lemma NoEscNoMarker(raw: string, i: nat, prefix: string, withOptions: bool)
    requires ESC !in raw && prefix != "" && prefix[0] == ESC && i <= |raw|
    ensures FindMarker(raw, i, prefix, withOptions).None?
  {
    forall j | i <= j <= |raw| ensures !LooksAt(raw[j..], 0, prefix) {
      if j < |raw| {
        assert raw[j] in raw;
        NoPrefixWithout(raw, j, prefix);
      }
    }
    NothingFound(raw, i, prefix, withOptions);
  }

  /**
   A GitHub end line closes the innermost open group, and without one does nothing. More exactly it ends the
   outermost open section with the name of the innermost one: the innermost itself if no other has its name.
   */
  lemma GithubEndEnds(isError: string -> bool, isWarn: string -> bool, rows: Rows, raw: string)
    requires GithubEndLine(raw)
    ensures var rows' := PushRaw(JobLogRules(isError, isWarn), rows, raw);
            if rows.openSections == [] then rows' == rows
            else
              && EndsFirst(rows, rows', rows.sections[Last(rows.openSections)].name, None)
              && (DistinctNames(rows) ==> Ended(rows, rows', |rows.openSections| - 1, None))
  {
    var rules := JobLogRules(isError, isWarn);
    GithubEndUnmarked(raw);
    NothingPeels(rules, rows, raw);
    hide Peel;
    if rows.openSections != [] {
      CloseSectionExactly(rows, rows.sections[Last(rows.openSections)].name, None);
      hide Ended, CloseSection, Peel, GithubEnd;
      if DistinctNames(rows) {
        assert FirstNamed(rows, rows.sections[Last(rows.openSections)].name, |rows.openSections| - 1);
      }
    }
  }

  /** The characters a name may have: letters, digits, underscore, dot and hyphen, and no other. */
  lemma NamesAre(name: string)
    ensures MarkerName(name) <==> name != "" && forall i | 0 <= i < |name| ::
              'a' <= name[i] <= 'z' || 'A' <= name[i] <= 'Z' || '0' <= name[i] <= '9' || name[i] in "_.-"
  {
  }

  // ---- Start lines --------------------------------------------------------------------------------

  /** A line that is one start marker with its title. */
  function StartLine(ts: nat, name: string, options: string, title: string): string {
    PrintMarker(Marker("", ts, name, options, title), START_PREFIX)
  }

  /** One more section: its header is the next row, and it is the innermost open one. */
  ghost predicate Opens(rows: Rows, rows': Rows, section: Section) {
    && rows'.sections == rows.sections + [section] && rows'.openSections == rows.openSections + [|rows.sections|]
    && rows'.lines == rows.lines + [Line(rows.nextNumber, section.title, Plain, Some(section.name), true)]
    && rows'.owners == rows.owners + [None] && rows'.nextNumber == rows.nextNumber + 1
    && rows'.errorLines == rows.errorLines && rows'.warnLines == rows.warnLines
  }

  /** A section as a start line opens it; a blank title gives way to the name. */
  function NewSection(rows: Rows, ts: nat, name: string, options: string, title: string): Section {
    Section(name, if Trim(title) == "" then name else Trim(title), rows.nextNumber, rows.nextNumber, Some(ts), None,
            Contains(options, "collapsed=true"), false, true)
  }

  predicate PlainMarker(name: string, options: string, title: string) {
    MarkerName(name) && MarkerOptions(options) && ESC !in options && ESC !in title
  }

  lemma TakeKeeps(s: string, p: char -> bool)
    ensures forall c | c in Take(s, p).1 :: c in s
  {
  }

  lemma TailKeeps(s: string)
    requires s != "" && ESC !in s
    ensures ESC !in s[1..]
  {
  }

  /** What follows a prefix is no marker when the closing escape is missing. */
  lemma NeedsClose(before: string, s: string, prefix: string, withOptions: bool)
    requires |prefix| <= |s| && ESC !in s[|prefix|..]
    ensures MarkerFrom(before, s, prefix, withOptions).None?
  {
    var fromDigits := s[|prefix|..];
    var fromColon := Take(fromDigits, IsDigit).1;
    TakeKeeps(fromDigits, IsDigit);
    if fromColon != "" {
      var fromOptions := Take(fromColon[1..], NameChar).1;
      TailKeeps(fromColon);
      TakeKeeps(fromColon[1..], NameChar);
      OptionsKeep(fromOptions);
      NoClose(fromOptions);
      NoClose(TakeOptions(fromOptions).1);
    }
    hide Take, TakeOptions, ParseNat, NameChar, IsDigit;
  }

  lemma NoClose(s: string)
    requires ESC !in s
    ensures !LooksAt(s, 0, MARKER_CLOSE)
  {
    assert MARKER_CLOSE[1] == ESC;
    if |s| >= |MARKER_CLOSE| { assert s[1] in s && s[0..|MARKER_CLOSE|][1] == s[1]; }
  }

  lemma OptionsKeep(s: string)
    ensures forall c | c in TakeOptions(s).1 :: c in s
  {
    if s != "" && s[0] == '[' {
      var rest := Take(s[1..], NoBracket).1;
      assert forall c | c in rest :: c in s[1..];
    }
  }

  lemma {:induction false} NothingFrom(s: string, i: nat, prefix: string, withOptions: bool)
    requires i <= |s| && forall j | i <= j <= |s| :: MarkerFrom(s[..j], s[j..], prefix, withOptions).None?
    ensures FindMarker(s, i, prefix, withOptions).None?
    decreases |s| - i
  {
    hide MarkerFrom;
    if i < |s| { NothingFrom(s, i + 1, prefix, withOptions); }
  }

  /** A start line is not taken for an end marker, whatever its title. */
  lemma StartLineHasNoEnd(ts: nat, name: string, options: string, title: string)
    requires PlainMarker(name, options, title)
    ensures FindEnd(StartLine(ts, name, options, title)).None?
  {
    var middle := NatToString(ts) + (":" + name) + options;
    var s := StartLine(ts, name, options, title);
    PlainMiddle(ts, name);
    assert s == START_PREFIX + middle + MARKER_CLOSE + title;
    forall j | 0 <= j <= |s| ensures MarkerFrom(s[..j], s[j..], END_PREFIX, false).None? {
      NoEndAt(middle, title, j);
    }
    NothingFrom(s, 0, END_PREFIX, false);
  }

  lemma NoEndAt(middle: string, title: string, j: nat)
    requires ESC !in middle && ESC !in title && j <= |START_PREFIX + middle + MARKER_CLOSE + title|
    ensures var s := START_PREFIX + middle + MARKER_CLOSE + title;
            MarkerFrom(s[..j], s[j..], END_PREFIX, false).None?
  {
    var s, close := START_PREFIX + middle + MARKER_CLOSE + title, |START_PREFIX| + |middle|;
    if j == 0 {
      assert s[12] == 's' && END_PREFIX[12] == 'e';
    } else if j == close + 1 && j + |END_PREFIX| <= |s| {
      AfterCloseFree(middle, title);
      NeedsClose(s[..j], s[j..], END_PREFIX, false);
    } else if j + |END_PREFIX| <= |s| {
      assert j < |START_PREFIX| ==> s[j] == START_PREFIX[j] && START_PREFIX[j] != ESC;
      assert |START_PREFIX| <= j < close ==> s[j] == middle[j - |START_PREFIX|] && s[j] in middle;
      assert close <= j < close + 5 ==> s[j] == MARKER_CLOSE[j - close];
      assert forall i | 0 <= i < 5 && i != 1 :: MARKER_CLOSE[i] != ESC;
      assert close + 5 <= j ==> s[j] == title[j - close - 5] && s[j] in title;
      NoPrefixWithout(s, j, END_PREFIX);
    }
  }

  lemma AfterCloseFree(middle: string, title: string)
    requires ESC !in title
    requires |START_PREFIX + middle + MARKER_CLOSE + title| >= |START_PREFIX| + |middle| + 1 + |END_PREFIX|
    ensures var s := START_PREFIX + middle + MARKER_CLOSE + title;
            ESC !in s[|START_PREFIX| + |middle| + 1..][|END_PREFIX|..]
  {
    var s, from := START_PREFIX + middle + MARKER_CLOSE + title, |START_PREFIX| + |middle| + 1 + |END_PREFIX|;
    assert s[|START_PREFIX| + |middle| + 1..][|END_PREFIX|..] == s[from..];
    assert |END_PREFIX| >= 4;
    assert s[from..] == title[|END_PREFIX| - 4..];
  }

  /** A start line opens one section, with the title it prints, and makes no row but its header. */
  lemma StartLineOpens(
    isError: string -> bool, isWarn: string -> bool, rows: Rows, ts: nat, name: string, options: string, title: string)
    requires PlainMarker(name, options, title)
    ensures Opens(rows, PushRaw(JobLogRules(isError, isWarn), rows, StartLine(ts, name, options, title)),
                  NewSection(rows, ts, name, options, title))
  {
    var rules, raw := JobLogRules(isError, isWarn), StartLine(ts, name, options, title);
    var m := Marker("", ts, name, options, title);
    PrintedMarkerFound(m);
    StartLineHasNoEnd(ts, name, options, title);
    SplitAbsent(title, ESC);
    assert Trim("") == "" && title[|title|..] == "";
    var after := OpenSection(rows, name, OrElse(Trim(title), name), Some(ts), Contains(options, "collapsed=true"));
    NothingInEmptyLine(isError, isWarn);
    StartPeels(rules, rows, raw, m, after);
  }

  lemma StartPeels(rules: Rules, rows: Rows, raw: string, m: Marker, after: Rows)
    requires rules.findStart(raw) == Some(m) && rules.findEnd(raw).None? && Unmarked(rules, "") && raw != ""
    requires ApplyStart(rules, rows, m) == (after, "")
    ensures PushRaw(rules, rows, raw) == after
  {
    hide ApplyStart;
    assert PeelOne(rules)((rows, raw)) == Some((after, ""));
    assert PeelOne(rules)((after, "")).None?;
    assert Iterate(PeelOne(rules), (after, ""), MAX_MARKERS - 1) == (after, "");
    assert Peel(rules, rows, raw) == (after, "");
  }

  // ---- From a start line to its end line -----------------------------------------------------------

  predicate AnyError(rules: Rules, xs: seq<string>) { exists i | 0 <= i < |xs| :: rules.isError(xs[i]) }

  /** These rows, and nothing else, have joined the innermost open section `k`. */
  ghost predicate Joined(rules: Rules, rows: Rows, rows': Rows, xs: seq<string>, k: nat)
    requires k < |rows.sections|
  {
    && rows'.openSections == rows.openSections && |rows'.sections| == |rows.sections|
    && (forall j | 0 <= j < |rows.sections| && j != k :: rows'.sections[j] == rows.sections[j])
    && rows'.sections[k] == rows.sections[k].(
         lastLine := if xs == [] then rows.sections[k].lastLine else rows.nextNumber + |xs| - 1,
         hasError := rows.sections[k].hasError || AnyError(rules, xs))
    && rows'.nextNumber == rows.nextNumber + |xs|
    && rows'.lines == rows.lines + seq(|xs|, i requires 0 <= i < |xs| =>
         Line(rows.nextNumber + i, xs[i], Classify(rules, xs[i]), Some(rows.sections[k].name), false))
    && rows'.owners == rows.owners + seq(|xs|, _ => Some(k))
  }

  lemma {:induction false} RowsJoin(rules: Rules, rows: Rows, xs: seq<string>, k: nat)
    requires TopSection(rows) == Some(k) && AllUnmarked(rules, xs)
    ensures Joined(rules, rows, Fold(Pusher(rules), rows, xs), xs, k)
    decreases |xs|
  {
    if xs != [] {
      var next := PushRaw(rules, rows, xs[0]);
      UnmarkedIsOneRow(rules, rows, xs[0]);
      hide Unmarked, PushRaw;
      RowsJoin(rules, next, xs[1..], k);
      JoinedFirst(rules, rows, next, Fold(Pusher(rules), next, xs[1..]), xs, k);
    }
  }

  lemma JoinedFirst(rules: Rules, rows: Rows, next: Rows, rows': Rows, xs: seq<string>, k: nat)
    requires xs != [] && TopSection(rows) == Some(k) && next == PushLine(rules, rows, xs[0])
    requires Joined(rules, next, rows', xs[1..], k)
    ensures Joined(rules, rows, rows', xs, k)
  {
    assert AnyError(rules, xs) <==> rules.isError(xs[0]) || AnyError(rules, xs[1..]) by {
      if AnyError(rules, xs) {
        var i :| 0 <= i < |xs| && rules.isError(xs[i]);
        assert i > 0 ==> rules.isError(xs[1..][i - 1]);
      }
    }
  }

  /** The rows after a start line, these lines and an end line of the same name. */
  function Bracketed(rules: Rules, rows: Rows, start: string, xs: seq<string>, end: string): Rows {
    PushRaw(rules, Fold(Pusher(rules), PushRaw(rules, rows, start), xs), end)
  }

  /** The section that was opened, as it ends: it holds exactly these rows after its header. */
  ghost predicate Holds(rules: Rules, rows: Rows, rows': Rows, name: string, xs: seq<string>, ts: nat) {
    var k := |rows.sections|;
    && |rows'.sections| == k + 1 && rows'.sections[..k] == rows.sections && rows'.openSections == rows.openSections
    && (var s := rows'.sections[k];
        && s.name == name && s.firstLine == rows.nextNumber && s.lastLine == rows.nextNumber + |xs|
        && !s.open && s.endTs == Some(ts) && (s.hasError <==> AnyError(rules, xs)))
    && |rows'.lines| == |rows.lines| + 1 + |xs| && |rows'.owners| == |rows.owners| + 1 + |xs|
    && (forall i | 0 <= i < |xs| ::
          var line := rows'.lines[|rows.lines| + 1 + i];
          && line.raw == xs[i] && line.section == Some(name) && !line.header
          && (line.level.Error? <==> rules.isError(xs[i]))
          && (line.level.Warn? <==> !rules.isError(xs[i]) && rules.isWarn(xs[i]))
          && rows'.owners[|rows.owners| + 1 + i] == Some(k))
  }

  /**
   A section from its start line over unmarked lines to its end line: if no open section had the name, it holds
   exactly those lines and is closed. If one had, the end line closes the outermost of those instead, and the
   section stays open.
   */
  lemma SectionBracket(
    isError: string -> bool, isWarn: string -> bool, rows: Rows, name: string, options: string, title: string,
    ts: nat, xs: seq<string>, ts': nat)
    requires PlainMarker(name, options, title) && AllUnmarked(JobLogRules(isError, isWarn), xs)
    ensures var rules, start := JobLogRules(isError, isWarn), StartLine(ts, name, options, title);
            var rows' := Bracketed(rules, rows, start, xs, EndLine(ts', name));
            && (NoneNamed(rows, name) ==> Holds(rules, rows, rows', name, xs, ts'))
            && (!NoneNamed(rows, name) ==>
                  |rows'.sections| == |rows.sections| + 1 && rows'.sections[|rows.sections|].open
                  && |rows'.openSections| == |rows.openSections| && |rows.sections| in rows'.openSections)
  {
    var rules, start := JobLogRules(isError, isWarn), StartLine(ts, name, options, title);
    var k := |rows.sections|;
    var r1 := PushRaw(rules, rows, start);
    var r2 := Fold(Pusher(rules), r1, xs);
    var r3 := PushRaw(rules, r2, EndLine(ts', name));
    StartLineOpens(isError, isWarn, rows, ts, name, options, title);
    hide PushRaw, StartLine, EndLine, PlainMarker, Unmarked, AllUnmarked;
    assert TopSection(r1) == Some(k);
    RowsJoin(rules, r1, xs, k);
    EndLineEnds(isError, isWarn, r2, ts', name);
    var section := NewSection(rows, ts, name, options, title);
    if NoneNamed(rows, name) {
      BracketHolds(rules, rows, r1, r2, r3, section, xs, ts');
    } else {
      BracketLeaks(rules, rows, r1, r2, r3, section, xs, ts');
    }
  }

  lemma BracketHolds(rules: Rules, rows: Rows, r1: Rows, r2: Rows, r3: Rows, section: Section, xs: seq<string>, ts: nat)
    requires Opens(rows, r1, section) && Joined(rules, r1, r2, xs, |rows.sections|) && NoneNamed(rows, section.name)
    requires EndsFirst(r2, r3, section.name, Some(ts))
    requires section.firstLine == section.lastLine == rows.nextNumber && !section.hasError
    ensures Holds(rules, rows, r3, section.name, xs, ts)
  {
    var k, n := |rows.sections|, |rows.openSections|;
    forall i | 0 <= i < n ensures r2.sections[r2.openSections[i]].name != section.name {
      assert rows.sections[rows.openSections[i]].name != section.name;
      assert r2.openSections[i] == rows.openSections[i];
    }
    assert FirstNamed(r2, section.name, n);
    assert Ended(r2, r3, n, Some(ts));
    assert r2.openSections[..n] + r2.openSections[n + 1..] == rows.openSections;
    assert r3.sections[..k] == rows.sections;
  }

  lemma BracketLeaks(rules: Rules, rows: Rows, r1: Rows, r2: Rows, r3: Rows, section: Section, xs: seq<string>, ts: nat)
    requires Opens(rows, r1, section) && Joined(rules, r1, r2, xs, |rows.sections|) && !NoneNamed(rows, section.name)
    requires EndsFirst(r2, r3, section.name, Some(ts)) && section.open
    ensures |r3.sections| == |rows.sections| + 1 && r3.sections[|rows.sections|].open
    ensures |r3.openSections| == |rows.openSections| && |rows.sections| in r3.openSections
  {
    hide Classify;
    var j := FindOpen(rows.sections, rows.openSections, section.name);
    forall i | 0 <= i < |rows.openSections|
      ensures r2.sections[r2.openSections[i]].name == rows.sections[rows.openSections[i]].name
    {
      assert r2.openSections[i] == rows.openSections[i];
    }
    assert FirstNamed(r2, section.name, j);
    assert Ended(r2, r3, j, Some(ts));
    assert r3.openSections[|rows.openSections| - 1] == |rows.sections|;
  }

  /** A GitHub group line opens a section named after its row, with the title it prints. */
  lemma GithubGroupOpens(isError: string -> bool, isWarn: string -> bool, rows: Rows, title: string)
    requires ESC !in title && forall i | 0 <= i < |title| :: !LineBreak(title[i])
    ensures var name := "group-" + NatToString(rows.nextNumber);
            Opens(rows, PushRaw(JobLogRules(isError, isWarn), rows, "::group::" + title),
                  Section(name, if Trim(title) == "" then name else Trim(title), rows.nextNumber, rows.nextNumber,
                          None, None, false, false, true))
  {
    var rules, raw := JobLogRules(isError, isWarn), "::group::" + title;
    assert forall i | 9 <= i < |raw| :: raw[i] == title[i - 9];
    assert raw[9..] == title && ESC !in raw;
    NoEscNoMarker(raw, 0, START_PREFIX, true);
    NoEscNoMarker(raw, 0, END_PREFIX, false);
    NothingPeels(rules, rows, raw);
    hide Peel;
  }

  // ---- Two markers on one line ----------------------------------------------------------------------

  lemma TwoPeeled(rules: Rules, rows: Rows, raw: string, mid: Rows, rest: string, after: Rows)
    requires PeelOne(rules)((rows, raw)) == Some((mid, rest)) && PeelOne(rules)((mid, rest)) == Some((after, ""))
    requires Unmarked(rules, "") && raw != "" && rest != ""
    ensures PushRaw(rules, rows, raw) == after == PushRaw(rules, mid, rest)
  {
    var peel := PeelOne(rules);
    assert peel((after, "")).None?;
    hide PeelOne;
    assert Iterate(peel, (after, ""), MAX_MARKERS - 2) == (after, "") == Iterate(peel, (after, ""), MAX_MARKERS - 1);
    assert Iterate(peel, (mid, rest), MAX_MARKERS - 1) == (after, "") == Iterate(peel, (mid, rest), MAX_MARKERS);
    assert Peel(rules, rows, raw) == (after, "") == Peel(rules, mid, rest);
  }

  lemma EndPeels(rules: Rules, rows: Rows, raw: string, m: Marker)
    requires rules.findEnd(raw) == Some(m) && m.before == ""
    requires rules.findStart(raw).Some? ==> rules.findStart(raw).value.before != ""
    ensures PeelOne(rules)((rows, raw)) == Some((CloseSection(rows, m.name, Some(m.ts)), m.after))
  {
    assert Trim("") == "";
    hide CloseSection;
  }

  lemma StartPeelsFirst(rules: Rules, rows: Rows, raw: string, m: Marker, title: string, after: string)
    requires rules.findStart(raw) == Some(m) && m.before == "" && m.after == title + after
    requires ESC !in title && (after != "" ==> after[0] == ESC)
    ensures PeelOne(rules)((rows, raw)) == Some(
              (OpenSection(rows, m.name, OrElse(Trim(title), m.name), Some(m.ts),
                           Contains(m.options, "collapsed=true")),
               after))
  {
    assert Trim("") == "";
    hide OpenSection, Trim, Contains;
    TitleEnds(title, after);
  }

  lemma TitleEnds(title: string, after: string)
    requires ESC !in title && (after != "" ==> after[0] == ESC)
    ensures SplitOn(title + after, ESC)[0] == title && (title + after)[|title|..] == after
  {
    hide SplitOn;
    if after == "" {
      assert title + after == title;
      SplitAbsent(title, ESC);
    } else {
      SplitAtFirst(title, ESC, after[1..]);
      assert title + [ESC] + after[1..] == title + after;
    }
  }

  lemma PrintedTogether(m: Marker, prefix: string, after: string)
    ensures PrintMarker(m.(after := m.after + after), prefix) == PrintMarker(m, prefix) + after
  {
    Associates(MARKER_CLOSE, m.after, after);
    Associates(m.options, MARKER_CLOSE + m.after, after);
    Associates(m.name, m.options + (MARKER_CLOSE + m.after), after);
    Associates(":", m.name + (m.options + (MARKER_CLOSE + m.after)), after);
    Associates(NatToString(m.ts), ":" + (m.name + (m.options + (MARKER_CLOSE + m.after))), after);
    hide NatToString;
    Associates(prefix, MarkerTail(m), after);
    Associates(m.before, prefix + MarkerTail(m), after);
  }

  /** A start marker before an end marker on one line: it acts first, as if each stood on a line of its own. */
  lemma StartThenEnd(
    isError: string -> bool, isWarn: string -> bool, rows: Rows, ts: nat, name: string, options: string,
    title: string, ts': nat, name': string)
    requires PlainMarker(name, options, title) && MarkerName(name')
    ensures var rules := JobLogRules(isError, isWarn);
            var start, end := StartLine(ts, name, options, title), EndLine(ts', name');
            PushRaw(rules, rows, start + end) == PushRaw(rules, PushRaw(rules, rows, start), end)
  {
    var rules, start, end := JobLogRules(isError, isWarn), StartLine(ts, name, options, title), EndLine(ts', name');
    var m := Marker("", ts, name, options, title);
    PrintedTogether(m, START_PREFIX, end);
    PrintedMarkerFound(m);
    PrintedMarkerFound(m.(after := title + end));
    PrintedMarkerFound(Marker("", ts', name', "", ""));
    EndLineHasNoStart(ts', name');
    NothingInEmptyLine(isError, isWarn);
    LineBegins(ts', name');
    assert start != "";
    hide PrintMarker, FindStart, FindEnd, Unmarked, PushRaw, CloseSection, OpenSection, Trim, Contains;
    StartPeelsFirst(rules, rows, start, m, title, "");
    StartPeelsFirst(rules, rows, start + end, m.(after := title + end), title, end);
    var begun := OpenSection(rows, name, OrElse(Trim(title), name), Some(ts), Contains(options, "collapsed=true"));
    EndPeels(rules, begun, end, Marker("", ts', name', "", ""));
    TwoPeeled(rules, rows, start + end, begun, end, CloseSection(begun, name', Some(ts')));
    OnePeeled(rules, rows, start, begun);
  }

  lemma LineBegins(ts: nat, name: string)
    ensures EndLine(ts, name) != "" && EndLine(ts, name)[0] == ESC
  {
    assert EndLine(ts, name)[0] == END_PREFIX[0];
  }

  lemma OnePeeled(rules: Rules, rows: Rows, raw: string, after: Rows)
    requires PeelOne(rules)((rows, raw)) == Some((after, "")) && Unmarked(rules, "") && raw != ""
    ensures PushRaw(rules, rows, raw) == after
  {
    var peel := PeelOne(rules);
    assert peel((after, "")).None?;
    hide PeelOne;
    assert Iterate(peel, (after, ""), MAX_MARKERS - 1) == (after, "");
    assert Peel(rules, rows, raw) == (after, "");
  }

  lemma NoStartInEnd(middle: string, after: string, j: nat)
    requires ESC !in middle && after != "" && after[0] == ESC && j < |END_PREFIX + middle + MARKER_CLOSE|
    ensures !LooksAt((END_PREFIX + middle + MARKER_CLOSE + after)[j..], 0, START_PREFIX)
  {
    var s, close := END_PREFIX + middle + MARKER_CLOSE + after, |END_PREFIX| + |middle|;
    if j == 0 {
      assert s[12] == 'e' && START_PREFIX[12] == 's';
    } else if j == close + 1 {
      assert s[j + 4] == ESC && START_PREFIX[4] == 's';
      if |s| >= j + |START_PREFIX| { assert s[j..][..|START_PREFIX|][4] == s[j + 4]; }
    } else {
      assert j < |END_PREFIX| ==> s[j] == END_PREFIX[j] && END_PREFIX[j] != ESC;
      assert |END_PREFIX| <= j < close ==> s[j] == middle[j - |END_PREFIX|] && s[j] in middle;
      assert close <= j ==> s[j] == MARKER_CLOSE[j - close] && MARKER_CLOSE[j - close] != ESC;
      NoPrefixWithout(s, j, START_PREFIX);
    }
  }

  lemma StartFoundBehindEnd(ts: nat, name: string, m: Marker)
    requires MarkerName(name) && MarkerName(m.name) && MarkerOptions(m.options) && m.before == EndLine(ts, name)
    ensures FindStart(EndLine(ts, name) + (START_PREFIX + MarkerTail(m))) == Some(m)
  {
    var middle, tail := NatToString(ts) + (":" + name), START_PREFIX + MarkerTail(m);
    var s := EndLine(ts, name) + tail;
    PlainMiddle(ts, name);
    assert EndLine(ts, name) == END_PREFIX + middle + MARKER_CLOSE;
    assert s == END_PREFIX + middle + MARKER_CLOSE + tail;
    assert tail[0] == START_PREFIX[0];
    forall j | 0 <= j < |EndLine(ts, name)| ensures !LooksAt(s[j..], 0, START_PREFIX) { NoStartInEnd(middle, tail, j); }
    SkipsTo(s, 0, |EndLine(ts, name)|, START_PREFIX, true);
    MarkerReads(m, START_PREFIX, true);
    assert s[..|EndLine(ts, name)|] == m.before && s[|EndLine(ts, name)|..] == tail;
  }

  /** An end marker before a start marker on one line: it acts first, as if each stood on a line of its own. */
  lemma EndThenStart(
    isError: string -> bool, isWarn: string -> bool, rows: Rows, ts: nat, name: string, ts': nat, name': string,
    options: string, title: string)
    requires MarkerName(name) && PlainMarker(name', options, title)
    ensures var rules := JobLogRules(isError, isWarn);
            var end, start := EndLine(ts, name), StartLine(ts', name', options, title);
            PushRaw(rules, rows, end + start) == PushRaw(rules, PushRaw(rules, rows, end), start)
  {
    var rules, end, start := JobLogRules(isError, isWarn), EndLine(ts, name), StartLine(ts', name', options, title);
    var m := Marker("", ts, name, "", "");
    var n := Marker("", ts', name', options, title);
    PrintedTogether(m, END_PREFIX, start);
    PrintedMarkerFound(m);
    PrintedMarkerFound(m.(after := start));
    PrintedMarkerFound(n);
    BehindEnd(ts, name, n);
    EndLineHasNoStart(ts, name);
    NothingInEmptyLine(isError, isWarn);
    LineBegins(ts, name);
    assert start != "" && "" + start == start;
    hide PrintMarker, FindStart, FindEnd, Unmarked, PushRaw, CloseSection, OpenSection, Trim, Contains, EndLine;
    EndPeels(rules, rows, end, m);
    EndPeels(rules, rows, end + start, m.(after := start));
    var closed := CloseSection(rows, name, Some(ts));
    StartPeelsFirst(rules, closed, start, n, title, "");
    var begun := OpenSection(closed, name', OrElse(Trim(title), name'), Some(ts'), Contains(options, "collapsed=true"));
    TwoPeeled(rules, rows, end + start, closed, start, begun);
    OnePeeled(rules, rows, end, closed);
  }

  lemma BehindEnd(ts: nat, name: string, n: Marker)
    requires MarkerName(name) && MarkerName(n.name) && MarkerOptions(n.options) && n.before == ""
    ensures var found := FindStart(EndLine(ts, name) + PrintMarker(n, START_PREFIX));
            found.Some? && found.value.before == EndLine(ts, name)
  {
    StartFoundBehindEnd(ts, name, n.(before := EndLine(ts, name)));
    assert "" + (START_PREFIX + MarkerTail(n)) == START_PREFIX + MarkerTail(n);
  }

  // ---- Text beside a marker ---------------------------------------------------------------------------

  lemma BeforeIrrelevant(a: string, b: string, s: string, prefix: string, withOptions: bool)
    ensures MarkerFrom(a, s, prefix, withOptions).None? <==> MarkerFrom(b, s, prefix, withOptions).None?
  {
    hide Take, TakeOptions, AfterWord;
  }

  lemma {:induction false} NoneAnywhere(s: string, i: nat, j: nat, prefix: string, withOptions: bool)
    requires i <= j <= |s| && FindMarker(s, i, prefix, withOptions).None?
    ensures MarkerFrom(s[..j], s[j..], prefix, withOptions).None?
    decreases j - i
  {
    hide MarkerFrom;
    if i < j { NoneAnywhere(s, i + 1, j, prefix, withOptions); }
  }

  /** No marker begins in `first` or anywhere behind it. */
  lemma NothingInBoth(first: string, s: string, prefix: string, withOptions: bool)
    requires FindMarker(s, 0, prefix, withOptions).None?
    requires forall j | 0 <= j < |first| :: MarkerFrom((first + s)[..j], (first + s)[j..], prefix, withOptions).None?
    ensures FindMarker(first + s, 0, prefix, withOptions).None?
  {
    var whole := first + s;
    forall j | 0 <= j <= |whole| ensures MarkerFrom(whole[..j], whole[j..], prefix, withOptions).None? {
      if j >= |first| {
        assert whole[j..] == s[j - |first|..];
        NoneAnywhere(s, 0, j - |first|, prefix, withOptions);
        BeforeIrrelevant(whole[..j], s[..j - |first|], whole[j..], prefix, withOptions);
      }
    }
    NothingFrom(whole, 0, prefix, withOptions);
  }

  lemma TextHasNone(text: string, s: string, prefix: string, withOptions: bool)
    requires ESC !in text && prefix != "" && prefix[0] == ESC
    ensures forall j | 0 <= j < |text| :: MarkerFrom((text + s)[..j], (text + s)[j..], prefix, withOptions).None?
  {
    forall j | 0 <= j < |text| ensures MarkerFrom((text + s)[..j], (text + s)[j..], prefix, withOptions).None? {
      assert (text + s)[j] == text[j] && text[j] in text;
      NoPrefixWithout(text + s, j, prefix);
    }
  }

  lemma NoEscNothing(isError: string -> bool, isWarn: string -> bool, rows: Rows, text: string)
    requires ESC !in text
    ensures PeelOne(JobLogRules(isError, isWarn))((rows, text)).None?
  {
    NoEscNoMarker(text, 0, START_PREFIX, true);
    NoEscNoMarker(text, 0, END_PREFIX, false);
  }

  /** Text before an end marker becomes a row of its own, in the section that is about to end, unless it is blank. */
  lemma TextThenEnd(isError: string -> bool, isWarn: string -> bool, rows: Rows, text: string, ts: nat, name: string)
    requires MarkerName(name) && ESC !in text
    ensures var rules, end := JobLogRules(isError, isWarn), EndLine(ts, name);
            PushRaw(rules, rows, text + end)
            == PushRaw(rules, if Trim(text) == "" then rows else PushLine(rules, rows, text), end)
  {
    var rules, end := JobLogRules(isError, isWarn), EndLine(ts, name);
    var row := PushBefore(rules, rows, text);
    LineBegins(ts, name);
    RowBefore(rules, rows, text);
    RulesAre(isError, isWarn);
    NothingInEmptyLine(isError, isWarn);
    SectionEndCloses(isError, isWarn, row, ts, name);
    hide *;
    NoStartInText(text, ts, name);
    EndPeelsBehind(rules, rows, text, ts, name);
    OnePeeled(rules, rows, text + end, CloseSection(row, name, Some(ts)));
  }

  lemma RowBefore(rules: Rules, rows: Rows, text: string)
    ensures PushBefore(rules, rows, text) == if Trim(text) == "" then rows else PushLine(rules, rows, text)
  {
  }

  lemma NoStartInText(text: string, ts: nat, name: string)
    requires MarkerName(name) && ESC !in text
    ensures FindStart(text + EndLine(ts, name)).None?
  {
    EndLineHasNoStart(ts, name);
    TextHasNone(text, EndLine(ts, name), START_PREFIX, true);
    hide EndLine, MarkerFrom;
    NothingInBoth(text, EndLine(ts, name), START_PREFIX, true);
  }

  lemma EndPeelsBehind(rules: Rules, rows: Rows, text: string, ts: nat, name: string)
    requires MarkerName(name) && ESC !in text && rules.findStart == FindStart && rules.findEnd == FindEnd
    requires FindStart(text + EndLine(ts, name)).None?
    ensures PeelOne(rules)((rows, text + EndLine(ts, name)))
            == Some((CloseSection(PushBefore(rules, rows, text), name, Some(ts)), ""))
  {
    var m := Marker(text, ts, name, "", "");
    PrintedMarkerFound(m);
    assert EndLine(ts, name) == END_PREFIX + MarkerTail(m) by { EmptyBefore(END_PREFIX + MarkerTail(m)); }
    hide FindStart, FindEnd, CloseSection, PushBefore, EndLine, MarkerTail;
    assert rules.findEnd(text + EndLine(ts, name)) == Some(m);
  }

  lemma EmptyBefore(s: string)
    ensures "" + s == s
  {
  }

  lemma EndPeelsBefore(rules: Rules, rows: Rows, ts: nat, name: string, text: string)
    requires MarkerName(name) && rules.findStart == FindStart && rules.findEnd == FindEnd
    requires FindStart(EndLine(ts, name) + text).None?
    ensures PeelOne(rules)((rows, EndLine(ts, name) + text)) == Some((CloseSection(rows, name, Some(ts)), text))
  {
    var m := Marker("", ts, name, "", "");
    PrintedTogether(m, END_PREFIX, text);
    assert m.after + text == text;
    PrintedMarkerFound(m.(after := text));
    hide PrintMarker, FindStart, FindEnd, CloseSection;
    EndPeels(rules, rows, EndLine(ts, name) + text, m.(after := text));
  }

  /** Text after an end marker is treated as a line of its own. */
  lemma EndThenText(isError: string -> bool, isWarn: string -> bool, rows: Rows, ts: nat, name: string, text: string)
    requires MarkerName(name) && ESC !in text && text != ""
    ensures var rules, end := JobLogRules(isError, isWarn), EndLine(ts, name);
            PushRaw(rules, rows, end + text) == PushRaw(rules, PushRaw(rules, rows, end), text)
  {
    var rules, end, closed := JobLogRules(isError, isWarn), EndLine(ts, name), CloseSection(rows, name, Some(ts));
    hide *;
    SectionEndCloses(isError, isWarn, rows, ts, name);
    NoStartBehindEnd(ts, name, text);
    NoEscNothing(isError, isWarn, closed, text);
    RulesAre(isError, isWarn);
    EndPeelsBefore(rules, rows, ts, name, text);
    RestPushed(rules, rows, end + text, closed, text);
  }

  lemma RulesAre(isError: string -> bool, isWarn: string -> bool)
    ensures var rules := JobLogRules(isError, isWarn);
            && rules.findStart == FindStart && rules.findEnd == FindEnd
            && rules.githubGroup == GithubGroup && rules.githubEnd == GithubEnd
  {
  }

  lemma RestPushed(rules: Rules, rows: Rows, raw: string, mid: Rows, rest: string)
    requires PeelOne(rules)((rows, raw)) == Some((mid, rest)) && PeelOne(rules)((mid, rest)).None? && rest != ""
    ensures PushRaw(rules, rows, raw) == PushRaw(rules, mid, rest)
  {
    var peel := PeelOne(rules);
    hide PeelOne;
    assert Iterate(peel, (mid, rest), MAX_MARKERS - 1) == (mid, rest) == Iterate(peel, (mid, rest), MAX_MARKERS);
    assert Peel(rules, rows, raw) == (mid, rest) == Peel(rules, mid, rest);
  }

  lemma NoStartBehindEnd(ts: nat, name: string, text: string)
    requires MarkerName(name) && ESC !in text
    ensures FindStart(EndLine(ts, name) + text).None?
  {
    var s, middle := EndLine(ts, name) + text, NatToString(ts) + (":" + name);
    PlainMiddle(ts, name);
    assert EndLine(ts, name) == END_PREFIX + middle + MARKER_CLOSE;
    NoEscNoMarker(text, 0, START_PREFIX, true);
    forall j | 0 <= j < |EndLine(ts, name)| ensures MarkerFrom(s[..j], s[j..], START_PREFIX, true).None? {
      NoStartAcross(middle, text, j);
    }
    NothingInBoth(EndLine(ts, name), text, START_PREFIX, true);
  }

  lemma NoStartAcross(middle: string, text: string, j: nat)
    requires ESC !in middle && ESC !in text && j < |END_PREFIX + middle + MARKER_CLOSE|
    ensures var s := END_PREFIX + middle + MARKER_CLOSE + text;
            MarkerFrom(s[..j], s[j..], START_PREFIX, true).None?
  {
    var s, close := END_PREFIX + middle + MARKER_CLOSE + text, |END_PREFIX| + |middle|;
    if j == 0 {
      assert s[12] == 'e' && START_PREFIX[12] == 's';
    } else if j == close + 1 {
      if j + |START_PREFIX| <= |s| {
        var from := j + |START_PREFIX|;
        assert s[j..][|START_PREFIX|..] == s[from..] == text[|START_PREFIX| - 4..];
        NeedsClose(s[..j], s[j..], START_PREFIX, true);
      }
    } else {
      assert j < |END_PREFIX| ==> s[j] == END_PREFIX[j] && END_PREFIX[j] != ESC;
      assert |END_PREFIX| <= j < close ==> s[j] == middle[j - |END_PREFIX|] && s[j] in middle;
      assert close <= j ==> s[j] == MARKER_CLOSE[j - close] && MARKER_CLOSE[j - close] != ESC;
      NoPrefixWithout(s, j, START_PREFIX);
    }
  }

  // ---- At most eight markers on one line ----------------------------------------------------------------

  function EndLines(ts: nat, name: string, k: nat): string {
    if k == 0 then "" else EndLine(ts, name) + EndLines(ts, name, k - 1)
  }

  function Closed(rows: Rows, name: string, ts: nat, k: nat): Rows
    decreases k
  {
    if k == 0 then rows else Closed(CloseSection(rows, name, Some(ts)), name, ts, k - 1)
  }

  lemma {:induction false} NoStartInEndLines(ts: nat, name: string, k: nat)
    requires MarkerName(name)
    ensures FindStart(EndLines(ts, name, k)).None?
  {
    hide EndLine, FindStart, MarkerName;
    if k == 0 {
      NoEscNoMarker("", 0, START_PREFIX, true);
      StartIs("");
    } else {
      NoStartInEndLines(ts, name, k - 1);
      LineBegins(ts, name);
      NoStartInOneMore(ts, name, EndLines(ts, name, k - 1));
    }
  }

  lemma NoStartInOneMore(ts: nat, name: string, rest: string)
    requires MarkerName(name) && FindStart(rest).None? && (rest != "" ==> rest[0] == ESC)
    ensures FindStart(EndLine(ts, name) + rest).None?
  {
    StartIs(rest);
    StartIs(EndLine(ts, name) + rest);
    hide EndLine, FindStart, MarkerFrom, MarkerName;
    forall j | 0 <= j < |EndLine(ts, name)|
      ensures MarkerFrom((EndLine(ts, name) + rest)[..j], (EndLine(ts, name) + rest)[j..], START_PREFIX, true).None?
    {
      NoStartWithin(ts, name, rest, j);
    }
    NothingInBoth(EndLine(ts, name), rest, START_PREFIX, true);
  }

  lemma StartIs(s: string)
    ensures FindStart(s) == FindMarker(s, 0, START_PREFIX, true)
  {
  }

  lemma NoStartWithin(ts: nat, name: string, rest: string, j: nat)
    requires MarkerName(name) && (rest != "" ==> rest[0] == ESC) && j < |EndLine(ts, name)|
    ensures MarkerFrom((EndLine(ts, name) + rest)[..j], (EndLine(ts, name) + rest)[j..], START_PREFIX, true).None?
  {
    var middle := NatToString(ts) + (":" + name);
    PlainMiddle(ts, name);
    assert EndLine(ts, name) == END_PREFIX + middle + MARKER_CLOSE;
    hide EndLine, NatToString;
    if rest != "" { NoStartInEnd(middle, rest, j); } else { NoStartAcross(middle, "", j); }
  }

  lemma IterateStep<S>(step: S -> Option<S>, s: S, times: nat)
    ensures step(s).None? || times == 0 ==> Iterate(step, s, times) == s
    ensures step(s).Some? && times > 0 ==> Iterate(step, s, times) == Iterate(step, step(s).value, times - 1)
  {
  }

  /** `n` turns of the marker loop take off `n` end markers, or all there are. */
  lemma {:induction false} EndLinesPeel(rules: Rules, rows: Rows, ts: nat, name: string, k: nat, n: nat)
    requires MarkerName(name) && rules.findStart == FindStart && rules.findEnd == FindEnd
    ensures var m := Min(k, n);
            Iterate(PeelOne(rules), (rows, EndLines(ts, name, k)), n)
            == (Closed(rows, name, ts, m), EndLines(ts, name, k - m))
    decreases n
  {
    hide PeelOne, Iterate, CloseSection, EndLine, FindStart, FindEnd, MarkerName;
    IterateStep(PeelOne(rules), (rows, EndLines(ts, name, k)), n);
    if k == 0 {
      NoneInNothing(rules, rows);
    } else if n > 0 {
      NextPeels(rules, rows, ts, name, k);
      EndLinesPeel(rules, CloseSection(rows, name, Some(ts)), ts, name, k - 1, n - 1);
    }
  }

  lemma NextPeels(rules: Rules, rows: Rows, ts: nat, name: string, k: nat)
    requires MarkerName(name) && rules.findStart == FindStart && rules.findEnd == FindEnd && k > 0
    ensures PeelOne(rules)((rows, EndLines(ts, name, k)))
            == Some((CloseSection(rows, name, Some(ts)), EndLines(ts, name, k - 1)))
  {
    NoStartInEndLines(ts, name, k);
    hide FindStart, FindEnd, EndLine, PeelOne, CloseSection;
    EndPeelsBefore(rules, rows, ts, name, EndLines(ts, name, k - 1));
  }

  lemma NoneInNothing(rules: Rules, rows: Rows)
    requires rules.findStart == FindStart && rules.findEnd == FindEnd
    ensures PeelOne(rules)((rows, "")).None?
  {
    NoEscNoMarker("", 0, START_PREFIX, true);
    NoEscNoMarker("", 0, END_PREFIX, false);
    assert FindStart("").None? && FindEnd("").None?;
    assert rules.findStart("").None? && rules.findEnd("").None?;
  }

  lemma {:induction false} ClosedKeepsRows(rows: Rows, name: string, ts: nat, k: nat)
    ensures Closed(rows, name, ts, k).lines == rows.lines && Closed(rows, name, ts, k).nextNumber == rows.nextNumber
    decreases k
  {
    if k > 0 { ClosedKeepsRows(CloseSection(rows, name, Some(ts)), name, ts, k - 1); }
  }

  /**
   Of the end markers on one line the first eight are acted on, in order and without a row; what is left from
   the ninth on is shown as a row of text.
   */
  lemma EightMarkersAct(isError: string -> bool, isWarn: string -> bool, rows: Rows, ts: nat, name: string, k: nat)
    requires MarkerName(name) && k > 0
    ensures var rules, raw := JobLogRules(isError, isWarn), EndLines(ts, name, k);
            && (k <= 8 ==> PushRaw(rules, rows, raw) == Closed(rows, name, ts, k))
            && (k <= 8 ==> PushRaw(rules, rows, raw).lines == rows.lines)
            && (k > 8 ==> PushRaw(rules, rows, raw)
                          == PushLine(rules, Closed(rows, name, ts, 8), EndLines(ts, name, k - 8)))
  {
    var rules, raw, left := JobLogRules(isError, isWarn), EndLines(ts, name, k), EndLines(ts, name, k - Min(k, 8));
    RulesAre(isError, isWarn);
    LineBegins(ts, name);
    ClosedKeepsRows(rows, name, ts, Min(k, 8));
    assert raw != "" && (k > 8 ==> left != "" && left[0] == ESC);
    hide Closed, EndLine, EndLines, FindStart, FindEnd;
    EndLinesPeel(rules, rows, ts, name, k, 8);
    LeftIsText(rules, rows, raw, Closed(rows, name, ts, Min(k, 8)), left);
  }

  lemma LeftIsText(rules: Rules, rows: Rows, raw: string, peeled: Rows, left: string)
    requires Peel(rules, rows, raw) == (peeled, left) && raw != "" && (left != "" ==> left[0] == ESC)
    requires rules.githubGroup == GithubGroup && rules.githubEnd == GithubEnd
    ensures PushRaw(rules, rows, raw) == if left == "" then peeled else PushLine(rules, peeled, left)
  {
    hide Peel, PushLine;
    NoGithubLine(left);
    assert rules.githubGroup(left).None? && !rules.githubEnd(left);
  }

  lemma NoGithubLine(s: string)
    requires s != "" ==> s[0] == ESC
    ensures GithubGroup(s).None? && !GithubEnd(s)
  {
    assert !LooksAt(s, 0, "::group::") && !LooksAt(s, 0, "::endgroup::");
  }
}
