/** What every sequence of parser operations keeps true of rows, sections and counters. */
module LogInvariant {
  import opened Seqs
  import opened Decimal
  import opened LineFeed
  import opened LogParser
  import opened Text

  function CountLevel(lines: seq<Line>, level: Level): nat {
    if lines == [] then 0 else CountLevel(Init(lines), level) + if Last(lines).level == level then 1 else 0
  }

  /** Rows are numbered from 1 without gaps, and the counters count the rows of their level. */
  ghost predicate Numbered(r: Rows) {
    && r.nextNumber == |r.lines| + 1
    && (forall i | 0 <= i < |r.lines| :: r.lines[i].n == i + 1)
    && r.errorLines == CountLevel(r.lines, Error)
    && r.warnLines == CountLevel(r.lines, Warn)
  }

  /** `openSections` is exactly the ordered subsequence of `sections` whose `open` flag is set. */
  ghost predicate OpenList(r: Rows) {
    && (forall i, j | 0 <= i < j < |r.openSections| :: r.openSections[i] < r.openSections[j])
    && (forall k | 0 <= k < |r.sections| :: r.sections[k].open <==> k in r.openSections)
  }

  /** Row `i` was attached to section object `k`. */
  ghost predicate Attached(r: Rows, i: nat, k: nat)
    requires |r.owners| == |r.lines|
  {
    i < |r.lines| && r.owners[i] == Some(k)
  }

  /** A section's header stands at `firstLine`; its last row is `lastLine`. */
  ghost predicate Placed(r: Rows, k: nat)
    requires |r.owners| == |r.lines| && k < |r.sections|
  {
    var s := r.sections[k];
    && 1 <= s.firstLine <= s.lastLine <= |r.lines|
    && (var h := r.lines[s.firstLine - 1];
        h.header && h.raw == s.title && h.section == Some(s.name) && h.level == Plain)
    && (s.lastLine == s.firstLine || Attached(r, s.lastLine - 1, k))
    && (forall i: nat | Attached(r, i, k) :: s.firstLine <= i < s.lastLine)
    && (forall j | k < j < |r.sections| :: s.firstLine < r.sections[j].firstLine)
  }

  /** `hasError` says exactly that an error row was attached to this section object. */
  ghost predicate ErrorFlag(r: Rows, k: nat)
    requires |r.owners| == |r.lines| && k < |r.sections|
  {
    r.sections[k].hasError <==> exists i: nat | Attached(r, i, k) :: r.lines[i].level == Error
  }

  /** A row shows the name of the section it was attached to; unattached rows are headers or bare. */
  ghost predicate RowOk(rules: Rules, r: Rows, i: nat)
    requires |r.owners| == |r.lines| && i < |r.lines|
  {
    var line := r.lines[i];
    match r.owners[i]
    case Some(k) => k < |r.sections| && line.section == Some(r.sections[k].name) && !line.header
                    && Levelled(rules, line)
    case None => if line.header then line.level == Plain
                 else line.section == None && Levelled(rules, line)
  }

  ghost predicate Inv(rules: Rules, r: Rows) {
    && |r.owners| == |r.lines|
    && Numbered(r)
    && OpenList(r)
    && (forall k | 0 <= k < |r.sections| :: Placed(r, k) && ErrorFlag(r, k))
    && (forall i | 0 <= i < |r.lines| :: RowOk(rules, r, i))
  }

  lemma InitiallyInv(rules: Rules)
    ensures Inv(rules, EmptyRows)
  {
  }

  lemma CountLevelSnoc(lines: seq<Line>, line: Line, level: Level)
    ensures CountLevel(lines + [line], level) == CountLevel(lines, level) + if line.level == level then 1 else 0
  {
    assert Init(lines + [line]) == lines;
  }

  // ---- pushLine -------------------------------------------------------------------------

  /** The new row is attached to the innermost open section; the rows before stay where they were. */
  lemma PushedRow(rules: Rules, r: Rows, raw: string, k: nat)
    requires Inv(rules, r) && k < |r.sections|
    ensures var r', n := PushLine(rules, r, raw), |r.lines|;
            && (forall i: nat | i < n :: Attached(r', i, k) <==> Attached(r, i, k))
            && (Attached(r', n, k) <==> TopSection(r) == Some(k))
            && r'.lines[..n] == r.lines
  {
    hide Classify, Placed, ErrorFlag, RowOk, Numbered;
  }

  lemma PushLinePlaces(rules: Rules, r: Rows, raw: string, k: nat)
    requires Inv(rules, r) && k < |r.sections|
    ensures Placed(PushLine(rules, r, raw), k)
  {
    var r', n := PushLine(rules, r, raw), |r.lines|;
    PushedRow(rules, r, raw, k);
    hide Classify, ErrorFlag, RowOk, OpenList;
    assert Placed(r, k);
    assert forall i | 0 <= i < n :: r'.lines[i] == r'.lines[..n][i];
  }

  lemma PushLineFlags(rules: Rules, r: Rows, raw: string, k: nat)
    requires Inv(rules, r) && k < |r.sections|
    ensures ErrorFlag(PushLine(rules, r, raw), k)
  {
    var r', n := PushLine(rules, r, raw), |r.lines|;
    PushedRow(rules, r, raw, k);
    hide Classify, Placed, RowOk, OpenList, Numbered;
    assert ErrorFlag(r, k);
    assert forall i | 0 <= i < n :: r'.lines[i] == r'.lines[..n][i];
    if r.sections[k].hasError {
      var i: nat :| Attached(r, i, k) && r.lines[i].level == Error;
      assert Attached(r', i, k) && r'.lines[i].level == Error;
    } else if TopSection(r) == Some(k) {
      assert Attached(r', n, k);
    }
  }

  lemma NewRowLevelled(rules: Rules, r: Rows, raw: string)
    ensures Levelled(rules, Last(PushLine(rules, r, raw).lines))
  {
  }

  lemma PushLineKeeps(rules: Rules, r: Rows, raw: string)
    requires Inv(rules, r)
    ensures Inv(rules, PushLine(rules, r, raw))
  {
    NewRowLevelled(rules, r, raw);
    hide Levelled;
    hide Classify, Placed, ErrorFlag;
    var r' := PushLine(rules, r, raw);
    CountLevelSnoc(r.lines, Last(r'.lines), Error);
    CountLevelSnoc(r.lines, Last(r'.lines), Warn);
    forall k | 0 <= k < |r'.sections| ensures Placed(r', k) && ErrorFlag(r', k) {
      PushLinePlaces(rules, r, raw, k);
      PushLineFlags(rules, r, raw, k);
    }
    assert OpenList(r');
    forall i | 0 <= i < |r'.lines| ensures RowOk(rules, r', i) {
      if i < |r.lines| { assert RowOk(rules, r, i); }
    }
  }

  // ---- openSection ----------------------------------------------------------------------

  lemma OpenSectionSection(rules: Rules, r: Rows, name: string, title: string, ts: Option<nat>, collapsed: bool, k: nat)
    requires Inv(rules, r) && k <= |r.sections|
    ensures Placed(OpenSection(r, name, title, ts, collapsed), k)
    ensures ErrorFlag(OpenSection(r, name, title, ts, collapsed), k)
  {
    var r', n := OpenSection(r, name, title, ts, collapsed), |r.lines|;
    assert forall i: nat | i < n :: Attached(r', i, k) <==> Attached(r, i, k);
    assert !Attached(r', n, k);
    assert forall i | 0 <= i < n :: r'.lines[i] == r.lines[i];
    if k < |r.sections| {
      assert Placed(r, k) && ErrorFlag(r, k);
      if r.sections[k].hasError {
        var i: nat :| Attached(r, i, k) && r.lines[i].level == Error;
        assert Attached(r', i, k) && r'.lines[i].level == Error;
      }
    } else {
      forall i: nat | i < n ensures !Attached(r, i, k) { assert RowOk(rules, r, i); }
    }
  }

  lemma OpenSectionKeeps(rules: Rules, r: Rows, name: string, title: string, ts: Option<nat>, collapsed: bool)
    requires Inv(rules, r)
    ensures Inv(rules, OpenSection(r, name, title, ts, collapsed))
  {
    var r' := OpenSection(r, name, title, ts, collapsed);
    CountLevelSnoc(r.lines, Last(r'.lines), Error);
    CountLevelSnoc(r.lines, Last(r'.lines), Warn);
    forall k | 0 <= k < |r'.sections| ensures Placed(r', k) && ErrorFlag(r', k) {
      OpenSectionSection(rules, r, name, title, ts, collapsed, k);
    }
    assert Last(r'.openSections) == |r.sections|;
    assert OpenList(r');
    forall i | 0 <= i < |r'.lines| ensures RowOk(rules, r', i) {
      if i < |r.lines| { assert RowOk(rules, r, i); }
    }
  }

  // ---- closeSection ---------------------------------------------------------------------

  lemma CloseSectionSection(rules: Rules, r: Rows, name: string, ts: Option<nat>, k: nat)
    requires Inv(rules, r) && k < |r.sections|
    ensures Placed(CloseSection(r, name, ts), k) && ErrorFlag(CloseSection(r, name, ts), k)
  {
    var r' := CloseSection(r, name, ts);
    assert Placed(r, k) && ErrorFlag(r, k);
    assert forall i: nat :: Attached(r', i, k) <==> Attached(r, i, k);
    if r.sections[k].hasError {
      var i: nat :| Attached(r, i, k) && r.lines[i].level == Error;
      assert Attached(r', i, k) && r'.lines[i].level == Error;
    }
  }

  lemma CloseSectionKeeps(rules: Rules, r: Rows, name: string, ts: Option<nat>)
    requires Inv(rules, r)
    ensures Inv(rules, CloseSection(r, name, ts))
  {
    var r' := CloseSection(r, name, ts);
    forall k | 0 <= k < |r'.sections| ensures Placed(r', k) && ErrorFlag(r', k) {
      CloseSectionSection(rules, r, name, ts, k);
    }
    CloseSectionOpenList(r, name, ts);
    forall i | 0 <= i < |r'.lines| ensures RowOk(rules, r', i) {
      assert RowOk(rules, r, i);
    }
  }

  lemma CloseSectionOpenList(r: Rows, name: string, ts: Option<nat>)
    requires OpenList(r)
    ensures OpenList(CloseSection(r, name, ts))
  {
    var at := FindOpen(r.sections, r.openSections, name);
    if at < |r.openSections| {
      RemovedOnly(r.openSections, at);
      RemovedSorted(r.openSections, at);
      var k, left := r.openSections[at], r.openSections[..at] + r.openSections[at + 1..];
      var r' := CloseSection(r, name, ts);
      assert r'.openSections == left && forall j | 0 <= j < |r.sections| && j != k :: r'.sections[j] == r.sections[j];
      hide FindOpen, CloseSection;
      forall j | 0 <= j < |r'.sections| ensures r'.sections[j].open <==> j in left {}
    }
  }

  lemma RemovedSorted(s: seq<nat>, at: nat)
    requires at < |s| && forall i, j | 0 <= i < j < |s| :: s[i] < s[j]
    ensures var left := s[..at] + s[at + 1..]; forall i, j | 0 <= i < j < |left| :: left[i] < left[j]
  {
  }

  lemma RemovedOnly(s: seq<nat>, at: nat)
    requires at < |s| && forall i, j | 0 <= i < j < |s| :: s[i] < s[j]
    ensures forall k: nat :: k in s[..at] + s[at + 1..] <==> k in s && k != s[at]
  {
    assert s == s[..at] + [s[at]] + s[at + 1..];
  }

  // ---- Whole operations -----------------------------------------------------------------

  lemma PeelKeeps(rules: Rules, r: Rows, raw: string)
    requires Inv(rules, r)
    ensures Inv(rules, Peel(rules, r, raw).0)
  {
    forall s: (Rows, string) | Inv(rules, s.0) && PeelOne(rules)(s).Some?
      ensures Inv(rules, PeelOne(rules)(s).value.0)
    {
      var start, end := rules.findStart(s.1), rules.findEnd(s.1);
      if start.Some? { ApplyStartKeeps(rules, s.0, start.value); }
      if end.Some? { ApplyEndKeeps(rules, s.0, end.value); }
    }
    IterateKeeps(PeelOne(rules), (r, raw), MAX_MARKERS, (s: (Rows, string)) => Inv(rules, s.0));
  }

  lemma ApplyStartKeeps(rules: Rules, r: Rows, m: Marker)
    requires Inv(rules, r)
    ensures Inv(rules, ApplyStart(rules, r, m).0)
  {
    PushBeforeKeeps(rules, r, m.before);
    OpenSectionKeeps(rules, PushBefore(rules, r, m.before), m.name,
                     OrElse(Trim(SplitOn(m.after, ESC)[0]), m.name), Some(m.ts),
                     Contains(m.options, "collapsed=true"));
  }

  lemma ApplyEndKeeps(rules: Rules, r: Rows, m: Marker)
    requires Inv(rules, r)
    ensures Inv(rules, ApplyEnd(rules, r, m).0)
  {
    PushBeforeKeeps(rules, r, m.before);
    CloseSectionKeeps(rules, PushBefore(rules, r, m.before), m.name, Some(m.ts));
  }

  lemma PushBeforeKeeps(rules: Rules, r: Rows, before: string)
    requires Inv(rules, r)
    ensures Inv(rules, PushBefore(rules, r, before))
  {
    if Trim(before) != "" { PushLineKeeps(rules, r, before); }
  }

  lemma PushRawKeeps(rules: Rules, r: Rows, raw: string)
    requires Inv(rules, r)
    ensures Inv(rules, PushRaw(rules, r, raw))
  {
    var (peeled, rest) := Peel(rules, r, raw);
    PeelKeeps(rules, r, raw);
    AfterPeelingKeeps(rules, peeled, raw, rest);
  }

  lemma AfterPeelingKeeps(rules: Rules, peeled: Rows, raw: string, rest: string)
    requires Inv(rules, peeled)
    ensures Inv(rules, AfterPeeling(rules, peeled, raw, rest))
  {
    var group := rules.githubGroup(rest);
    if group.Some? {
      var name := "group-" + NatToString(peeled.nextNumber);
      OpenSectionKeeps(rules, peeled, name, OrElse(Trim(group.value), name), None, false);
    } else if rules.githubEnd(rest) {
      if peeled.openSections != [] {
        CloseSectionKeeps(rules, peeled, peeled.sections[Last(peeled.openSections)].name, None);
      }
    } else if !(rest == "" && raw != "") {
      PushLineKeeps(rules, peeled, rest);
    }
  }

  lemma {:induction false} FoldKeeps(rules: Rules, r: Rows, raws: seq<string>)
    requires Inv(rules, r)
    ensures Inv(rules, Fold(Pusher(rules), r, raws))
    decreases |raws|
  {
    if raws != [] {
      PushRawKeeps(rules, r, raws[0]);
      FoldKeeps(rules, PushRaw(rules, r, raws[0]), raws[1..]);
    }
  }

  datatype Operation = DoAppend(chunk: string) | DoFlush | DoReset

  function Perform(rules: Rules, m: Model, op: Operation): Model {
    match op
    case DoAppend(chunk) => Append(Pusher(rules), m, chunk)
    case DoFlush => Flush(Pusher(rules), m)
    case DoReset => Fresh
  }

  function PerformAll(rules: Rules, m: Model, ops: seq<Operation>): Model
    decreases |ops|
  {
    if ops == [] then m else PerformAll(rules, Perform(rules, m, ops[0]), ops[1..])
  }

  /** After every sequence of append, flush and reset the parser's state is consistent. */
  lemma {:induction false} EveryRunKeepsInv(rules: Rules, m: Model, ops: seq<Operation>)
    requires Inv(rules, m.rows) && '\n' !in m.partial
    ensures Inv(rules, PerformAll(rules, m, ops).rows)
    ensures '\n' !in PerformAll(rules, m, ops).partial
    decreases |ops|
  {
    if ops != [] {
      var m' := Perform(rules, m, ops[0]);
      match ops[0] {
        case DoAppend(chunk) =>
          if chunk != "" {
            FoldKeeps(rules, m.rows, Init(SplitOn(m.partial + chunk, '\n')));
          }
        case DoFlush =>
          if m.partial != "" { PushRawKeeps(rules, m.rows, m.partial); }
        case DoReset => InitiallyInv(rules);
      }
      EveryRunKeepsInv(rules, m', ops[1..]);
    }
  }
}
