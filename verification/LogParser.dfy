/**
 The incremental parser of job output (logParser.ts) as functions: numbered rows, collapsible
 sections opened and closed by GitLab or GitHub markers, error and warning counters.
 */
module LogParser {
  import opened Seqs
  import opened Decimal
  import opened LineFeed
  import opened Text

  datatype Level = Error | Warn | Plain

  /** A section marker found in a line: the text before it, what it says, the text after it. */
  datatype Marker = Marker(before: string, ts: nat, name: string, options: string, after: string)

  /**
   The recognisers the parser is built on: the two classification regexes, the leftmost GitLab
   start and end marker, GitHub group lines. Module Markers has the concrete marker scanners.
   */
  datatype Rules = Rules(
    isError: string -> bool, isWarn: string -> bool,
    findStart: string -> Option<Marker>, findEnd: string -> Option<Marker>,
    githubGroup: string -> Option<string>, githubEnd: string -> bool)

  function Classify(rules: Rules, raw: string): Level {
    if rules.isError(raw) then Error else if rules.isWarn(raw) then Warn else Plain
  }

  /** What the colours mean: an error is one whatever the other pattern says of it. */
  ghost predicate Levelled(rules: Rules, line: Line) {
    && (line.level == Error <==> rules.isError(line.raw))
    && (line.level == Warn <==> rules.isWarn(line.raw) && !rules.isError(line.raw))
  }

  /** One displayed row. */
  datatype Line = Line(n: nat, raw: string, level: Level, section: Option<string>, header: bool)

  datatype Section = Section(
    name: string, title: string, firstLine: nat, lastLine: nat,
    startTs: Option<nat>, endTs: Option<nat>, collapsed: bool, hasError: bool, open: bool)

  /**
   What the parser has produced so far. `openSections` lists positions in `sections`; `owners`
   remembers, for each row, the section object the row was attached to.
   */
  datatype RowsData = Rows(
    lines: seq<Line>, sections: seq<Section>, errorLines: nat, warnLines: nat,
    nextNumber: nat, openSections: seq<nat>, owners: seq<Option<nat>>)

  type Rows = r: RowsData | forall i | 0 <= i < |r.openSections| :: r.openSections[i] < |r.sections|
    witness Rows([], [], 0, 0, 1, [], [])

  /** The parser: finished rows and the unterminated rest of the input. */
  type Model = Feed<Rows>

  const EmptyRows: Rows := Rows([], [], 0, 0, 1, [], [])
  const Fresh: Model := Feed(EmptyRows, "")

  // ---- Rows and sections ----------------------------------------------------------------

  function TopSection(rows: Rows): Option<nat> {
    if rows.openSections == [] then None else Some(Last(rows.openSections))
  }

  /** `pushLine`: number the row, classify it, attach it to the innermost open section. */
  function PushLine(rules: Rules, rows: Rows, raw: string): Rows
  {
    var level := Classify(rules, raw);
    var top := TopSection(rows);
    var name := if top.Some? then Some(rows.sections[top.value].name) else None;
    Rows(
      rows.lines + [Line(rows.nextNumber, raw, level, name, false)],
      if top.None? then rows.sections
      else rows.sections[top.value := Touched(rows.sections[top.value], rows.nextNumber, level)],
      rows.errorLines + if level.Error? then 1 else 0,
      rows.warnLines + if level.Warn? then 1 else 0,
      rows.nextNumber + 1,
      rows.openSections,
      rows.owners + [top])
  }

  function Touched(s: Section, n: nat, level: Level): Section {
    s.(lastLine := n, hasError := s.hasError || level.Error?)
  }

  /** `openSection`: a section whose header row is the next row. */
  function OpenSection(rows: Rows, name: string, title: string, ts: Option<nat>, collapsed: bool): Rows
  {
    Rows(
      rows.lines + [Line(rows.nextNumber, title, Plain, Some(name), true)],
      rows.sections + [Section(name, title, rows.nextNumber, rows.nextNumber, ts, None, collapsed, false, true)],
      rows.errorLines,
      rows.warnLines,
      rows.nextNumber + 1,
      rows.openSections + [|rows.sections|],
      rows.owners + [None])
  }

  /** Position in `open` of the outermost open section called `name`, or `|open|`. */
  function FindOpen(sections: seq<Section>, open: seq<nat>, name: string): (i: nat)
    requires forall j | 0 <= j < |open| :: open[j] < |sections|
    ensures i <= |open|
    ensures i < |open| ==> sections[open[i]].name == name
    ensures forall j | 0 <= j < i :: sections[open[j]].name != name
  {
    if open == [] || sections[open[0]].name == name then 0 else 1 + FindOpen(sections, open[1..], name)
  }

  function CloseSection(rows: Rows, name: string, ts: Option<nat>): Rows
  {
    var i := FindOpen(rows.sections, rows.openSections, name);
    if i == |rows.openSections| then rows
    else
      var k := rows.openSections[i];
      rows.(
        openSections := rows.openSections[..i] + rows.openSections[i + 1..],
        sections := rows.sections[k := rows.sections[k].(open := false, endTs := ts)])
  }

  /** The `j`-th open section is the first of them with this name. */
  ghost predicate FirstNamed(rows: Rows, name: string, j: nat) {
    && j < |rows.openSections| && rows.sections[rows.openSections[j]].name == name
    && forall i | 0 <= i < j :: rows.sections[rows.openSections[i]].name != name
  }

  ghost predicate NoneNamed(rows: Rows, name: string) {
    forall i | 0 <= i < |rows.openSections| :: rows.sections[rows.openSections[i]].name != name
  }

  /** The first open section with the name has ended at `ts` and left the open ones; nothing else has changed. */
  ghost predicate EndsFirst(rows: Rows, rows': Rows, name: string, ts: Option<nat>) {
    && (NoneNamed(rows, name) ==> rows' == rows)
    && (forall j | FirstNamed(rows, name, j) :: Ended(rows, rows', j, ts))
  }

  ghost predicate Ended(rows: Rows, rows': Rows, j: nat, ts: Option<nat>)
    requires j < |rows.openSections|
  {
    var k := rows.openSections[j];
    && rows'.openSections == rows.openSections[..j] + rows.openSections[j + 1..]
    && |rows'.sections| == |rows.sections|
    && !rows'.sections[k].open && rows'.sections[k].endTs == ts
    && rows'.sections[k].(open := rows.sections[k].open, endTs := rows.sections[k].endTs) == rows.sections[k]
    && (forall i | 0 <= i < |rows.sections| && i != k :: rows'.sections[i] == rows.sections[i])
    && rows'.lines == rows.lines && rows'.owners == rows.owners && rows'.nextNumber == rows.nextNumber
    && rows'.errorLines == rows.errorLines && rows'.warnLines == rows.warnLines
  }

  /** A section is closed exactly if an open one has the name, and it is the outermost such. */
  lemma CloseSectionExactly(rows: Rows, name: string, ts: Option<nat>)
    ensures EndsFirst(rows, CloseSection(rows, name, ts), name, ts)
    ensures CloseSection(rows, name, ts) == rows <==> NoneNamed(rows, name)
  {
    var at := FindOpen(rows.sections, rows.openSections, name);
    if at < |rows.openSections| {
      forall j | FirstNamed(rows, name, j) ensures j == at {}
      assert |CloseSection(rows, name, ts).openSections| == |rows.openSections| - 1;
    }
  }

  // ---- One raw line ---------------------------------------------------------------------

  /** Text before a marker becomes a row unless it is blank. */
  function PushBefore(rules: Rules, rows: Rows, before: string): Rows
  {
    if Trim(before) != "" then PushLine(rules, rows, before) else rows
  }

  /** What one marker does: text before it, the section it opens or closes, text left after it. */
  function ApplyStart(rules: Rules, rows: Rows, m: Marker): (Rows, string) {
    var title := SplitOn(m.after, ESC)[0];
    TitleIsPrefix(m.after);
    (OpenSection(PushBefore(rules, rows, m.before), m.name, OrElse(Trim(title), m.name), Some(m.ts),
                 Contains(m.options, "collapsed=true")),
     m.after[|title|..])
  }

  function ApplyEnd(rules: Rules, rows: Rows, m: Marker): (Rows, string) {
    (CloseSection(PushBefore(rules, rows, m.before), m.name, Some(m.ts)), m.after)
  }

  /** Applies the leftmost of the two markers; a start wins a tie. */
  function ApplyFirst(rules: Rules, rows: Rows, start: Option<Marker>, end: Option<Marker>): Option<(Rows, string)> {
    if start.Some? && (end.None? || |start.value.before| <= |end.value.before|) then
      Some(ApplyStart(rules, rows, start.value))
    else if end.Some? then Some(ApplyEnd(rules, rows, end.value))
    else None
  }

  function PeelOne(rules: Rules): ((Rows, string)) -> Option<(Rows, string)> {
    (s: (Rows, string)) => ApplyFirst(rules, s.0, rules.findStart(s.1), rules.findEnd(s.1))
  }

  const MAX_MARKERS: nat := 8

  /** Applies the markers that share a line with content, at most MAX_MARKERS of them. */
  function Peel(rules: Rules, rows: Rows, raw: string): (Rows, string) {
    Iterate(PeelOne(rules), (rows, raw), MAX_MARKERS)
  }

  lemma TitleIsPrefix(s: string)
    ensures |SplitOn(s, ESC)[0]| <= |s|
  {
  }

  /** What the line holds once its markers are off: a GitHub group, its end, nothing, or a row. */
  function AfterPeeling(rules: Rules, peeled: Rows, raw: string, rest: string): Rows {
    var group := rules.githubGroup(rest);
    if group.Some? then
      var name := "group-" + NatToString(peeled.nextNumber);
      OpenSection(peeled, name, OrElse(Trim(group.value), name), None, false)
    else if rules.githubEnd(rest) then
      if peeled.openSections == [] then peeled
      else CloseSection(peeled, peeled.sections[Last(peeled.openSections)].name, None)
    else if rest == "" && raw != "" then peeled
    else PushLine(rules, peeled, rest)
  }

  function PushRaw(rules: Rules, rows: Rows, raw: string): Rows {
    var (peeled, rest) := Peel(rules, rows, raw);
    AfterPeeling(rules, peeled, raw, rest)
  }

  /** The parser as the consumer of a line feed. */
  function Pusher(rules: Rules): (Rows, string) -> Rows {
    (rows, raw) => PushRaw(rules, rows, raw)
  }

  lemma FoldPush(rules: Rules, rows: Rows, raws: seq<string>)
    requires raws != []
    ensures Fold(Pusher(rules), rows, raws) == Fold(Pusher(rules), PushRaw(rules, rows, raws[0]), raws[1..])
  {
  }

  lemma FlushPush(rules: Rules, m: Model)
    requires m.partial != ""
    ensures Flush(Pusher(rules), m) == Feed(PushRaw(rules, m.rows, m.partial), "")
  {
  }
}
