/**
 Rows of the browser's parser against lines of the file: when row `n` is the file's `n`-th line,
 so that the line number in the agent's error excerpt points at the right row.
 */
module LogLines {
  import opened Seqs
  import opened LineFeed
  import opened LogParser
  import opened Text
  import LogInvariant
  import Markers

  function Raws(): Rows -> seq<string> {
    (rows: Rows) => MapSeq((line: Line) => line.raw, rows.lines)
  }

  /** No section marker of either flavour is recognised in this line. */
  predicate Unmarked(rules: Rules, line: string) {
    && rules.findStart(line).None? && rules.findEnd(line).None?
    && rules.githubGroup(line).None? && !rules.githubEnd(line)
  }

  predicate AllUnmarked(rules: Rules, lines: seq<string>) {
    forall i | 0 <= i < |lines| :: Unmarked(rules, lines[i])
  }

  lemma UnmarkedIsOneRow(rules: Rules, rows: Rows, raw: string)
    requires Unmarked(rules, raw)
    ensures PushRaw(rules, rows, raw) == PushLine(rules, rows, raw)
    ensures Raws()(PushRaw(rules, rows, raw)) == Raws()(rows) + [raw]
  {
    assert PeelOne(rules)((rows, raw)).None?;
    assert Peel(rules, rows, raw) == (rows, raw);
  }

  lemma UnmarkedRecords(rules: Rules, lines: seq<string>)
    requires AllUnmarked(rules, lines)
    ensures RecordsAll(Pusher(rules), Raws(), lines)
  {
    forall i | 0 <= i < |lines| ensures Records(Pusher(rules), Raws(), lines[i]) {
      forall rows: Rows ensures Raws()(Pusher(rules)(rows, lines[i])) == Raws()(rows) + [lines[i]] {
        UnmarkedIsOneRow(rules, rows, lines[i]);
      }
    }
  }

  /** For every chunking of a stream without markers, row `n` is the stream's `n`-th line. */
  lemma RowsAreFileLines(rules: Rules, chunks: seq<string>)
    requires AllUnmarked(rules, TextLines(Flatten(chunks)))
    ensures var rows := Flush(Pusher(rules), AppendAll(Pusher(rules), Fresh, chunks)).rows;
            && Raws()(rows) == TextLines(Flatten(chunks))
            && forall i | 0 <= i < |rows.lines| :: rows.lines[i].n == i + 1
  {
    hide SplitOn, Flush, AppendAll, TextLines, Flatten;
    UnmarkedRecords(rules, TextLines(Flatten(chunks)));
    RowsAreLines(Pusher(rules), Raws(), Fresh, chunks);
    RowsNumbered(rules, chunks);
  }

  lemma RowsNumbered(rules: Rules, chunks: seq<string>)
    ensures LogInvariant.Inv(rules, Flush(Pusher(rules), AppendAll(Pusher(rules), Fresh, chunks)).rows)
  {
    ChunkingIndependence(Pusher(rules), Fresh, chunks);
    LogInvariant.InitiallyInv(rules);
    var parts := SplitOn("" + Flatten(chunks), '\n');
    LogInvariant.FoldKeeps(rules, EmptyRows, Init(parts));
    LogInvariant.PushRawKeeps(rules, Append(Pusher(rules), Fresh, Flatten(chunks)).rows, Last(parts));
  }

  /**
   A finished job's log, flushed after every chunk, shows its lines row by row exactly when every
   chunk starts on a new line.
   */
  lemma FinishedJobRows(rules: Rules, chunks: seq<string>)
    requires forall c | c in chunks :: AllUnmarked(rules, TextLines(c))
    ensures var rows := Fold(FlushedAppend(Pusher(rules)), Fresh, chunks).rows;
            && (Raws()(rows) == TextLines(Flatten(chunks)) <==> CutsAfterNewlines(chunks))
            && (|rows.lines| == |TextLines(Flatten(chunks))| <==> CutsAfterNewlines(chunks))
  {
    forall c | c in chunks ensures RecordsAll(Pusher(rules), Raws(), TextLines(c)) {
      UnmarkedRecords(rules, TextLines(c));
    }
    FlushedRowsExact(Pusher(rules), Raws(), Fresh, chunks);
    assert Raws()(EmptyRows) == [];
    assert [] + TextLines(Flatten(chunks)) == TextLines(Flatten(chunks));
  }

  /**
   The log of a job that ends while it is shown: the chunks `b` after the first flush must each start
   on a new line, those before it may be cut anywhere.
   */
  lemma EndedJobRows(rules: Rules, a: seq<string>, b: seq<string>)
    requires AllUnmarked(rules, TextLines(Flatten(a))) && forall c | c in b :: AllUnmarked(rules, TextLines(c))
    ensures Raws()(EndedAppend(Pusher(rules), Fresh, a, b).rows) == TextLines(Flatten(a + b))
            <==> CutsAfterNewlines([Flatten(a)] + b)
  {
    hide TextLines, AllUnmarked, RecordsAll;
    forall c | c in b ensures RecordsAll(Pusher(rules), Raws(), TextLines(c)) {
      UnmarkedRecords(rules, TextLines(c));
    }
    UnmarkedRecords(rules, TextLines(Flatten(a)));
    EndedRowsExact(Pusher(rules), Raws(), Fresh, a, b);
    assert Raws()(EmptyRows) == [];
    assert [] + TextLines(Flatten(a + b)) == TextLines(Flatten(a + b));
  }

  /** The rows of such a log are the lines of its chunks, counted chunk by chunk. */
  lemma EndedJobShows(rules: Rules, a: seq<string>, b: seq<string>)
    requires AllUnmarked(rules, TextLines(Flatten(a))) && forall c | c in b :: AllUnmarked(rules, TextLines(c))
    ensures Raws()(EndedAppend(Pusher(rules), Fresh, a, b).rows) == LinesPerChunk([Flatten(a)] + b)
  {
    var all := [Flatten(a)] + b;
    hide TextLines, AllUnmarked, RecordsAll, LinesPerChunk, Flatten;
    forall c | c in all ensures RecordsAll(Pusher(rules), Raws(), TextLines(c)) {
      UnmarkedRecords(rules, TextLines(c));
    }
    EndedIsFlushed(Pusher(rules), Fresh, a, b);
    FlushedRows(Pusher(rules), Raws(), Fresh, all);
    assert Raws()(EmptyRows) == [];
    assert [] + LinesPerChunk(all) == LinesPerChunk(all);
  }

  /** The input that fails: "ab" is one line of the file, its bytes fed and flushed apart are two rows. */
  lemma FlushedApart(isError: string -> bool, isWarn: string -> bool)
    ensures var rules := Markers.JobLogRules(isError, isWarn);
            && Raws()(Fold(FlushedAppend(Pusher(rules)), Fresh, ["a", "b"]).rows) == ["a", "b"]
            && TextLines(Flatten(["a", "b"])) == ["ab"]
  {
    var rules := Markers.JobLogRules(isError, isWarn);
    PlainUnmarked(isError, isWarn, "a");
    PlainUnmarked(isError, isWarn, "b");
    hide Unmarked;
    OneLine("a");
    OneLine("b");
    OneLine("ab");
    Flushes(rules, Fresh, "a");
    var m := FlushedAppend(Pusher(rules))(Fresh, "a");
    Flushes(rules, m, "b");
    assert Flatten(["a", "b"]) == "ab" by { assert ["a", "b"][1..] == ["b"] && ["b"][1..] == []; }
    hide Flush, Append;
    assert Fold(FlushedAppend(Pusher(rules)), Fresh, ["a", "b"]) == FlushedAppend(Pusher(rules))(m, "b") by {
      assert ["a", "b"][1..] == ["b"] && ["b"][1..] == [];
    }
  }

  lemma OneLine(t: string)
    requires t != "" && '\n' !in t
    ensures TextLines(t) == [t]
  {
    SplitAbsent(t, '\n');
  }

  lemma PlainUnmarked(isError: string -> bool, isWarn: string -> bool, line: string)
    requires |line| == 1
    ensures Unmarked(Markers.JobLogRules(isError, isWarn), line)
  {
    Markers.NothingFound(line, 0, Markers.START_PREFIX, true);
    Markers.NothingFound(line, 0, Markers.END_PREFIX, false);
  }

  lemma Flushes(rules: Rules, m: Model, line: string)
    requires m.partial == "" && AllUnmarked(rules, TextLines(line))
    ensures var m' := FlushedAppend(Pusher(rules))(m, line);
            m'.partial == "" && Raws()(m'.rows) == Raws()(m.rows) + TextLines(line)
  {
    UnmarkedRecords(rules, TextLines(line));
    AppendThenFlush(Pusher(rules), Raws(), m, line);
  }

  /** An end marker alone on its line consumes a file line without making a row. */
  lemma EndMarkerMakesNoRow(rules: Rules, rows: Rows, raw: string)
    requires raw != "" && Unmarked(rules, "") && rules.findStart(raw).None? && rules.findEnd(raw).Some?
    requires rules.findEnd(raw).value.before == "" == rules.findEnd(raw).value.after
    ensures var m := rules.findEnd(raw).value; PushRaw(rules, rows, raw) == CloseSection(rows, m.name, Some(m.ts))
    ensures Raws()(PushRaw(rules, rows, raw)) == Raws()(rows)
  {
    var m := rules.findEnd(raw).value;
    var closed := CloseSection(rows, m.name, Some(m.ts));
    assert Trim("") == "";
    assert PeelOne(rules)((rows, raw)) == Some((closed, ""));
    assert PeelOne(rules)((closed, "")).None?;
    assert Iterate(PeelOne(rules), (closed, ""), MAX_MARKERS - 1) == (closed, "");
    assert Peel(rules, rows, raw) == (closed, "");
  }

  lemma NothingInEmptyLine(isError: string -> bool, isWarn: string -> bool)
    ensures Unmarked(Markers.JobLogRules(isError, isWarn), "")
  {
    Markers.NothingFound("", 0, Markers.START_PREFIX, true);
    Markers.NothingFound("", 0, Markers.END_PREFIX, false);
  }

  lemma SectionEndCloses(isError: string -> bool, isWarn: string -> bool, rows: Rows, ts: nat, name: string)
    requires Markers.MarkerName(name)
    ensures PushRaw(Markers.JobLogRules(isError, isWarn), rows, Markers.EndLine(ts, name))
            == CloseSection(rows, name, Some(ts))
  {
    NothingInEmptyLine(isError, isWarn);
    Markers.EndLineHasNoStart(ts, name);
    Markers.PrintedMarkerFound(Marker("", ts, name, "", ""));
    EndMarkerMakesNoRow(Markers.JobLogRules(isError, isWarn), rows, Markers.EndLine(ts, name));
  }

  /** Any `section_end` line a runner prints is a line of the file and no row of the page. */
  lemma SectionEndMakesNoRow(isError: string -> bool, isWarn: string -> bool, rows: Rows, ts: nat, name: string)
    requires Markers.MarkerName(name)
    ensures Raws()(PushRaw(Markers.JobLogRules(isError, isWarn), rows, Markers.EndLine(ts, name))) == Raws()(rows)
  {
    SectionEndCloses(isError, isWarn, rows, ts, name);
  }
}
