/**
 From the file on the cluster to the rows on the page: what a page that was fed over live sessions
 shows, and that the agent's error excerpt names the same rows.
 */
module EndToEnd {
  import opened Seqs
  import opened Utf8
  import opened JobFiles
  import opened LineFeed
  import opened LiveSession
  import opened LogDelivery
  import opened LogParser
  import opened LiveRun
  import opened ErrorExcerpt
  import opened FileRows
  import opened LogLines

  /** The parser of a running job's stream, fed chunk by chunk. */
  function PageModel(rules: Rules, s: ClientStream): Model {
    AppendAll(Pusher(rules), Fresh, s.chunks)
  }

  /** The parser of a finished job's stream, flushed after every chunk. */
  function FinishedPageModel(rules: Rules, s: ClientStream): Model {
    Fold(FlushedAppend(Pusher(rules)), Fresh, s.chunks)
  }

  /**
   After any run, whatever was lost and resent, the parser is in the state one append of the decoded
   file would have left, provided no chunk began inside a character.
   */
  lemma PageParsesTheFile(w0: World, actions: seq<Action>, stream: Stream, rules: Rules)
    requires Initial(w0) && IsRun(w0, actions)
    requires var w := After(w0, actions);
             CutsBetweenCharacters(Pieces(FileOf(w, stream), Of(w.client, stream)))
    ensures var w := After(w0, actions);
            var s := Of(w.client, stream);
            && s.cursor <= |FileOf(w, stream)|
            && PageModel(rules, s) == Append(Pusher(rules), Fresh, Decode(FileOf(w, stream)[..s.cursor]))
  {
    TextExact(w0, actions, stream);
    ChunkingIndependence(Pusher(rules), Fresh, Of(After(w0, actions).client, stream).chunks);
  }

  /** Row `line` of the page is the excerpt's first line, the next row its second, and so on. */
  ghost predicate NamesRows(rows: Rows, line: nat, totalLines: nat, lines: seq<string>) {
    && |rows.lines| == totalLines && 1 <= line && line - 1 + |lines| <= totalLines
    && forall i | 0 <= i < |lines| :: rows.lines[line - 1 + i].raw == lines[i] && rows.lines[line - 1 + i].n == line + i
  }

  /** Agent and page agree on line numbers when the log holds no marker, however it was chunked. */
  lemma ExcerptNamesRows(
    rules: Rules, chunks: seq<string>, isError: string -> bool, file: Bytes, maxLines: nat, tailBytes: nat,
    line: nat, totalLines: nat, matched: bool, lines: seq<string>, truncated: bool)
    requires Flatten(chunks) == Decode(file) && AllUnmarked(rules, FileLines(file))
    requires Reports(isError, file, maxLines, tailBytes, line, totalLines, matched, lines, truncated)
    ensures NamesRows(Flush(Pusher(rules), AppendAll(Pusher(rules), Fresh, chunks)).rows, line, totalLines, lines)
  {
    hide Choose, HeadLines, AppendAll, Flush, SplitOn, Decode;
    RowsAreFileLines(rules, chunks);
    var rows := Flush(Pusher(rules), AppendAll(Pusher(rules), Fresh, chunks)).rows;
    assert forall i | 0 <= i < |rows.lines| :: rows.lines[i].raw == Raws()(rows)[i];
  }

  /** The whole way: a page that has caught up with an unmarked log shows the rows the excerpt names. */
  lemma ExcerptNamesRowsOfPage(
    w0: World, actions: seq<Action>, stream: Stream, rules: Rules, isError: string -> bool, maxLines: nat,
    tailBytes: nat, line: nat, totalLines: nat, matched: bool, lines: seq<string>, truncated: bool)
    requires Initial(w0) && IsRun(w0, actions)
    requires var w := After(w0, actions);
             var file, s := FileOf(w, stream), Of(w.client, stream);
             && s.cursor == |file| && CutsBetweenCharacters(Pieces(file, s)) && AllUnmarked(rules, FileLines(file))
             && Reports(isError, file, maxLines, tailBytes, line, totalLines, matched, lines, truncated)
    ensures var s := Of(After(w0, actions).client, stream);
            NamesRows(Flush(Pusher(rules), PageModel(rules, s)).rows, line, totalLines, lines)
  {
    var w := After(w0, actions);
    var file, s := FileOf(w, stream), Of(w.client, stream);
    TextExact(w0, actions, stream);
    assert file[..s.cursor] == file;
    ExcerptNamesRows(rules, s.chunks, isError, file, maxLines, tailBytes, line, totalLines, matched, lines, truncated);
  }

  /** The parser of a stream whose job ends after `k` chunks while the page is open. */
  function EndedPageModel(rules: Rules, s: ClientStream, k: nat): Model
    requires k <= |s.chunks|
  {
    EndedAppend(Pusher(rules), Fresh, s.chunks[..k], s.chunks[k..])
  }

  /** No marker in a line the page makes of its first `k` chunks together or of a later chunk. */
  ghost predicate FedUnmarked(rules: Rules, s: ClientStream, k: nat)
    requires k <= |s.chunks|
  {
    && AllUnmarked(rules, TextLines(Flatten(s.chunks[..k])))
    && forall c | c in s.chunks[k..] :: AllUnmarked(rules, TextLines(c))
  }

  lemma EndedRows(rules: Rules, file: Bytes, s: ClientStream, k: nat)
    requires ClientOk(file, s) && s.cursor == |file| && k <= |s.chunks| && FedUnmarked(rules, s, k)
    ensures var rows := EndedPageModel(rules, s, k).rows;
            && (|rows.lines| == |FileLines(file)| <==> CutsFollowNewlines(file, s.cuts, k))
            && (Raws()(rows) == FileLines(file)
                <==> CutsFollowNewlines(file, s.cuts, k) && CutsBetweenCharacters(Pieces(file, s)))
  {
    hide EndedAppend, FileLines, CutsFollowNewlines, CutsBetweenCharacters, TextLines, LinesPerChunk;
    EndedJobShows(rules, s.chunks[..k], s.chunks[k..]);
    ShownExactly(file, s, k);
  }

  /**
   A page whose job ends while it is open flushes once and then after every later chunk. It shows as many
   rows as the file has lines exactly if each of those chunks starts after a newline of the file; the rows
   are the lines exactly if, besides, no chunk began inside a character.
   */
  lemma EndedPageRows(w0: World, actions: seq<Action>, stream: Stream, rules: Rules, k: nat)
    requires Initial(w0) && IsRun(w0, actions)
    requires var w := After(w0, actions); var s := Of(w.client, stream);
             s.cursor == |FileOf(w, stream)| && k <= |s.chunks| && FedUnmarked(rules, s, k)
    ensures var w := After(w0, actions); var file, s := FileOf(w, stream), Of(w.client, stream);
            var rows := EndedPageModel(rules, s, k).rows;
            && (|rows.lines| == |FileLines(file)| <==> CutsFollowNewlines(file, s.cuts, k))
            && (Raws()(rows) == FileLines(file)
                <==> CutsFollowNewlines(file, s.cuts, k) && CutsBetweenCharacters(Pieces(file, s)))
  {
    RunKeepsClient(w0, actions, stream);
    EndedRows(rules, FileOf(After(w0, actions), stream), Of(After(w0, actions).client, stream), k);
  }

  lemma FinishedRows(rules: Rules, file: Bytes, s: ClientStream)
    requires ClientOk(file, s) && s.cursor == |file| && FedUnmarked(rules, s, 0)
    ensures Raws()(FinishedPageModel(rules, s).rows) == FileLines(file) <==> CutsFollowNewlines(file, s.cuts, 0)
  {
    EndedRows(rules, file, s, 0);
    if CutsFollowNewlines(file, s.cuts, 0) { CutsCutNoCharacter(file, s); }
    assert s.chunks[..0] == [] && s.chunks[0..] == s.chunks;
    hide FileLines, CutsFollowNewlines, CutsBetweenCharacters;
  }

  /**
   A page opened on a finished job flushes after every chunk: its rows are the file's lines exactly if
   every chunk after the first starts after a newline of the file.
   */
  lemma FinishedPageRows(w0: World, actions: seq<Action>, stream: Stream, rules: Rules)
    requires Initial(w0) && IsRun(w0, actions)
    requires var w := After(w0, actions); var s := Of(w.client, stream);
             s.cursor == |FileOf(w, stream)| && FedUnmarked(rules, s, 0)
    ensures var w := After(w0, actions); var file, s := FileOf(w, stream), Of(w.client, stream);
            Raws()(FinishedPageModel(rules, s).rows) == FileLines(file) <==> CutsFollowNewlines(file, s.cuts, 0)
  {
    RunKeepsClient(w0, actions, stream);
    FinishedRows(rules, FileOf(After(w0, actions), stream), Of(After(w0, actions).client, stream));
  }

  /**
   The file of a finished job no longer changes. Read without interruption to its end, it is shown line by
   line exactly if the last byte before every multiple of the limit of one read is a newline.
   */
  lemma StillFileRows(fs: FileSystem, job: JobData, path: string, stream: Stream, file: Bytes, n: nat, rules: Rules)
    requires Reads(fs, job, stream, path) && |file| <= n * LOG_LIMIT
    requires var sent := Rounds(fs, job, path, StreamState(stream, 0, None), seq(n, _ => file)).1;
             FedUnmarked(rules, Received(Nothing, sent), 0)
    ensures var s := Received(Nothing, Rounds(fs, job, path, StreamState(stream, 0, None), seq(n, _ => file)).1);
            Raws()(FinishedPageModel(rules, s).rows) == FileLines(file) <==> LimitsFollowNewlines(file)
  {
    var st := StreamState(stream, 0, None);
    RoundsCuts(fs, job, path, st, file, n);
    Drains(fs, job, path, st, file, n);
    var s := Received(Nothing, Rounds(fs, job, path, st, seq(n, _ => file)).1);
    LimitCutsExactly(file, s);
    FinishedRows(rules, file, s);
  }

  /** The input that fails: one line that is longer than the limit. */
  lemma LongLineSplits(file: Bytes)
    requires |file| > LOG_LIMIT && NEWLINE !in file
    ensures !LimitsFollowNewlines(file)
  {
    assert 1 * LOG_LIMIT < |file| && file[1 * LOG_LIMIT - 1] in file;
  }
}
