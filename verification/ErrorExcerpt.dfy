/**
 The agent's failure excerpt: the last error block found in the tail of a job's output, with line
 numbers counted over the whole file.
 */
module ErrorExcerpt {
  import opened Seqs
  import opened Utf8
  import opened LineFeed
  import opened JobFiles

  const TRACEBACK: string := "Traceback (most recent call last)"
  const MAX_LINES: nat := 40
  const TAIL_BYTES: nat := 256 * 1024
  const BLOCK: nat := 0x100000

  datatype Excerpt = Excerpt(
    stream: Stream, path: string, line: nat, totalLines: nat, matched: bool, lines: seq<string>, truncated: bool)

  /** Lines of a whole file as the page numbers them. */
  function FileLines(file: Bytes): seq<string> { TextLines(Decode(file)) }

  // ---- Choosing the line to show ----------------------------------------------------------

  function LastMatch(isError: string -> bool, lines: seq<string>): (m: Option<nat>)
    ensures m.Some? ==> m.value < |lines| && isError(lines[m.value])
  {
    if lines == [] then None
    else if isError(Last(lines)) then Some(|lines| - 1)
    else LastMatch(isError, Init(lines))
  }

  predicate StartsTraceback(line: string) { TRACEBACK <= line }

  /** Nearest traceback header at or before `back`, but after `stop`. */
  function TracebackBefore(lines: seq<string>, back: int, stop: int): (r: Option<nat>)
    requires -1 <= stop && back < |lines|
    ensures r.Some? ==> stop < r.value <= back
    decreases back - stop
  {
    if back <= stop then None
    else if StartsTraceback(lines[back]) then Some(back)
    else TracebackBefore(lines, back - 1, stop)
  }

  /** Where the excerpt starts, and whether an error line was found at all. */
  function Choose(isError: string -> bool, lines: seq<string>): (r: (nat, bool))
    ensures lines != [] ==> r.0 < |lines|
  {
    match LastMatch(isError, lines)
    case None => (Max(0, |lines| - 12), false)
    case Some(m) =>
      match TracebackBefore(lines, m - 1, Max(-1, m - 60))
      case None => (m, true)
      case Some(t) => (t, true)
  }

  /** `m` is the last line that shows an error. */
  ghost predicate LastError(isError: string -> bool, lines: seq<string>, m: nat) {
    m < |lines| && isError(lines[m]) && forall i | m < i < |lines| :: !isError(lines[i])
  }

  /** A traceback header among the 59 lines before line `m`. */
  predicate HeaderNear(lines: seq<string>, m: nat, t: int)
    requires m <= |lines|
  {
    0 <= t < m && m - 60 < t && "Traceback (most recent call last)" <= lines[t]
  }

  /** Shown for the error at `m`: the nearest traceback header before it, or the error line itself. */
  ghost predicate HeadOf(lines: seq<string>, m: nat, hit: nat)
    requires m <= |lines|
  {
    if hit == m then forall t | 0 <= t < m :: !HeaderNear(lines, m, t)
    else HeaderNear(lines, m, hit) && forall t | hit < t < m :: !HeaderNear(lines, m, t)
  }

  /**
   Where an excerpt starts. Without an error line, twelve lines before the end or at the beginning; with one,
   at the head of the last.
   */
  ghost predicate ShowsFrom(isError: string -> bool, lines: seq<string>, hit: nat, matched: bool) {
    && (matched <==> exists i | 0 <= i < |lines| :: isError(lines[i]))
    && (!matched ==> hit == if |lines| >= 12 then |lines| - 12 else 0)
    && (matched ==> exists m: nat | LastError(isError, lines, m) :: HeadOf(lines, m, hit))
  }

  lemma {:induction false} LastMatchIs(isError: string -> bool, lines: seq<string>)
    ensures match LastMatch(isError, lines)
            case None => forall i | 0 <= i < |lines| :: !isError(lines[i])
            case Some(m) => LastError(isError, lines, m)
  {
    if lines != [] && !isError(Last(lines)) {
      LastMatchIs(isError, Init(lines));
      assert forall i | 0 <= i < |lines| - 1 :: Init(lines)[i] == lines[i];
    }
  }

  lemma {:induction false} TracebackIs(lines: seq<string>, m: nat, back: int)
    requires m < |lines| && Max(-1, m - 60) <= back < m
    requires forall t | back < t < m :: !HeaderNear(lines, m, t)
    ensures match TracebackBefore(lines, back, Max(-1, m - 60))
            case None => HeadOf(lines, m, m)
            case Some(t) => t < m && HeadOf(lines, m, t)
    decreases back
  {
    if back > Max(-1, m - 60) && !StartsTraceback(lines[back]) { TracebackIs(lines, m, back - 1); }
  }

  /** The choice is the one described, and no other is. */
  lemma ChooseExactly(isError: string -> bool, lines: seq<string>, hit: nat, matched: bool)
    ensures ShowsFrom(isError, lines, hit, matched) <==> (hit, matched) == Choose(isError, lines)
  {
    LastMatchIs(isError, lines);
    match LastMatch(isError, lines)
    case None =>
    case Some(m) =>
      TracebackIs(lines, m, m - 1);
      OneHead(isError, lines, m, hit, Choose(isError, lines).0);
  }

  lemma OneHead(isError: string -> bool, lines: seq<string>, m: nat, hit: nat, chosen: nat)
    requires LastError(isError, lines, m) && HeadOf(lines, m, chosen)
    ensures (exists n: nat | LastError(isError, lines, n) :: HeadOf(lines, n, hit)) <==> hit == chosen
  {
    if exists n: nat | LastError(isError, lines, n) :: HeadOf(lines, n, hit) {
      var n: nat :| LastError(isError, lines, n) && HeadOf(lines, n, hit);
      assert n == m;
    }
  }

  function Slice(lines: seq<string>, from: nat, count: nat): seq<string>
    requires from <= |lines|
  {
    if from + count <= |lines| then lines[from..from + count] else lines[from..]
  }

  lemma SliceOfTail(all: seq<string>, head: nat, from: nat, count: nat)
    requires head + from <= |all|
    ensures Slice(all[head..], from, count) == Slice(all, head + from, count)
  {
  }

  // ---- The tail of the file ---------------------------------------------------------------

  /** First byte of the tail that starts a line the scan keeps. */
  function TailStart(file: Bytes, tailBytes: nat): (k: nat)
    ensures k <= |file|
    ensures k == 0 || k == |file| || file[k - 1] == NEWLINE
  {
    if |file| <= tailBytes then 0
    else
      var start := |file| - tailBytes;
      if NEWLINE in file[start..] then start + FirstIndex(file[start..], NEWLINE) + 1 else |file|
  }

  /** Lines of the file before the tail's first kept line. */
  function HeadLines(file: Bytes, tailBytes: nat): nat {
    Count(file[..TailStart(file, tailBytes)], NEWLINE)
  }

  /**
   The kept tail starts at the beginning of a small file, and otherwise right after the first newline of the
   last `tailBytes` bytes, at the end if they hold none.
   */
  lemma TailStartExactly(file: Bytes, tailBytes: nat)
    ensures |file| <= tailBytes ==> TailStart(file, tailBytes) == 0
    ensures |file| > tailBytes ==>
              var k, start := TailStart(file, tailBytes), |file| - tailBytes;
              && (k == |file| || file[k - 1] == NEWLINE) && (k > start || tailBytes == 0)
              && forall i | start <= i < k - 1 :: file[i] != NEWLINE
  {
    if |file| > tailBytes {
      var start := |file| - tailBytes;
      assert forall i | start <= i < |file| :: file[start..][i - start] == file[i];
    }
  }

  lemma LinesEndedByNewline(a: Bytes)
    requires a != [] && Last(a) == NEWLINE
    ensures |FileLines(a)| == Count(a, NEWLINE) && Decode(a) != "" && Last(Decode(a)) == '\n'
  {
    DecodedEnd(a);
    hide Decode, Count, SplitOn;
    NewlineCount(a);
    SplitLength(Decode(a), '\n');
    LastPiece(Decode(a));
  }

  /** Cutting a file after a newline cuts its list of lines. */
  lemma LinesAfterNewline(a: Bytes, b: Bytes)
    requires a != [] && Last(a) == NEWLINE
    ensures FileLines(a + b) == FileLines(a) + FileLines(b)
  {
    DecodeAfterNewline(a, b);
    LinesEndedByNewline(a);
    TextLinesConcat(Decode(a), Decode(b));
  }

  /** The lines of the tail are the last lines of the file, and none of them is cut. */
  lemma TailLines(file: Bytes, tailBytes: nat)
    requires TailStart(file, tailBytes) < |file|
    ensures var k, head := TailStart(file, tailBytes), HeadLines(file, tailBytes);
            head < |FileLines(file)| && FileLines(file[k..]) == FileLines(file)[head..]
  {
    var k := TailStart(file, tailBytes);
    EveryByteShows(file[k..]);
    SomeLine(Decode(file[k..]));
    if k > 0 {
      var a := file[..k];
      assert file == a + file[k..];
      LinesAfterNewline(a, file[k..]);
      LinesEndedByNewline(a);
    } else {
      assert file[0..] == file && file[..0] == [];
    }
  }

  lemma SomeLine(t: string)
    requires t != ""
    ensures TextLines(t) != []
  {
    LastPiece(t);
    if |SplitOn(t, '\n')| == 1 {
      SplitLength(t, '\n');
      assert t == Init(t) + [Last(t)];
      CountConcat(Init(t), [Last(t)], '\n');
    }
  }

  /** What the scan reports about a file, in terms of the whole file's lines. */
  ghost predicate Reports(isError: string -> bool, file: Bytes, maxLines: nat, tailBytes: nat,
                          line: nat, totalLines: nat, matched: bool, lines: seq<string>, truncated: bool) {
    var all, head := FileLines(file), HeadLines(file, tailBytes);
    && head < |all| && head < line <= |all|
    && ShowsFrom(isError, all[head..], line - head - 1, matched)
    && totalLines == |all|
    && |lines| == Min(maxLines, |all| - (line - 1)) && lines == all[line - 1..line - 1 + |lines|]
    && (truncated <==> line - 1 + maxLines < |all|)
  }

  // ---- The scan, as the agent runs it -----------------------------------------------------

  /** Counts the lines of `file[..start]`, one block at a time. */
  method CountHead(file: Bytes, start: nat) returns (headLines: nat)
    requires start <= |file|
    ensures headLines == Count(file[..start], NEWLINE)
  {
    headLines := 0;
    var remaining: nat, position: nat := start, 0;
    assert file[..0] == [];
    while remaining > 0
      invariant position + remaining == start
      invariant headLines == Count(file[..position], NEWLINE)
    {
      var block := file[position..position + Min(BLOCK, remaining)];
      if block == [] { break; }
      CountConcat(file[..position], block, NEWLINE);
      assert file[..position] + block == file[..position + |block|];
      headLines := headLines + Count(block, NEWLINE);
      position := position + |block|;
      remaining := remaining - |block|;
    }
  }

  /** The last error line, moved back to its traceback header when one is near. */
  method FindHit(isError: string -> bool, lines: seq<string>) returns (hit: Option<nat>)
    ensures Choose(isError, lines) == if hit.Some? then (hit.value, true) else (Max(0, |lines| - 12), false)
    ensures ShowsFrom(isError, lines, if hit.Some? then hit.value else Max(0, |lines| - 12), hit.Some?)
  {
    ChooseExactly(isError, lines, Choose(isError, lines).0, Choose(isError, lines).1);
    hide ShowsFrom;
    hit := None;
    var index := |lines| - 1;
    assert lines[..|lines|] == lines;
    while index > -1
      invariant -1 <= index < |lines| && hit.None?
      invariant LastMatch(isError, lines) == LastMatch(isError, lines[..index + 1])
    {
      assert Init(lines[..index + 1]) == lines[..index];
      if isError(lines[index]) {
        hit := Some(index);
        var back, stop := index - 1, Max(-1, index - 60);
        while back > stop
          invariant stop - 1 <= back < |lines| && hit == Some(index)
          invariant TracebackBefore(lines, index - 1, stop) == TracebackBefore(lines, back, stop)
        {
          if StartsTraceback(lines[back]) {
            hit := Some(back);
            break;
          }
          back := back - 1;
        }
        break;
      }
      index := index - 1;
    }
  }

  /** One stream's file: `found` is false when its tail holds no complete line start. */
  method ScanFile(isError: string -> bool, file: Bytes, maxLines: nat, tailBytes: nat)
    returns (found: bool, line: nat, totalLines: nat, matched: bool, lines: seq<string>, truncated: bool)
    ensures found <==> TailStart(file, tailBytes) < |file|
    ensures found ==> Reports(isError, file, maxLines, tailBytes, line, totalLines, matched, lines, truncated)
  {
    hide FileLines, HeadLines;
    line, totalLines, matched, lines, truncated := 0, 0, false, [], false;
    var headLines, tail := ReadTail(file, tailBytes);
    if tail == [] { return false, 0, 0, false, [], false; }
    TailLines(file, tailBytes);
    var hit := FindHit(isError, tail);
    matched := hit.Some?;
    var at := if matched then hit.value else Max(0, |tail| - 12);
    assert (at, matched) == Choose(isError, tail);
    SliceOfTail(FileLines(file), headLines, at, maxLines);
    lines := Slice(tail, at, maxLines);
    return true, headLines + at + 1, headLines + |tail|, matched, lines, at + maxLines < |tail|;
  }

  /** Lines before the tail, and the tail's own lines without the cut one. */
  method ReadTail(file: Bytes, tailBytes: nat) returns (headLines: nat, tail: seq<string>)
    ensures headLines == HeadLines(file, tailBytes)
    ensures tail == FileLines(file[TailStart(file, tailBytes)..])
    ensures tail == [] <==> TailStart(file, tailBytes) == |file|
  {
    var start := if |file| <= tailBytes then 0 else |file| - tailBytes;
    var position := 0;
    headLines := 0;
    if start > 0 {
      headLines := CountHead(file, start);
      var partial := ReadLine(file, start);
      position := start + |partial|;
      CountConcat(file[..start], partial, NEWLINE);
      assert file[..start] + partial == file[..position];
      headLines := headLines + if partial != [] && Last(partial) == NEWLINE then 1 else 0;
    }
    assert position == TailStart(file, tailBytes);
    tail := SplitOn(Decode(file[position..]), '\n');
    if Last(tail) == "" { tail := Init(tail); }
    TailEmpty(file[position..]);
  }

  lemma TailEmpty(b: Bytes)
    ensures FileLines(b) == [] <==> b == []
  {
    EveryByteShows(b);
    if b != [] { SomeLine(Decode(b)); }
  }

  /** `readline()` from `start`: up to and with the next newline, or to the end. */
  method ReadLine(file: Bytes, start: nat) returns (line: Bytes)
    requires start <= |file|
    ensures line == if NEWLINE in file[start..] then file[start..][..FirstIndex(file[start..], NEWLINE) + 1]
                    else file[start..]
    ensures Count(line, NEWLINE) == if line != [] && Last(line) == NEWLINE then 1 else 0
  {
    var rest := file[start..];
    if NEWLINE in rest {
      var k := FirstIndex(rest, NEWLINE);
      line := rest[..k + 1];
      CountAbsent(rest[..k]);
      assert line == rest[..k] + [NEWLINE];
      CountConcat(rest[..k], [NEWLINE], NEWLINE);
    } else {
      line := rest;
      CountAbsent(rest);
    }
  }

  lemma {:induction false} CountAbsent(s: Bytes)
    requires NEWLINE !in s
    ensures Count(s, NEWLINE) == 0
  {
    if s != [] { CountAbsent(s[1..]); }
  }

  // ---- Tail scan against a scan of the whole file -------------------------------------------

  lemma {:induction false} LastMatchInTail(isError: string -> bool, lines: seq<string>, head: nat)
    requires head <= |lines|
    ensures var w := LastMatch(isError, lines);
            LastMatch(isError, lines[head..]) == if w.Some? && w.value >= head then Some(w.value - head) else None
    decreases |lines|
  {
    if head < |lines| {
      assert Last(lines[head..]) == Last(lines);
      assert Init(lines[head..]) == Init(lines)[head..];
      LastMatchInTail(isError, Init(lines), head);
    } else {
      assert lines[head..] == [];
    }
  }

  lemma {:induction false} TracebackInTail(lines: seq<string>, head: nat, back: int, stop: int)
    requires -1 <= stop && head - 1 <= back < |lines|
    ensures var w := TracebackBefore(lines, back, stop);
            TracebackBefore(lines[head..], back - head, Max(-1, stop - head))
              == if w.Some? && w.value >= head then Some(w.value - head) else None
    decreases back - stop
  {
    if back > stop && back >= head && !StartsTraceback(lines[back]) {
      assert lines[head..][back - head] == lines[back];
      TracebackInTail(lines, head, back - 1, stop);
    }
  }

  /**
   The tail names the same line as a scan of the whole file would, exactly when the line the whole
   scan names lies in the kept tail.
   */
  lemma TailChoice(isError: string -> bool, lines: seq<string>, head: nat)
    requires head < |lines|
    ensures var (whole, tail) := (Choose(isError, lines), Choose(isError, lines[head..]));
            (tail.0 + head, tail.1) == whole <==> whole.0 >= head
  {
    LastMatchInTail(isError, lines, head);
    var w := LastMatch(isError, lines);
    if w.Some? && w.value >= head {
      var m := w.value;
      TracebackInTail(lines, head, m - 1, Max(-1, m - 60));
      assert Max(-1, Max(-1, m - 60) - head) == Max(-1, m - head - 60);
    }
  }

  lemma ChosenNearMatch(isError: string -> bool, lines: seq<string>, m: nat)
    requires LastMatch(isError, lines) == Some(m)
    ensures m - 60 < Choose(isError, lines).0 <= m && Choose(isError, lines).1
  {
    assert TracebackBefore(lines, m - 1, Max(-1, m - 60)).Some? ==>
             m - 60 < TracebackBefore(lines, m - 1, Max(-1, m - 60)).value <= m;
  }

  /** Enough: the last error line and the 59 lines before it are in the tail. */
  lemma TailChoiceEnough(isError: string -> bool, lines: seq<string>, head: nat)
    requires head < |lines| && LastMatch(isError, lines).Some?
    requires head <= Max(0, LastMatch(isError, lines).value - 59)
    ensures Choose(isError, lines[head..]).0 + head == Choose(isError, lines).0
    ensures Choose(isError, lines[head..]).1
  {
    hide Choose, LastMatch;
    var m := LastMatch(isError, lines).value;
    TailChoice(isError, lines, head);
    ChosenNearMatch(isError, lines, m);
    assert Choose(isError, lines).0 >= head;
  }

  // ---- The excerpt of a job -----------------------------------------------------------------

  /** The stream has a file of its own that the agent may read and whose tail starts a line. */
  predicate Usable(fs: FileSystem, job: JobData, stream: Stream, tailBytes: nat) {
    var path := LogPath(job, stream);
    && path != "" && !(stream == Stderr && path == LogPath(job, Stdout))
    && path in fs.managed && path in fs.files
    && TailStart(fs.files[path], tailBytes) < |fs.files[path]|
  }

  /** Standard error first; merged, unknown, unmanaged, missing and empty files are passed over. */
  method ErrorExcerptOf(isError: string -> bool, fs: FileSystem, job: JobData,
                        maxLines: nat := MAX_LINES, tailBytes: nat := TAIL_BYTES)
    returns (excerpt: Option<Excerpt>)
    ensures excerpt.None? <==> !Usable(fs, job, Stderr, tailBytes) && !Usable(fs, job, Stdout, tailBytes)
    ensures excerpt.Some? ==>
              var e := excerpt.value;
              && e.stream == (if Usable(fs, job, Stderr, tailBytes) then Stderr else Stdout)
              && e.path == LogPath(job, e.stream)
              && Reports(isError, Content(fs, e.path), maxLines, tailBytes,
                         e.line, e.totalLines, e.matched, e.lines, e.truncated)
  {
    var streams := [Stderr, Stdout];
    var stdoutPath := LogPath(job, Stdout);
    var i := 0;
    while i < |streams|
      invariant 0 <= i <= 2
      invariant i > 0 ==> !Usable(fs, job, Stderr, tailBytes)
      invariant i > 1 ==> !Usable(fs, job, Stdout, tailBytes)
    {
      var stream := streams[i];
      var path := LogPath(job, stream);
      i := i + 1;
      if path == "" || (stream == Stderr && path == stdoutPath) { continue; }
      if path !in fs.managed || path !in fs.files || fs.files[path] == [] { continue; }
      var found, line, total, matched, lines, truncated := ScanFile(isError, fs.files[path], maxLines, tailBytes);
      if !found { continue; }
      return Some(Excerpt(stream, path, line, total, matched, lines, truncated));
    }
    return None;
  }
}
