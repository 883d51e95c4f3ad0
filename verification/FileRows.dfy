/**
 The rows of a page that flushes its parser after every chunk, stated on the file: where the chunks
 were cut decides how many rows there are and whether they are the file's lines.
 */
module FileRows {
  import opened Seqs
  import opened Utf8
  import opened JobFiles
  import opened LineFeed
  import opened LiveSession
  import opened LogDelivery
  import opened LiveRun
  import opened ErrorExcerpt

  /** The cut before chunk `i` follows a newline of the file. */
  predicate FollowsNewline(file: Bytes, cuts: seq<nat>, i: nat)
    requires i < |cuts|
  {
    0 < cuts[i] <= |file| && file[cuts[i] - 1] == NEWLINE
  }

  /** Chunks `k` and later, but for the first one of all, start after a newline of the file. */
  predicate CutsFollowNewlines(file: Bytes, cuts: seq<nat>, k: nat) {
    forall i | 0 < i < |cuts| - 1 && k <= i :: FollowsNewline(file, cuts, i)
  }

  // ---- The text before a cut ----------------------------------------------------------------

  /** The text ends as the bytes do, and has as many line breaks. */
  predicate EndsAlike(text: string, bytes: Bytes) {
    && (text == "" <==> bytes == []) && Count(text, '\n') == Count(bytes, NEWLINE)
    && (text != "" && bytes != [] ==> (Last(text) == '\n' <==> Last(bytes) == NEWLINE))
  }

  lemma EndsAlikeNext(text: string, bytes: Bytes, more: Bytes)
    requires EndsAlike(text, bytes) && more != []
    ensures EndsAlike(text + Decode(more), bytes + more)
  {
    hide Decode, Count;
    DecodedEnd(more);
    NewlineCount(more);
    CountConcat(text, Decode(more), '\n');
    CountConcat(bytes, more, NEWLINE);
  }

  /** The text of the first chunks and the file up to the cut after them. */
  lemma {:induction false} TextBefore(file: Bytes, s: ClientStream, n: nat)
    requires ClientOk(file, s) && n <= |s.chunks|
    ensures s.cuts[n] <= |file| && (n == 0 <==> s.cuts[n] == 0)
    ensures EndsAlike(Flatten(s.chunks[..n]), file[..s.cuts[n]])
  {
    if n == 0 {
      assert s.chunks[..0] == [] && file[..0] == [];
    } else {
      TextBefore(file, s, n - 1);
      assert PieceOk(file, s, n - 1);
      hide ClientOk, EndsAlike, Decode, Flatten;
      FlattenNext(s.chunks, n - 1);
      var piece := file[s.cuts[n - 1]..s.cuts[n]];
      EndsAlikeNext(Flatten(s.chunks[..n - 1]), file[..s.cuts[n - 1]], piece);
      assert file[..s.cuts[n - 1]] + piece == file[..s.cuts[n]];
    }
  }

  /** A chunk starts on a new line of the text exactly if its bytes start on a new line of the file. */
  lemma BoundaryInFile(file: Bytes, s: ClientStream, i: nat)
    requires ClientOk(file, s) && i < |s.chunks|
    ensures BoundaryOk(Flatten(s.chunks[..i]), s.chunks[i])
            <==> i == 0 || FollowsNewline(file, s.cuts, i)
  {
    TextBefore(file, s, i);
    assert PieceOk(file, s, i);
    EveryByteShows(file[s.cuts[i]..s.cuts[i + 1]]);
    hide Decode, Count;
  }

  /** The chunks of a page whose first `k` chunks count as one. */
  function Merged(chunks: seq<string>, k: nat): seq<string>
    requires k <= |chunks|
  {
    [Flatten(chunks[..k])] + chunks[k..]
  }

  lemma MergedBefore(chunks: seq<string>, k: nat, j: nat)
    requires k <= |chunks| && 1 <= j <= |chunks| - k + 1
    ensures Flatten(Merged(chunks, k)[..j]) == Flatten(chunks[..k + j - 1])
  {
    var first := Flatten(chunks[..k]);
    assert Merged(chunks, k)[..j] == [first] + chunks[k..k + j - 1];
    FlattenConcat([first], chunks[k..k + j - 1]);
    assert [first][1..] == [] && Flatten([first]) == first;
    FlattenConcat(chunks[..k], chunks[k..k + j - 1]);
    assert chunks[..k] + chunks[k..k + j - 1] == chunks[..k + j - 1];
  }

  /** Chunk `i` starts on a new line. */
  predicate StartsLine(chunks: seq<string>, i: nat)
    requires i < |chunks|
  {
    BoundaryOk(Flatten(chunks[..i]), chunks[i])
  }

  lemma FirstStarts(chunks: seq<string>)
    requires chunks != []
    ensures StartsLine(chunks, 0)
  {
    assert chunks[..0] == [];
  }

  lemma MergedStarts(chunks: seq<string>, k: nat, i: nat)
    requires k <= i < |chunks|
    ensures StartsLine(Merged(chunks, k), i - k + 1) <==> StartsLine(chunks, i)
  {
    MergedBefore(chunks, k, i - k + 1);
  }

  lemma MergedLines(chunks: seq<string>, k: nat)
    requires k <= |chunks|
    ensures CutsAfterNewlines(Merged(chunks, k)) <==> forall i | k <= i < |chunks| :: StartsLine(chunks, i)
  {
    var all := Merged(chunks, k);
    forall i | k <= i < |chunks| ensures StartsLine(all, i - k + 1) <==> StartsLine(chunks, i) {
      MergedStarts(chunks, k, i);
    }
    FirstStarts(all);
    hide Flatten, BoundaryOk;
    if forall i | k <= i < |chunks| :: StartsLine(chunks, i) {
      forall j | 0 <= j < |all| ensures BoundaryOk(Flatten(all[..j]), all[j]) {
        assert j > 0 ==> StartsLine(chunks, j - 1 + k);
        assert StartsLine(all, j);
      }
    } else {
      var i :| k <= i < |chunks| && !StartsLine(chunks, i);
      assert !StartsLine(all, i - k + 1);
    }
  }

  /** Whether chunks start on new lines can be read off the file. */
  lemma CutsInFile(file: Bytes, s: ClientStream, k: nat)
    requires ClientOk(file, s) && k <= |s.chunks|
    ensures CutsAfterNewlines(Merged(s.chunks, k)) <==> CutsFollowNewlines(file, s.cuts, k)
  {
    MergedLines(s.chunks, k);
    forall i | 0 <= i < |s.chunks| ensures StartsLine(s.chunks, i) <==> i == 0 || FollowsNewline(file, s.cuts, i) {
      BoundaryInFile(file, s, i);
    }
    assert |s.cuts| == |s.chunks| + 1;
    hide ClientOk, StartsLine, FollowsNewline, CutsAfterNewlines, Merged;
  }

  // ---- Lines and texts --------------------------------------------------------------------------

  predicate Unfinished(t: string) { t != "" && Last(t) != '\n' }

  lemma LineCount(t: string)
    ensures |TextLines(t)| == Count(t, '\n') + if Unfinished(t) then 1 else 0
  {
    SplitLength(t, '\n');
    if t != "" { LastPiece(t); } else { assert SplitOn("", '\n') == [""]; }
    hide SplitOn, Count;
  }

  /** A text is its lines and whether the last of them is finished. */
  lemma LinesDetermine(t: string, u: string)
    requires TextLines(t) == TextLines(u) && Unfinished(t) == Unfinished(u)
    ensures t == u
  {
    SamePieces(t, u);
    JoinSplit(t, '\n');
    JoinSplit(u, '\n');
  }

  lemma SamePieces(t: string, u: string)
    requires TextLines(t) == TextLines(u) && Unfinished(t) == Unfinished(u)
    ensures SplitOn(t, '\n') == SplitOn(u, '\n')
  {
    EndPiece(t);
    EndPiece(u);
    hide SplitOn, Unfinished;
    if !Unfinished(t) {
      assert SplitOn(t, '\n') == TextLines(t) + [""];
      assert SplitOn(u, '\n') == TextLines(u) + [""];
    }
  }

  lemma EndPiece(t: string)
    ensures Last(SplitOn(t, '\n')) == "" <==> !Unfinished(t)
  {
    if t != "" { LastPiece(t); } else { assert SplitOn("", '\n') == [""]; }
  }

  /** What the page was fed has as many lines as the file, whatever the cuts did to characters. */
  lemma FedLines(file: Bytes, s: ClientStream)
    requires ClientOk(file, s) && s.cursor == |file|
    ensures Unfinished(Flatten(s.chunks)) == Unfinished(Decode(file))
    ensures |TextLines(Flatten(s.chunks))| == |FileLines(file)|
    ensures TextLines(Flatten(s.chunks)) == FileLines(file) <==> CutsBetweenCharacters(Pieces(file, s))
  {
    var n, fed := |s.chunks|, Flatten(s.chunks);
    TextBefore(file, s, n);
    assert s.chunks[..n] == s.chunks && file[..|file|] == file;
    NewlineCount(file);
    if file != [] { DecodedEnd(file); }
    ClientHolds(file, s);
    Reassembly(Pieces(file, s));
    LineCount(fed);
    LineCount(Decode(file));
    hide Decode, TextLines, Count, Flatten, Pieces, CutsBetweenCharacters, DecodeChunks;
    assert Unfinished(fed) == Unfinished(Decode(file)) by { assert n == 0 <==> file == []; }
    if TextLines(fed) == FileLines(file) { LinesDetermine(fed, Decode(file)); }
  }

  lemma NewlineEndsCharacters(a: Bytes, b: Bytes)
    requires a == [] || Last(a) == NEWLINE
    ensures !Straddles(a, b)
  {
    if a != [] {
      assert a == Init(a) + [NEWLINE];
      PendingAfterNewline(Init(a));
    }
  }

  /** A page that flushes from its first chunk on: cuts after newlines cut no character. */
  lemma CutsCutNoCharacter(file: Bytes, s: ClientStream)
    requires ClientOk(file, s) && CutsFollowNewlines(file, s.cuts, 1)
    ensures CutsBetweenCharacters(Pieces(file, s))
  {
    var pieces := Pieces(file, s);
    hide Straddles;
    forall i | 0 <= i < |pieces| ensures !Straddles(Flatten(pieces[..i]), pieces[i]) {
      PiecesAreFile(file, s, i);
      assert i > 0 ==> FollowsNewline(file, s.cuts, i) && Last(file[..s.cuts[i]]) == file[s.cuts[i] - 1];
      if i == 0 { assert s.cuts[0] == 0 && file[..0] == []; }
      NewlineEndsCharacters(file[..s.cuts[i]], pieces[i]);
    }
  }

  lemma MergedFed(chunks: seq<string>, k: nat)
    requires k <= |chunks|
    ensures Flatten(Merged(chunks, k)) == Flatten(chunks)
  {
    var n := |chunks| - k + 1;
    MergedBefore(chunks, k, n);
    assert Merged(chunks, k)[..n] == Merged(chunks, k) && chunks[..k + n - 1] == chunks;
  }

  /**
   The rows of a page that holds a whole file, its parser flushed after chunk `k` and every later one:
   they are as many as the file's lines exactly if those later chunks start after newlines of the file,
   and they are its lines exactly if no character was cut either.
   */
  lemma ShownExactly(file: Bytes, s: ClientStream, k: nat)
    requires ClientOk(file, s) && s.cursor == |file| && k <= |s.chunks|
    ensures var shown := LinesPerChunk(Merged(s.chunks, k));
            && (|shown| == |FileLines(file)| <==> CutsFollowNewlines(file, s.cuts, k))
            && (shown == FileLines(file)
                <==> CutsFollowNewlines(file, s.cuts, k) && CutsBetweenCharacters(Pieces(file, s)))
  {
    hide *;
    LinesPerChunkExact(Merged(s.chunks, k));
    MergedFed(s.chunks, k);
    FedLines(file, s);
    CutsInFile(file, s, k);
  }

  // ---- A file that stays as it is ------------------------------------------------------------------

  /** Every cut but the last is a multiple of the limit of one read. */
  ghost predicate LimitCuts(file: Bytes, s: ClientStream) {
    ClientOk(file, s) && forall i | 0 <= i < |s.cuts| :: s.cuts[i] == Min(i * LOG_LIMIT, |file|)
  }

  lemma OneMoreCut(file: Bytes, s: ClientStream, c: LogChunk)
    requires LimitCuts(file, s) && !c.rotated && IsSlice(file, c)
    requires c.offset == s.cursor && c.nextOffset == Min(s.cursor + LOG_LIMIT, |file|)
    ensures LimitCuts(file, AppendLog(s, c, false))
  {
    var s' := AppendLog(s, c, false);
    SliceAppliedExactly(file, s, c);
    EveryByteShows(file[c.offset..c.nextOffset]);
    hide ClientOk, Decode;
    CutsShape(file, s);
    if c.text != "" {
      assert s'.cuts == s.cuts + [c.nextOffset];
    }
  }

  lemma CutsShape(file: Bytes, s: ClientStream)
    requires ClientOk(file, s)
    ensures Shape(s) && s.cuts != [] && s.cursor <= |file|
  {
  }

  /** A round adds the next cut, or nothing at the end of the file. */
  lemma RoundCuts(fs: FileSystem, job: JobData, path: string, st: StreamState, file: Bytes, s: ClientStream)
    requires Reads(fs, job, st.name, path) && LimitCuts(file, s) && s.cursor == st.offset
    ensures var p := PushStream(Holding(fs, path, file), job, st);
            var r := Received(s, ChunksOf(st.name, p.frames));
            && LimitCuts(file, r) && r.cursor == p.state.offset && p.state.name == st.name
  {
    CutsShape(file, s);
    PushContinues(fs, job, path, st, file);
    PushStreamSlices(Holding(fs, path, file), job, st);
    var p := PushStream(Holding(fs, path, file), job, st);
    if p.frames != [] {
      assert p.frames == [p.frames[0]];
      ChunksOfOne(st.name, p.frames[0]);
      var sent := ChunksOf(st.name, p.frames);
      hide PushStream, LimitCuts, Reads;
      if sent != [] {
        assert sent[1..] == [];
        OneMoreCut(file, s, sent[0]);
      }
    }
  }

  lemma {:induction false} ReceivedConcat(s: ClientStream, a: seq<LogChunk>, b: seq<LogChunk>)
    ensures Received(s, a + b) == Received(Received(s, a), b)
    decreases |a|
  {
    if a == [] {
      assert a + b == b;
    } else {
      ReceivedConcat(AppendLog(s, a[0], false), a[1..], b);
      assert (a + b)[1..] == a[1..] + b;
    }
  }

  /** Rounds on a still file cut it at the multiples of the limit. */
  lemma {:induction false} RoundsCuts(
    fs: FileSystem, job: JobData, path: string, st: StreamState, file: Bytes, n: nat)
    requires Reads(fs, job, st.name, path) && st.offset == 0
    ensures var (end, sent) := Rounds(fs, job, path, st, seq(n, _ => file));
            var s := Received(Nothing, sent);
            LimitCuts(file, s) && s.cursor == end.offset && end.name == st.name
  {
    if n > 0 {
      RoundsCuts(fs, job, path, st, file, n - 1);
      var files := seq(n, _ => file);
      assert Init(files) == seq(n - 1, _ => file);
      var (mid, sent) := Rounds(fs, job, path, st, Init(files));
      RoundCuts(fs, job, path, mid, file, Received(Nothing, sent));
      ReceivedConcat(Nothing, sent, ChunksOf(mid.name, PushStream(Holding(fs, path, file), job, mid).frames));
    }
  }

  /** The last byte before every multiple of the limit is a newline. */
  ghost predicate LimitsFollowNewlines(file: Bytes) {
    forall i | 0 < i && i * LOG_LIMIT < |file| :: file[i * LOG_LIMIT - 1] == NEWLINE
  }

  lemma LimitCutsExactly(file: Bytes, s: ClientStream)
    requires LimitCuts(file, s) && s.cursor == |file|
    ensures CutsFollowNewlines(file, s.cuts, 0) <==> LimitsFollowNewlines(file)
  {
    CutsShape(file, s);
    hide ClientOk;
    forall i | 0 < i < |s.cuts| - 1 ensures s.cuts[i] == i * LOG_LIMIT < |file| {
      assert ClientOk(file, s);
      InnerCut(file, s, i);
    }
    if CutsFollowNewlines(file, s.cuts, 0) {
      forall i | 0 < i && i * LOG_LIMIT < |file| ensures file[i * LOG_LIMIT - 1] == NEWLINE {
        assert FollowsNewline(file, s.cuts, i) && s.cuts[i] == i * LOG_LIMIT;
      }
    }
  }

  lemma InnerCut(file: Bytes, s: ClientStream, i: nat)
    requires ClientOk(file, s) && i < |s.cuts| - 1
    ensures s.cuts[i] < |file|
  {
    assert PieceOk(file, s, i);
  }
}
