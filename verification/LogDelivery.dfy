/**
 Successive pushes of one output stream: the frames form a contiguous chain of exact file slices, a
 static file is drained in a known number of rounds, and a truncation shows as one rotated frame.
 */
module LogDelivery {
  import opened Seqs
  import opened Utf8
  import opened JobFiles
  import opened LiveSession

  /** Unrotated chunks that follow one another from offset `from` to offset `to`. */
  ghost predicate Chain(file: Bytes, from: nat, chunks: seq<LogChunk>, to: nat)
    decreases |chunks|
  {
    if chunks == [] then from == to
    else
      var c := chunks[0];
      c.offset == from && !c.rotated && IsSlice(file, c) && Chain(file, c.nextOffset, chunks[1..], to)
  }

  lemma {:induction false} ChainSnoc(file: Bytes, from: nat, chunks: seq<LogChunk>, mid: nat, c: LogChunk)
    requires Chain(file, from, chunks, mid)
    requires c.offset == mid && !c.rotated && IsSlice(file, c)
    ensures Chain(file, from, chunks + [c], c.nextOffset)
    decreases |chunks|
  {
    var all := chunks + [c];
    if chunks == [] {
      assert all[0] == c && all[1..] == [];
    } else {
      ChainSnoc(file, chunks[0].nextOffset, chunks[1..], mid, c);
      assert all[0] == chunks[0] && all[1..] == chunks[1..] + [c];
    }
  }

  lemma {:induction false} ChainGrows(file: Bytes, more: Bytes, from: nat, chunks: seq<LogChunk>, to: nat)
    requires Chain(file, from, chunks, to)
    ensures Chain(file + more, from, chunks, to)
    decreases |chunks|
  {
    if chunks != [] {
      var c := chunks[0];
      assert (file + more)[c.offset..c.nextOffset] == file[c.offset..c.nextOffset];
      ChainGrows(file, more, c.nextOffset, chunks[1..], to);
    }
  }

  lemma {:induction false} ChainBounds(file: Bytes, from: nat, chunks: seq<LogChunk>, to: nat)
    requires Chain(file, from, chunks, to)
    ensures from <= to && (from <= |file| ==> to <= |file|)
    decreases |chunks|
  {
    if chunks != [] { ChainBounds(file, chunks[0].nextOffset, chunks[1..], to); }
  }

  /** A chain that has not advanced says nothing about the file. */
  lemma {:induction false} ChainAtZero(file: Bytes, other: Bytes, chunks: seq<LogChunk>)
    requires Chain(file, 0, chunks, 0)
    ensures Chain(other, 0, chunks, 0)
    decreases |chunks|
  {
    if chunks != [] {
      var c := chunks[0];
      ChainBounds(file, c.nextOffset, chunks[1..], 0);
      assert c.nextOffset == 0;
      assert file[0..0] == other[0..0];
      ChainAtZero(file, other, chunks[1..]);
    }
  }

  /** The bytes a chain of chunks stands for. */
  function Slices(file: Bytes, chunks: seq<LogChunk>): seq<Bytes> {
    MapSeq((c: LogChunk) => if c.offset <= c.nextOffset <= |file| then file[c.offset..c.nextOffset] else [], chunks)
  }

  lemma NoSlices(file: Bytes)
    ensures Flatten(Slices(file, [])) == []
  {
  }

  lemma FirstSlice(file: Bytes, chunks: seq<LogChunk>)
    requires chunks != [] && chunks[0].offset <= chunks[0].nextOffset <= |file|
    ensures var c := chunks[0];
            Flatten(Slices(file, chunks)) == file[c.offset..c.nextOffset] + Flatten(Slices(file, chunks[1..]))
  {
    assert Slices(file, chunks)[1..] == Slices(file, chunks[1..]);
  }

  /** Joined, the slices of a chain are the file from `from` to `to`: nothing lost, nothing twice. */
  lemma {:induction false} ChainIsContiguous(file: Bytes, from: nat, chunks: seq<LogChunk>, to: nat)
    requires Chain(file, from, chunks, to) && from <= |file|
    ensures from <= to <= |file| && Flatten(Slices(file, chunks)) == file[from..to]
    decreases |chunks|
  {
    ChainBounds(file, from, chunks, to);
    hide Decode, Slices, Flatten;
    if chunks == [] {
      NoSlices(file);
      assert file[from..to] == [];
    } else {
      var c := chunks[0];
      assert c.offset == from && from <= c.nextOffset <= |file|;
      ChainIsContiguous(file, c.nextOffset, chunks[1..], to);
      hide Chain;
      FirstSlice(file, chunks);
      assert file[c.offset..c.nextOffset] + file[c.nextOffset..to] == file[from..to];
    }
  }

  // ---- Rounds over successive contents of one file ------------------------------------------

  /** The stream reads `path`, which the agent may read and which no other stream shadows. */
  ghost predicate Reads(fs: FileSystem, job: JobData, stream: Stream, path: string) {
    path != "" && LogPath(job, stream) == path && !IsMerged(job, stream) && path in fs.managed
  }

  function Holding(fs: FileSystem, path: string, file: Bytes): FileSystem {
    fs.(files := fs.files[path := file])
  }

  function ChunksOf(stream: Stream, frames: seq<Frame>): seq<LogChunk>
    decreases |frames|
  {
    if frames == [] then [] else OwnChunk(stream, frames[0]) + ChunksOf(stream, frames[1..])
  }

  function OwnChunk(stream: Stream, f: Frame): seq<LogChunk> {
    if f.LogFrame? && !f.merged && f.stream == stream then [f.chunk] else []
  }

  lemma ChunksOfOne(stream: Stream, f: Frame)
    ensures ChunksOf(stream, [f]) == if f.LogFrame? && !f.merged && f.stream == stream then [f.chunk] else []
  {
    assert [f][1..] == [];
  }

  lemma {:induction false} ChunksOfConcat(stream: Stream, a: seq<Frame>, b: seq<Frame>)
    ensures ChunksOf(stream, a + b) == ChunksOf(stream, a) + ChunksOf(stream, b)
    decreases |a|
  {
    if a == [] {
      assert a + b == b;
    } else {
      ChunksOfConcat(stream, a[1..], b);
      assert (a + b)[1..] == a[1..] + b;
      Associates(OwnChunk(stream, a[0]), ChunksOf(stream, a[1..]), ChunksOf(stream, b));
    }
  }

  /** One service round per content, in order. */
  function Rounds(fs: FileSystem, job: JobData, path: string, st: StreamState, files: seq<Bytes>)
    : (StreamState, seq<LogChunk>)
  {
    if files == [] then (st, [])
    else
      var (before, sent) := Rounds(fs, job, path, st, Init(files));
      var p := PushStream(Holding(fs, path, Last(files)), job, before);
      (p.state, sent + ChunksOf(st.name, p.frames))
  }

  ghost predicate Growing(files: seq<Bytes>) {
    forall i, j | 0 <= i <= j < |files| :: files[i] <= files[j]
  }

  /** One round on a file that the cursor has not passed: at most one chunk, continuing the chain. */
  lemma PushContinues(fs: FileSystem, job: JobData, path: string, st: StreamState, file: Bytes)
    requires Reads(fs, job, st.name, path) && st.offset <= |file|
    ensures var p := PushStream(Holding(fs, path, file), job, st);
            && p.state.name == st.name && p.state.offset == Min(st.offset + LOG_LIMIT, |file|)
            && Chain(file, st.offset, ChunksOf(st.name, p.frames), p.state.offset)
  {
    PushStreamSlices(Holding(fs, path, file), job, st);
    var p := PushStream(Holding(fs, path, file), job, st);
    if p.frames != [] {
      assert p.frames == [p.frames[0]];
      ChunksOfOne(st.name, p.frames[0]);
      assert [p.frames[0].chunk][1..] == [];
    }
  }

  /** While the file only grows, every round continues one chain of slices of the latest file. */
  lemma {:induction false} GrowingRounds(
    fs: FileSystem, job: JobData, path: string, st: StreamState, files: seq<Bytes>)
    requires Reads(fs, job, st.name, path) && files != [] && Growing(files) && st.offset <= |files[0]|
    ensures var (end, sent) := Rounds(fs, job, path, st, files);
            end.name == st.name && end.offset <= |Last(files)| && Chain(Last(files), st.offset, sent, end.offset)
    decreases |files|
  {
    var file := Last(files);
    if |files| == 1 {
      assert Init(files) == [];
      PushContinues(fs, job, path, st, file);
      var p := PushStream(Holding(fs, path, file), job, st);
      assert [] + ChunksOf(st.name, p.frames) == ChunksOf(st.name, p.frames);
    } else {
      var before := Init(files);
      GrowingRounds(fs, job, path, st, before);
      var (mid, sent) := Rounds(fs, job, path, st, before);
      assert Last(before) <= file;
      var more := file[|Last(before)|..];
      assert file == Last(before) + more;
      ChainGrows(Last(before), more, st.offset, sent, mid.offset);
      PushContinues(fs, job, path, mid, file);
      var p := PushStream(Holding(fs, path, file), job, mid);
      ChainConcat(file, st.offset, sent, mid.offset, ChunksOf(st.name, p.frames), p.state.offset);
    }
  }

  lemma {:induction false} ChainConcat(
    file: Bytes, from: nat, a: seq<LogChunk>, mid: nat, b: seq<LogChunk>, to: nat)
    requires Chain(file, from, a, mid) && Chain(file, mid, b, to)
    ensures Chain(file, from, a + b, to)
    decreases |a|
  {
    if a == [] {
      assert a + b == b;
    } else {
      ChainConcat(file, a[0].nextOffset, a[1..], mid, b, to);
      assert (a + b)[1..] == a[1..] + b;
    }
  }

  /**
   Draining: on a file that stays as it is, `n` rounds advance the cursor by `n` full chunks or to
   the end of the file, whichever comes first.
   */
  lemma {:induction false} Drains(fs: FileSystem, job: JobData, path: string, st: StreamState, file: Bytes, n: nat)
    requires Reads(fs, job, st.name, path) && st.offset <= |file|
    ensures Rounds(fs, job, path, st, seq(n, _ => file)).0.offset == Min(st.offset + n * LOG_LIMIT, |file|)
    ensures Rounds(fs, job, path, st, seq(n, _ => file)).0.name == st.name
  {
    if n > 0 {
      Drains(fs, job, path, st, file, n - 1);
      var files := seq(n, _ => file);
      assert Init(files) == seq(n - 1, _ => file);
      PushContinues(fs, job, path, Rounds(fs, job, path, st, Init(files)).0, file);
    }
  }

  /** Enough rounds to cover the rest of the file reach its end. */
  lemma DrainedWithin(fs: FileSystem, job: JobData, path: string, st: StreamState, file: Bytes)
    requires Reads(fs, job, st.name, path) && st.offset <= |file|
    ensures var n := (|file| - st.offset + LOG_LIMIT - 1) / LOG_LIMIT;
            Rounds(fs, job, path, st, seq(n, _ => file)).0.offset == |file|
  {
    var n := (|file| - st.offset + LOG_LIMIT - 1) / LOG_LIMIT;
    Drains(fs, job, path, st, file, n);
  }

  /**
   Truncation: when the first content seen is shorter than the cursor, the first chunk is rotated and
   starts at 0, no later one is, and the chunks since then are exactly a prefix of the latest content.
   */
  lemma TruncationShowsOnce(fs: FileSystem, job: JobData, path: string, st: StreamState, files: seq<Bytes>)
    requires Reads(fs, job, st.name, path) && files != [] && Growing(files) && st.offset > |files[0]|
    ensures var (end, sent) := Rounds(fs, job, path, st, files);
            && sent != [] && sent[0].rotated && sent[0].offset == 0
            && (forall i | 1 <= i < |sent| :: !sent[i].rotated)
            && end.offset <= |Last(files)|
            && Flatten(Slices(Last(files), sent)) == Last(files)[..end.offset]
  {
    TruncationChain(fs, job, path, st, files);
    var (end, sent) := Rounds(fs, job, path, st, files);
    var unmarked := Unmark(sent);
    ChainIsContiguous(Last(files), 0, unmarked, end.offset);
    assert Slices(Last(files), unmarked) == Slices(Last(files), sent);
    assert Last(files)[0..end.offset] == Last(files)[..end.offset];
    ChainUnrotated(Last(files), 0, unmarked, end.offset);
    assert forall i | 1 <= i < |sent| :: sent[i] == unmarked[i];
  }

  lemma {:induction false} ChainUnrotated(file: Bytes, from: nat, chunks: seq<LogChunk>, to: nat)
    requires Chain(file, from, chunks, to)
    ensures forall i | 0 <= i < |chunks| :: !chunks[i].rotated
    decreases |chunks|
  {
    if chunks != [] {
      ChainUnrotated(file, chunks[0].nextOffset, chunks[1..], to);
      assert forall i | 1 <= i < |chunks| :: chunks[i] == chunks[1..][i - 1];
    }
  }

  /** One round after a truncation: a single rotated chunk from the start of the file. */
  lemma PushAfterTruncation(fs: FileSystem, job: JobData, path: string, st: StreamState, file: Bytes)
    requires Reads(fs, job, st.name, path) && st.offset > |file|
    ensures var p := PushStream(Holding(fs, path, file), job, st);
            && p.state.name == st.name && p.state.offset <= |file|
            && |p.frames| == 1 && p.frames[0].LogFrame?
            && var c := p.frames[0].chunk;
               && ChunksOf(st.name, p.frames) == [c] && c.rotated && c.offset == 0
               && Chain(file, 0, [c.(rotated := false)], p.state.offset)
  {
    PushStreamSlices(Holding(fs, path, file), job, st);
    var p := PushStream(Holding(fs, path, file), job, st);
    assert p.frames == [p.frames[0]];
    ChunksOfOne(st.name, p.frames[0]);
    assert [p.frames[0].chunk.(rotated := false)][1..] == [];
  }

  function Unmark(sent: seq<LogChunk>): seq<LogChunk>
    requires sent != []
  {
    [sent[0].(rotated := false)] + sent[1..]
  }

  /** Apart from the mark on its first chunk, what follows a truncation is a chain from 0. */
  lemma {:induction false} TruncationChain(
    fs: FileSystem, job: JobData, path: string, st: StreamState, files: seq<Bytes>)
    requires Reads(fs, job, st.name, path) && files != [] && Growing(files) && st.offset > |files[0]|
    ensures var (end, sent) := Rounds(fs, job, path, st, files);
            && end.name == st.name && sent != [] && sent[0].rotated && sent[0].offset == 0
            && end.offset <= |Last(files)|
            && Chain(Last(files), 0, Unmark(sent), end.offset)
    decreases |files|
  {
    var file := Last(files);
    if |files| == 1 {
      assert Init(files) == [] && Rounds(fs, job, path, st, Init(files)) == (st, []);
      PushAfterTruncation(fs, job, path, st, file);
      var sent := ChunksOf(st.name, PushStream(Holding(fs, path, file), job, st).frames);
      assert [] + sent == sent;
      assert Unmark(sent) == [sent[0].(rotated := false)];
    } else {
      TruncationChain(fs, job, path, st, Init(files));
      var (mid, sent) := Rounds(fs, job, path, st, Init(files));
      assert Last(Init(files)) <= file;
      TruncationStep(fs, job, path, mid, Last(Init(files)), file, sent);
    }
  }

  lemma TruncationStep(fs: FileSystem, job: JobData, path: string, mid: StreamState,
                       earlier: Bytes, file: Bytes, sent: seq<LogChunk>)
    requires Reads(fs, job, mid.name, path) && earlier <= file && mid.offset <= |earlier|
    requires sent != [] && Chain(earlier, 0, Unmark(sent), mid.offset)
    ensures var p := PushStream(Holding(fs, path, file), job, mid);
            && p.state.name == mid.name && p.state.offset <= |file|
            && Chain(file, 0, Unmark(sent + ChunksOf(mid.name, p.frames)), p.state.offset)
  {
    var more := file[|earlier|..];
    assert file == earlier + more;
    ChainGrows(earlier, more, 0, Unmark(sent), mid.offset);
    PushContinues(fs, job, path, mid, file);
    var p := PushStream(Holding(fs, path, file), job, mid);
    var next := ChunksOf(mid.name, p.frames);
    ChainConcat(file, 0, Unmark(sent), mid.offset, next, p.state.offset);
    UnmarkConcat(sent, next);
  }

  lemma UnmarkConcat(a: seq<LogChunk>, b: seq<LogChunk>)
    requires a != []
    ensures Unmark(a + b) == Unmark(a) + b
  {
    assert (a + b)[1..] == a[1..] + b;
  }
}
