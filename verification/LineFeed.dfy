/**
 The line buffer at the heart of the parser: complete lines go to a consumer, the unterminated
 rest waits for the next chunk. The consumer `push` is arbitrary here.
 */
module LineFeed {
  import opened Seqs

  /** What the consumer made of the finished lines, and the unterminated rest of the input. */
  datatype Feed<R> = Feed(rows: R, partial: string)

  function Append<R>(push: (R, string) -> R, m: Feed<R>, chunk: string): Feed<R> {
    if chunk == "" then m
    else
      var parts := SplitOn(m.partial + chunk, '\n');
      Feed(Fold(push, m.rows, Init(parts)), Last(parts))
  }

  /** An unterminated last line is pushed as it stands. */
  function Flush<R>(push: (R, string) -> R, m: Feed<R>): Feed<R> {
    if m.partial == "" then m else Feed(push(m.rows, m.partial), "")
  }

  function Appender<R>(push: (R, string) -> R): (Feed<R>, string) -> Feed<R> {
    (m, chunk) => Append(push, m, chunk)
  }

  function AppendAll<R>(push: (R, string) -> R, m: Feed<R>, chunks: seq<string>): Feed<R> {
    Fold(Appender(push), m, chunks)
  }

  /** Two chunks in a row leave exactly what their concatenation leaves. */
  lemma AppendConcat<R>(push: (R, string) -> R, m: Feed<R>, a: string, b: string)
    ensures Append(push, Append(push, m, a), b) == Append(push, m, a + b)
  {
    if a == "" {
      assert a + b == b;
    } else if b == "" {
      assert a + b == a;
    } else {
      var sa := SplitOn(m.partial + a, '\n');
      var tail := SplitOn(Last(sa) + b, '\n');
      SplitContinue(m.partial + a, b, '\n');
      assert m.partial + (a + b) == (m.partial + a) + b;
      InitOfConcat(Init(sa), tail);
      FoldConcat(push, m.rows, Init(sa), Init(tail));
    }
  }

  /** However the stream was cut into chunks, the same state is reached. */
  lemma {:induction false} ChunkingIndependence<R>(push: (R, string) -> R, m: Feed<R>, chunks: seq<string>)
    ensures AppendAll(push, m, chunks) == Append(push, m, Flatten(chunks))
    decreases |chunks|
  {
    if chunks != [] {
      ChunkingIndependence(push, Append(push, m, chunks[0]), chunks[1..]);
      AppendConcat(push, m, chunks[0], Flatten(chunks[1..]));
    }
  }

  // ---- Lines of a text --------------------------------------------------------------------

  /** Lines of a text; a final newline ends the last line instead of opening an empty one. */
  function TextLines(t: string): seq<string> { LinesOf(SplitOn(t, '\n')) }

  function LinesOf(parts: seq<string>): seq<string>
    requires parts != []
  {
    if Last(parts) == "" then Init(parts) else parts
  }

  /** `push` records each of these lines as one row of `view`. */
  ghost predicate Records<R(!new)>(push: (R, string) -> R, view: R -> seq<string>, line: string) {
    forall r :: view(push(r, line)) == view(r) + [line]
  }

  ghost predicate RecordsAll<R(!new)>(push: (R, string) -> R, view: R -> seq<string>, lines: seq<string>) {
    forall i | 0 <= i < |lines| :: Records(push, view, lines[i])
  }

  lemma {:induction false} FoldRecords<R(!new)>(
    push: (R, string) -> R, view: R -> seq<string>, r: R, lines: seq<string>)
    requires RecordsAll(push, view, lines)
    ensures view(Fold(push, r, lines)) == view(r) + lines
    decreases |lines|
  {
    if lines == [] {
      assert view(r) + lines == view(r);
    } else {
      assert Records(push, view, lines[0]);
      FoldRecords(push, view, push(r, lines[0]), lines[1..]);
      assert view(r) + lines == view(r) + [lines[0]] + lines[1..];
    }
  }

  /** Feeding one text and flushing shows its lines, one row each. */
  lemma AppendThenFlush<R(!new)>(push: (R, string) -> R, view: R -> seq<string>, m: Feed<R>, t: string)
    requires m.partial == "" && RecordsAll(push, view, TextLines(t))
    ensures view(Flush(push, Append(push, m, t)).rows) == view(m.rows) + TextLines(t)
    ensures Flush(push, Append(push, m, t)).partial == ""
  {
    if t == "" {
      assert TextLines(t) == [];
    } else {
      var parts := SplitOn(t, '\n');
      assert m.partial + t == t;
      var head := Fold(push, m.rows, Init(parts));
      assert RecordsAll(push, view, Init(parts));
      FoldRecords(push, view, m.rows, Init(parts));
      if Last(parts) != "" {
        assert parts == Init(parts) + [Last(parts)];
        assert Records(push, view, parts[|parts| - 1]);
      }
    }
  }

  /** For every chunking, the rows are the lines of the whole text. */
  lemma RowsAreLines<R(!new)>(push: (R, string) -> R, view: R -> seq<string>, m: Feed<R>, chunks: seq<string>)
    requires m.partial == "" && RecordsAll(push, view, TextLines(Flatten(chunks)))
    ensures view(Flush(push, AppendAll(push, m, chunks)).rows) == view(m.rows) + TextLines(Flatten(chunks))
  {
    ChunkingIndependence(push, m, chunks);
    AppendThenFlush(push, view, m, Flatten(chunks));
  }

  // ---- A flush after every chunk ------------------------------------------------------------

  function FlushedAppend<R>(push: (R, string) -> R): (Feed<R>, string) -> Feed<R> {
    (m, chunk) => Flush(push, Append(push, m, chunk))
  }

  predicate BoundaryOk(before: string, chunk: string) {
    before == "" || chunk == "" || Last(before) == '\n'
  }

  /** Every chunk starts on a new line. */
  predicate CutsAfterNewlines(chunks: seq<string>) {
    forall i | 0 <= i < |chunks| :: BoundaryOk(Flatten(chunks[..i]), chunks[i])
  }

  lemma TextLinesConcat(a: string, b: string)
    ensures BoundaryOk(a, b) ==> TextLines(a + b) == TextLines(a) + TextLines(b)
    ensures !BoundaryOk(a, b) ==> |TextLines(a + b)| == |TextLines(a)| + |TextLines(b)| - 1
  {
    var sa, sb := SplitOn(a, '\n'), SplitOn(b, '\n');
    if a == "" {
      assert a + b == b;
    } else if b == "" {
      assert a + b == a;
    } else {
      hide SplitOn, LinesOf;
      SplitConcat(a, b, '\n');
      LastPiece(a);
      OnePiece(b);
      LinesOfGlue(sa, sb);
    }
  }

  lemma OnePiece(t: string)
    requires t != ""
    ensures SplitOn(t, '\n') != [""]
  {
    LastPiece(t);
    JoinSplit(t, '\n');
  }

  /** Gluing at a line end concatenates the lines; elsewhere two pieces become one. */
  lemma LinesOfGlue(a: seq<string>, b: seq<string>)
    requires a != [] && b != [] && b != [""]
    ensures Last(a) == "" ==> LinesOf(Glue(a, b)) == LinesOf(a) + LinesOf(b)
    ensures Last(a) != "" ==> |LinesOf(Glue(a, b))| == |LinesOf(a)| + |LinesOf(b)| - 1
  {
    if Last(a) == "" {
      assert Last(a) + b[0] == b[0];
      assert Glue(a, b) == Init(a) + b;
      InitOfConcat(Init(a), b);
    } else {
      assert Last(Glue(a, b)) == "" <==> Last(b) == "";
    }
  }

  lemma LastPiece(t: string)
    requires t != ""
    ensures Last(SplitOn(t, '\n')) == "" <==> Last(t) == '\n'
  {
    var h, z := Init(t), [Last(t)];
    assert t == h + z;
    SplitContinue(h, z, '\n');
    var open := Last(SplitOn(h, '\n'));
    if Last(t) == '\n' {
      SplitAtFirst(open, '\n', "");
      assert open + ['\n'] + "" == open + z;
    } else {
      SplitAbsent(open + z, '\n');
    }
  }

  lemma CutsSnoc(before: seq<string>, z: string)
    ensures CutsAfterNewlines(before + [z])
       <==> CutsAfterNewlines(before) && BoundaryOk(Flatten(before), z)
  {
    var chunks := before + [z];
    assert forall i | 0 <= i < |before| :: chunks[..i] == before[..i] && chunks[i] == before[i];
    assert chunks[..|before|] == before && chunks[|before|] == z;
  }

  /** Lines counted chunk by chunk. */
  function LinesPerChunk(chunks: seq<string>): seq<string> {
    if chunks == [] then [] else LinesPerChunk(Init(chunks)) + TextLines(Last(chunks))
  }

  lemma {:induction false} LinesPerChunkExact(chunks: seq<string>)
    ensures LinesPerChunk(chunks) == TextLines(Flatten(chunks)) <==> CutsAfterNewlines(chunks)
    ensures |LinesPerChunk(chunks)| >= |TextLines(Flatten(chunks))|
    ensures !CutsAfterNewlines(chunks) ==> |LinesPerChunk(chunks)| > |TextLines(Flatten(chunks))|
  {
    if chunks == [] {
      assert TextLines("") == [];
    } else {
      var before, z := Init(chunks), Last(chunks);
      LinesPerChunkExact(before);
      CutsSnoc(before, z);
      TextLinesConcat(Flatten(before), z);
      FlattenConcat(before, [z]);
      assert chunks == before + [z] && Flatten([z]) == z;
    }
  }

  lemma {:induction false} FlushedRows<R(!new)>(
    push: (R, string) -> R, view: R -> seq<string>, m: Feed<R>, chunks: seq<string>)
    requires m.partial == "" && forall c | c in chunks :: RecordsAll(push, view, TextLines(c))
    ensures view(Fold(FlushedAppend(push), m, chunks).rows) == view(m.rows) + LinesPerChunk(chunks)
    ensures Fold(FlushedAppend(push), m, chunks).partial == ""
  {
    hide Append, Flush, TextLines, RecordsAll;
    if chunks == [] {
      assert view(m.rows) + [] == view(m.rows);
    } else {
      var before, z := Init(chunks), Last(chunks);
      FlushedRows(push, view, m, before);
      FoldConcat(FlushedAppend(push), m, before, [z]);
      assert chunks == before + [z];
      var m' := Fold(FlushedAppend(push), m, before);
      assert Fold(FlushedAppend(push), m', [z]) == FlushedAppend(push)(m', z);
      AppendThenFlush(push, view, m', z);
    }
  }

  /**
   A stream flushed after every chunk shows its lines row by row exactly when every chunk starts on
   a new line; otherwise each bad cut adds a row, and later row numbers name no line of the file.
   */
  lemma FlushedRowsExact<R(!new)>(
    push: (R, string) -> R, view: R -> seq<string>, m: Feed<R>, chunks: seq<string>)
    requires m.partial == "" && forall c | c in chunks :: RecordsAll(push, view, TextLines(c))
    ensures var shown := view(Fold(FlushedAppend(push), m, chunks).rows);
            && (shown == view(m.rows) + TextLines(Flatten(chunks)) <==> CutsAfterNewlines(chunks))
            && (|shown| == |view(m.rows)| + |TextLines(Flatten(chunks))| <==> CutsAfterNewlines(chunks))
  {
    FlushedRows(push, view, m, chunks);
    LinesPerChunkExact(chunks);
  }

  // ---- A stream that ends while it is shown --------------------------------------------------

  /** Chunks `a` fed while the job runs, one flush when it ends, and a flush after each of the chunks `b`. */
  function EndedAppend<R>(push: (R, string) -> R, m: Feed<R>, a: seq<string>, b: seq<string>): Feed<R> {
    Fold(FlushedAppend(push), Flush(push, AppendAll(push, m, a)), b)
  }

  /** Up to the first flush the cuts do not matter: all of `a` counts as one chunk. */
  lemma EndedIsFlushed<R>(push: (R, string) -> R, m: Feed<R>, a: seq<string>, b: seq<string>)
    ensures EndedAppend(push, m, a, b) == Fold(FlushedAppend(push), m, [Flatten(a)] + b)
  {
    hide Append, Flush;
    ChunkingIndependence(push, m, a);
    var all := [Flatten(a)] + b;
    assert all[0] == Flatten(a) && all[1..] == b;
    assert FlushedAppend(push)(m, Flatten(a)) == Flush(push, AppendAll(push, m, a));
  }

  /** Its rows are the lines exactly when every chunk after the first flush starts on a new line. */
  lemma EndedRowsExact<R(!new)>(
    push: (R, string) -> R, view: R -> seq<string>, m: Feed<R>, a: seq<string>, b: seq<string>)
    requires m.partial == "" && RecordsAll(push, view, TextLines(Flatten(a)))
    requires forall c | c in b :: RecordsAll(push, view, TextLines(c))
    ensures view(EndedAppend(push, m, a, b).rows) == view(m.rows) + TextLines(Flatten(a + b))
            <==> CutsAfterNewlines([Flatten(a)] + b)
  {
    hide TextLines, RecordsAll;
    EndedIsFlushed(push, m, a, b);
    FlushedRowsExact(push, view, m, [Flatten(a)] + b);
    FlattenConcat(a, b);
    assert Flatten([Flatten(a)] + b) == Flatten(a) + Flatten(b) by { assert ([Flatten(a)] + b)[1..] == b; }
  }
}
