/**
 Whole runs of the live log in which files are also replaced, cut and removed: what stays in order
 whatever the files hold, and when exactly the page is in step with a replaced file again.
 */
module ReplacedFiles {
  import opened Seqs
  import opened Utf8
  import opened JobFiles
  import opened CheckEvents
  import opened LiveSession
  import opened LogDelivery
  import opened LiveRun

  /** An action of the live log, or a change to a file other than growth. */
  datatype Happening = Act(action: Action) | Replace(path: string, content: Bytes) | Remove(path: string)

  // ---- Chunks in flight, whatever they were read from ------------------------------------------

  /** A chunk sent by a session whose cursor was at `from`. */
  predicate Link(from: nat, c: LogChunk) {
    && c.offset == (if c.rotated then 0 else from)
    && (c.text == "" ==> c.offset == c.nextOffset)
  }

  /** Chunks that move a cursor from `from` to `to`; a rotated one starts over from 0. */
  ghost predicate Linked(from: nat, chunks: seq<LogChunk>, to: nat)
    decreases |chunks|
  {
    if chunks == [] then from == to
    else Link(from, chunks[0]) && Linked(chunks[0].nextOffset, chunks[1..], to)
  }

  lemma {:induction false} LinkedSnoc(from: nat, chunks: seq<LogChunk>, mid: nat, c: LogChunk)
    requires Linked(from, chunks, mid) && Link(mid, c)
    ensures Linked(from, chunks + [c], c.nextOffset)
    decreases |chunks|
  {
    var all := chunks + [c];
    if chunks == [] {
      assert all[0] == c && all[1..] == [];
    } else {
      LinkedSnoc(chunks[0].nextOffset, chunks[1..], mid, c);
      assert all[0] == chunks[0] && all[1..] == chunks[1..] + [c];
    }
  }

  /** A slice of the file, or the empty report on a file that is missing. */
  ghost predicate Fresh(file: Bytes, c: LogChunk) {
    IsSlice(file, c) || (c.text == "" && c.offset == c.nextOffset && !c.rotated)
  }

  lemma FreshGrows(file: Bytes, more: Bytes, c: LogChunk)
    requires Fresh(file, c)
    ensures Fresh(file + more, c)
  {
    if IsSlice(file, c) { assert (file + more)[c.offset..c.nextOffset] == file[c.offset..c.nextOffset]; }
  }

  lemma LinkKeepsShape(s: ClientStream, c: LogChunk)
    requires Shape(s) && Link(s.cursor, c)
    ensures Shape(AppendLog(s, c, false)) && AppendLog(s, c, false).cursor == c.nextOffset
  {
  }

  /** What a chunk read from this file does: a rotated one mends the page, any other changes nothing. */
  lemma FreshAppliedExactly(file: Bytes, s: ClientStream, c: LogChunk)
    requires Shape(s) && Link(s.cursor, c) && Fresh(file, c)
    ensures ClientOk(file, AppendLog(s, c, false)) <==> c.rotated || ClientOk(file, s)
  {
    if c.rotated {
      RotatedStartsOver(s, c);
      SliceAppliedExactly(file, Nothing, c.(rotated := false));
    } else if IsSlice(file, c) {
      SliceAppliedExactly(file, s, c);
    } else {
      assert AppendLog(s, c, false) == s;
    }
  }

  // ---- One round --------------------------------------------------------------------------------

  /** The round reads a file for this stream, and that file is shorter than the cursor. */
  predicate Rotates(fs: FileSystem, job: JobData, st: StreamState) {
    var path := LogPath(job, st.name);
    !IsMerged(job, st.name) && path != "" && path in fs.managed && path in fs.files && |fs.files[path]| < st.offset
  }

  /** At most one chunk, which moves the cursor from `from` to `to`. */
  ghost predicate OneStep(file: Bytes, from: nat, chunks: seq<LogChunk>, to: nat) {
    if chunks == [] then from == to
    else |chunks| == 1 && Link(from, chunks[0]) && Fresh(file, chunks[0]) && chunks[0].nextOffset == to
  }

  ghost predicate AnyRotated(chunks: seq<LogChunk>) { exists c | c in chunks :: c.rotated }

  /** A path Slurm does not know reports offset 0, so its cursor must not have moved. */
  lemma PushSteps(fs: FileSystem, job: JobData, st: StreamState)
    requires LogPath(job, st.name) == "" ==> st.offset == 0
    ensures var p, file := PushStream(fs, job, st), Content(fs, LogPath(job, st.name));
            && OneStep(file, st.offset, ChunksOf(st.name, p.frames), p.state.offset)
            && (AnyRotated(ChunksOf(st.name, p.frames)) <==> Rotates(fs, job, st))
            && (st.offset <= |file| ==> p.state.offset <= |file|)
            && (LogPath(job, st.name) == "" ==> p.state.offset == 0)
  {
    var p := PushStream(fs, job, st);
    if p.frames != [] {
      var f := p.frames[0];
      assert p.frames == [f];
      ChunksOfOne(st.name, f);
      if f.LogFrame? && !f.merged { assert f.chunk in ChunksOf(st.name, p.frames); }
    }
    ReadShows(fs, job, st.name, st.offset);
  }

  lemma ReadShows(fs: FileSystem, job: JobData, stream: Stream, offset: nat)
    requires LogPath(job, stream) == "" ==> offset == 0
    ensures var r, file := ReadLogChunk(fs, job, stream, offset, LOG_LIMIT), Content(fs, LogPath(job, stream));
            r.Chunk? ==>
              Link(offset, r.chunk) && Fresh(file, r.chunk) && (offset <= |file| ==> r.chunk.nextOffset <= |file|)
  {
    var file := Content(fs, LogPath(job, stream));
    var from := if offset > |file| then 0 else offset;
    var to := Min(from + LOG_LIMIT, |file|);
    hide Decode;
    EveryByteShows(file[from..to]);
  }

  /** A stream of the page's two. */
  function StateOf(streams: seq<StreamState>, stream: Stream): StreamState
    requires TwoStreams(streams)
  {
    streams[if stream == Stdout then 0 else 1]
  }

  /** Does the round get to this stream? An error on stdout ends it before stderr. */
  predicate Reached(fs: FileSystem, job: JobData, streams: seq<StreamState>, stream: Stream)
    requires TwoStreams(streams)
  {
    stream == Stdout || PushStream(fs, job, streams[0]).ok
  }

  lemma TwoPushed(fs: FileSystem, job: JobData, streams: seq<StreamState>, stream: Stream)
    requires TwoStreams(streams)
    ensures var (streams', frames, _) := PushStreams(fs, job, streams);
            var p := PushStream(fs, job, StateOf(streams, stream));
            && TwoStreams(streams')
            && if Reached(fs, job, streams, stream)
               then StateOf(streams', stream) == p.state && ChunksOf(stream, frames) == ChunksOf(stream, p.frames)
               else StateOf(streams', stream) == StateOf(streams, stream) && ChunksOf(stream, frames) == []
  {
    hide PushStream;
    var out, err := PushStream(fs, job, streams[0]), PushStream(fs, job, streams[1]);
    PushStreamName(fs, job, streams[0]);
    PushStreamName(fs, job, streams[1]);
    assert streams[1..] == [streams[1]] && streams[1..][1..] == [];
    assert PushStreams(fs, job, streams[1..]) == ([err.state], err.frames, err.ok) by {
      assert [err.state] + [] == [err.state] && err.frames + [] == err.frames;
    }
    FramesOfStream(fs, job, streams[0], Stderr);
    FramesOfStream(fs, job, streams[1], Stdout);
    ChunksOfConcat(stream, out.frames, err.frames);
  }

  lemma OffsetIs(streams: seq<StreamState>, stream: Stream)
    requires TwoStreams(streams)
    ensures OffsetOf(streams, stream) == StateOf(streams, stream).offset
  {
    OffsetsOfTwo(streams);
  }

  /** The round reads this stream's file and finds it shorter than the session's cursor. */
  predicate RoundRotates(s: Session, fs: FileSystem, job: JobData, stream: Stream)
    requires TwoStreams(s.logStreams)
  {
    && Log in s.channels && !s.logPaused && Reached(fs, job, s.logStreams, stream)
    && Rotates(fs, job, StateOf(s.logStreams, stream))
  }

  /** Serving the log channel sends at most one chunk of a stream, a rotated one exactly if its file is too short. */
  lemma LogSteps(s: Session, fs: FileSystem, stream: Stream)
    requires TwoStreams(s.logStreams)
    requires LogPath(s.job, stream) == "" ==> OffsetOf(s.logStreams, stream) == 0
    ensures var (s', frames) := ServeLog(s, fs);
            && s'.job == s.job && s'.channels == s.channels && TwoStreams(s'.logStreams)
            && StreamSteps(s, s', fs, ChunksOf(stream, frames), stream)
  {
    hide PushStreams, PushStream, Rotates, OneStep;
    var (s', frames) := ServeLog(s, fs);
    OffsetIs(s.logStreams, stream);
    if Log in s.channels && !s.logPaused {
      TwoPushed(fs, s.job, s.logStreams, stream);
      OffsetIs(s'.logStreams, stream);
      PushSteps(fs, s.job, StateOf(s.logStreams, stream));
    }
    StandingStill(Content(fs, LogPath(s.job, stream)), OffsetOf(s.logStreams, stream));
  }

  /** One round's effect on one stream: `sent` moves its cursor, and is rotated exactly if the file is too short. */
  ghost predicate StreamSteps(s: Session, s': Session, fs: FileSystem, sent: seq<LogChunk>, stream: Stream)
    requires TwoStreams(s.logStreams)
  {
    var file := Content(fs, LogPath(s'.job, stream));
    var from, to := OffsetOf(s.logStreams, stream), OffsetOf(s'.logStreams, stream);
    && OneStep(file, from, sent, to)
    && (AnyRotated(sent) <==> RoundRotates(s, fs, s'.job, stream))
    && (from <= |file| ==> to <= |file|)
    && (LogPath(s'.job, stream) == "" ==> to == 0)
  }

  /** What comes before the log channel in a round leaves the log's part of the session alone. */
  lemma BeforeLog(s: Session, checks: seq<Event>, refresh: Refresh)
    ensures var (s1, f1) := RefreshJob(s, refresh);
            var (s2, f2) := ServeChecks(s1, checks);
            && NoLog(f1 + f2) && s2.job == s1.job && s2.channels == s.channels && s2.logPaused == s.logPaused
            && s2.logStreams == s.logStreams
  {
  }

  /** So does a whole service round, on the job record it has refreshed. */
  lemma RoundSteps(s: Session, fs: FileSystem, checks: seq<Event>, refresh: Refresh, stream: Stream)
    requires s.channels != {} && TwoStreams(s.logStreams)
    requires LogPath(RefreshJob(s, refresh).0.job, stream) == "" ==> OffsetOf(s.logStreams, stream) == 0
    ensures var (s', frames) := Service(s, fs, checks, refresh);
            && s'.job == RefreshJob(s, refresh).0.job && s'.channels == s.channels && TwoStreams(s'.logStreams)
            && StreamSteps(s, s', fs, ChunksOf(stream, frames), stream)
  {
    hide RefreshJob, ServeChecks, ServeLog, OneStep, Reached, Rotates, StateOf;
    var (s1, f1) := RefreshJob(s, refresh);
    var (s2, f2) := ServeChecks(s1, checks);
    var (s3, f3) := ServeLog(s2, fs);
    BeforeLog(s, checks, refresh);
    LogSteps(s2, fs, stream);
    NoLogNoChunks(stream, f1 + f2);
    ChunksOfConcat(stream, f1 + f2, f3);
    assert [] + ChunksOf(stream, f3) == ChunksOf(stream, f3);
  }

  lemma StandingStill(file: Bytes, at: nat)
    ensures OneStep(file, at, [], at) && !AnyRotated([])
  {
  }

  // ---- Histories ----------------------------------------------------------------------------------

  /** Nothing of the stream has been counted, by the page, the session or a frame in flight. */
  ghost predicate Untouched(w: World, stream: Stream) {
    && !Progress(w, stream)
    && forall c | c in ChunksOf(stream, InFlight(w)) :: c.nextOffset == 0
  }

  /** Slurm changes the path of a stream only while nothing of it has been counted. */
  ghost predicate PathsKept(w: World, job: JobData) {
    forall stream :: LogPath(job, stream) == LogPath(w.job, stream) || Untouched(w, stream)
  }

  ghost predicate May(w: World, h: Happening) {
    match h
    case Act(a) =>
      && Enabled(w, a) && (a.Open? ==> PathsKept(w, a.newJob))
      && (a.Tick? && a.refresh.Refreshed? ==> PathsKept(w, a.refresh.job))
    case Replace(path, _) => path != ""
    case Remove(path) => path != ""
  }

  ghost function Happens(w: World, h: Happening): World
    requires May(w, h)
  {
    match h
    case Act(a) => Step(w, a)
    case Replace(path, content) => w.(fs := Holding(w.fs, path, content))
    case Remove(path) => w.(fs := w.fs.(files := w.fs.files - {path}))
  }

  ghost predicate IsHistory(w: World, hs: seq<Happening>)
    decreases |hs|
  {
    hs == [] || (May(w, hs[0]) && IsHistory(Happens(w, hs[0]), hs[1..]))
  }

  ghost function AfterAll(w: World, hs: seq<Happening>): World
    requires IsHistory(w, hs)
    decreases |hs|
  {
    if hs == [] then w else AfterAll(Happens(w, hs[0]), hs[1..])
  }

  // ---- What stays in order whatever the files hold -------------------------------------------------

  predicate Subscribed(w: World) { w.session.Some? && w.session.value.channels != {} }

  /** The frames in flight lead from the page's cursor to the session's. */
  ghost predicate InOrder(w: World, stream: Stream) {
    && Shape(Of(w.client, stream))
    && (Subscribed(w) ==> Linked(Of(w.client, stream).cursor, ChunksOf(stream, InFlight(w)),
                                 OffsetOf(w.session.value.logStreams, stream)))
    && (!Subscribed(w) ==> ChunksOf(stream, InFlight(w)) == [])
    && (LogPath(w.job, stream) == "" ==> Untouched(w, stream))
  }

  ghost predicate Orderly(w: World) { ConnectionOk(w) && InOrder(w, Stdout) && InOrder(w, Stderr) }

  lemma InitialOrderly(w: World)
    requires Initial(w)
    ensures Orderly(w)
  {
  }

  /** The same page, frames and offsets; the path the same or the stream untouched. */
  lemma StillInOrder(w: World, w': World, stream: Stream)
    requires InOrder(w, stream) && Of(w'.client, stream) == Of(w.client, stream)
    requires ChunksOf(stream, InFlight(w')) == ChunksOf(stream, InFlight(w)) && Subscribed(w') == Subscribed(w)
    requires Subscribed(w) ==>
               OffsetOf(w'.session.value.logStreams, stream) == OffsetOf(w.session.value.logStreams, stream)
    requires w'.session.Some? && !Subscribed(w') ==> OffsetOf(w'.session.value.logStreams, stream) == 0
    requires LogPath(w'.job, stream) == LogPath(w.job, stream) || Untouched(w, stream)
    ensures InOrder(w', stream)
  {
  }

  lemma RefreshInOrder(w: World, refresh: Refresh, stream: Stream)
    requires Orderly(w) && May(w, Act(Tick(refresh))) && Subscribed(w)
    ensures var s1 := RefreshJob(w.session.value, refresh).0;
            s1.logStreams == w.session.value.logStreams && s1.channels == w.session.value.channels
            && InOrder(w.(job := s1.job, session := Some(s1)), stream)
  {
    var s1 := RefreshJob(w.session.value, refresh).0;
    assert LogPath(s1.job, stream) == LogPath(w.job, stream) || Untouched(w, stream);
    StillInOrder(w, w.(job := s1.job, session := Some(s1)), stream);
  }

  /** A round continues the chain of every stream, over replaced files too. */
  lemma TickInOrder(w: World, refresh: Refresh, stream: Stream)
    requires Orderly(w) && May(w, Act(Tick(refresh))) && Subscribed(w)
    ensures InOrder(Step(w, Tick(refresh)), stream)
    ensures TwoStreams(Step(w, Tick(refresh)).session.value.logStreams)
  {
    var s := w.session.value;
    var (s', frames) := Service(s, w.fs, w.store, refresh);
    assert Step(w, Tick(refresh)) == w.(session := Some(s'), job := s'.job, agentOut := w.agentOut + frames);
    hide Step, May, OneStep, Linked, ChunksOf, OffsetOf, RoundRotates, RefreshJob, Service;
    RefreshInOrder(w, refresh, stream);
    var s1 := RefreshJob(s, refresh).0;
    var w1 := w.(job := s1.job, session := Some(s1));
    if LogPath(w1.job, stream) == "" { UntouchedOffset(w1, stream); }
    RoundSteps(s, w.fs, w.store, refresh, stream);
    Stepped(w1, s', frames, stream);
  }

  lemma Stepped(w: World, s': Session, frames: seq<Frame>, stream: Stream)
    requires InOrder(w, stream) && Subscribed(w) && s'.channels != {} && s'.job == w.job
    requires OneStep(FileOf(w, stream), OffsetOf(w.session.value.logStreams, stream), ChunksOf(stream, frames),
                     OffsetOf(s'.logStreams, stream))
    requires LogPath(w.job, stream) == "" ==> OffsetOf(s'.logStreams, stream) == 0
    ensures InOrder(w.(session := Some(s'), job := s'.job, agentOut := w.agentOut + frames), stream)
  {
    var before, sent := ChunksOf(stream, InFlight(w)), ChunksOf(stream, frames);
    ChunksOfConcat(stream, InFlight(w), frames);
    Associates(w.relayOut, w.agentOut, frames);
    if sent == [] {
      assert before + sent == before;
    } else {
      assert sent == [sent[0]];
      LinkedSnoc(Of(w.client, stream).cursor, before, OffsetOf(w.session.value.logStreams, stream), sent[0]);
    }
  }

  /** A session that is not subscribed yet has counted nothing. */
  lemma NothingYet(w: World, stream: Stream)
    requires ConnectionOk(w)
    ensures w.session.Some? && !Subscribed(w) ==> OffsetOf(w.session.value.logStreams, stream) == 0
  {
    if w.session.Some? && !Subscribed(w) { assert OffsetOf(w.session.value.logStreams[1..], stream) == 0; }
  }

  /** Applying the head of the chunks in flight. */
  lemma HeadApplied(s: ClientStream, chunks: seq<LogChunk>, to: nat)
    requires Shape(s) && chunks != [] && Linked(s.cursor, chunks, to)
    ensures var s' := AppendLog(s, chunks[0], false);
            Shape(s') && s'.cursor == chunks[0].nextOffset && Linked(s'.cursor, chunks[1..], to)
  {
    LinkKeepsShape(s, chunks[0]);
  }

  lemma DeliverInOrder(w: World, stream: Stream)
    requires Orderly(w) && w.relayOut != []
    ensures InOrder(Step(w, Deliver), stream)
  {
    var f, w' := w.relayOut[0], Step(w, Deliver);
    OnMessageStream(w.client, f, stream);
    Delivered(w, stream);
    assert InOrder(w, stream) && w'.session == w.session && w'.job == w.job;
    var before, left := ChunksOf(stream, InFlight(w)), ChunksOf(stream, InFlight(w'));
    if OwnChunk(stream, f) == [] {
      assert before == left;
      NothingYet(w, stream);
      StillInOrder(w, w', stream);
    } else {
      assert before == [f.chunk] + left;
      OwnInOrder(w, w', stream, f.chunk);
    }
  }

  lemma OwnInOrder(w: World, w': World, stream: Stream, c: LogChunk)
    requires InOrder(w, stream) && w'.session == w.session && w'.job == w.job
    requires Of(w'.client, stream) == AppendLog(Of(w.client, stream), c, false)
    requires ChunksOf(stream, InFlight(w)) == [c] + ChunksOf(stream, InFlight(w'))
    ensures InOrder(w', stream)
  {
    hide AppendLog, LogPath, Shape, InFlight, Of;
    var before, left := ChunksOf(stream, InFlight(w)), ChunksOf(stream, InFlight(w'));
    assert before[0] == c && before[1..] == left;
    HeadApplied(Of(w.client, stream), before, OffsetOf(w.session.value.logStreams, stream));
    if LogPath(w.job, stream) == "" { assert c in before && forall x | x in left :: x in before; }
  }

  /** The chunks in flight lose their first when a chunk of this stream is delivered. */
  lemma Delivered(w: World, stream: Stream)
    requires w.relayOut != []
    ensures var f, w' := w.relayOut[0], Step(w, Deliver);
            && InFlight(w) == [f] + InFlight(w')
            && ChunksOf(stream, InFlight(w)) == OwnChunk(stream, f) + ChunksOf(stream, InFlight(w'))
            && OwnChunk(stream, f) == (if f.LogFrame? && !f.merged && f.stream == stream then [f.chunk] else [])
  {
    var f, w' := w.relayOut[0], Step(w, Deliver);
    assert InFlight(w) == [f] + InFlight(w');
    ChunksOfConcat(stream, [f], InFlight(w'));
    ChunksOfOne(stream, f);
  }

  lemma HearInOrder(w: World, now: real, stream: Stream)
    requires Orderly(w) && Enabled(w, Hear(now))
    ensures InOrder(Step(w, Hear(now)), stream) && ConnectionOk(Step(w, Hear(now)))
  {
    if Subscribed(w) {
      ControlInOrder(w, now, stream);
    } else {
      SubscribeInOrder(w, now, stream);
    }
  }

  lemma ControlInOrder(w: World, now: real, stream: Stream)
    requires Orderly(w) && Enabled(w, Hear(now)) && Subscribed(w)
    ensures InOrder(Step(w, Hear(now)), stream) && ConnectionOk(Step(w, Hear(now)))
  {
    var s, w' := w.session.value, Step(w, Hear(now));
    var o := Handle(s, w.uplink[0], w.store, now);
    ControlWorks(s, w.uplink[0], w.store, now);
    QuietFrames(w, w', o.frames, stream);
    hide Handle, ChunksOf, OffsetOf;
    StillInOrder(w, w', stream);
  }

  /** The subscription heard: both cursors start where the page is. */
  lemma SubscribeHeard(w: World, now: real)
    requires ConnectionOk(w) && Enabled(w, Hear(now)) && !Subscribed(w)
    ensures var o, w' := Handle(w.session.value, w.uplink[0], w.store, now), Step(w, Hear(now));
            && o.Served? && NoLog(o.frames) && ConnectionOk(w') && Subscribed(w')
            && w' == w.(session := Some(o.session), uplink := w.uplink[1..], agentOut := w.agentOut + o.frames)
            && OffsetOf(o.session.logStreams, Stdout) == w.client.out.cursor
            && OffsetOf(o.session.logStreams, Stderr) == w.client.err.cursor
  {
    var s, m := w.session.value, w.uplink[0];
    SubscribeWorks(s, w.client, m.checksCursor.value, w.store, now);
    OffsetsOfTwo(Handle(s, m, w.store, now).session.logStreams);
  }

  lemma SubscribeInOrder(w: World, now: real, stream: Stream)
    requires Orderly(w) && Enabled(w, Hear(now)) && !Subscribed(w)
    ensures InOrder(Step(w, Hear(now)), stream) && ConnectionOk(Step(w, Hear(now)))
  {
    var o, w' := Handle(w.session.value, w.uplink[0], w.store, now), Step(w, Hear(now));
    SubscribeHeard(w, now);
    QuietFrames(w, w', o.frames, stream);
    hide Handle, Step, ConnectionOk, ChunksOf, OffsetOf, Shape, LogPath;
    assert InOrder(w, stream);
  }

  lemma OpenInOrder(w: World, job: JobData, stream: Stream)
    requires Orderly(w) && May(w, Act(Open(job)))
    ensures InOrder(Step(w, Open(job)), stream)
  {
    var w' := Step(w, Open(job));
    assert OffsetOf(w'.session.value.logStreams[1..], stream) == 0;
    assert InFlight(w') == [];
    StillInOrder(w, w', stream);
  }

  lemma ActInOrder(w: World, a: Action, stream: Stream)
    requires Orderly(w) && May(w, Act(a))
    ensures InOrder(Step(w, a), stream)
  {
    var w' := Step(w, a);
    match a
    case Hear(now) => HearInOrder(w, now, stream);
    case Tick(refresh) =>
      if Subscribed(w) {
        TickInOrder(w, refresh, stream);
      } else {
        assert w.agentOut + [] == w.agentOut && w' == w;
      }
    case Deliver => DeliverInOrder(w, stream);
    case Relay =>
      HeadMoves(w.relayOut, w.agentOut);
      StillInOrder(w, w', stream);
    case Open(job) => OpenInOrder(w, job, stream);
    case Drop => assert InFlight(w') == [];
    case _ => StillInOrder(w, w', stream);
  }

  lemma ActConnection(w: World, a: Action)
    requires Orderly(w) && May(w, Act(a))
    ensures ConnectionOk(Step(w, a))
  {
    match a
    case Hear(now) => HearInOrder(w, now, Stdout);
    case Tick(refresh) => if Subscribed(w) { TickInOrder(w, refresh, Stdout); TickJob(w, refresh); }
    case Deliver =>
      if !Subscribed(w) { NothingDelivered(w); }
      SameSubscription(w, Step(w, Deliver));
    case _ =>
  }

  lemma SameSubscription(w: World, w': World)
    requires ConnectionOk(w) && w'.session == w.session && w'.uplink == w.uplink && w'.job == w.job
    requires !Subscribed(w) ==> w'.client.out == w.client.out && w'.client.err == w.client.err
    requires w.session.Some?
    ensures ConnectionOk(w')
  {
  }

  lemma TickJob(w: World, refresh: Refresh)
    requires Enabled(w, Tick(refresh)) && Subscribed(w) && w.session.value.job == w.job
    ensures var w' := Step(w, Tick(refresh));
            w'.uplink == w.uplink && w'.session.value.channels == w.session.value.channels
            && w'.session.value.job == w'.job
  {
    ServiceJob(w.session.value, w.fs, w.store, refresh);
  }

  /** Before the subscription is heard nothing in flight can move the page's cursors. */
  lemma NothingDelivered(w: World)
    requires Orderly(w) && w.relayOut != [] && !Subscribed(w)
    ensures var client := Step(w, Deliver).client; client.out == w.client.out && client.err == w.client.err
  {
    Delivered(w, Stdout);
    Delivered(w, Stderr);
    OnMessageStream(w.client, w.relayOut[0], Stdout);
    OnMessageStream(w.client, w.relayOut[0], Stderr);
  }

  lemma HappensOrderly(w: World, h: Happening)
    requires Orderly(w) && May(w, h)
    ensures Orderly(Happens(w, h))
  {
    var w' := Happens(w, h);
    match h
    case Act(a) =>
      ActConnection(w, a);
      ActInOrder(w, a, Stdout);
      ActInOrder(w, a, Stderr);
    case _ =>
      NothingYet(w, Stdout);
      NothingYet(w, Stderr);
      StillInOrder(w, w', Stdout);
      StillInOrder(w, w', Stderr);
  }

  lemma {:induction false} HistoryOrderly(w: World, hs: seq<Happening>)
    requires Orderly(w) && IsHistory(w, hs)
    ensures Orderly(AfterAll(w, hs))
    decreases |hs|
  {
    if hs != [] {
      HappensOrderly(w, hs[0]);
      HistoryOrderly(Happens(w, hs[0]), hs[1..]);
    }
  }

  // ---- After the last change to a file -------------------------------------------------------------

  /** This step neither replaces nor removes the stream's file, nor moves the stream to another path. */
  ghost predicate Undisturbed(w: World, h: Happening, stream: Stream)
    requires May(w, h)
  {
    match h
    case Act(_) => LogPath(Happens(w, h).job, stream) == LogPath(w.job, stream)
    case Replace(path, _) => path != LogPath(w.job, stream)
    case Remove(path) => path != LogPath(w.job, stream)
  }

  ghost predicate AllUndisturbed(w: World, hs: seq<Happening>, stream: Stream)
    requires IsHistory(w, hs)
    decreases |hs|
  {
    hs == [] || (Undisturbed(w, hs[0], stream) && AllUndisturbed(Happens(w, hs[0]), hs[1..], stream))
  }

  /** Undisturbed, a file only grows. */
  lemma FileKept(w: World, h: Happening, stream: Stream)
    requires May(w, h) && Undisturbed(w, h, stream)
    ensures FileOf(w, stream) <= FileOf(Happens(w, h), stream)
  {
    match h
    case Act(a) =>
      match a {
        case Tick(refresh) => ServiceKeepsFiles(w, refresh);
        case _ =>
      }
    case _ =>
  }

  lemma ServiceKeepsFiles(w: World, refresh: Refresh)
    requires Enabled(w, Tick(refresh))
    ensures Step(w, Tick(refresh)).fs == w.fs
  {
  }

  lemma {:induction false} FilesKept(w: World, hs: seq<Happening>, stream: Stream)
    requires IsHistory(w, hs) && AllUndisturbed(w, hs, stream)
    ensures FileOf(w, stream) <= FileOf(AfterAll(w, hs), stream)
    decreases |hs|
  {
    if hs != [] {
      FileKept(w, hs[0], stream);
      FilesKept(Happens(w, hs[0]), hs[1..], stream);
    }
  }

  /** How many of the first `prior` frames in flight are still in flight after a step. */
  ghost function PriorAfter(w: World, prior: nat, h: Happening): nat
    requires May(w, h)
  {
    if h == Act(Deliver) then (if prior > 0 then prior - 1 else 0)
    else Min(prior, |InFlight(Happens(w, h))|)
  }

  /** A frame that rotates the stream arrives. */
  ghost predicate RotationArrives(w: World, h: Happening, stream: Stream)
    requires May(w, h)
  {
    h == Act(Deliver) && AnyRotated(OwnChunk(stream, w.relayOut[0]))
  }

  /** The page is delivered a rotated frame that is not one of the first `prior` frames in flight now. */
  ghost predicate Mended(w: World, prior: nat, hs: seq<Happening>, stream: Stream)
    requires IsHistory(w, hs)
    decreases |hs|
  {
    hs != []
    && ((prior == 0 && RotationArrives(w, hs[0], stream))
        || Mended(Happens(w, hs[0]), PriorAfter(w, prior, hs[0]), hs[1..], stream))
  }

  /** The page once it has got as many of the first `prior` frames in flight as it will get. */
  ghost function LastPrior(w: World, prior: nat, hs: seq<Happening>, stream: Stream): ClientStream
    requires IsHistory(w, hs)
    decreases |hs|
  {
    if hs == [] || prior == 0 then Of(w.client, stream)
    else LastPrior(Happens(w, hs[0]), PriorAfter(w, prior, hs[0]), hs[1..], stream)
  }

  /** All but the first `prior` frames in flight were read from the file as it is now. */
  ghost predicate RestFresh(w: World, prior: nat, file: Bytes, stream: Stream) {
    prior <= |InFlight(w)| && forall c | c in ChunksOf(stream, InFlight(w)[prior..]) :: Fresh(file, c)
  }

  lemma RestAppended(w: World, w': World, prior: nat, frames: seq<Frame>, file: Bytes, stream: Stream)
    requires RestFresh(w, prior, file, stream) && InFlight(w') == InFlight(w) + frames
    requires forall c | c in ChunksOf(stream, frames) :: Fresh(file, c)
    ensures RestFresh(w', prior, file, stream)
  {
    assert InFlight(w')[prior..] == InFlight(w)[prior..] + frames;
    ChunksOfConcat(stream, InFlight(w)[prior..], frames);
  }

  lemma RestDelivered(w: World, prior: nat, file: Bytes, stream: Stream)
    requires RestFresh(w, prior, file, stream) && w.relayOut != []
    ensures RestFresh(Step(w, Deliver), if prior > 0 then prior - 1 else 0, file, stream)
  {
    var w' := Step(w, Deliver);
    Delivered(w, stream);
    if prior > 0 {
      assert InFlight(w')[prior - 1..] == InFlight(w)[prior..];
    } else {
      assert InFlight(w')[0..] == InFlight(w') && InFlight(w)[0..] == InFlight(w);
    }
  }

  lemma Connected(w: World)
    requires Orderly(w) && Subscribed(w)
    ensures TwoStreams(w.session.value.logStreams)
  {
  }

  lemma RefreshedJob(w: World, refresh: Refresh)
    requires w.session.Some? && w.session.value.channels != {}
    ensures Service(w.session.value, w.fs, w.store, refresh).0.job == RefreshJob(w.session.value, refresh).0.job
  {
  }

  lemma UntouchedOffset(w: World, stream: Stream)
    requires InOrder(w, stream) && w.session.Some? && LogPath(w.job, stream) == ""
    ensures OffsetOf(w.session.value.logStreams, stream) == 0
  {
  }

  /** What a round reads is fresh, also with respect to what the file grows to later. */
  lemma RoundFresh(w: World, refresh: Refresh, file: Bytes, stream: Stream)
    requires Orderly(w) && May(w, Act(Tick(refresh))) && Subscribed(w)
    requires Undisturbed(w, Act(Tick(refresh)), stream) && FileOf(w, stream) <= file
    ensures var frames := Service(w.session.value, w.fs, w.store, refresh).1;
            forall c | c in ChunksOf(stream, frames) :: Fresh(file, c)
  {
    var s := w.session.value;
    var (s', frames) := Service(s, w.fs, w.store, refresh);
    assert Step(w, Tick(refresh)).job == s'.job && InOrder(w, stream);
    assert LogPath(s'.job, stream) == LogPath(w.job, stream);
    hide Service, InOrder, StreamSteps, Untouched, Step, May, Undisturbed, RefreshJob, ChunksOf, ConnectionOk, Fresh;
    assert TwoStreams(s.logStreams) by { Connected(w); }
    RefreshedJob(w, refresh);
    if LogPath(w.job, stream) == "" { UntouchedOffset(w, stream); }
    RoundSteps(s, w.fs, w.store, refresh, stream);
    StepsFresh(s, s', w.fs, ChunksOf(stream, frames), file, stream);
  }

  lemma StepsFresh(s: Session, s': Session, fs: FileSystem, sent: seq<LogChunk>, file: Bytes, stream: Stream)
    requires TwoStreams(s.logStreams) && StreamSteps(s, s', fs, sent, stream)
    requires Content(fs, LogPath(s'.job, stream)) <= file
    ensures forall c | c in sent :: Fresh(file, c)
  {
    hide RoundRotates;
    var now := Content(fs, LogPath(s'.job, stream));
    assert file == now + file[|now|..];
    if sent != [] {
      assert sent == [sent[0]];
      FreshGrows(now, file[|now|..], sent[0]);
    }
  }

  /** A message's answer contains no log frame. */
  lemma AnswerQuiet(w: World, now: real)
    requires Orderly(w) && Enabled(w, Hear(now))
    ensures var o := Handle(w.session.value, w.uplink[0], w.store, now); o.Served? && NoLog(o.frames)
  {
    var s, m := w.session.value, w.uplink[0];
    if s.channels == {} {
      SubscribeWorks(s, w.client, m.checksCursor.value, w.store, now);
    } else {
      ControlWorks(s, m, w.store, now);
    }
  }

  lemma HearFresh(w: World, now: real, prior: nat, file: Bytes, stream: Stream)
    requires Orderly(w) && Enabled(w, Hear(now)) && RestFresh(w, prior, file, stream)
    ensures RestFresh(Step(w, Hear(now)), prior, file, stream)
  {
    AnswerQuiet(w, now);
    var frames := Handle(w.session.value, w.uplink[0], w.store, now).frames;
    NoLogNoChunks(stream, frames);
    Associates(w.relayOut, w.agentOut, frames);
    RestAppended(w, Step(w, Hear(now)), prior, frames, file, stream);
  }

  lemma TickFresh(w: World, refresh: Refresh, prior: nat, file: Bytes, stream: Stream)
    requires Orderly(w) && May(w, Act(Tick(refresh))) && Undisturbed(w, Act(Tick(refresh)), stream)
    requires FileOf(w, stream) <= file && RestFresh(w, prior, file, stream)
    ensures RestFresh(Step(w, Tick(refresh)), prior, file, stream)
  {
    var frames := Service(w.session.value, w.fs, w.store, refresh).1;
    Associates(w.relayOut, w.agentOut, frames);
    if Subscribed(w) {
      RoundFresh(w, refresh, file, stream);
    } else {
      assert frames == [];
    }
    RestAppended(w, Step(w, Tick(refresh)), prior, frames, file, stream);
  }

  lemma StaysFresh(w: World, prior: nat, h: Happening, file: Bytes, stream: Stream)
    requires Orderly(w) && May(w, h) && Undisturbed(w, h, stream)
    requires FileOf(w, stream) <= file && RestFresh(w, prior, file, stream)
    ensures RestFresh(Happens(w, h), PriorAfter(w, prior, h), file, stream)
  {
    hide RestFresh, OnMessage, FileOf;
    PriorFits(w, prior, file, stream);
    var w' := Happens(w, h);
    match h
    case Act(a) =>
      match a {
        case Hear(now) => HearFresh(w, now, prior, file, stream);
        case Tick(refresh) => TickFresh(w, refresh, prior, file, stream);
        case Deliver => RestDelivered(w, prior, file, stream);
        case Relay =>
          HeadMoves(w.relayOut, w.agentOut);
          RestSame(w, w', prior, file, stream);
        case Drop => NoneInFlight(w', file, stream);
        case _ => RestSame(w, w', prior, file, stream);
      }
    case _ => RestSame(w, w', prior, file, stream);
  }

  lemma RestSame(w: World, w': World, prior: nat, file: Bytes, stream: Stream)
    requires RestFresh(w, prior, file, stream) && InFlight(w') == InFlight(w)
    ensures RestFresh(w', prior, file, stream)
  {
  }

  lemma NoneInFlight(w: World, file: Bytes, stream: Stream)
    requires InFlight(w) == []
    ensures RestFresh(w, 0, file, stream)
  {
    assert InFlight(w)[0..] == [];
  }

  lemma PriorFits(w: World, prior: nat, file: Bytes, stream: Stream)
    requires RestFresh(w, prior, file, stream)
    ensures prior <= |InFlight(w)|
  {
  }

  /** What a step does to the page of a stream, seen from a file its fresh frames were read from. */
  lemma PageStep(w: World, prior: nat, h: Happening, file: Bytes, stream: Stream)
    requires Orderly(w) && May(w, h) && RestFresh(w, prior, file, stream)
    ensures var s, s' := Of(w.client, stream), Of(Happens(w, h).client, stream);
            && (h != Act(Deliver) ==> s' == s)
            && (prior == 0 ==> (ClientOk(file, s') <==> RotationArrives(w, h, stream) || ClientOk(file, s)))
  {
    hide ClientOk, Fresh, RotationArrives;
    NoArrival(w, h, stream);
    if h == Act(Deliver) && prior == 0 {
      assert InFlight(w)[0..] == InFlight(w);
      DeliveredExactly(w, file, stream);
    }
  }

  lemma DeliveredExactly(w: World, file: Bytes, stream: Stream)
    requires Orderly(w) && w.relayOut != []
    requires forall c | c in ChunksOf(stream, InFlight(w)) :: Fresh(file, c)
    ensures ClientOk(file, Of(Step(w, Deliver).client, stream)) <==>
              RotationArrives(w, Act(Deliver), stream) || ClientOk(file, Of(w.client, stream))
  {
    var own := OwnChunk(stream, w.relayOut[0]);
    Delivered(w, stream);
    OnMessageStream(w.client, w.relayOut[0], stream);
    Arrives(w, stream);
    hide ClientOk, Fresh, OnMessage, AnyRotated, AppendLog;
    if own != [] {
      NextIsLinked(w, stream, own[0]);
      assert own[0] in ChunksOf(stream, InFlight(w));
      FreshAppliedExactly(file, Of(w.client, stream), own[0]);
    }
  }

  lemma Arrives(w: World, stream: Stream)
    requires w.relayOut != []
    ensures var own := OwnChunk(stream, w.relayOut[0]);
            AnyRotated(own) <==> own != [] && own[0].rotated
  {
    var own := OwnChunk(stream, w.relayOut[0]);
    if own != [] { assert own[0] in own; }
  }

  /** The next chunk to arrive continues at the page's cursor, or starts over. */
  lemma NextIsLinked(w: World, stream: Stream, c: LogChunk)
    requires Orderly(w) && w.relayOut != [] && OwnChunk(stream, w.relayOut[0]) == [c]
    ensures Shape(Of(w.client, stream)) && Link(Of(w.client, stream).cursor, c)
  {
    Delivered(w, stream);
    hide Link, Shape;
    assert InOrder(w, stream) && ChunksOf(stream, InFlight(w))[0] == c;
  }

  lemma {:induction false} MendsExactly(w: World, prior: nat, hs: seq<Happening>, file: Bytes, stream: Stream)
    requires Orderly(w) && IsHistory(w, hs) && AllUndisturbed(w, hs, stream)
    requires file == FileOf(AfterAll(w, hs), stream) && RestFresh(w, prior, file, stream)
    ensures ClientOk(file, Of(AfterAll(w, hs).client, stream)) <==>
              Mended(w, prior, hs, stream) || ClientOk(file, LastPrior(w, prior, hs, stream))
    decreases |hs|
  {
    if hs != [] {
      var h, w' := hs[0], Happens(w, hs[0]);
      FilesKept(w, hs, stream);
      HappensOrderly(w, h);
      StaysFresh(w, prior, h, file, stream);
      PageStep(w, prior, h, file, stream);
      MendsExactly(w', PriorAfter(w, prior, h), hs[1..], file, stream);
    }
  }

  /**
   In step again. However files were replaced, cut and removed before, connections lost and frames
   left in flight: after the last change to a stream's file, the page holds exactly the file up to its
   cursor if and only if a rotated frame read since then has reached it, or what it had got of older
   frames can be read from the new file as well.
   */
  lemma InStepAgain(w0: World, before: seq<Happening>, later: seq<Happening>, stream: Stream)
    requires Initial(w0) && IsHistory(w0, before)
    requires IsHistory(AfterAll(w0, before), later) && AllUndisturbed(AfterAll(w0, before), later, stream)
    ensures var w := AfterAll(w0, before); var w' := AfterAll(w, later);
            var file, s, prior := FileOf(w', stream), Of(w'.client, stream), |InFlight(w)|;
            && (ClientOk(file, s) <==>
                  Mended(w, prior, later, stream) || ClientOk(file, LastPrior(w, prior, later, stream)))
            && (ClientOk(file, s) ==>
                  s.cursor <= |file| && Flatten(Pieces(file, s)) == file[..s.cursor]
                  && DecodeChunks(Pieces(file, s)) == Flatten(s.chunks))
  {
    var w := AfterAll(w0, before);
    var w' := AfterAll(w, later);
    var file, s := FileOf(w', stream), Of(w'.client, stream);
    InitialOrderly(w0);
    HistoryOrderly(w0, before);
    assert InFlight(w)[|InFlight(w)|..] == [];
    MendsExactly(w, |InFlight(w)|, later, file, stream);
    if ClientOk(file, s) { ClientHolds(file, s); }
  }

  // ---- Changes nobody sees -------------------------------------------------------------------------

  /** No cursor of the stream, counted or in flight, is past the end of its file. */
  ghost predicate AllWithin(w: World, stream: Stream) {
    var n := |FileOf(w, stream)|;
    && Of(w.client, stream).cursor <= n && (Subscribed(w) ==> OffsetOf(w.session.value.logStreams, stream) <= n)
    && forall c | c in ChunksOf(stream, InFlight(w)) :: c.nextOffset <= n
  }

  /** Among all but the first `prior` frames in flight there is no rotated one. */
  ghost predicate RestUnrotated(w: World, prior: nat, stream: Stream) {
    prior <= |InFlight(w)| && forall c | c in ChunksOf(stream, InFlight(w)[prior..]) :: !c.rotated
  }

  ghost predicate Within(w: World, prior: nat, stream: Stream) {
    AllWithin(w, stream) && RestUnrotated(w, prior, stream)
  }

  lemma WithinAppended(w: World, w': World, prior: nat, frames: seq<Frame>, stream: Stream)
    requires Within(w, prior, stream) && InFlight(w') == InFlight(w) + frames
    requires |FileOf(w', stream)| >= |FileOf(w, stream)| && Of(w'.client, stream) == Of(w.client, stream)
    requires Subscribed(w') ==> OffsetOf(w'.session.value.logStreams, stream) <= |FileOf(w', stream)|
    requires forall c | c in ChunksOf(stream, frames) :: !c.rotated && c.nextOffset <= |FileOf(w', stream)|
    ensures Within(w', prior, stream)
  {
    assert InFlight(w')[prior..] == InFlight(w)[prior..] + frames;
    ChunksOfConcat(stream, InFlight(w)[prior..], frames);
    ChunksOfConcat(stream, InFlight(w), frames);
  }

  lemma DeliveredWithin(w: World, stream: Stream)
    requires AllWithin(w, stream) && w.relayOut != []
    ensures AllWithin(Step(w, Deliver), stream)
  {
    var f, w' := w.relayOut[0], Step(w, Deliver);
    Delivered(w, stream);
    OnMessageStream(w.client, f, stream);
    hide OnMessage, ChunksOf;
    var before, left := ChunksOf(stream, InFlight(w)), ChunksOf(stream, InFlight(w'));
    forall c | c in left ensures c in before {}
    if OwnChunk(stream, f) != [] { assert f.chunk in before; }
  }

  lemma DeliveredUnrotated(w: World, prior: nat, stream: Stream)
    requires RestUnrotated(w, prior, stream) && w.relayOut != []
    ensures RestUnrotated(Step(w, Deliver), if prior > 0 then prior - 1 else 0, stream)
    ensures prior == 0 ==> !RotationArrives(w, Act(Deliver), stream)
  {
    var w' := Step(w, Deliver);
    Delivered(w, stream);
    if prior > 0 {
      assert InFlight(w')[prior - 1..] == InFlight(w)[prior..];
    } else {
      assert InFlight(w')[0..] == InFlight(w') && InFlight(w)[0..] == InFlight(w);
    }
  }

  lemma WithinHeard(w: World, now: real, prior: nat, stream: Stream)
    requires Orderly(w) && Enabled(w, Hear(now)) && Within(w, prior, stream)
    ensures Within(Step(w, Hear(now)), prior, stream)
  {
    var w' := Step(w, Hear(now));
    AnswerQuiet(w, now);
    var frames := Handle(w.session.value, w.uplink[0], w.store, now).frames;
    HearInOrder(w, now, stream);
    HeardOffset(w, now, stream);
    NoLogNoChunks(stream, frames);
    Associates(w.relayOut, w.agentOut, frames);
    WithinAppended(w, w', prior, frames, stream);
  }

  /** A subscription starts at the page's cursor; control messages leave the session's where it is. */
  lemma HeardOffset(w: World, now: real, stream: Stream)
    requires Orderly(w) && Enabled(w, Hear(now))
    ensures var w' := Step(w, Hear(now));
            && w'.client == w.client && w'.fs == w.fs && w'.job == w.job && w'.session.Some?
            && OffsetOf(w'.session.value.logStreams, stream) ==
               if Subscribed(w) then OffsetOf(w.session.value.logStreams, stream) else Of(w.client, stream).cursor
  {
    var s, m := w.session.value, w.uplink[0];
    if s.channels == {} {
      SubscribeWorks(s, w.client, m.checksCursor.value, w.store, now);
      OffsetsOfTwo(Handle(s, m, w.store, now).session.logStreams);
    } else {
      ControlWorks(s, m, w.store, now);
    }
  }

  /** A round on a file that no cursor has passed sends nothing rotated and passes it by nothing. */
  lemma QuietRound(w: World, refresh: Refresh, stream: Stream)
    requires Orderly(w) && May(w, Act(Tick(refresh))) && Undisturbed(w, Act(Tick(refresh)), stream)
    requires AllWithin(w, stream) && Subscribed(w)
    ensures var (s', frames) := Service(w.session.value, w.fs, w.store, refresh);
            var n := |FileOf(w, stream)|;
            && LogPath(s'.job, stream) == LogPath(w.job, stream) && OffsetOf(s'.logStreams, stream) <= n
            && forall c | c in ChunksOf(stream, frames) :: !c.rotated && c.nextOffset <= n
  {
    var s := w.session.value;
    var (s', frames) := Service(s, w.fs, w.store, refresh);
    assert Step(w, Tick(refresh)).job == s'.job && InOrder(w, stream);
    assert LogPath(s'.job, stream) == LogPath(w.job, stream);
    hide Service, InOrder, StreamSteps, Untouched, Step, May, Undisturbed, RefreshJob, ChunksOf, ConnectionOk;
    assert TwoStreams(s.logStreams) by { Connected(w); }
    RefreshedJob(w, refresh);
    if LogPath(w.job, stream) == "" { UntouchedOffset(w, stream); }
    RoundSteps(s, w.fs, w.store, refresh, stream);
    StepsWithin(s, s', w.fs, ChunksOf(stream, frames), stream);
  }

  lemma StepsWithin(s: Session, s': Session, fs: FileSystem, sent: seq<LogChunk>, stream: Stream)
    requires TwoStreams(s.logStreams) && StreamSteps(s, s', fs, sent, stream)
    requires OffsetOf(s.logStreams, stream) <= |Content(fs, LogPath(s'.job, stream))|
    ensures OffsetOf(s'.logStreams, stream) <= |Content(fs, LogPath(s'.job, stream))|
    ensures forall c | c in sent :: !c.rotated && c.nextOffset <= |Content(fs, LogPath(s'.job, stream))|
  {
    OffsetIs(s.logStreams, stream);
    assert !AnyRotated(sent);
    if sent != [] { assert sent == [sent[0]] && sent[0] in sent; }
  }

  lemma WithinServed(w: World, refresh: Refresh, prior: nat, stream: Stream)
    requires Orderly(w) && May(w, Act(Tick(refresh))) && Undisturbed(w, Act(Tick(refresh)), stream)
    requires Within(w, prior, stream) && Subscribed(w)
    ensures Within(Step(w, Tick(refresh)), prior, stream)
  {
    var w' := Step(w, Tick(refresh));
    var (s', frames) := Service(w.session.value, w.fs, w.store, refresh);
    assert w' == w.(session := Some(s'), job := s'.job, agentOut := w.agentOut + frames);
    QuietRound(w, refresh, stream);
    hide Service, Orderly, May, Undisturbed, Step, LogPath, ChunksOf;
    Associates(w.relayOut, w.agentOut, frames);
    WithinAppended(w, w', prior, frames, stream);
  }

  lemma StillWithin(w: World, w': World, prior: nat, stream: Stream)
    requires Within(w, prior, stream) && InFlight(w') == InFlight(w)
    requires |FileOf(w', stream)| >= |FileOf(w, stream)| && Of(w'.client, stream) == Of(w.client, stream)
    requires Subscribed(w') ==> Subscribed(w) && w'.session.value.logStreams == w.session.value.logStreams
    ensures Within(w', prior, stream)
  {
  }

  /** A lost connection leaves only the page's own cursor. */
  lemma DroppedWithin(w: World, prior: nat, stream: Stream)
    requires Within(w, prior, stream)
    ensures Within(Disconnected(w), 0, stream) && InFlight(Disconnected(w)) == []
  {
    assert InFlight(Disconnected(w)) == [] && InFlight(Disconnected(w))[0..] == [];
  }

  lemma ActWithin(w: World, prior: nat, a: Action, stream: Stream)
    requires Orderly(w) && May(w, Act(a)) && Undisturbed(w, Act(a), stream) && Within(w, prior, stream)
    requires !a.Deliver? && |FileOf(Step(w, a), stream)| >= |FileOf(w, stream)|
    ensures Within(Step(w, a), if a.Drop? then 0 else prior, stream)
    ensures prior <= |InFlight(w)| <= |InFlight(Step(w, a))| || (a.Drop? && InFlight(Step(w, a)) == [])
  {
    var w' := Step(w, a);
    hide AllWithin, RestUnrotated, FileOf, OnMessage, Undisturbed;
    assert prior <= |InFlight(w)| by { PriorInFlight(w, prior, stream); }
    match a
    case Hear(now) =>
      AnswerQuiet(w, now);
      WithinHeard(w, now, prior, stream);
    case Tick(refresh) =>
      if Subscribed(w) {
        WithinServed(w, refresh, prior, stream);
      } else {
        assert w.agentOut + [] == w.agentOut && w' == w;
      }
    case Drop => DroppedWithin(w, prior, stream);
    case Relay =>
      HeadMoves(w.relayOut, w.agentOut);
      StillWithin(w, w', prior, stream);
    case _ => StillWithin(w, w', prior, stream);
  }

  lemma PriorInFlight(w: World, prior: nat, stream: Stream)
    requires Within(w, prior, stream)
    ensures prior <= |InFlight(w)|
  {
  }

  lemma NoArrival(w: World, h: Happening, stream: Stream)
    requires May(w, h)
    ensures RotationArrives(w, h, stream) ==> h == Act(Deliver)
  {
  }

  lemma ActStaysWithin(w: World, prior: nat, a: Action, stream: Stream)
    requires Orderly(w) && May(w, Act(a)) && Undisturbed(w, Act(a), stream) && Within(w, prior, stream) && !a.Deliver?
    ensures Within(Step(w, a), PriorAfter(w, prior, Act(a)), stream)
  {
    hide Step, Within, Undisturbed, Orderly, FileOf, PathsKept;
    FileKept(w, Act(a), stream);
    ActWithin(w, prior, a, stream);
    assert Within(Step(w, a), if a.Drop? then 0 else prior, stream);
    PriorMoves(w, prior, a);
  }

  lemma PriorMoves(w: World, prior: nat, a: Action)
    requires May(w, Act(a)) && !a.Deliver?
    requires prior <= |InFlight(w)| <= |InFlight(Step(w, a))| || (a.Drop? && InFlight(Step(w, a)) == [])
    ensures PriorAfter(w, prior, Act(a)) == if a.Drop? then 0 else prior
  {
  }

  lemma FileStaysWithin(w: World, prior: nat, h: Happening, stream: Stream)
    requires May(w, h) && Undisturbed(w, h, stream) && Within(w, prior, stream) && !h.Act?
    ensures Within(Happens(w, h), PriorAfter(w, prior, h), stream)
  {
    FileKept(w, h, stream);
    StillWithin(w, Happens(w, h), prior, stream);
  }

  lemma DeliverStaysWithin(w: World, prior: nat, stream: Stream)
    requires Within(w, prior, stream) && May(w, Act(Deliver))
    ensures Within(Happens(w, Act(Deliver)), PriorAfter(w, prior, Act(Deliver)), stream)
    ensures !(prior == 0 && RotationArrives(w, Act(Deliver), stream))
  {
    DeliveredWithin(w, stream);
    DeliveredUnrotated(w, prior, stream);
    hide AllWithin, RestUnrotated, RotationArrives, Step;
  }

  lemma StaysWithin(w: World, prior: nat, h: Happening, stream: Stream)
    requires Orderly(w) && May(w, h) && Undisturbed(w, h, stream) && Within(w, prior, stream)
    ensures Within(Happens(w, h), PriorAfter(w, prior, h), stream)
    ensures !(prior == 0 && RotationArrives(w, h, stream))
  {
    hide Within, RotationArrives, Step, PriorAfter, Undisturbed, Orderly, Enabled;
    NoArrival(w, h, stream);
    if h == Act(Deliver) {
      DeliverStaysWithin(w, prior, stream);
    } else if h.Act? {
      ActStaysWithin(w, prior, h.action, stream);
    } else {
      FileStaysWithin(w, prior, h, stream);
    }
  }

  lemma {:induction false} NeverMended(w: World, prior: nat, hs: seq<Happening>, stream: Stream)
    requires Orderly(w) && IsHistory(w, hs) && AllUndisturbed(w, hs, stream) && Within(w, prior, stream)
    ensures !Mended(w, prior, hs, stream)
    decreases |hs|
  {
    if hs != [] {
      HappensOrderly(w, hs[0]);
      StaysWithin(w, prior, hs[0], stream);
      NeverMended(Happens(w, hs[0]), PriorAfter(w, prior, hs[0]), hs[1..], stream);
    }
  }

  /**
   The failing family. A file that has been replaced, or cut, and has grown past every cursor before
   it is read again is never noticed, by any number of rounds and reconnections: the page is in step
   exactly if what it had got of the old file can be read from the new one.
   */
  lemma UnseenReplacement(w0: World, before: seq<Happening>, later: seq<Happening>, stream: Stream)
    requires Initial(w0) && IsHistory(w0, before)
    requires IsHistory(AfterAll(w0, before), later) && AllUndisturbed(AfterAll(w0, before), later, stream)
    requires var w := AfterAll(w0, before); Within(w, |InFlight(w)|, stream)
    ensures var w := AfterAll(w0, before); var w' := AfterAll(w, later); var file := FileOf(w', stream);
            ClientOk(file, Of(w'.client, stream)) <==> ClientOk(file, LastPrior(w, |InFlight(w)|, later, stream))
  {
    InitialOrderly(w0);
    HistoryOrderly(w0, before);
    InStepAgain(w0, before, later, stream);
    NeverMended(AfterAll(w0, before), |InFlight(AfterAll(w0, before))|, later, stream);
  }
}
