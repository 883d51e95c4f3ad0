/**
 Whole runs of the live log: files grow, the agent's session serves its streams, frames cross the
 gateway in order, connections drop with frames in flight, and the page reconnects with its cursors.
 */
module LiveRun {
  import opened Seqs
  import opened Utf8
  import opened JobFiles
  import opened CheckEvents
  import opened LiveSession
  import opened LogDelivery

  // ---- The page -----------------------------------------------------------------------------

  /**
   What the page holds of one stream: the byte cursor it resumes from and the chunks it fed to its
   parser since the last reset. `cuts` remembers where in the file the chunks began and ended.
   */
  datatype ClientStream = ClientStream(cursor: nat, chunks: seq<string>, cuts: seq<nat>)

  const Nothing := ClientStream(0, [], [0])

  /** Both streams, and the latest events with their cursor; stalled labels are left out. */
  datatype Client = Client(out: ClientStream, err: ClientStream, checks: seq<Event>, checksCursor: int)

  function Of(client: Client, stream: Stream): ClientStream {
    if stream == Stdout then client.out else client.err
  }

  function With(client: Client, stream: Stream, s: ClientStream): Client {
    if stream == Stdout then client.(out := s) else client.(err := s)
  }

  /** `appendLog`: a rotated frame starts over, text is fed to the parser, the cursor always moves. */
  function AppendLog(s: ClientStream, c: LogChunk, merged: bool): ClientStream {
    if merged then s
    else
      var base := if c.rotated then Nothing else s;
      var fed := if c.text == "" then base
                 else base.(chunks := base.chunks + [c.text], cuts := base.cuts + [c.nextOffset]);
      fed.(cursor := c.nextOffset)
  }

  /** `handleLiveMessage`: log chunks are appended, a snapshot replaces the checks, an event updates them. */
  function OnMessage(client: Client, f: Frame): Client {
    match f
    case LogFrame(stream, chunk, merged) => With(client, stream, AppendLog(Of(client, stream), chunk, merged))
    case ChecksFrame(snapshot) =>
      client.(checks := Underlying(snapshot.checks), checksCursor := Max(client.checksCursor, snapshot.cursor))
    case CheckFrame(e) =>
      client.(checks := Sort(Upsert(client.checks, e)), checksCursor := Max(client.checksCursor, e.no))
    case _ => client
  }

  /** The page subscribes to every channel, with its byte cursors and a checks cursor. */
  function SubscribeAt(client: Client, cursor: int): Message {
    Subscribe(ChannelNames(["checks", "log", "gpu", "job"]), Some(cursor),
              StreamOffsets([("stdout", Some(client.out.cursor)), ("stderr", Some(client.err.cursor))]))
  }

  function SubscribeMessage(client: Client): Message { SubscribeAt(client, client.checksCursor) }

  // ---- The world ----------------------------------------------------------------------------

  /**
   `session` is None while no connection is up. Messages travel to the agent on `uplink`; frames
   travel to the gateway on `agentOut` and from there to the page on `relayOut`.
   */
  datatype World = World(
    fs: FileSystem, store: seq<Event>, job: JobData, session: Option<Session>, uplink: seq<Message>,
    agentOut: seq<Frame>, relayOut: seq<Frame>, client: Client)

  datatype Action =
    | Grow(path: string, more: Bytes)
    | Record(event: Event, at: nat)
    | Open(newJob: JobData)
    | Say(message: Message)
    | Hear(now: real)
    | Tick(refresh: Refresh)
    | Relay
    | Deliver
    | Drop

  function NewSession(job: JobData): Session {
    Session({}, 0, [StreamState(Stdout, 0, None)], false, job)
  }

  function InFlight(w: World): seq<Frame> { w.relayOut + w.agentOut }

  function Step(w: World, a: Action): World
    requires Enabled(w, a)
  {
    match a
    case Grow(path, more) =>
      w.(fs := w.fs.(files := w.fs.files[path := Content(w.fs, path) + more]))
    case Record(e, at) => w.(store := w.store[..at] + [e] + w.store[at..])
    case Open(job) =>
      w.(job := job, session := Some(NewSession(job)), uplink := [SubscribeMessage(w.client)])
    case Say(m) => w.(uplink := w.uplink + [m])
    case Hear(now) =>
      (match Handle(w.session.value, w.uplink[0], w.store, now)
       case Rejected(_) => Disconnected(w)
       case Served(s, frames) =>
         w.(session := Some(s), uplink := w.uplink[1..], agentOut := w.agentOut + frames))
    case Tick(refresh) =>
      var (s, frames) := Service(w.session.value, w.fs, w.store, refresh);
      w.(session := Some(s), job := s.job, agentOut := w.agentOut + frames)
    case Relay => w.(agentOut := w.agentOut[1..], relayOut := w.relayOut + [w.agentOut[0]])
    case Deliver => w.(relayOut := w.relayOut[1..], client := OnMessage(w.client, w.relayOut[0]))
    case Drop => Disconnected(w)
  }

  /** A connection that ends loses everything still in flight. */
  function Disconnected(w: World): World {
    w.(session := None, uplink := [], agentOut := [], relayOut := [])
  }

  function OffsetOf(streams: seq<StreamState>, stream: Stream): nat {
    if streams == [] then 0
    else if streams[0].name == stream then streams[0].offset
    else OffsetOf(streams[1..], stream)
  }

  /** Some byte of the stream has been counted, by the page or by the session. */
  predicate Progress(w: World, stream: Stream) {
    Of(w.client, stream).cursor > 0
    || (w.session.Some? && OffsetOf(w.session.value.logStreams, stream) > 0)
  }

  /** Slurm does not change the path of a stream that has made progress. */
  predicate Stable(w: World, job: JobData) {
    && (Progress(w, Stdout) ==> LogPath(job, Stdout) == LogPath(w.job, Stdout))
    && (Progress(w, Stderr) ==> LogPath(job, Stderr) == LogPath(w.job, Stderr))
  }

  predicate IsControl(m: Message) { m.Pause? || m.Resume? || m.Ping? || m.Auth? }

  predicate Enabled(w: World, a: Action) {
    match a
    case Grow(path, _) => path != ""
    case Record(e, at) => at <= |w.store| && e.no > 0 && forall x | x in w.store :: x.no != e.no
    case Open(job) => w.session.None? && Stable(w, job)
    case Say(m) => w.session.Some? && IsControl(m)
    case Hear(_) => w.session.Some? && w.uplink != []
    case Tick(refresh) => w.session.Some? && (refresh.Refreshed? ==> Stable(w, refresh.job))
    case Relay => w.agentOut != []
    case Deliver => w.relayOut != []
    case Drop => w.session.Some?
  }

  predicate Initial(w: World) {
    w.session.None? && w.uplink == [] && w.agentOut == [] && w.relayOut == []
    && w.client == Client(Nothing, Nothing, [], 0) && w.store == []
  }

  /** A run: every action is enabled where it happens. */
  ghost predicate IsRun(w: World, actions: seq<Action>)
    decreases |actions|
  {
    actions == [] || (Enabled(w, actions[0]) && IsRun(Step(w, actions[0]), actions[1..]))
  }

  function After(w: World, actions: seq<Action>): World
    requires IsRun(w, actions)
    decreases |actions|
  {
    if actions == [] then w else After(Step(w, actions[0]), actions[1..])
  }

  // ---- What holds in every run ----------------------------------------------------------------

  function FileOf(w: World, stream: Stream): Bytes { Content(w.fs, LogPath(w.job, stream)) }

  /** Chunk `i` is the file decoded between cuts `i` and `i + 1`. */
  ghost predicate PieceOk(file: Bytes, s: ClientStream, i: nat) {
    && i + 1 < |s.cuts| && i < |s.chunks|
    && s.cuts[i] < s.cuts[i + 1] <= |file| && s.chunks[i] == Decode(file[s.cuts[i]..s.cuts[i + 1]])
  }

  /** The page's chunks are the decoded slices of the file between its cuts, from 0 to the cursor. */
  ghost predicate ClientOk(file: Bytes, s: ClientStream) {
    && |s.cuts| == |s.chunks| + 1 && s.cuts[0] == 0 && Last(s.cuts) == s.cursor <= |file|
    && (forall i | 0 <= i < |s.chunks| :: PieceOk(file, s, i))
  }

  ghost predicate StreamOk(w: World, stream: Stream) {
    var file, c := FileOf(w, stream), Of(w.client, stream);
    && ClientOk(file, c)
    && (w.session.Some? && w.session.value.channels != {} ==>
          Chain(file, c.cursor, ChunksOf(stream, InFlight(w)), OffsetOf(w.session.value.logStreams, stream)))
    && (w.session.Some? && w.session.value.channels == {} ==> ChunksOf(stream, InFlight(w)) == [])
  }

  ghost predicate IsSubscribe(client: Client, m: Message) {
    m.Subscribe? && m.checksCursor.Some? && m == SubscribeAt(client, m.checksCursor.value)
  }

  ghost predicate ConnectionOk(w: World) {
    match w.session
    case None => w.uplink == [] && w.agentOut == [] && w.relayOut == []
    case Some(s) =>
      && s.job == w.job
      && if s.channels == {} then
           && s.logStreams == [StreamState(Stdout, 0, None)]
           && w.uplink != [] && IsSubscribe(w.client, w.uplink[0])
           && (forall i | 1 <= i < |w.uplink| :: IsControl(w.uplink[i]))
         else
           && TwoStreams(s.logStreams)
           && (forall i | 0 <= i < |w.uplink| :: IsControl(w.uplink[i]))
  }

  ghost predicate Inv(w: World) {
    ConnectionOk(w) && StreamOk(w, Stdout) && StreamOk(w, Stderr)
  }

  lemma InitialInv(w: World)
    requires Initial(w)
    ensures Inv(w)
  {
  }

  // ---- Files grow and paths settle ------------------------------------------------------------

  lemma ClientGrows(file: Bytes, more: Bytes, s: ClientStream)
    requires ClientOk(file, s)
    ensures ClientOk(file + more, s)
  {
    forall i | 0 <= i < |s.chunks| ensures PieceOk(file + more, s, i) {
      assert PieceOk(file, s, i);
      assert (file + more)[s.cuts[i]..s.cuts[i + 1]] == file[s.cuts[i]..s.cuts[i + 1]];
    }
  }

  lemma {:induction false} CutsAscend(file: Bytes, s: ClientStream, n: nat)
    requires ClientOk(file, s) && n < |s.cuts|
    ensures n <= s.cuts[n]
  {
    if n > 0 {
      CutsAscend(file, s, n - 1);
      assert PieceOk(file, s, n - 1);
    }
  }

  /** A page that has counted nothing agrees with any file. */
  lemma ClientAtZero(file: Bytes, other: Bytes, s: ClientStream)
    requires ClientOk(file, s) && s.cursor == 0
    ensures ClientOk(other, s)
  {
    CutsAscend(file, s, |s.chunks|);
  }

  lemma StreamGrows(w: World, w': World, stream: Stream, more: Bytes)
    requires StreamOk(w, stream) && FileOf(w', stream) == FileOf(w, stream) + more
    requires w'.session == w.session && w'.client == w.client && InFlight(w') == InFlight(w)
    ensures StreamOk(w', stream)
  {
    var file, c := FileOf(w, stream), Of(w.client, stream);
    ClientGrows(file, more, c);
    if w.session.Some? && w.session.value.channels != {} {
      ChainGrows(file, more, c.cursor, ChunksOf(stream, InFlight(w)), OffsetOf(w.session.value.logStreams, stream));
    }
  }

  /** Changing the job record is harmless for a stream whose path stays or that has not advanced. */
  lemma StreamRepathed(w: World, w': World, stream: Stream)
    requires StreamOk(w, stream)
    requires w'.fs == w.fs && w'.client == w.client && InFlight(w') == InFlight(w)
    requires w.session.Some? == w'.session.Some?
    requires w.session.Some? ==> w'.session.value.channels == w.session.value.channels
                                 && w'.session.value.logStreams == w.session.value.logStreams
    requires Progress(w, stream) ==> LogPath(w'.job, stream) == LogPath(w.job, stream)
    ensures StreamOk(w', stream)
  {
    if !Progress(w, stream) {
      ClientAtZero(FileOf(w, stream), FileOf(w', stream), Of(w.client, stream));
      if w.session.Some? && w.session.value.channels != {} {
        ChainAtZero(FileOf(w, stream), FileOf(w', stream), ChunksOf(stream, InFlight(w)));
      }
    }
  }

  // ---- Serving ----------------------------------------------------------------------------------

  /** Pushing one stream continues the chain of that stream, whatever state its file is in. */
  lemma PushStreamChains(fs: FileSystem, job: JobData, st: StreamState, from: nat, chunks: seq<LogChunk>)
    requires Chain(Content(fs, LogPath(job, st.name)), from, chunks, st.offset)
    requires st.offset <= |Content(fs, LogPath(job, st.name))|
    ensures var p := PushStream(fs, job, st);
            && p.state.name == st.name
            && Chain(Content(fs, LogPath(job, st.name)), from, chunks + ChunksOf(st.name, p.frames), p.state.offset)
            && forall other | other != st.name :: ChunksOf(other, p.frames) == []
  {
    hide ReadLogChunk, IsSlice, Content, LogPath;
    var file, p := Content(fs, LogPath(job, st.name)), PushStream(fs, job, st);
    if p.frames == [] {
      assert chunks + [] == chunks;
    } else {
      var f := p.frames[0];
      assert p.frames == [f];
      OnlyChunk(f);
      if f.LogFrame? && !f.merged {
        ReadSlice(fs, job, st.name, st.offset);
        ChainSnoc(file, from, chunks, st.offset, f.chunk);
      } else {
        assert chunks + [] == chunks;
      }
    }
  }

  lemma OnlyChunk(f: Frame)
    ensures forall stream: Stream :: ChunksOf(stream, [f]) == OwnChunk(stream, f)
  {
    forall stream: Stream ensures ChunksOf(stream, [f]) == OwnChunk(stream, f) { ChunksOfOne(stream, f); }
  }

  /** What a read at or before the end of the stream's content returns is a slice from there. */
  lemma ReadSlice(fs: FileSystem, job: JobData, stream: Stream, offset: nat)
    requires offset <= |Content(fs, LogPath(job, stream))|
    ensures var r := ReadLogChunk(fs, job, stream, offset, LOG_LIMIT);
            r.Chunk? ==> r.chunk.offset == offset && !r.chunk.rotated
                         && IsSlice(Content(fs, LogPath(job, stream)), r.chunk)
  {
  }

  ghost predicate Names(streams: seq<StreamState>, stream: Stream) {
    exists i | 0 <= i < |streams| :: streams[i].name == stream
  }

  ghost predicate DistinctNames(streams: seq<StreamState>) {
    forall i, j | 0 <= i < j < |streams| :: streams[i].name != streams[j].name
  }

  lemma {:induction false} PushStreamsNames(fs: FileSystem, job: JobData, streams: seq<StreamState>)
    ensures var streams' := PushStreams(fs, job, streams).0;
            |streams'| == |streams| && forall i | 0 <= i < |streams| :: streams'[i].name == streams[i].name
    decreases |streams|
  {
    if streams != [] { PushStreamsNames(fs, job, streams[1..]); }
  }

  /** A stream that is not subscribed gets no frame. */
  lemma {:induction false} PushStreamsSilent(fs: FileSystem, job: JobData, streams: seq<StreamState>, stream: Stream)
    requires !Names(streams, stream)
    ensures ChunksOf(stream, PushStreams(fs, job, streams).1) == []
    decreases |streams|
  {
    if streams != [] {
      var st, p := streams[0], PushStream(fs, job, streams[0]);
      assert st.name != stream;
      FramesOfStream(fs, job, st, stream);
      assert forall i | 0 <= i < |streams| - 1 :: streams[1..][i] == streams[i + 1];
      PushStreamsSilent(fs, job, streams[1..], stream);
      ChunksOfConcat(stream, p.frames, PushStreams(fs, job, streams[1..]).1);
    }
  }

  lemma FramesOfStream(fs: FileSystem, job: JobData, st: StreamState, other: Stream)
    requires other != st.name
    ensures ChunksOf(other, PushStream(fs, job, st).frames) == []
  {
    var p := PushStream(fs, job, st);
    if p.frames != [] {
      assert p.frames == [p.frames[0]];
      ChunksOfOne(other, p.frames[0]);
    }
  }

  /** One round continues the chain of every subscribed stream, even when it stops at an error. */
  lemma {:induction false} PushStreamsChains(
    fs: FileSystem, job: JobData, streams: seq<StreamState>, stream: Stream, from: nat, chunks: seq<LogChunk>)
    requires DistinctNames(streams) && Names(streams, stream)
    requires Chain(Content(fs, LogPath(job, stream)), from, chunks, OffsetOf(streams, stream))
    requires OffsetOf(streams, stream) <= |Content(fs, LogPath(job, stream))|
    ensures var (streams', frames, _) := PushStreams(fs, job, streams);
            Chain(Content(fs, LogPath(job, stream)), from, chunks + ChunksOf(stream, frames),
                  OffsetOf(streams', stream))
    decreases |streams|
  {
    var st, rest := streams[0], streams[1..];
    var p := PushStream(fs, job, st);
    var (rest', frames, _) := PushStreams(fs, job, rest);
    assert forall i | 0 <= i < |rest| :: rest[i] == streams[i + 1];
    if st.name == stream {
      PushStreamChains(fs, job, st, from, chunks);
      PushStreamsSilent(fs, job, rest, stream);
      ChunksOfConcat(stream, p.frames, frames);
      assert ChunksOf(stream, p.frames) + [] == ChunksOf(stream, p.frames);
    } else {
      FramesOfStream(fs, job, st, stream);
      PushStreamName(fs, job, st);
      if p.ok {
        PushStreamsChains(fs, job, rest, stream, from, chunks);
        ChunksOfConcat(stream, p.frames, frames);
        assert [] + ChunksOf(stream, frames) == ChunksOf(stream, frames);
        assert ([p.state] + rest')[1..] == rest';
      } else {
        assert chunks + [] == chunks;
        assert ([p.state] + rest)[1..] == rest;
      }
    }
  }

  lemma PushStreamName(fs: FileSystem, job: JobData, st: StreamState)
    ensures PushStream(fs, job, st).state.name == st.name
  {
  }

  ghost predicate NoLog(frames: seq<Frame>) {
    forall i | 0 <= i < |frames| :: !frames[i].LogFrame?
  }

  lemma {:induction false} NoLogNoChunks(stream: Stream, frames: seq<Frame>)
    requires NoLog(frames)
    ensures ChunksOf(stream, frames) == []
    decreases |frames|
  {
    if frames != [] {
      assert NoLog(frames[1..]);
      NoLogNoChunks(stream, frames[1..]);
    }
  }

  /** The page's two streams, in the order they were subscribed. */
  ghost predicate TwoStreams(streams: seq<StreamState>) {
    |streams| == 2 && streams[0].name == Stdout && streams[1].name == Stderr
  }

  lemma ServeLogChains(s: Session, fs: FileSystem, stream: Stream, from: nat, chunks: seq<LogChunk>)
    requires TwoStreams(s.logStreams)
    requires Chain(Content(fs, LogPath(s.job, stream)), from, chunks, OffsetOf(s.logStreams, stream))
    requires OffsetOf(s.logStreams, stream) <= |Content(fs, LogPath(s.job, stream))|
    ensures var (s', frames) := ServeLog(s, fs);
            && s'.job == s.job && s'.channels == s.channels && TwoStreams(s'.logStreams)
            && Chain(Content(fs, LogPath(s.job, stream)), from, chunks + ChunksOf(stream, frames),
                     OffsetOf(s'.logStreams, stream))
  {
    PushStreamsNames(fs, s.job, s.logStreams);
    assert s.logStreams[if stream == Stdout then 0 else 1].name == stream;
    PushStreamsChains(fs, s.job, s.logStreams, stream, from, chunks);
    assert chunks + [] == chunks;
  }

  /** A service round on a subscribed session whose job record is current. */
  lemma ServiceChains(s: Session, fs: FileSystem, checks: seq<Event>, refresh: Refresh, stream: Stream,
                      from: nat, chunks: seq<LogChunk>)
    requires s.channels != {} && TwoStreams(s.logStreams)
    requires var file := Content(fs, LogPath(RefreshJob(s, refresh).0.job, stream));
             Chain(file, from, chunks, OffsetOf(s.logStreams, stream)) && OffsetOf(s.logStreams, stream) <= |file|
    ensures var (s', frames) := Service(s, fs, checks, refresh);
            && s'.job == RefreshJob(s, refresh).0.job && s'.channels == s.channels && TwoStreams(s'.logStreams)
            && Chain(Content(fs, LogPath(s'.job, stream)), from, chunks + ChunksOf(stream, frames),
                     OffsetOf(s'.logStreams, stream))
  {
    var (s1, f1) := RefreshJob(s, refresh);
    var (s2, f2) := ServeChecks(s1, checks);
    NoLogNoChunks(stream, f1 + f2);
    ServeLogChains(s2, fs, stream, from, chunks);
    var f3 := ServeLog(s2, fs).1;
    ChunksOfConcat(stream, f1 + f2, f3);
    assert [] + ChunksOf(stream, f3) == ChunksOf(stream, f3);
  }

  // ---- Every action keeps the invariant ---------------------------------------------------------

  lemma GrowKeeps(w: World, path: string, more: Bytes)
    requires Inv(w) && path != ""
    ensures Inv(Step(w, Grow(path, more)))
  {
    var w' := Step(w, Grow(path, more));
    forall stream: Stream ensures StreamOk(w, stream) ==> StreamOk(w', stream) {
      if StreamOk(w, stream) {
        var grown := if LogPath(w.job, stream) == path then more else [];
        assert FileOf(w', stream) == FileOf(w, stream) + grown;
        StreamGrows(w, w', stream, grown);
      }
    }
  }

  lemma OpenKeeps(w: World, job: JobData)
    requires Inv(w) && Enabled(w, Open(job))
    ensures Inv(Step(w, Open(job)))
  {
    var w' := Step(w, Open(job));
    StreamRepathed(w, w.(job := job), Stdout);
    StreamRepathed(w, w.(job := job), Stderr);
    assert InFlight(w') == [];
  }

  lemma ParseOne(name: string, stream: Stream, offset: nat)
    requires StreamOf(name) == Some(stream)
    ensures ParseStreams([(name, Some(offset as int))]) == Some([StreamState(stream, offset, None)])
  {
    var one := [(name, Some(offset as int))];
    assert one[1..] == [];
    assert [StreamState(stream, offset, None)] + [] == [StreamState(stream, offset, None)];
  }

  lemma SubscribedStreams(out: nat, err: nat)
    ensures LogStreamsFrom(StreamOffsets([("stdout", Some(out as int)), ("stderr", Some(err as int))]))
         == Some([StreamState(Stdout, out, None), StreamState(Stderr, err, None)])
  {
    var entries := [("stdout", Some(out as int)), ("stderr", Some(err as int))];
    assert entries[1..] == [("stderr", Some(err as int))];
    ParseOne("stderr", Stderr, err);
    var one, two := StreamState(Stdout, out, None), StreamState(Stderr, err, None);
    assert ParseStreams(entries) == Some([one] + [two]);
    assert [one] + [two] == [one, two];
  }

  lemma SubscribedChannels()
    ensures ChannelsFrom(ChannelNames(["checks", "log", "gpu", "job"])).Some?
    ensures Log in ChannelsFrom(ChannelNames(["checks", "log", "gpu", "job"])).value
  {
    var names := ["checks", "log", "gpu", "job"];
    assert ChannelOf(names[1]) == Some(Log);
    assert Log in ChannelsFrom(ChannelNames(names)).value;
  }

  lemma SubscribeWorks(s: Session, client: Client, cursor: int, checks: seq<Event>, now: real)
    ensures var o := Handle(s, SubscribeAt(client, cursor), checks, now);
            && o.Served? && Log in o.session.channels && !o.session.logPaused
            && o.session.job == s.job && NoLog(o.frames)
            && o.session.logStreams == [StreamState(Stdout, client.out.cursor, None),
                                        StreamState(Stderr, client.err.cursor, None)]
  {
    SubscribedChannels();
    SubscribedStreams(client.out.cursor, client.err.cursor);
  }

  lemma OffsetsOfTwo(streams: seq<StreamState>)
    requires TwoStreams(streams)
    ensures OffsetOf(streams, Stdout) == streams[0].offset && OffsetOf(streams, Stderr) == streams[1].offset
  {
    assert streams[1..][0] == streams[1];
  }

  lemma ControlWorks(s: Session, m: Message, checks: seq<Event>, now: real)
    requires IsControl(m)
    ensures var o := Handle(s, m, checks, now);
            && o.Served? && NoLog(o.frames)
            && o.session.channels == s.channels && o.session.job == s.job && o.session.logStreams == s.logStreams
  {
  }

  /** A message moves no log frame: it leaves the chunks in flight as they are. */
  lemma QuietFrames(w: World, w': World, frames: seq<Frame>, stream: Stream)
    requires NoLog(frames) && w'.agentOut == w.agentOut + frames && w'.relayOut == w.relayOut
    ensures ChunksOf(stream, InFlight(w')) == ChunksOf(stream, InFlight(w))
  {
    assert InFlight(w') == InFlight(w) + frames;
    NoLogNoChunks(stream, frames);
    ChunksOfConcat(stream, InFlight(w), frames);
  }

  lemma HearKeeps(w: World, now: real)
    requires Inv(w) && Enabled(w, Hear(now))
    ensures Inv(Step(w, Hear(now)))
  {
    if w.session.value.channels == {} {
      HearSubscribe(w, now);
    } else {
      HearControl(w, now);
    }
  }

  lemma HearControl(w: World, now: real)
    requires Inv(w) && Enabled(w, Hear(now)) && w.session.value.channels != {}
    ensures Inv(Step(w, Hear(now)))
  {
    var o := Handle(w.session.value, w.uplink[0], w.store, now);
    ControlWorks(w.session.value, w.uplink[0], w.store, now);
    var w' := Step(w, Hear(now));
    QuietFrames(w, w', o.frames, Stdout);
    QuietFrames(w, w', o.frames, Stderr);
  }

  lemma HearSubscribe(w: World, now: real)
    requires Inv(w) && Enabled(w, Hear(now)) && w.session.value.channels == {}
    ensures Inv(Step(w, Hear(now)))
  {
    SubscribeWorks(w.session.value, w.client, w.uplink[0].checksCursor.value, w.store, now);
    var o := Handle(w.session.value, w.uplink[0], w.store, now);
    var w' := Step(w, Hear(now));
    QuietFrames(w, w', o.frames, Stdout);
    QuietFrames(w, w', o.frames, Stderr);
    OffsetsOfTwo(o.session.logStreams);
  }

  lemma TickStream(w: World, refresh: Refresh, stream: Stream)
    requires Inv(w) && Enabled(w, Tick(refresh)) && w.session.value.channels != {}
    ensures StreamOk(Step(w, Tick(refresh)), stream)
    ensures TwoStreams(Step(w, Tick(refresh)).session.value.logStreams)
  {
    var s := w.session.value;
    var s1 := RefreshJob(s, refresh).0;
    var w1 := w.(job := s1.job, session := Some(s1));
    assert StreamOk(w, stream);
    StreamRepathed(w, w1, stream);
    ServedStream(w1, s, refresh, w.store, stream);
  }

  /** A round served on the refreshed record `w1` of a subscribed session. */
  lemma ServedStream(w1: World, s: Session, refresh: Refresh, checks: seq<Event>, stream: Stream)
    requires s.channels != {} && TwoStreams(s.logStreams)
    requires w1.session == Some(RefreshJob(s, refresh).0) && w1.job == w1.session.value.job
    requires StreamOk(w1, stream)
    ensures var (s', frames) := Service(s, w1.fs, checks, refresh);
            && TwoStreams(s'.logStreams)
            && StreamOk(w1.(session := Some(s'), job := s'.job, agentOut := w1.agentOut + frames), stream)
  {
    var from, chunks := Of(w1.client, stream).cursor, ChunksOf(stream, InFlight(w1));
    ChainBounds(FileOf(w1, stream), from, chunks, OffsetOf(s.logStreams, stream));
    ServiceChains(s, w1.fs, checks, refresh, stream, from, chunks);
    var (s', frames) := Service(s, w1.fs, checks, refresh);
    Extended(w1, s', frames, stream);
  }

  /** Frames that continue a stream's chain to the session's new offset. */
  lemma Extended(w1: World, s': Session, frames: seq<Frame>, stream: Stream)
    requires StreamOk(w1, stream) && s'.channels != {} && s'.job == w1.job
    requires Chain(FileOf(w1, stream), Of(w1.client, stream).cursor,
                   ChunksOf(stream, InFlight(w1)) + ChunksOf(stream, frames), OffsetOf(s'.logStreams, stream))
    ensures StreamOk(w1.(session := Some(s'), job := s'.job, agentOut := w1.agentOut + frames), stream)
  {
    hide ClientOk, Content, LogPath;
    ChunksOfConcat(stream, InFlight(w1), frames);
    Associates(w1.relayOut, w1.agentOut, frames);
  }

  lemma TickKeeps(w: World, refresh: Refresh)
    requires Inv(w) && Enabled(w, Tick(refresh))
    ensures Inv(Step(w, Tick(refresh)))
  {
    if w.session.value.channels == {} {
      assert w.agentOut + [] == w.agentOut;
      assert Step(w, Tick(refresh)) == w;
    } else {
      TickStream(w, refresh, Stdout);
      TickStream(w, refresh, Stderr);
      ServiceJob(w.session.value, w.fs, w.store, refresh);
    }
  }

  lemma ServiceJob(s: Session, fs: FileSystem, checks: seq<Event>, refresh: Refresh)
    requires s.channels != {}
    ensures Service(s, fs, checks, refresh).0.channels == s.channels
  {
  }

  lemma HeadMoves(a: seq<Frame>, b: seq<Frame>)
    requires b != []
    ensures (a + [b[0]]) + b[1..] == a + b
  {
  }

  lemma RelayKeeps(w: World)
    requires Inv(w) && w.agentOut != []
    ensures Inv(Step(w, Relay))
  {
    var w' := Step(w, Relay);
    HeadMoves(w.relayOut, w.agentOut);
    StreamRepathed(w, w', Stdout);
    StreamRepathed(w, w', Stderr);
  }

  /** Applying the head of a chain keeps the page in step with the file. */
  lemma AppendKeeps(file: Bytes, s: ClientStream, chunks: seq<LogChunk>, to: nat)
    requires ClientOk(file, s) && chunks != [] && Chain(file, s.cursor, chunks, to)
    ensures ClientOk(file, AppendLog(s, chunks[0], false))
    ensures Chain(file, AppendLog(s, chunks[0], false).cursor, chunks[1..], to)
  {
    hide Decode;
    var c := chunks[0];
    var s' := AppendLog(s, c, false);
    EveryByteShows(file[c.offset..c.nextOffset]);
    if c.text == "" {
      assert c.nextOffset == s.cursor && s' == s;
    } else {
      forall i | 0 <= i < |s'.chunks| ensures PieceOk(file, s', i) {
        if i < |s.chunks| { assert PieceOk(file, s, i); }
      }
    }
  }

  /** What one frame does to one stream of the page. */
  lemma OnMessageStream(client: Client, f: Frame, stream: Stream)
    ensures Of(OnMessage(client, f), stream) ==
            if f.LogFrame? && !f.merged && f.stream == stream then AppendLog(Of(client, stream), f.chunk, false)
            else Of(client, stream)
  {
  }

  lemma DeliverStream(w: World, stream: Stream)
    requires Inv(w) && w.relayOut != []
    ensures StreamOk(Step(w, Deliver), stream)
  {
    var f, w' := w.relayOut[0], Step(w, Deliver);
    assert StreamOk(w, stream);
    OnMessageStream(w.client, f, stream);
    assert InFlight(w) == [f] + InFlight(w');
    ChunksOfConcat(stream, [f], InFlight(w'));
    ChunksOfOne(stream, f);
    if f.LogFrame? && !f.merged && f.stream == stream {
      var chunks := ChunksOf(stream, InFlight(w));
      assert chunks[0] == f.chunk && chunks[1..] == ChunksOf(stream, InFlight(w'));
      AppendKeeps(FileOf(w, stream), Of(w.client, stream), chunks, OffsetOf(w.session.value.logStreams, stream));
    } else {
      assert ChunksOf(stream, InFlight(w')) == ChunksOf(stream, InFlight(w));
    }
  }

  lemma DeliverKeeps(w: World)
    requires Inv(w) && w.relayOut != []
    ensures Inv(Step(w, Deliver))
  {
    DeliverStream(w, Stdout);
    DeliverStream(w, Stderr);
    if w.session.Some? && w.session.value.channels == {} {
      QuietBeforeSubscribe(w);
    }
  }

  /** Before the subscription is heard nothing in flight can move the page's cursors. */
  lemma QuietBeforeSubscribe(w: World)
    requires Inv(w) && w.relayOut != [] && w.session.Some? && w.session.value.channels == {}
    ensures var client := Step(w, Deliver).client; client.out == w.client.out && client.err == w.client.err
  {
    var f, stream := w.relayOut[0], if w.relayOut[0].LogFrame? then w.relayOut[0].stream else Stdout;
    assert InFlight(w)[0] == f && StreamOk(w, stream);
    assert ChunksOf(stream, InFlight(w)) == OwnChunk(stream, f) + ChunksOf(stream, InFlight(w)[1..]);
  }

  lemma StepKeeps(w: World, a: Action)
    requires Inv(w) && Enabled(w, a)
    ensures Inv(Step(w, a))
  {
    match a
    case Grow(path, more) => GrowKeeps(w, path, more);
    case Open(job) => OpenKeeps(w, job);
    case Record(_, _) =>
      var w' := Step(w, a);
      assert StreamOk(w', Stdout) && StreamOk(w', Stderr);
    case Say(m) =>
      var w' := Step(w, a);
      assert InFlight(w') == InFlight(w);
    case Hear(now) => HearKeeps(w, now);
    case Tick(refresh) => TickKeeps(w, refresh);
    case Relay => RelayKeeps(w);
    case Deliver => DeliverKeeps(w);
    case Drop =>
      var w' := Step(w, a);
      assert FileOf(w', Stdout) == FileOf(w, Stdout) && FileOf(w', Stderr) == FileOf(w, Stderr);
  }

  /** In every run, at every moment: the page holds exactly the file up to its cursor, in order. */
  lemma {:induction false} RunKeeps(w: World, actions: seq<Action>)
    requires Inv(w) && IsRun(w, actions)
    ensures Inv(After(w, actions))
    decreases |actions|
  {
    if actions != [] {
      StepKeeps(w, actions[0]);
      RunKeeps(Step(w, actions[0]), actions[1..]);
    }
  }

  // ---- Main results -----------------------------------------------------------------------------

  /** The bytes behind the chunks the page was fed. */
  function Pieces(file: Bytes, s: ClientStream): seq<Bytes> {
    seq(|s.chunks|, i requires 0 <= i < |s.chunks| =>
      if i + 1 < |s.cuts| && s.cuts[i] <= s.cuts[i + 1] <= |file| then file[s.cuts[i]..s.cuts[i + 1]] else [])
  }

  lemma {:induction false} PiecesAreFile(file: Bytes, s: ClientStream, n: nat)
    requires ClientOk(file, s) && n <= |s.chunks|
    ensures s.cuts[n] <= |file| && Flatten(Pieces(file, s)[..n]) == file[..s.cuts[n]]
  {
    if n > 0 {
      PiecesAreFile(file, s, n - 1);
      assert PieceOk(file, s, n - 1);
      FlattenNext(Pieces(file, s), n - 1);
      assert file[..s.cuts[n - 1]] + file[s.cuts[n - 1]..s.cuts[n]] == file[..s.cuts[n]];
    }
  }

  lemma {:induction false} PiecesAreText(file: Bytes, s: ClientStream, n: nat)
    requires ClientOk(file, s) && n <= |s.chunks|
    ensures DecodeChunks(Pieces(file, s)[..n]) == Flatten(s.chunks[..n])
  {
    hide Decode;
    if n > 0 {
      PiecesAreText(file, s, n - 1);
      assert PieceOk(file, s, n - 1);
      FlattenNext(s.chunks, n - 1);
      assert Init(Pieces(file, s)[..n]) == Pieces(file, s)[..n - 1];
    }
  }

  lemma FlattenNext<T>(parts: seq<seq<T>>, k: nat)
    requires k < |parts|
    ensures Flatten(parts[..k + 1]) == Flatten(parts[..k]) + parts[k]
  {
    assert parts[..k + 1] == parts[..k] + [parts[k]];
    FlattenConcat(parts[..k], [parts[k]]);
    assert Flatten([parts[k]]) == parts[k] + Flatten([parts[k]][1..]);
  }

  /** All of a page's chunks, as bytes and as text. */
  lemma ClientHolds(file: Bytes, s: ClientStream)
    requires ClientOk(file, s)
    ensures Flatten(Pieces(file, s)) == file[..s.cursor]
    ensures DecodeChunks(Pieces(file, s)) == Flatten(s.chunks)
    ensures forall i | 0 <= i < |s.chunks| :: s.chunks[i] == Decode(Pieces(file, s)[i])
  {
    var n := |s.chunks|;
    PiecesAreFile(file, s, n);
    PiecesAreText(file, s, n);
    assert Pieces(file, s)[..n] == Pieces(file, s) && s.chunks[..n] == s.chunks;
    forall i | 0 <= i < n ensures s.chunks[i] == Decode(Pieces(file, s)[i]) {
      assert PieceOk(file, s, i);
    }
  }

  /**
   Lossless resume. After any run of growth, service rounds, pauses, lost connections and
   reconnections, the chunks of either stream stand for exactly the bytes of the file up to the
   cursor, and the frames in flight continue from the cursor to the session's offset.
   */
  lemma LosslessResume(w0: World, actions: seq<Action>, stream: Stream)
    requires Initial(w0) && IsRun(w0, actions)
    ensures var w := After(w0, actions);
            var file, s := FileOf(w, stream), Of(w.client, stream);
            && s.cursor <= |file| && Flatten(Pieces(file, s)) == file[..s.cursor]
            && |Pieces(file, s)| == |s.chunks|
            && (forall i | 0 <= i < |s.chunks| :: s.chunks[i] == Decode(Pieces(file, s)[i]))
            && (w.session.Some? && w.session.value.channels != {} ==>
                  var offset := OffsetOf(w.session.value.logStreams, stream);
                  s.cursor <= offset <= |file|
                  && Flatten(Slices(file, ChunksOf(stream, InFlight(w)))) == file[s.cursor..offset])
  {
    InitialInv(w0);
    RunKeeps(w0, actions);
    var w := After(w0, actions);
    ClientHolds(FileOf(w, stream), Of(w.client, stream));
    if w.session.Some? && w.session.value.channels != {} {
      ChainIsContiguous(FileOf(w, stream), Of(w.client, stream).cursor, ChunksOf(stream, InFlight(w)),
                        OffsetOf(w.session.value.logStreams, stream));
    }
  }

  /** In a run of a job with two output files each stream of the page holds its own file up to its cursor. */
  lemma StreamsHoldOwnFiles(w0: World, actions: seq<Action>, stream: Stream)
    requires Initial(w0) && IsRun(w0, actions)
    requires var job := After(w0, actions).job;
             job.stdoutExpanded != "" && job.stderrExpanded != "" && OwnPath(job, stream) in After(w0, actions).fs.files
    ensures var w := After(w0, actions); var s := Of(w.client, stream);
            var file := w.fs.files[OwnPath(w.job, stream)];
            s.cursor <= |file| && Flatten(Pieces(file, s)) == file[..s.cursor]
  {
    LosslessResume(w0, actions, stream);
  }

  /**
   The page's text is the decoded file up to its cursor exactly when no chunk begins inside a
   character; a chunk that does leaves replacement characters behind.
   */
  lemma TextExact(w0: World, actions: seq<Action>, stream: Stream)
    requires Initial(w0) && IsRun(w0, actions)
    ensures var w := After(w0, actions);
            var file, s := FileOf(w, stream), Of(w.client, stream);
            s.cursor <= |file|
            && (Flatten(s.chunks) == Decode(file[..s.cursor]) <==> CutsBetweenCharacters(Pieces(file, s)))
  {
    RunKeepsClient(w0, actions, stream);
    var w := After(w0, actions);
    ClientHolds(FileOf(w, stream), Of(w.client, stream));
    Reassembly(Pieces(FileOf(w, stream), Of(w.client, stream)));
  }

  lemma RunKeepsClient(w0: World, actions: seq<Action>, stream: Stream)
    requires Initial(w0) && IsRun(w0, actions)
    ensures ClientOk(FileOf(After(w0, actions), stream), Of(After(w0, actions).client, stream))
  {
    InitialInv(w0);
    RunKeeps(w0, actions);
    assert StreamOk(After(w0, actions), stream);
  }

  /** Once everything sent has arrived and the session has reached the end, the page has the whole file. */
  lemma CaughtUp(w0: World, actions: seq<Action>, stream: Stream)
    requires Initial(w0) && IsRun(w0, actions)
    requires var w := After(w0, actions);
             && w.session.Some? && w.session.value.channels != {} && InFlight(w) == []
             && OffsetOf(w.session.value.logStreams, stream) == |FileOf(w, stream)|
    ensures var w := After(w0, actions);
            Flatten(Pieces(FileOf(w, stream), Of(w.client, stream))) == FileOf(w, stream)
  {
    LosslessResume(w0, actions, stream);
    var w := After(w0, actions);
    assert Slices(FileOf(w, stream), []) == [];
    var file := FileOf(w, stream);
    assert file[..|file|] == file;
  }

  // ---- When a changed path is harmless ---------------------------------------------------------------

  /** The world with another job record, as a refresh or a reconnection takes it over. */
  function WithJob(w: World, job: JobData): World {
    w.(job := job, session := if w.session.Some? then Some(w.session.value.(job := job)) else None)
  }

  /** Both files have this range, and it decodes alike. */
  predicate SameText(a: Bytes, b: Bytes, from: nat, to: nat) {
    from <= to <= |a| && to <= |b| && Decode(a[from..to]) == Decode(b[from..to])
  }

  predicate PieceCarried(a: Bytes, b: Bytes, s: ClientStream, i: nat)
    requires i + 1 < |s.cuts|
  {
    SameText(a, b, s.cuts[i], s.cuts[i + 1])
  }

  /** Every range of file `a` that the page was fed, or that is in flight, reads the same in file `b`. */
  ghost predicate Carried(w: World, stream: Stream, a: Bytes, b: Bytes) {
    var s := Of(w.client, stream);
    && (forall i | 0 <= i < |s.cuts| - 1 :: PieceCarried(a, b, s, i))
    && (forall c | c in ChunksOf(stream, InFlight(w)) :: SameText(a, b, c.offset, c.nextOffset))
  }

  lemma ClientCarried(a: Bytes, b: Bytes, s: ClientStream)
    requires ClientOk(a, s)
    ensures ClientOk(b, s) <==> forall i | 0 <= i < |s.cuts| - 1 :: PieceCarried(a, b, s, i)
  {
    hide Decode;
    forall i | 0 <= i < |s.chunks| ensures PieceOk(b, s, i) <==> PieceCarried(a, b, s, i) {
      assert PieceOk(a, s, i);
    }
    if forall i | 0 <= i < |s.cuts| - 1 :: PieceCarried(a, b, s, i) {
      if s.chunks != [] { assert PieceCarried(a, b, s, |s.chunks| - 1); }
    } else {
      var i :| 0 <= i < |s.cuts| - 1 && !PieceCarried(a, b, s, i);
      assert !PieceOk(b, s, i);
    }
  }

  lemma {:induction false} ChainCarried(a: Bytes, b: Bytes, from: nat, chunks: seq<LogChunk>, to: nat)
    requires Chain(a, from, chunks, to)
    ensures Chain(b, from, chunks, to) <==> forall c | c in chunks :: SameText(a, b, c.offset, c.nextOffset)
    decreases |chunks|
  {
    hide Decode;
    if chunks != [] {
      ChainCarried(a, b, chunks[0].nextOffset, chunks[1..], to);
      assert chunks == [chunks[0]] + chunks[1..];
    }
  }

  /**
   A new job record, in any state of any run, keeps a stream in step exactly if the new path's file
   reads like the old one wherever the page or the frames in flight have read it.
   */
  lemma PathChangeExactly(w: World, job: JobData, stream: Stream)
    requires Inv(w)
    ensures StreamOk(WithJob(w, job), stream) <==>
              Carried(w, stream, FileOf(w, stream), FileOf(WithJob(w, job), stream))
  {
    hide Decode, SameText;
    var a, b, s := FileOf(w, stream), FileOf(WithJob(w, job), stream), Of(w.client, stream);
    assert StreamOk(w, stream);
    ClientCarried(a, b, s);
    if w.session.Some? && w.session.value.channels != {} {
      ChainCarried(a, b, s.cursor, ChunksOf(stream, InFlight(w)), OffsetOf(w.session.value.logStreams, stream));
    } else {
      assert ChunksOf(stream, InFlight(w)) == [];
    }
  }

  /** A path that gets lost is harmless exactly if nothing of the stream has been counted yet. */
  lemma LostPathExactly(w: World, job: JobData, stream: Stream)
    requires Inv(w) && LogPath(job, stream) == ""
    ensures StreamOk(WithJob(w, job), stream) <==> !Progress(w, stream)
  {
    var w' := WithJob(w, job);
    assert StreamOk(w, stream);
    if StreamOk(w', stream) {
      if w.session.Some? && w.session.value.channels != {} {
        ChainBounds([], Of(w.client, stream).cursor, ChunksOf(stream, InFlight(w)),
                    OffsetOf(w.session.value.logStreams, stream));
      } else if w.session.Some? {
        assert OffsetOf(w.session.value.logStreams[1..], stream) == 0;
      }
    } else if !Progress(w, stream) {
      StreamRepathed(w, w', stream);
    }
  }

  /**
   Why a path must stay known: a page that has the whole file is sent back to byte 0 by a round that
   does not know the path, without clearing what it shows, and is then fed the same bytes again.
   */
  lemma LostPathRepeats(fs: FileSystem, known: JobData, lost: JobData, st: StreamState, s: ClientStream)
    requires var path := LogPath(known, st.name);
             && Reads(fs, known, st.name, path) && path in fs.files && fs.files[path] != []
             && ClientOk(fs.files[path], s) && s.cursor == st.offset == |fs.files[path]| && st.path == Some(path)
    requires LogPath(lost, st.name) == "" && !IsMerged(lost, st.name)
    ensures var file := fs.files[LogPath(known, st.name)];
            var p1 := PushStream(fs, lost, st);
            var p2 := PushStream(fs, known, p1.state);
            && |p1.frames| == 1 == |p2.frames| && p1.frames[0].LogFrame? && p2.frames[0].LogFrame?
            && var s1 := AppendLog(s, p1.frames[0].chunk, false);
               var s2 := AppendLog(s1, p2.frames[0].chunk, false);
               s1.cursor == 0 && s1.chunks == s.chunks
               && s2.chunks == s.chunks + [Decode(file[..Min(LOG_LIMIT, |file|)])] && !ClientOk(file, s2)
  {
    var file := fs.files[LogPath(known, st.name)];
    var p1 := PushStream(fs, lost, st);
    assert p1.state.offset == 0;
    PushStreamSlices(fs, known, p1.state);
    var p2 := PushStream(fs, known, p1.state);
    var c2 := p2.frames[0].chunk;
    EveryByteShows(file[c2.offset..c2.nextOffset]);
    var s1 := AppendLog(s, p1.frames[0].chunk, false);
    var s2 := AppendLog(s1, c2, false);
    assert !PieceOk(file, s2, |s.chunks|);
    assert file[0..c2.nextOffset] == file[..c2.nextOffset];
  }

  // ---- Truncated files ----------------------------------------------------------------------------

  /** The page's stream after these chunks, in order. */
  function Received(s: ClientStream, chunks: seq<LogChunk>): ClientStream
    decreases |chunks|
  {
    if chunks == [] then s else Received(AppendLog(s, chunks[0], false), chunks[1..])
  }

  lemma {:induction false} ReceivesChain(file: Bytes, s: ClientStream, chunks: seq<LogChunk>, to: nat)
    requires ClientOk(file, s) && Chain(file, s.cursor, chunks, to)
    ensures ClientOk(file, Received(s, chunks)) && Received(s, chunks).cursor == to
    decreases |chunks|
  {
    if chunks != [] {
      AppendKeeps(file, s, chunks, to);
      ReceivesChain(file, AppendLog(s, chunks[0], false), chunks[1..], to);
    }
  }

  lemma RotatedStartsOver(s: ClientStream, c: LogChunk)
    requires c.rotated
    ensures AppendLog(s, c, false) == AppendLog(Nothing, c.(rotated := false), false)
  {
  }

  /**
   A file cut below the session's cursor and growing again: whatever the page held before, after the
   chunks that follow it holds exactly the new file up to the session's offset.
   */
  lemma PageAfterTruncation(
    fs: FileSystem, job: JobData, path: string, st: StreamState, files: seq<Bytes>, s: ClientStream)
    requires Reads(fs, job, st.name, path) && files != [] && Growing(files) && st.offset > |files[0]|
    ensures var (end, sent) := Rounds(fs, job, path, st, files);
            var r := Received(s, sent);
            && r.cursor == end.offset <= |Last(files)|
            && Flatten(Pieces(Last(files), r)) == Last(files)[..end.offset]
            && forall i | 0 <= i < |r.chunks| :: r.chunks[i] == Decode(Pieces(Last(files), r)[i])
  {
    TruncationChain(fs, job, path, st, files);
    var (end, sent) := Rounds(fs, job, path, st, files);
    var unmarked := Unmark(sent);
    RotatedStartsOver(s, sent[0]);
    assert unmarked[0] == sent[0].(rotated := false) && unmarked[1..] == sent[1..];
    ReceivesChain(Last(files), Nothing, unmarked, end.offset);
    ClientHolds(Last(files), Received(s, sent));
  }

  /** The page's own bookkeeping, whatever the chunks came from. */
  ghost predicate Shape(s: ClientStream) { |s.cuts| == |s.chunks| + 1 && Last(s.cuts) == s.cursor }

  /** A slice that continues at the cursor leaves the page in step exactly if it was in step before. */
  lemma SliceAppliedExactly(file: Bytes, s: ClientStream, c: LogChunk)
    requires Shape(s) && !c.rotated && c.offset == s.cursor && IsSlice(file, c)
    ensures ClientOk(file, AppendLog(s, c, false)) <==> ClientOk(file, s)
    ensures Shape(AppendLog(s, c, false))
  {
    hide Decode;
    var s' := AppendLog(s, c, false);
    EveryByteShows(file[c.offset..c.nextOffset]);
    if c.text == "" {
      assert s' == s;
    } else if ClientOk(file, s') {
      forall i | 0 <= i < |s.chunks| ensures PieceOk(file, s, i) { assert PieceOk(file, s', i); }
    } else if ClientOk(file, s) {
      forall i | 0 <= i < |s'.chunks| ensures PieceOk(file, s', i) {
        if i < |s.chunks| { assert PieceOk(file, s, i); }
      }
    }
  }

  /**
   A file replaced between two rounds. The page is in step with the new file after the next round
   exactly if that file is shorter than the cursor, so that a rotated frame is sent, or if what the
   page shows of the old one can be read from the new one as well.
   */
  lemma ReplacedBetweenRounds(
    fs: FileSystem, job: JobData, path: string, st: StreamState, before: Bytes, file: Bytes, s: ClientStream)
    requires Reads(fs, job, st.name, path) && ClientOk(before, s) && s.cursor == st.offset
    ensures var r := Received(s, ChunksOf(st.name, PushStream(Holding(fs, path, file), job, st).frames));
            ClientOk(file, r) <==> |file| < st.offset || ClientOk(file, s)
  {
    var p := PushStream(Holding(fs, path, file), job, st);
    var sent := ChunksOf(st.name, p.frames);
    if st.offset > |file| {
      PushAfterTruncation(fs, job, path, st, file);
      RotatedStartsOver(s, sent[0]);
      assert sent[1..] == [];
      ReceivesChain(file, Nothing, [sent[0].(rotated := false)], p.state.offset);
    } else {
      PushStreamSlices(Holding(fs, path, file), job, st);
      if p.frames != [] {
        ChunksOfOne(st.name, p.frames[0]);
        assert p.frames == [p.frames[0]] && sent[1..] == [];
        SliceAppliedExactly(file, s, sent[0]);
      }
    }
  }

  /** The input that fails: "a" was shown, the file now holds "bb", and the page continues with its second byte. */
  lemma RegrownFileJoins(fs: FileSystem, job: JobData, path: string)
    requires Reads(fs, job, Stdout, path)
    ensures var s, st := ClientStream(1, ["a"], [0, 1]), StreamState(Stdout, 1, Some(path));
            var r := Received(s, ChunksOf(Stdout, PushStream(Holding(fs, path, [98, 98]), job, st).frames));
            ClientOk([97], s) && !ClientOk([98, 98], r)
  {
    var s, st := ClientStream(1, ["a"], [0, 1]), StreamState(Stdout, 1, Some(path));
    var a: Bytes, b: Bytes := [97], [98];
    var bb: Bytes := [98, 98];
    assert a[0..1] == a && bb[0..1] == b && a[1..] == [] == b[1..];
    assert Decode(a) == [Unit(a)] + Decode(a[1..]) == "a" && Decode(b) == [Unit(b)] + Decode(b[1..]) == "b";
    assert "a"[0] != "b"[0];
    assert PieceOk(a, s, 0) && !PieceOk(bb, s, 0);
    ReplacedBetweenRounds(fs, job, path, st, [97], [98, 98], s);
  }
}
