/**
 The agent's side of the job live session: what one read of a log file reports, how client messages
 move the cursors, and which frames one service round sends.
 */
module LiveSession {
  import opened Seqs
  import opened Utf8
  import opened JobFiles
  import opened CheckEvents

  const LOG_LIMIT: nat := 131072
  const CLOSE_BAD_REQUEST: nat := 4400
  const FORBIDDEN: nat := 403

  datatype LogChunk = LogChunk(
    path: string, text: string, offset: nat, nextOffset: nat, size: Option<nat>, rotated: bool, waiting: bool)

  datatype ReadResult = Chunk(chunk: LogChunk) | HttpError(code: nat)

  datatype Channel = Checks | Log | Gpu | Job

  /** Frames to the browser; frames of the gpu and job channels are not modelled. */
  datatype Frame =
    | LogFrame(stream: Stream, chunk: LogChunk, merged: bool)
    | ErrorFrame(code: nat)
    | ChecksFrame(snapshot: Snapshot)
    | CheckFrame(event: Event)
    | SubscribedFrame(channels: set<Channel>, checksCursor: int, offsets: seq<(Stream, nat)>)
    | PongFrame

  /** Cursor of one output stream; `path` is the path last reported to the client. */
  datatype StreamState = StreamState(name: Stream, offset: nat, path: Option<string>)

  datatype Session = Session(
    channels: set<Channel>, checksCursor: int, logStreams: seq<StreamState>, logPaused: bool, job: JobData)

  const MERGED: string := "merged"

  // ---- Reading one chunk ------------------------------------------------------------------

  /** `_read_log_chunk`: the next bytes of a stream's file, or why there are none. */
  function ReadLogChunk(fs: FileSystem, job: JobData, stream: Stream, offset: nat, limit: nat): ReadResult {
    var path := LogPath(job, stream);
    if path == "" then Chunk(LogChunk("", "", 0, 0, None, false, true))
    else if path !in fs.managed then HttpError(FORBIDDEN)
    else if path !in fs.files then Chunk(LogChunk(path, "", offset, offset, None, false, true))
    else
      var file := fs.files[path];
      var rotated := offset > |file|;
      var from := if rotated then 0 else offset;
      var to := Min(from + limit, |file|);
      Chunk(LogChunk(path, Decode(file[from..to]), from, to, Some(|file|), rotated, job.running))
  }

  // ---- Pushing the log channel ------------------------------------------------------------

  predicate IsMerged(job: JobData, stream: Stream) {
    && stream == Stderr && LogPath(job, Stdout) != ""
    && LogPath(job, Stderr) == LogPath(job, Stdout)
  }

  /** New state of a stream, the frames sent for it, and whether the loop may go on. */
  datatype Pushed = Pushed(state: StreamState, frames: seq<Frame>, ok: bool)

  function PushStream(fs: FileSystem, job: JobData, st: StreamState): Pushed {
    if IsMerged(job, st.name) then
      if st.path == Some(MERGED) then Pushed(st, [], true)
      else
        var chunk := LogChunk(LogPath(job, Stdout), "", 0, 0, None, false, false);
        Pushed(st.(path := Some(MERGED)), [LogFrame(st.name, chunk, true)], true)
    else
      match ReadLogChunk(fs, job, st.name, st.offset, LOG_LIMIT)
      case HttpError(code) => Pushed(st, [ErrorFrame(code)], false)
      case Chunk(c) =>
        if c.text == "" && !c.rotated && st.path == Some(c.path) then Pushed(st, [], true)
        else Pushed(st.(path := Some(c.path), offset := c.nextOffset), [LogFrame(st.name, c, false)], true)
  }

  /** Streams are served in subscription order; an error ends the round and pauses the channel. */
  function PushStreams(fs: FileSystem, job: JobData, streams: seq<StreamState>): (seq<StreamState>, seq<Frame>, bool)
  {
    if streams == [] then ([], [], true)
    else
      var p := PushStream(fs, job, streams[0]);
      if !p.ok then ([p.state] + streams[1..], p.frames, false)
      else
        var (rest, frames, ok) := PushStreams(fs, job, streams[1..]);
        ([p.state] + rest, p.frames + frames, ok)
  }

  function PushLog(s: Session, fs: FileSystem): (Session, seq<Frame>) {
    var (streams, frames, ok) := PushStreams(fs, s.job, s.logStreams);
    (s.(logStreams := streams, logPaused := s.logPaused || !ok), frames)
  }

  // ---- Client messages --------------------------------------------------------------------

  /** A JSON value where an integer is expected; None when it cannot be read as one. */
  type RawInt = Option<int>

  datatype LogRequest =
    | StreamOffsets(entries: seq<(string, RawInt)>)
    | NotAMapping
    | SingleStream(stream: string, offset: RawInt)

  datatype ChannelRequest = AllChannels | ChannelNames(names: seq<string>) | NotAList

  datatype Message =
    | Subscribe(channels: ChannelRequest, checksCursor: RawInt, log: LogRequest)
    | LogRequested(log: LogRequest)
    | Pause(channel: string)
    | Resume(channel: string)
    | Ping
    | Auth
    | Unknown(kind: string)

  datatype Outcome = Served(session: Session, frames: seq<Frame>) | Rejected(code: nat)

  function CoerceOffset(value: RawInt): Option<nat> {
    if value.None? then None else Some(if value.value < 0 then 0 else value.value)
  }

  function StreamOf(name: string): Option<Stream> {
    if name == "stdout" then Some(Stdout) else if name == "stderr" then Some(Stderr) else None
  }

  function ChannelOf(name: string): Option<Channel> {
    match name
    case "checks" => Some(Checks)
    case "log" => Some(Log)
    case "gpu" => Some(Gpu)
    case "job" => Some(Job)
    case _ => None
  }

  function ParseStreams(entries: seq<(string, RawInt)>): Option<seq<StreamState>> {
    if entries == [] then Some([])
    else
      var stream, offset := StreamOf(entries[0].0), CoerceOffset(entries[0].1);
      if stream.None? || offset.None? then None
      else
        var rest := ParseStreams(entries[1..]);
        if rest.None? then None else Some([StreamState(stream.value, offset.value, None)] + rest.value)
  }

  /** `_log_streams_from`: one cursor per requested stream, or None for a protocol error. */
  function LogStreamsFrom(request: LogRequest): Option<seq<StreamState>> {
    match request
    case NotAMapping => None
    case SingleStream(stream, offset) => ParseStreams([(stream, offset)])
    case StreamOffsets(entries) => if entries == [] then None else ParseStreams(entries)
  }

  const ALL_CHANNELS: set<Channel> := {Checks, Log, Gpu, Job}

  /** No channels asked for, or none in the list, means all of them. */
  function ChannelsFrom(request: ChannelRequest): Option<set<Channel>> {
    match request
    case AllChannels => Some(ALL_CHANNELS)
    case NotAList => None
    case ChannelNames(names) =>
      if names == [] then Some(ALL_CHANNELS)
      else if exists i | 0 <= i < |names| :: ChannelOf(names[i]).None? then None
      else Some(set i | 0 <= i < |names| :: ChannelOf(names[i]).value)
  }

  function OffsetsOf(streams: seq<StreamState>): seq<(Stream, nat)> {
    MapSeq((st: StreamState) => (st.name, st.offset), streams)
  }

  function SubscribeTo(s: Session, m: Message, store: seq<Event>, now: real): Outcome
    requires m.Subscribe?
  {
    var channels, cursor, streams := ChannelsFrom(m.channels), CoerceOffset(m.checksCursor), LogStreamsFrom(m.log);
    if channels.None? || cursor.None? || streams.None? then Rejected(CLOSE_BAD_REQUEST)
    else
      var snapshot := SnapshotOf(store, now);
      var checks := Checks in channels.value;
      var cursor' := if checks then Max(cursor.value, snapshot.cursor) else cursor.value;
      Served(s.(channels := channels.value, checksCursor := cursor', logStreams := streams.value, logPaused := false),
             (if checks then [ChecksFrame(snapshot)] else [])
             + [SubscribedFrame(channels.value, cursor', OffsetsOf(streams.value))])
  }

  function Handle(s: Session, m: Message, store: seq<Event>, now: real): Outcome {
    match m
    case Subscribe(_, _, _) => SubscribeTo(s, m, store, now)
    case LogRequested(log) =>
      var streams := LogStreamsFrom(log);
      if streams.None? then Rejected(CLOSE_BAD_REQUEST)
      else Served(s.(logStreams := streams.value, logPaused := false, channels := s.channels + {Log}), [])
    case Pause(channel) => Served(if channel == "log" then s.(logPaused := true) else s, [])
    case Resume(channel) => Served(if channel == "log" then s.(logPaused := false) else s, [])
    case Ping => Served(s, [PongFrame])
    case Auth => Served(s, [])
    case Unknown(_) => Rejected(CLOSE_BAD_REQUEST)
  }

  // ---- One service round ------------------------------------------------------------------

  /** Result of asking Slurm for the job again, when a refresh is due. */
  datatype Refresh = NotDue | Refreshed(job: JobData) | RefreshFailed(code: nat)

  function CheckFrames(events: seq<Event>): seq<Frame> {
    MapSeq((e: Event) => CheckFrame(e), events)
  }

  function PushChecks(s: Session, store: seq<Event>): (Session, seq<Frame>) {
    var (cursor, sent) := Push(JobCheckEvents(store), s.checksCursor);
    (s.(checksCursor := cursor), CheckFrames(sent))
  }

  function RefreshJob(s: Session, refresh: Refresh): (Session, seq<Frame>) {
    match refresh
    case NotDue => (s, [])
    case Refreshed(job) => (s.(job := job), [])
    case RefreshFailed(code) => (s, [ErrorFrame(code)])
  }

  function ServeChecks(s: Session, store: seq<Event>): (Session, seq<Frame>) {
    if Checks in s.channels then PushChecks(s, store) else (s, [])
  }

  function ServeLog(s: Session, fs: FileSystem): (Session, seq<Frame>) {
    if Log in s.channels && !s.logPaused then PushLog(s, fs) else (s, [])
  }

  function Service(s: Session, fs: FileSystem, store: seq<Event>, refresh: Refresh): (Session, seq<Frame>) {
    if s.channels == {} then (s, [])
    else
      var (s1, f1) := RefreshJob(s, refresh);
      var (s2, f2) := ServeChecks(s1, store);
      var (s3, f3) := ServeLog(s2, fs);
      (s3, f1 + f2 + f3)
  }

  // ---- What one push of a stream means ------------------------------------------------------

  /** A log frame is an exact slice of the stream's file, at most LOG_LIMIT bytes long. */
  ghost predicate IsSlice(file: Bytes, c: LogChunk) {
    && c.offset <= c.nextOffset <= |file| && c.nextOffset - c.offset <= LOG_LIMIT
    && c.text == Decode(file[c.offset..c.nextOffset])
  }

  /** Every unmerged frame, subscribed mid-session or not, is an exact slice of the file read. */
  lemma PushStreamSlices(fs: FileSystem, job: JobData, st: StreamState)
    requires LogPath(job, st.name) in fs.files && LogPath(job, st.name) != ""
    requires !IsMerged(job, st.name) && LogPath(job, st.name) in fs.managed
    ensures var file := Content(fs, LogPath(job, st.name));
            var p := PushStream(fs, job, st);
            var from := if st.offset > |file| then 0 else st.offset;
            && p.ok && p.state.offset == Min(from + LOG_LIMIT, |file|)
            && p.state.path == Some(LogPath(job, st.name))
            && (p.frames == [] <==> st.offset == |file| && st.path == Some(LogPath(job, st.name)))
            && (p.frames == [] ==> p.state == st)
            && (p.frames != [] ==>
                  && |p.frames| == 1 && p.frames[0].LogFrame? && !p.frames[0].merged
                  && p.frames[0].stream == st.name
                  && var c := p.frames[0].chunk;
                     && c.offset == from && c.nextOffset == p.state.offset && IsSlice(file, c)
                     && (c.rotated <==> st.offset > |file|))
  {
    var file := Content(fs, LogPath(job, st.name));
    var from := if st.offset > |file| then 0 else st.offset;
    EveryByteShows(file[from..Min(from + LOG_LIMIT, |file|)]);
  }

  /** Where a stream of a job with two output files is written. */
  function OwnPath(job: JobData, stream: Stream): string {
    if stream == Stderr then job.stderrExpanded else job.stdoutExpanded
  }

  /** A job with an error file of its own: each stream's frames are cut from the stream's own file. */
  lemma StreamsApart(fs: FileSystem, job: JobData, st: StreamState)
    requires job.stdoutExpanded != "" && job.stderrExpanded != "" && job.stderrExpanded != job.stdoutExpanded
    requires OwnPath(job, st.name) in fs.managed && OwnPath(job, st.name) in fs.files
    ensures var p := PushStream(fs, job, st);
            p.ok && forall f | f in p.frames ::
              f.LogFrame? && !f.merged && f.stream == st.name && f.chunk.path == OwnPath(job, st.name)
              && IsSlice(fs.files[OwnPath(job, st.name)], f.chunk)
  {
    PushStreamSlices(fs, job, st);
  }

  /** Without one, stderr is announced once as merged and sends no bytes; stdout is read as ever. */
  lemma StreamsTogether(fs: FileSystem, job: JobData, st: StreamState)
    requires job.stdoutExpanded != "" && (job.stderrExpanded == "" || job.stderrExpanded == job.stdoutExpanded)
    requires job.stdoutExpanded in fs.managed && job.stdoutExpanded in fs.files
    ensures var p := PushStream(fs, job, st);
            && p.ok
            && (st.name == Stdout ==> forall f | f in p.frames ::
                  f.LogFrame? && !f.merged && f.stream == Stdout && IsSlice(fs.files[job.stdoutExpanded], f.chunk))
            && (st.name == Stderr ==>
                  && (p.frames == [] <==> st.path == Some("merged")) && p.state.path == Some("merged")
                  && p.state.offset == st.offset
                  && forall f | f in p.frames :: f.LogFrame? && f.merged && f.stream == Stderr && f.chunk.text == "")
  {
    if st.name == Stdout { PushStreamSlices(fs, job, st); }
  }

  // ---- What one read reports ------------------------------------------------------------------------

  /**
   A read of a stream. Refused exactly for a known path outside the managed roots; otherwise it tells the path,
   the size exactly if there is a file, and that there is more to come as long as there is none or the job runs.
   */
  lemma ReadReports(fs: FileSystem, job: JobData, stream: Stream, offset: nat, limit: nat)
    ensures var path, r := LogPath(job, stream), ReadLogChunk(fs, job, stream, offset, limit);
            && (r.HttpError? <==> path != "" && path !in fs.managed) && (r.HttpError? ==> r.code == 403)
            && (r.Chunk? ==>
                  && r.chunk.path == path
                  && (r.chunk.size.Some? <==> path != "" && path in fs.files)
                  && (r.chunk.size.Some? ==> r.chunk.size.value == |fs.files[path]|)
                  && (r.chunk.waiting <==> r.chunk.size.None? || job.running)
                  && (r.chunk.rotated <==> r.chunk.size.Some? && offset > r.chunk.size.value))
  {
  }

  // ---- What pauses the log --------------------------------------------------------------------------

  /** The agent may not read this stream's file. */
  predicate Refused(fs: FileSystem, job: JobData, stream: Stream) {
    !IsMerged(job, stream) && LogPath(job, stream) != "" && LogPath(job, stream) !in fs.managed
  }

  lemma PushRefused(fs: FileSystem, job: JobData, st: StreamState)
    ensures var p := PushStream(fs, job, st);
            && (p.ok <==> !Refused(fs, job, st.name)) && (!p.ok ==> p.frames == [ErrorFrame(403)])
            && (p.ok ==> forall i | 0 <= i < |p.frames| :: !p.frames[i].ErrorFrame?)
  {
    ReadReports(fs, job, st.name, st.offset, LOG_LIMIT);
    hide ReadLogChunk, LogPath;
  }

  lemma {:induction false} PushStreamsRefused(fs: FileSystem, job: JobData, streams: seq<StreamState>)
    ensures var (_, frames, ok) := PushStreams(fs, job, streams);
            && (ok <==> forall i | 0 <= i < |streams| :: !Refused(fs, job, streams[i].name))
            && (!ok ==> frames != [] && Last(frames) == ErrorFrame(403))
            && (ok ==> forall i | 0 <= i < |frames| :: !frames[i].ErrorFrame?)
    decreases |streams|
  {
    if streams != [] {
      PushRefused(fs, job, streams[0]);
      hide PushStream, Refused;
      PushStreamsRefused(fs, job, streams[1..]);
      assert streams == [streams[0]] + streams[1..];
    }
  }

  /**
   A round over the log pauses it exactly if one of its streams may not be read; it then ends with that error,
   and the checks and the job record are untouched.
   */
  lemma ErrorPauses(s: Session, fs: FileSystem)
    requires Log in s.channels && !s.logPaused
    ensures var (s', frames) := ServeLog(s, fs);
            && (s'.logPaused <==> exists i | 0 <= i < |s.logStreams| :: Refused(fs, s.job, s.logStreams[i].name))
            && (s'.logPaused ==> frames != [] && Last(frames) == ErrorFrame(403))
            && s' == s.(logStreams := s'.logStreams, logPaused := s'.logPaused)
  {
    PushStreamsRefused(fs, s.job, s.logStreams);
  }

  // ---- What a subscription accepts --------------------------------------------------------------------

  function ChannelName(c: Channel): string {
    match c
    case Checks => "checks"
    case Log => "log"
    case Gpu => "gpu"
    case Job => "job"
  }

  lemma ChannelNamed(name: string, c: Channel)
    ensures ChannelOf(name) == Some(c) <==> name == ChannelName(c)
  {
  }

  lemma AllChannelsServed()
    ensures forall c: Channel :: c in ALL_CHANNELS
  {
    forall c: Channel ensures c in ALL_CHANNELS { match c case Checks | Log | Gpu | Job => }
  }

  /**
   A list of channels is accepted exactly if every name is a channel's, and then those are subscribed, or all
   channels if it names none.
   */
  lemma ChannelsExactly(names: seq<string>)
    ensures var channels := ChannelsFrom(ChannelNames(names));
            && (channels.Some? <==> forall i | 0 <= i < |names| :: names[i] in ["checks", "log", "gpu", "job"])
            && (channels.Some? ==> forall c: Channel :: c in channels.value <==> names == [] || ChannelName(c) in names)
  {
    AllChannelsServed();
    forall name: string, c: Channel ensures ChannelOf(name) == Some(c) <==> name == ChannelName(c) {
      ChannelNamed(name, c);
    }
  }

  /** What a client may ask for a stream: its name is known and its offset is a number. */
  predicate EntryOk(entry: (string, RawInt)) { (entry.0 == "stdout" || entry.0 == "stderr") && entry.1.Some? }

  lemma {:induction false} StreamsExactly(entries: seq<(string, RawInt)>)
    ensures var streams := ParseStreams(entries);
            && (streams.Some? <==> forall i | 0 <= i < |entries| :: EntryOk(entries[i]))
            && (streams.Some? ==>
                  && |streams.value| == |entries|
                  && forall i | 0 <= i < |entries| ::
                       && streams.value[i].name == (if entries[i].0 == "stdout" then Stdout else Stderr)
                       && streams.value[i].offset == Max(0, entries[i].1.value) && streams.value[i].path.None?)
    decreases |entries|
  {
    if entries != [] {
      StreamsExactly(entries[1..]);
      assert entries == [entries[0]] + entries[1..];
    }
  }

  /**
   The answer to a subscription: first the snapshot, if checks are subscribed, which moves the cursor on to its
   own, and then the cursors as they are accepted.
   */
  predicate Greets(o: Outcome, snapshot: Snapshot, asked: nat)
    requires o.Served?
  {
    var s, n := o.session, |o.frames|;
    && n == (if Checks in s.channels then 2 else 1)
    && (Checks in s.channels ==> o.frames[0] == ChecksFrame(snapshot))
    && s.checksCursor == (if Checks in s.channels then Max(asked, snapshot.cursor) else asked)
    && o.frames[n - 1].SubscribedFrame?
    && o.frames[n - 1].channels == s.channels && o.frames[n - 1].checksCursor == s.checksCursor
    && |o.frames[n - 1].offsets| == |s.logStreams|
    && forall i | 0 <= i < |s.logStreams| ::
         o.frames[n - 1].offsets[i] == (s.logStreams[i].name, s.logStreams[i].offset)
  }

  /** The streams a client asks for: one, or a mapping that names at least one. */
  function EntriesOf(log: LogRequest): seq<(string, RawInt)> {
    match log
    case NotAMapping => []
    case SingleStream(stream, offset) => [(stream, offset)]
    case StreamOffsets(entries) => entries
  }

  predicate LogAsked(log: LogRequest) {
    EntriesOf(log) != [] && forall i | 0 <= i < |EntriesOf(log)| :: EntryOk(EntriesOf(log)[i])
  }

  /** The session's cursors are the ones asked for, negative offsets raised to 0, and no path is reported yet. */
  predicate StreamsAsked(streams: seq<StreamState>, log: LogRequest)
    requires LogAsked(log)
  {
    && |streams| == |EntriesOf(log)|
    && forall i | 0 <= i < |streams| ::
         && streams[i].name == (if EntriesOf(log)[i].0 == "stdout" then Stdout else Stderr)
         && streams[i].offset == Max(0, EntriesOf(log)[i].1.value) && streams[i].path.None?
  }

  lemma LogStreamsExactly(log: LogRequest)
    ensures var streams := LogStreamsFrom(log);
            (streams.Some? <==> LogAsked(log)) && (streams.Some? ==> StreamsAsked(streams.value, log))
  {
    StreamsExactly(EntriesOf(log));
    hide EntryOk, ParseStreams;
  }

  predicate ChannelsAsked(channels: ChannelRequest) {
    match channels
    case AllChannels => true
    case NotAList => false
    case ChannelNames(names) => forall i | 0 <= i < |names| :: names[i] in ["checks", "log", "gpu", "job"]
  }

  /** This channel is meant: it is named, or none is. */
  predicate Asks(channels: ChannelRequest, c: Channel)
    requires !channels.NotAList?
  {
    channels.AllChannels? || channels.names == [] || ChannelName(c) in channels.names
  }

  lemma ChannelsServed(channels: ChannelRequest)
    ensures var served := ChannelsFrom(channels);
            && (served.Some? <==> ChannelsAsked(channels))
            && (served.Some? ==> forall c: Channel :: c in served.value <==> Asks(channels, c))
  {
    AllChannelsServed();
    if channels.ChannelNames? { ChannelsExactly(channels.names); }
  }

  /** A subscription is refused exactly if channels, cursor or streams are not as they should be, with code 4400. */
  lemma SubscribeExactly(s: Session, m: Message, store: seq<Event>, now: real)
    requires m.Subscribe?
    ensures var o := Handle(s, m, store, now);
            && (o.Served? <==> ChannelsAsked(m.channels) && m.checksCursor.Some? && LogAsked(m.log))
            && (o.Rejected? ==> o.code == 4400)
            && (o.Served? ==>
                  && !o.session.logPaused && o.session.job == s.job && StreamsAsked(o.session.logStreams, m.log)
                  && (forall c: Channel :: c in o.session.channels <==> Asks(m.channels, c))
                  && Greets(o, SnapshotOf(store, now), Max(0, m.checksCursor.value)))
  {
    ChannelsServed(m.channels);
    LogStreamsExactly(m.log);
    hide SnapshotOf, ChannelName, EntryOk, ChannelsFrom, LogStreamsFrom, Greets, OffsetsOf, EntriesOf, LogAsked;
    hide StreamsAsked, Asks;
    if Handle(s, m, store, now).Served? { ServedGreets(s, m, store, now); }
  }

  /**
   A request for the log on a running session, refused in the same cases: it subscribes the log with the cursors
   asked for, ends a pause, answers nothing, and leaves checks and other channels alone.
   */
  lemma RequestExactly(s: Session, log: LogRequest, store: seq<Event>, now: real)
    ensures var o := Handle(s, LogRequested(log), store, now);
            && (o.Served? <==> LogAsked(log)) && (o.Rejected? ==> o.code == 4400)
            && (o.Served? ==>
                  && o.frames == [] && !o.session.logPaused && StreamsAsked(o.session.logStreams, log)
                  && (forall c: Channel :: c in o.session.channels <==> c == Log || c in s.channels)
                  && o.session.checksCursor == s.checksCursor && o.session.job == s.job)
  {
    LogStreamsExactly(log);
    hide LogStreamsFrom, EntriesOf, LogAsked, StreamsAsked;
  }

  /** What no message but these two changes: everything except the pause. A ping is answered, with one frame. */
  lemma OtherMessages(s: Session, m: Message, store: seq<Event>, now: real)
    requires !m.Subscribe? && !m.LogRequested?
    ensures var o := Handle(s, m, store, now);
            && (o.Rejected? <==> m.Unknown?) && (o.Rejected? ==> o.code == 4400)
            && (o.Served? ==>
                  && o.session == s.(logPaused := o.session.logPaused)
                  && (m.Ping? <==> o.frames == [PongFrame]) && (!m.Ping? <==> o.frames == []))
  {
  }

  lemma ServedGreets(s: Session, m: Message, store: seq<Event>, now: real)
    requires m.Subscribe? && Handle(s, m, store, now).Served?
    ensures CoerceOffset(m.checksCursor).Some?
    ensures Greets(Handle(s, m, store, now), SnapshotOf(store, now), CoerceOffset(m.checksCursor).value)
  {
    hide SnapshotOf, ChannelsFrom, LogStreamsFrom;
  }

  // ---- What a round sends --------------------------------------------------------------------------------

  /**
   A round of a subscribed session. It takes over a job record that was refreshed, and no other. It sends the
   error of a failed refresh first, then the events above the cursor if checks are subscribed, and then what the
   log channel has if it is subscribed and not paused.
   */
  lemma RoundOrder(s: Session, fs: FileSystem, store: seq<Event>, refresh: Refresh)
    requires s.channels != {}
    ensures var (s', frames) := Service(s, fs, store, refresh);
            var job := if refresh.Refreshed? then refresh.job else s.job;
            var failed := if refresh.RefreshFailed? then [ErrorFrame(refresh.code)] else [];
            var events := if Checks in s.channels then Push(JobCheckEvents(store), s.checksCursor).1 else [];
            var pushed := if Log in s.channels && !s.logPaused then PushStreams(fs, job, s.logStreams).1 else [];
            && s'.job == job && s'.channels == s.channels
            && frames == failed + CheckFrames(events) + pushed && |CheckFrames(events)| == |events|
            && forall i | 0 <= i < |events| :: CheckFrames(events)[i] == CheckFrame(events[i])
  {
    hide JobCheckEvents, Push, PushStreams;
    var (s1, _) := RefreshJob(s, refresh);
    var (s2, checks) := ServeChecks(s1, store);
    var events := if Checks in s.channels then Push(JobCheckEvents(store), s.checksCursor).1 else [];
    assert checks == CheckFrames(events);
  }
}
