/**
 `JobLiveSession` as the agent runs it: cursors, pause flag and job record updated in place, frames
 appended to the socket in sending order. Every method is tied to the functions of LiveSession.
 */
module JobLiveSessionObject {
  import opened Seqs
  import opened Utf8
  import opened JobFiles
  import opened CheckEvents
  import opened LiveSession

  /** None, or the close code of the protocol error that ends the session. */
  type Closed = Option<nat>

  class JobLiveSession {
    var channels: set<Channel>
    var checksCursor: int
    var logStreams: seq<StreamState>
    var logPaused: bool
    var jobData: JobData
    /** Frames handed to the WebSocket so far. */
    var sent: seq<Frame>

    function View(): Session
      reads this
    {
      Session(channels, checksCursor, logStreams, logPaused, jobData)
    }

    constructor (job: JobData)
      ensures View() == Session({}, 0, [StreamState(Stdout, 0, None)], false, job) && sent == []
    {
      channels, checksCursor, logPaused, jobData := {}, 0, false, job;
      logStreams := [StreamState(Stdout, 0, None)];
      sent := [];
    }

    method Send(frame: Frame)
      modifies this`sent
      ensures sent == old(sent) + [frame]
    {
      sent := sent + [frame];
    }

    /** One client message; a protocol error returns its close code. */
    method HandleMessage(m: Message, store: seq<Event>, now: real) returns (closed: Closed)
      modifies this
      ensures match Handle(old(View()), m, store, now)
              case Rejected(code) => closed == Some(code)
              case Served(s, frames) => closed == None && View() == s && sent == old(sent) + frames
    {
      closed := None;
      match m
      case Subscribe(_, _, _) =>
        closed := SubscribeChannels(m, store, now);
      case LogRequested(log) =>
        var streams := LogStreamsFrom(log);
        if streams.None? { return Some(CLOSE_BAD_REQUEST); }
        logStreams, logPaused, channels := streams.value, false, channels + {Log};
      case Pause(channel) =>
        if channel == "log" { logPaused := true; }
      case Resume(channel) =>
        if channel == "log" { logPaused := false; }
      case Ping => Send(PongFrame);
      case Auth =>
      case Unknown(_) => closed := Some(CLOSE_BAD_REQUEST);
    }

    /** The cursors of the message replace the session's, the snapshot moves the checks cursor on. */
    method SubscribeChannels(m: Message, store: seq<Event>, now: real) returns (closed: Closed)
      requires m.Subscribe?
      modifies this
      ensures match SubscribeTo(old(View()), m, store, now)
              case Rejected(code) => closed == Some(code)
              case Served(s, frames) => closed == None && View() == s && sent == old(sent) + frames
    {
      var requested := ChannelsFrom(m.channels);
      if requested.None? { return Some(CLOSE_BAD_REQUEST); }
      channels := requested.value;
      var cursor := CoerceOffset(m.checksCursor);
      if cursor.None? { return Some(CLOSE_BAD_REQUEST); }
      checksCursor := cursor.value;
      var streams := LogStreamsFrom(m.log);
      if streams.None? { return Some(CLOSE_BAD_REQUEST); }
      logStreams, logPaused := streams.value, false;
      Greet(store, now);
      return None;
    }

    /** The first frames of a subscription: the checks snapshot, then the accepted cursors. */
    method Greet(store: seq<Event>, now: real)
      modifies this`checksCursor, this`sent
      ensures var snapshot := SnapshotOf(store, now);
              && checksCursor ==
                 (if Checks in channels then Max(old(checksCursor), snapshot.cursor) else old(checksCursor))
              && sent == old(sent)
                         + ((if Checks in channels then [ChecksFrame(snapshot)] else [])
                            + [SubscribedFrame(channels, checksCursor, OffsetsOf(logStreams))])
    {
      ghost var greeting: seq<Frame> := [];
      if Checks in channels {
        var snapshot := ChecksSnapshot(store, now);
        checksCursor := Max(checksCursor, snapshot.cursor);
        Send(ChecksFrame(snapshot));
        greeting := [ChecksFrame(snapshot)];
      }
      assert sent == old(sent) + greeting;
      Send(SubscribedFrame(channels, checksCursor, OffsetsOf(logStreams)));
    }

    /**
     `_checks_snapshot`: the latest event per check in sequence order, each shown stalled exactly if it is
     a running check without an update for more than 15 seconds.
     */
    static method ChecksSnapshot(store: seq<Event>, now: real) returns (snapshot: Snapshot)
      ensures snapshot == SnapshotOf(store, now)
      ensures forall i | 0 <= i < |snapshot.checks| :: Labelled(snapshot.checks[i], now)
    {
      var events := JobCheckEvents(store);
      var latest := LatestByCheck(events);
      var shown := LabelStalled(Sort(latest), now);
      return Snapshot(MaxNo(events), shown);
    }

    static method LatestByCheck(events: seq<Event>) returns (latest: seq<Event>)
      ensures latest == Latest(events)
    {
      latest := [];
      var i := 0;
      while i < |events|
        invariant 0 <= i <= |events| && latest == Latest(events[..i])
      {
        assert Init(events[..i + 1]) == events[..i];
        latest := Upsert(latest, events[i]);
        i := i + 1;
      }
      assert events[..i] == events;
    }

    static method LabelStalled(events: seq<Event>, now: real) returns (shown: seq<Shown>)
      ensures shown == MapSeq(Relabel(now), events)
      ensures forall i | 0 <= i < |shown| :: Labelled(shown[i], now)
    {
      RelabelLabels(events, now);
      shown := [];
      var j := 0;
      while j < |events|
        invariant 0 <= j <= |events| && |shown| == j
        invariant forall k | 0 <= k < j :: shown[k] == Relabel(now)(events[k])
      {
        shown := shown + [Relabel(now)(events[j])];
        j := j + 1;
      }
    }

    /** One turn of the service loop. */
    method ServiceRound(fs: FileSystem, store: seq<Event>, refresh: Refresh)
      modifies this
      ensures View() == Service(old(View()), fs, store, refresh).0
      ensures sent == old(sent) + Service(old(View()), fs, store, refresh).1
    {
      if channels == {} {
        assert sent == old(sent) + [];
        return;
      }
      RefreshRecord(refresh);
      ghost var s1, f1 := View(), RefreshJob(old(View()), refresh).1;
      ServeChecksChannel(store);
      ghost var s2, f2 := View(), ServeChecks(s1, store).1;
      ServeLogChannel(fs);
      ghost var f3 := ServeLog(s2, fs).1;
      FramesAssociate(old(sent), f1, f2, f3);
    }

    static lemma FramesAssociate(a: seq<Frame>, b: seq<Frame>, c: seq<Frame>, d: seq<Frame>)
      ensures ((a + b) + c) + d == a + (b + c + d)
    {
    }

    method ServeChecksChannel(store: seq<Event>)
      modifies this`checksCursor, this`sent
      ensures View() == ServeChecks(old(View()), store).0
      ensures sent == old(sent) + ServeChecks(old(View()), store).1
    {
      if Checks in channels { PushChecksChannel(store); } else { assert sent + [] == sent; }
    }

    method ServeLogChannel(fs: FileSystem)
      modifies this`logStreams, this`logPaused, this`sent
      ensures View() == ServeLog(old(View()), fs).0
      ensures sent == old(sent) + ServeLog(old(View()), fs).1
    {
      if Log in channels && !logPaused { PushLogChannel(fs); } else { assert sent + [] == sent; }
    }

    method RefreshRecord(refresh: Refresh)
      modifies this`jobData, this`sent
      ensures View() == RefreshJob(old(View()), refresh).0
      ensures sent == old(sent) + RefreshJob(old(View()), refresh).1
    {
      match refresh
      case NotDue => assert sent == old(sent) + [];
      case Refreshed(job) =>
        jobData := job;
        assert sent == old(sent) + [];
      case RefreshFailed(code) => Send(ErrorFrame(code));
    }

    static lemma PushNothing(start: int)
      ensures Push([], start) == (start, [])
    {
    }

    /** One more event of the list: sent, and the cursor moved to it, when it is above the cursor. */
    static lemma PushNext(events: seq<Event>, i: nat, start: int)
      requires i < |events|
      ensures var (cursor, sent) := Push(events[..i], start);
              var (cursor', sent') := Push(events[..i + 1], start);
              && (cursor' == if events[i].no > cursor then events[i].no else cursor)
              && CheckFrames(sent') ==
                 CheckFrames(sent) + if events[i].no > cursor then [CheckFrame(events[i])] else []
    {
      assert Init(events[..i + 1]) == events[..i];
      var sent := Push(events[..i], start).1;
      assert CheckFrames(sent + [events[i]]) == CheckFrames(sent) + [CheckFrame(events[i])];
      assert CheckFrames(sent) + [] == CheckFrames(sent);
    }

    /** Events above the cursor, in order, each moving the cursor. */
    method PushChecksChannel(store: seq<Event>)
      modifies this`checksCursor, this`sent
      ensures View() == PushChecks(old(View()), store).0
      ensures sent == old(sent) + PushChecks(old(View()), store).1
    {
      hide JobCheckEvents, Push;
      var events, i := JobCheckEvents(store), 0;
      ghost var start := checksCursor;
      PushNothing(start);
      while i < |events|
        invariant 0 <= i <= |events|
        invariant checksCursor == Push(events[..i], start).0
        invariant sent == old(sent) + CheckFrames(Push(events[..i], start).1)
      {
        PushNext(events, i, start);
        if events[i].no > checksCursor {
          checksCursor := events[i].no;
          Send(CheckFrame(events[i]));
        }
        i := i + 1;
      }
      assert events[..i] == events;
    }

    /** What a round will amount to when the streams before `i` are served and `sent` is what went out. */
    static ghost function Ahead(fs: FileSystem, job: JobData, streams: seq<StreamState>, i: nat, sent: seq<Frame>)
      : (seq<StreamState>, seq<Frame>, bool)
      requires i <= |streams|
    {
      var (rest, frames, ok) := PushStreams(fs, job, streams[i..]);
      (streams[..i] + rest, sent + frames, ok)
    }

    static lemma AheadStarts(fs: FileSystem, job: JobData, streams: seq<StreamState>, sent: seq<Frame>)
      ensures var (rest, frames, ok) := PushStreams(fs, job, streams);
              Ahead(fs, job, streams, 0, sent) == (rest, sent + frames, ok)
    {
      assert streams[0..] == streams;
      assert [] + PushStreams(fs, job, streams).0 == PushStreams(fs, job, streams).0;
    }

    static lemma AheadSteps(fs: FileSystem, job: JobData, streams: seq<StreamState>, i: nat, sent: seq<Frame>)
      requires i < |streams|
      ensures var p := PushStream(fs, job, streams[i]);
              Ahead(fs, job, streams, i, sent) ==
              if p.ok then Ahead(fs, job, streams[i := p.state], i + 1, sent + p.frames)
              else (streams[i := p.state], sent + p.frames, false)
    {
      var p, after := PushStream(fs, job, streams[i]), streams[i + 1..];
      var streams' := streams[i := p.state];
      assert streams[i..][0] == streams[i] && streams[i..][1..] == after;
      if p.ok {
        var (rest, frames, ok) := PushStreams(fs, job, after);
        assert streams'[i + 1..] == after;
        assert streams'[..i + 1] + rest == streams[..i] + ([p.state] + rest);
        assert sent + (p.frames + frames) == (sent + p.frames) + frames;
      } else {
        assert streams[..i] + ([p.state] + after) == streams';
      }
    }

    static lemma AheadEnds(fs: FileSystem, job: JobData, streams: seq<StreamState>, sent: seq<Frame>)
      ensures Ahead(fs, job, streams, |streams|, sent) == (streams, sent, true)
    {
      assert streams[|streams|..] == [] && streams[..|streams|] + [] == streams && sent + [] == sent;
    }

    /** Each subscribed stream in turn; an error pauses the channel and ends the round. */
    method PushLogChannel(fs: FileSystem)
      modifies this`logStreams, this`logPaused, this`sent
      ensures var (streams, frames, ok) := PushStreams(fs, jobData, old(logStreams));
              && logStreams == streams && logPaused == (old(logPaused) || !ok)
              && sent == old(sent) + frames
    {
      ghost var want := Ahead(fs, jobData, logStreams, 0, sent);
      AheadStarts(fs, jobData, logStreams, sent);
      var i := 0;
      while i < |logStreams|
        invariant 0 <= i <= |logStreams| && logPaused == old(logPaused)
        invariant want == Ahead(fs, jobData, logStreams, i, sent)
      {
        AheadSteps(fs, jobData, logStreams, i, sent);
        var p := PushStream(fs, jobData, logStreams[i]);
        logStreams := logStreams[i := p.state];
        sent := sent + p.frames;
        if !p.ok {
          logPaused := true;
          return;
        }
        i := i + 1;
      }
      AheadEnds(fs, jobData, logStreams, sent);
    }
  }
}
