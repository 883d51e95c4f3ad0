/** Pausing the log channel: from when to when the agent sends nothing of the log. */
module LogPause {
  import opened Seqs
  import opened Utf8
  import opened JobFiles
  import opened CheckEvents
  import opened LiveSession
  import opened LogDelivery
  import opened LiveRun
  import opened ReplacedFiles
  import opened ReplacedUnseen

  /** What can happen to the agent's end of a page's connections, whatever the client sends. */
  datatype Moment =
    | Opens(job: JobData)
    | Hears(message: Message, store: seq<Event>, now: real)
    | Serves(fs: FileSystem, store: seq<Event>, refresh: Refresh)
    | Closes

  /** The session after a moment and the frames sent in it; without a session only `Opens` does anything. */
  function Onward(s: Option<Session>, m: Moment): (Option<Session>, seq<Frame>) {
    match m
    case Opens(job) => (Some(NewSession(job)), [])
    case Closes => (None, [])
    case Hears(message, store, now) =>
      if s.None? then (None, [])
      else
        (match Handle(s.value, message, store, now)
         case Rejected(_) => (None, [])
         case Served(s', frames) => (Some(s'), frames))
    case Serves(fs, store, refresh) =>
      if s.None? then (None, [])
      else
        var (s', frames) := Service(s.value, fs, store, refresh);
        (Some(s'), frames)
  }

  /** Nothing of the log would be sent in a round now. */
  predicate Silent(s: Option<Session>) { s.None? || Log !in s.value.channels || s.value.logPaused }

  /** The message ends a pause: a resume, a request for the log, or a subscription to it. */
  predicate Resumes(s: Session, m: Message) {
    match m
    case Resume(channel) => channel == "log" && Log in s.channels
    case LogRequested(log) => LogStreamsFrom(log).Some?
    case Subscribe(channels, cursor, log) =>
      && ChannelsFrom(channels).Some? && CoerceOffset(cursor).Some? && LogStreamsFrom(log).Some?
      && Log in ChannelsFrom(channels).value
    case _ => false
  }

  predicate EndsPause(s: Option<Session>, m: Moment) { s.Some? && m.Hears? && Resumes(s.value, m.message) }

  /** In a silent state no moment sends anything of the log, and exactly such a message ends the silence. */
  lemma SilentStep(s: Option<Session>, m: Moment)
    requires Silent(s)
    ensures NoLog(Onward(s, m).1)
    ensures Silent(Onward(s, m).0) <==> !EndsPause(s, m)
  {
    if s.Some? {
      match m
      case Hears(message, store, now) => SilentHears(s.value, message, store, now);
      case Serves(fs, store, refresh) => SilentServes(s.value, fs, store, refresh);
      case Opens(_) =>
      case Closes =>
    }
  }

  lemma SilentHears(s: Session, m: Message, store: seq<Event>, now: real)
    requires Silent(Some(s))
    ensures var o := Handle(s, m, store, now);
            && (o.Served? ==> NoLog(o.frames) && (Silent(Some(o.session)) <==> !Resumes(s, m)))
            && (o.Rejected? ==> !Resumes(s, m))
  {
    hide SnapshotOf, ChannelsFrom, LogStreamsFrom, OffsetsOf;
  }

  lemma SilentServes(s: Session, fs: FileSystem, store: seq<Event>, refresh: Refresh)
    requires Silent(Some(s))
    ensures var (s', frames) := Service(s, fs, store, refresh);
            NoLog(frames) && Silent(Some(s'))
  {
    hide JobCheckEvents, Push;
  }

  /** What silences a log that is sent: a pause, a subscription without it, or a message that ends the connection. */
  predicate Pauses(s: Session, m: Message) {
    match m
    case Pause(channel) => channel == "log"
    case Subscribe(channels, cursor, log) =>
      ChannelsFrom(channels).None? || CoerceOffset(cursor).None? || LogStreamsFrom(log).None?
      || Log !in ChannelsFrom(channels).value
    case LogRequested(log) => LogStreamsFrom(log).None?
    case Unknown(_) => true
    case _ => false
  }

  /** So does a new or a lost connection, and a round in which one of the streams may not be read. */
  predicate BeginsPause(s: Session, m: Moment) {
    match m
    case Opens(_) => true
    case Closes => true
    case Hears(message, _, _) => Pauses(s, message)
    case Serves(fs, _, refresh) =>
      var job := if refresh.Refreshed? then refresh.job else s.job;
      exists i | 0 <= i < |s.logStreams| :: Refused(fs, job, s.logStreams[i].name)
  }

  /** A log that is sent falls silent exactly so. */
  lemma LoudStep(s: Session, m: Moment)
    requires !Silent(Some(s))
    ensures Silent(Onward(Some(s), m).0) <==> BeginsPause(s, m)
  {
    match m
    case Hears(message, store, now) =>
      hide SnapshotOf, ChannelsFrom, LogStreamsFrom, OffsetsOf;
    case Serves(fs, store, refresh) => LoudServes(s, fs, store, refresh);
    case Opens(_) =>
    case Closes =>
  }

  lemma LoudServes(s: Session, fs: FileSystem, store: seq<Event>, refresh: Refresh)
    requires !Silent(Some(s))
    ensures Silent(Some(Service(s, fs, store, refresh).0)) <==> BeginsPause(s, Serves(fs, store, refresh))
  {
    hide JobCheckEvents, Push, PushStreams;
    var s1 := RefreshJob(s, refresh).0;
    var s2 := ServeChecks(s1, store).0;
    ErrorPauses(s2, fs);
    hide ServeLog, Refused;
  }

  // ---- Over whole histories ---------------------------------------------------------------------

  function SessionAfter(s: Option<Session>, ms: seq<Moment>): Option<Session>
    decreases |ms|
  {
    if ms == [] then s else SessionAfter(Onward(s, ms[0]).0, ms[1..])
  }

  function AllSent(s: Option<Session>, ms: seq<Moment>): seq<Frame>
    decreases |ms|
  {
    if ms == [] then [] else Onward(s, ms[0]).1 + AllSent(Onward(s, ms[0]).0, ms[1..])
  }

  /** The silence lasts through all these moments. */
  ghost predicate StaysSilent(s: Option<Session>, ms: seq<Moment>)
    decreases |ms|
  {
    Silent(s) && (ms == [] || StaysSilent(Onward(s, ms[0]).0, ms[1..]))
  }

  ghost predicate NoneEndsPause(s: Option<Session>, ms: seq<Moment>)
    decreases |ms|
  {
    ms == [] || (!EndsPause(s, ms[0]) && NoneEndsPause(Onward(s, ms[0]).0, ms[1..]))
  }

  lemma NoLogConcat(a: seq<Frame>, b: seq<Frame>)
    requires NoLog(a) && NoLog(b)
    ensures NoLog(a + b)
  {
  }

  lemma {:induction false} SilentExactly(s: Option<Session>, ms: seq<Moment>)
    requires Silent(s)
    ensures StaysSilent(s, ms) <==> NoneEndsPause(s, ms)
    ensures NoneEndsPause(s, ms) ==> NoLog(AllSent(s, ms))
    decreases |ms|
  {
    hide Silent, EndsPause, Onward, NoLog;
    if ms == [] {
      NothingSent();
    } else {
      SilentStep(s, ms[0]);
      if !EndsPause(s, ms[0]) {
        SilentExactly(Onward(s, ms[0]).0, ms[1..]);
        if NoneEndsPause(s, ms) { NoLogConcat(Onward(s, ms[0]).1, AllSent(Onward(s, ms[0]).0, ms[1..])); }
      }
    }
  }

  lemma NothingSent()
    ensures NoLog([])
  {
  }

  /**
   Pause. From the moment the agent hears it, whatever it hears, reads and refreshes, over any number of
   connections: the log stays silent exactly as long as it hears no resume, no request for the log and no
   subscription to it, and until then no log frame is sent.
   */
  lemma PausedUntilResumed(s: Session, store: seq<Event>, now: real, later: seq<Moment>)
    ensures var paused := Onward(Some(s), Hears(Pause("log"), store, now)).0;
            && (StaysSilent(paused, later) <==> NoneEndsPause(paused, later))
            && (NoneEndsPause(paused, later) ==> NoLog(AllSent(paused, later)))
  {
    SilentExactly(Onward(Some(s), Hears(Pause("log"), store, now)).0, later);
  }

  // ---- A pause lost with the connection ---------------------------------------------------------------

  /** A page that pauses the log and loses its connection subscribes again, and says nothing of the pause. */
  function PausedHistory(job: JobData): seq<Happening> {
    [Act(Open(job)), Act(Hear(0.0))] + (Pausing() + ([Act(Open(job)), Act(Hear(0.0))] + [Act(Tick(NotDue))]))
  }

  function Pausing(): seq<Happening> { [Act(Say(Pause("log"))), Act(Hear(0.0)), Act(Drop)] }

  lemma PausesAndLoses(w: World)
    requires w.session.Some? && w.uplink == []
    ensures IsHistory(w, Pausing()) && AfterAll(w, Pausing()) == Disconnected(w)
  {
    var w1 := Happens(w, Act(Say(Pause("log"))));
    var w2 := Happens(w1, Act(Hear(0.0)));
    HistoryFirst(w2, Act(Drop), []);
    HistoryFirst(w1, Act(Hear(0.0)), [Act(Drop)]);
    HistoryFirst(w, Act(Say(Pause("log"))), [Act(Hear(0.0)), Act(Drop)]);
  }

  /**
   The page paused the log, never resumed it, and is fed the file: its new subscription ended the pause.
   All it had said of the log before was `pause`.
   */
  lemma PausedPageIsFed(w: World, job: JobData)
    requires OneByte(w, job)
    ensures IsHistory(w, PausedHistory(job))
    ensures forall h | h in PausedHistory(job) && h.Act? && h.action.Say? :: h.action.message == Pause("log")
    ensures var w' := AfterAll(w, PausedHistory(job));
            && w'.client == w.client && !NoLog(w'.agentOut) && Heard(w'.client, w'.agentOut).out == StdoutOnly
  {
    var open, serve := [Act(Open(job)), Act(Hear(0.0))], [Act(Tick(NotDue))];
    OpensAndHears(w, job);
    var w1 := AfterAll(w, open);
    PausesAndLoses(w1);
    var w2 := Disconnected(w1);
    var w3 := OpensAndServes(w2, job);
    hide IsHistory, AfterAll, Heard, NoLog;
    HistoryAppend(w1, Pausing(), open + serve);
    HistoryAppend(w, open, Pausing() + (open + serve));
    if NoLog(w3.agentOut) { QuietHeard(w3.client, w3.agentOut); }
  }
}
