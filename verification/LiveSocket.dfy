/**
 The reconnecting WebSocket of the job page (useJobLiveSocket.ts) as a state machine, over whole runs
 of openings, frames, closings, timers and calls of `close()` and `restart()`.
 */
module LiveSocket {
  import opened Seqs

  const FIRST_BACKOFF: nat := 1000
  const MAX_BACKOFF: nat := 10_000
  const FALLBACK_AFTER: nat := 3

  datatype Transport = Connecting | Live | Reconnecting | Fallback | Closed

  /**
   `timers` are the pending reconnect timers with their delays. `begun`, `connections` and `fallbacks` count
   connect(), sockets and onFallback(); `losses` counts lost or failed connections since the last
   `ready` or restart.
   */
  datatype Machine = Machine(
    state: Transport, socket: Option<nat>, reconnectTimer: int, timers: map<int, nat>, nextTimer: nat,
    backoff: nat, failures: nat, ready: bool, everReady: bool, stopped: bool,
    begun: bool, connections: nat, fallbacks: nat, losses: nat)

  /** Where the page runs: whether WebSocket exists at all. */
  datatype Browser = Browser(hasWebSocket: bool)

  datatype ServerMessage = Ready | ErrorMessage(code: nat, transient: bool) | Data

  /** `throws` says whether the WebSocket constructor throws on this call. */
  datatype Event =
    | Connect(throws: bool)
    | Message(message: ServerMessage)
    | Close(socket: nat, code: nat)
    | TimerFires(timer: int, throws: bool)
    | CloseCalled
    | Restart(throws: bool)

  const Initial := Machine(Connecting, None, -1, map[], 1, FIRST_BACKOFF, 0, false, false, false, false, 0, 0, 0)

  function GiveUp(m: Machine): Machine { m.(state := Fallback, fallbacks := m.fallbacks + 1) }

  function ScheduleReconnect(m: Machine): Machine {
    if m.stopped then m
    else
      var n := m.(failures := if m.ready then m.failures else m.failures + 1, losses := m.losses + 1);
      if !n.everReady && n.failures >= FALLBACK_AFTER then GiveUp(n)
      else
        n.(state := Reconnecting, timers := (n.timers - {n.reconnectTimer})[n.nextTimer := n.backoff],
           reconnectTimer := n.nextTimer, nextTimer := n.nextTimer + 1, backoff := Min(MAX_BACKOFF, n.backoff * 2))
  }

  function ConnectNow(b: Browser, m: Machine, throws: bool): Machine {
    var n := m.(begun := true);
    if m.stopped then n
    else if !b.hasWebSocket then GiveUp(n)
    else
      var trying := n.(ready := false, state := if n.state.Reconnecting? then Reconnecting else Connecting);
      if throws then ScheduleReconnect(trying)
      else trying.(socket := Some(m.connections), connections := m.connections + 1)
  }

  function OnMessage(m: Machine, message: ServerMessage): Machine {
    match message
    case Ready =>
      m.(ready := true, everReady := true, failures := 0, backoff := FIRST_BACKOFF, state := Live, losses := 0)
    case ErrorMessage(code, transient) =>
      if transient then m else m.(stopped := code == 4401 || code == 4403 || code == 4404)
    case Data => m
  }

  predicate Rejection(code: nat) { code >= 4400 && code < 4500 && code != 4502 }

  function OnClose(m: Machine, socket: nat, code: nat): Machine {
    if m.socket != Some(socket) then m
    else
      var n := m.(socket := None);
      if n.stopped then n.(state := Closed)
      else if Rejection(code) then n.(stopped := true, state := Closed)
      else ScheduleReconnect(n)
  }

  function CloseNow(m: Machine): Machine {
    m.(stopped := true, timers := m.timers - {m.reconnectTimer}, socket := None, state := Closed)
  }

  function RestartNow(b: Browser, m: Machine, throws: bool): Machine {
    ConnectNow(b, m.(timers := m.timers - {m.reconnectTimer}, stopped := false, failures := 0,
                     backoff := FIRST_BACKOFF, socket := None, losses := 0), throws)
  }

  /** One initial connect(); frames come from the current socket only. */
  predicate Enabled(m: Machine, e: Event) {
    match e
    case Connect(_) => !m.begun
    case Message(_) => m.socket.Some?
    case Close(socket, _) => socket < m.connections
    case TimerFires(timer, _) => timer in m.timers
    case CloseCalled => true
    case Restart(_) => m.begun
  }

  function Step(b: Browser, m: Machine, e: Event): Machine
    requires Enabled(m, e)
  {
    match e
    case Connect(throws) => ConnectNow(b, m, throws)
    case Message(message) => OnMessage(m, message)
    case Close(socket, code) => OnClose(m, socket, code)
    case TimerFires(timer, throws) => ConnectNow(b, m.(timers := m.timers - {timer}), throws)
    case CloseCalled => CloseNow(m)
    case Restart(throws) => RestartNow(b, m, throws)
  }

  ghost predicate IsRun(b: Browser, m: Machine, events: seq<Event>)
    decreases |events|
  {
    events == [] || (Enabled(m, events[0]) && IsRun(b, Step(b, m, events[0]), events[1..]))
  }

  function After(b: Browser, m: Machine, events: seq<Event>): Machine
    requires IsRun(b, m, events)
    decreases |events|
  {
    if events == [] then m else After(b, Step(b, m, events[0]), events[1..])
  }

  // ---- What holds in every run --------------------------------------------------------------

  function One(c: bool): nat { if c then 1 else 0 }

  /** The delays 1 s, 2 s, 4 s, 8 s, 10 s, 10 s, ... */
  function Delay(losses: nat): nat {
    if losses == 0 then FIRST_BACKOFF else Min(MAX_BACKOFF, Delay(losses - 1) * 2)
  }

  lemma {:induction false} DelayBounds(losses: nat)
    ensures FIRST_BACKOFF <= Delay(losses) <= MAX_BACKOFF
    ensures losses >= 4 ==> Delay(losses) == MAX_BACKOFF
  {
    if losses > 0 {
      DelayBounds(losses - 1);
      assert Delay(1) == 2000 && Delay(2) == 4000 && Delay(3) == 8000;
    }
  }

  /** Ways the machine can still come back to a connection: its socket or its timer. */
  function Prospects(m: Machine): nat { One(m.socket.Some?) + One(m.timers != map[]) }

  /** Three connections failed since the last restart and none ever worked. */
  predicate GaveUp(m: Machine) { !m.everReady && m.failures == FALLBACK_AFTER }

  ghost predicate Core(b: Browser, m: Machine) {
    && (forall t | t in m.timers :: t == m.reconnectTimer && m.losses > 0 && m.timers[t] == Delay(m.losses - 1))
    && m.reconnectTimer < m.nextTimer && m.nextTimer > 0
    && Prospects(m) <= 1
    && (m.socket.Some? ==> m.socket.value < m.connections && !m.state.Fallback?)
    && FIRST_BACKOFF <= m.backoff <= MAX_BACKOFF && (m.backoff == Delay(m.losses) || GaveUp(m))
    && (!m.everReady ==> m.failures == m.losses && m.failures <= FALLBACK_AFTER && !m.ready)
    && (GaveUp(m) ==> Prospects(m) == 0)
    && (!b.hasWebSocket ==> m.socket.None? && !m.everReady && m.failures == 0)
  }

  ghost predicate Inv(b: Browser, m: Machine) {
    && Core(b, m)
    && (m.stopped && m.socket.None? ==> m.timers == map[])
    && (m.begun && !m.stopped ==> Prospects(m) == One(!m.state.Fallback?))
    && (!m.begun ==> Prospects(m) == 0 && m.failures == 0 && m.connections == 0)
  }

  lemma OnlyTimer(timers: map<int, nat>, timer: int)
    requires forall t | t in timers :: t == timer
    ensures timers - {timer} == map[]
    ensures timers != map[] ==> timer in timers
  {
    assert forall t: int :: t !in timers - {timer};
    if timers != map[] { assert exists t :: t in timers; }
  }

  lemma InitialInv(b: Browser)
    ensures Inv(b, Initial)
  {
  }

  /** A lost connection: scheduled again, or given up. */
  lemma ScheduleKeeps(b: Browser, m: Machine)
    requires Core(b, m) && b.hasWebSocket && m.begun && !m.stopped && m.socket.None? && m.timers == map[] && !GaveUp(m)
    ensures Inv(b, ScheduleReconnect(m))
  {
    var n := ScheduleReconnect(m);
    DelayBounds(m.losses);
    assert n.backoff == Delay(n.losses) || GaveUp(n);
    if !n.state.Fallback? { assert n.reconnectTimer in n.timers; }
  }

  lemma ConnectKeeps(b: Browser, m: Machine, throws: bool)
    requires Core(b, m) && !m.stopped && m.socket.None? && m.timers == map[] && !GaveUp(m)
    ensures Inv(b, ConnectNow(b, m, throws))
  {
    if b.hasWebSocket && throws {
      var state := if m.state.Reconnecting? then Reconnecting else Connecting;
      ScheduleKeeps(b, m.(begun := true, ready := false, state := state));
    }
  }

  lemma CloseKeeps(b: Browser, m: Machine, socket: nat, code: nat)
    requires Inv(b, m) && Enabled(m, Close(socket, code))
    ensures Inv(b, OnClose(m, socket, code))
  {
    if m.socket == Some(socket) && !m.stopped && !Rejection(code) { ScheduleKeeps(b, m.(socket := None)); }
  }

  lemma TimerKeeps(b: Browser, m: Machine, timer: int, throws: bool)
    requires Inv(b, m) && timer in m.timers
    ensures Inv(b, Step(b, m, TimerFires(timer, throws)))
  {
    OnlyTimer(m.timers, timer);
    ConnectKeeps(b, m.(timers := map[]), throws);
  }

  lemma RestartKeeps(b: Browser, m: Machine, throws: bool)
    requires Inv(b, m)
    ensures Inv(b, RestartNow(b, m, throws))
  {
    OnlyTimer(m.timers, m.reconnectTimer);
    ConnectKeeps(b, m.(timers := m.timers - {m.reconnectTimer}, stopped := false, failures := 0,
                       backoff := FIRST_BACKOFF, socket := None, losses := 0), throws);
  }

  lemma MessageKeeps(b: Browser, m: Machine, message: ServerMessage)
    requires Inv(b, m) && m.socket.Some?
    ensures Inv(b, OnMessage(m, message))
  {
  }

  lemma StepKeeps(b: Browser, m: Machine, e: Event)
    requires Inv(b, m) && Enabled(m, e)
    ensures Inv(b, Step(b, m, e))
  {
    match e
    case Connect(throws) => if !m.stopped { ConnectKeeps(b, m, throws); }
    case Message(message) => MessageKeeps(b, m, message);
    case Close(socket, code) => CloseKeeps(b, m, socket, code);
    case TimerFires(timer, throws) => TimerKeeps(b, m, timer, throws);
    case CloseCalled => OnlyTimer(m.timers, m.reconnectTimer);
    case Restart(throws) => RestartKeeps(b, m, throws);
  }

  lemma {:induction false} RunKeeps(b: Browser, m: Machine, events: seq<Event>)
    requires Inv(b, m) && IsRun(b, m, events)
    ensures Inv(b, After(b, m, events))
    decreases |events|
  {
    if events != [] {
      StepKeeps(b, m, events[0]);
      RunKeeps(b, Step(b, m, events[0]), events[1..]);
    }
  }

  // ---- Main results -----------------------------------------------------------------------------

  /**
   In every run there is never both a socket and a pending reconnect timer, and while the machine has
   been started, not stopped and not given up there is always exactly one of them: it cannot stall.
   The pending timer's delay is the capped doubling of the losses in a row.
   */
  lemma SocketOrTimer(b: Browser, events: seq<Event>)
    requires IsRun(b, Initial, events)
    ensures var m := After(b, Initial, events);
            && !(m.socket.Some? && m.timers != map[])
            && (m.begun && !m.stopped && !m.state.Fallback? ==> m.socket.Some? || m.timers != map[])
            && (forall t | t in m.timers :: t == m.reconnectTimer && m.losses > 0 && m.timers[t] == Delay(m.losses - 1))
            && FIRST_BACKOFF <= m.backoff <= MAX_BACKOFF
  {
    InitialInv(b);
    RunKeeps(b, Initial, events);
  }

  /** A step that gives up on WebSocket: onFallback is called. */
  predicate FallsBack(b: Browser, m: Machine, e: Event)
    requires Enabled(m, e)
  {
    Step(b, m, e).fallbacks > m.fallbacks
  }

  /** This step loses a connection, or fails to open one. */
  predicate Loses(b: Browser, m: Machine, e: Event)
    requires Enabled(m, e)
  {
    match e
    case Close(socket, code) => m.socket == Some(socket) && !m.stopped && !Rejection(code)
    case TimerFires(_, throws) => throws
    case Connect(throws) => throws && !m.stopped
    case Restart(throws) => throws
    case _ => false
  }

  /** Failures in a row after this step, when it loses: a restart starts counting anew. */
  function FailuresAfter(m: Machine, e: Event): nat { if e.Restart? then 1 else m.failures + 1 }

  /**
   Where WebSocket exists, the machine falls back at exactly the third failure since the last restart
   that no `ready` came between, and never once a `ready` was seen.
   */
  lemma FallbackAtThirdFailure(b: Browser, events: seq<Event>, e: Event)
    requires b.hasWebSocket && IsRun(b, Initial, events) && Enabled(After(b, Initial, events), e)
    ensures var m := After(b, Initial, events);
            FallsBack(b, m, e) <==> !m.everReady && Loses(b, m, e) && FailuresAfter(m, e) == FALLBACK_AFTER
  {
    InitialInv(b);
    RunKeeps(b, Initial, events);
    FallsBackExactly(b, After(b, Initial, events), e);
  }

  lemma FallsBackExactly(b: Browser, m: Machine, e: Event)
    requires b.hasWebSocket && Inv(b, m) && Enabled(m, e)
    ensures FallsBack(b, m, e) <==> !m.everReady && Loses(b, m, e) && FailuresAfter(m, e) == FALLBACK_AFTER
  {
    match e
    case TimerFires(timer, throws) => OnlyTimer(m.timers, timer);
    case _ =>
  }

  /** Until the first `ready`, the failures counted are the connections lost since the last restart. */
  lemma FailuresAreLosses(b: Browser, events: seq<Event>)
    requires IsRun(b, Initial, events) && !After(b, Initial, events).everReady
    ensures var m := After(b, Initial, events); m.failures == m.losses <= FALLBACK_AFTER
  {
    InitialInv(b);
    RunKeeps(b, Initial, events);
  }

  /** `ready` was seen once: it stays so, and no later step of any run falls back. */
  lemma {:induction false} NoFallbackOnceReady(b: Browser, m: Machine, events: seq<Event>)
    requires b.hasWebSocket && m.everReady && IsRun(b, m, events)
    ensures After(b, m, events).everReady && After(b, m, events).fallbacks == m.fallbacks
    decreases |events|
  {
    if events != [] {
      ReadyStays(b, m, events[0]);
      NoFallbackOnceReady(b, Step(b, m, events[0]), events[1..]);
    }
  }

  lemma ReadyStays(b: Browser, m: Machine, e: Event)
    requires b.hasWebSocket && m.everReady && Enabled(m, e)
    ensures Step(b, m, e).everReady && Step(b, m, e).fallbacks == m.fallbacks
  {
  }

  // ---- After close() or a rejection --------------------------------------------------------------

  /** Nothing is left that could open a connection. */
  predicate Quiet(m: Machine) { m.stopped && m.socket.None? && m.timers == map[] }

  /** close() and an application rejection of the current socket both leave the machine quiet. */
  lemma CloseQuiets(b: Browser, m: Machine, code: nat)
    requires Inv(b, m)
    ensures Quiet(CloseNow(m)) && CloseNow(m).state.Closed?
    ensures m.socket.Some? && (m.stopped || Rejection(code)) ==> Quiet(OnClose(m, m.socket.value, code))
  {
    OnlyTimer(m.timers, m.reconnectTimer);
  }

  /** No restart() is called in the run. */
  ghost predicate NoRestart(events: seq<Event>)
    decreases |events|
  {
    events == [] || (!events[0].Restart? && NoRestart(events[1..]))
  }

  /** From there no connection opens, in any run, until restart() is called. */
  lemma {:induction false} QuietUntilRestart(b: Browser, m: Machine, events: seq<Event>)
    requires Quiet(m) && IsRun(b, m, events) && NoRestart(events)
    ensures Quiet(After(b, m, events)) && After(b, m, events).connections == m.connections
    decreases |events|
  {
    if events != [] {
      QuietStays(b, m, events[0]);
      QuietUntilRestart(b, Step(b, m, events[0]), events[1..]);
    }
  }

  lemma QuietStays(b: Browser, m: Machine, e: Event)
    requires Quiet(m) && Enabled(m, e) && !e.Restart?
    ensures Quiet(Step(b, m, e)) && Step(b, m, e).connections == m.connections
  {
  }

  // ---- Between a fatal error frame and the close of its socket -----------------------------------

  /** A lasting error frame with any code but the three fatal ones: it clears the stopped flag. */
  predicate Revives(message: ServerMessage) {
    message.ErrorMessage? && !message.transient && message.code !in {4401, 4403, 4404}
  }

  /** A stopped machine whose socket is still open stays stopped exactly if the frame does not revive it. */
  lemma StopsThroughExactly(b: Browser, m: Machine, message: ServerMessage)
    requires Inv(b, m) && m.stopped && m.socket.Some?
    ensures OnMessage(m, message).stopped <==> !Revives(message)
  {
  }

  ghost predicate NoneRevives(events: seq<Event>)
    decreases |events|
  {
    events == [] || (!(events[0].Message? && Revives(events[0].message)) && NoneRevives(events[1..]))
  }

  /** Stopped in every state of the run. */
  ghost predicate AlwaysStopped(b: Browser, m: Machine, events: seq<Event>)
    requires IsRun(b, m, events)
    decreases |events|
  {
    m.stopped && (events == [] || AlwaysStopped(b, Step(b, m, events[0]), events[1..]))
  }

  lemma StoppedStep(b: Browser, m: Machine, e: Event)
    requires Inv(b, m) && m.stopped && Enabled(m, e) && !e.Restart?
    ensures var n := Step(b, m, e);
            n.connections == m.connections && (n.stopped <==> !(e.Message? && Revives(e.message)))
  {
  }

  /**
   Over every run without restart(), a stopped machine stays stopped throughout, and opens no
   connection, exactly if no frame revives it: also while its socket is still open.
   */
  lemma {:induction false} StoppedUntilRevived(b: Browser, m: Machine, events: seq<Event>)
    requires Inv(b, m) && m.stopped && IsRun(b, m, events) && NoRestart(events)
    ensures AlwaysStopped(b, m, events) <==> NoneRevives(events)
    ensures NoneRevives(events) ==> After(b, m, events).stopped && After(b, m, events).connections == m.connections
    decreases |events|
  {
    if events != [] {
      StoppedStep(b, m, events[0]);
      if !(events[0].Message? && Revives(events[0].message)) {
        StepKeeps(b, m, events[0]);
        StoppedUntilRevived(b, Step(b, m, events[0]), events[1..]);
      }
    }
  }

  /** The input that fails: refused with 4401, then told of another error, the page reconnects on the close. */
  lemma LaterErrorRevives(b: Browser)
    requires b.hasWebSocket
    ensures var events := [Connect(false), Message(ErrorMessage(4401, false)), Message(ErrorMessage(4500, false)),
                           Close(0, 1006)];
            IsRun(b, Initial, events)
            && var m := After(b, Initial, events); m.state.Reconnecting? && m.timers == map[1 := FIRST_BACKOFF]
  {
    var p := Step(b, Initial, Connect(false));
    var q := Step(b, p, Message(ErrorMessage(4401, false)));
    var r := Step(b, q, Message(ErrorMessage(4500, false)));
    var t := Step(b, r, Close(0, 1006));
    assert t.timers == map[1 := FIRST_BACKOFF];
    assert After(b, t, []) == t;
    assert After(b, r, [Close(0, 1006)]) == t;
    assert After(b, q, [Message(ErrorMessage(4500, false)), Close(0, 1006)]) == t;
    assert After(b, p, [Message(ErrorMessage(4401, false)), Message(ErrorMessage(4500, false)), Close(0, 1006)]) == t;
  }

  // ---- When exactly it is stopped ------------------------------------------------------------------

  /** An error frame that is not transient. */
  predicate LastingError(message: ServerMessage) { message.ErrorMessage? && !message.transient }

  /**
   Stops the machine for good: a lasting 4401, 4403 or 4404, close(), or the current socket closed with an
   application code, from 4400 to 4499 but not 4502.
   */
  predicate Stops(m: Machine, e: Event) {
    match e
    case Message(message) => LastingError(message) && message.code in {4401, 4403, 4404}
    case Close(socket, code) => m.socket == Some(socket) && 4400 <= code <= 4499 && code != 4502
    case CloseCalled => true
    case _ => false
  }

  /** restart(), or a lasting error with any other code. */
  predicate Resumes(e: Event) { e.Restart? || (e.Message? && Revives(e.message)) }

  ghost predicate NoneResumes(events: seq<Event>)
    decreases |events|
  {
    events == [] || (!Resumes(events[0]) && NoneResumes(events[1..]))
  }

  /** Something stops the machine in this run, and nothing after it resumes. */
  ghost predicate LastStopStands(b: Browser, m: Machine, events: seq<Event>)
    requires IsRun(b, m, events)
    decreases |events|
  {
    events != []
    && (LastStopStands(b, Step(b, m, events[0]), events[1..]) || (Stops(m, events[0]) && NoneResumes(events[1..])))
  }

  lemma StepStops(b: Browser, m: Machine, e: Event)
    requires Enabled(m, e)
    ensures Step(b, m, e).stopped <==> Stops(m, e) || (m.stopped && !Resumes(e))
  {
  }

  lemma {:induction false} RunStops(b: Browser, m: Machine, events: seq<Event>)
    requires IsRun(b, m, events)
    ensures After(b, m, events).stopped <==> LastStopStands(b, m, events) || (m.stopped && NoneResumes(events))
    decreases |events|
  {
    if events != [] {
      StepStops(b, m, events[0]);
      hide Stops, Resumes, Step;
      RunStops(b, Step(b, m, events[0]), events[1..]);
    }
  }

  /**
   In every run the machine is stopped exactly if it was refused, closed or rejected, and neither restart()
   nor a lasting error with another code came after that.
   */
  lemma StoppedExactly(b: Browser, events: seq<Event>)
    requires IsRun(b, Initial, events)
    ensures After(b, Initial, events).stopped <==> LastStopStands(b, Initial, events)
  {
    RunStops(b, Initial, events);
  }

  /**
   Refused: after a lasting 4401, 4403 or 4404, in any run and whatever the machine was doing, it is stopped
   and opens no connection, however its socket closes, until a reviving frame or restart() comes.
   */
  lemma RefusedStaysStopped(b: Browser, before: seq<Event>, code: nat, later: seq<Event>)
    requires code in {4401, 4403, 4404}
    requires IsRun(b, Initial, before) && After(b, Initial, before).socket.Some?
    requires IsRun(b, OnMessage(After(b, Initial, before), ErrorMessage(code, false)), later) && NoneResumes(later)
    ensures var m := OnMessage(After(b, Initial, before), ErrorMessage(code, false));
            && AlwaysStopped(b, m, later) && After(b, m, later).connections == m.connections
            && forall closing :: OnClose(m, m.socket.value, closing) == m.(socket := None, state := Closed)
  {
    InitialInv(b);
    RunKeeps(b, Initial, before);
    var m := After(b, Initial, before);
    MessageKeeps(b, m, ErrorMessage(code, false));
    NoneResumesParts(later);
    StoppedUntilRevived(b, OnMessage(m, ErrorMessage(code, false)), later);
  }

  lemma {:induction false} NoneResumesParts(events: seq<Event>)
    requires NoneResumes(events)
    ensures NoRestart(events) && NoneRevives(events)
    decreases |events|
  {
    if events != [] { NoneResumesParts(events[1..]); }
  }

  /** Any other frame leaves a running machine running: losing its socket then leads to another try or the fallback. */
  lemma OtherwiseRunsOn(b: Browser, m: Machine, message: ServerMessage, closing: nat)
    requires Inv(b, m) && m.socket.Some? && !m.stopped && !Rejection(closing)
    ensures var n := OnMessage(m, message);
            && (n.stopped <==> LastingError(message) && message.code in {4401, 4403, 4404})
            && (OnClose(n, m.socket.value, closing).state.Closed? <==> n.stopped)
            && (!n.stopped ==> var c := OnClose(n, m.socket.value, closing); c.state.Fallback? || c.timers != map[])
  {
    var n := OnMessage(m, message);
    MessageKeeps(b, m, message);
    CloseGives(b, n, m.socket.value, closing);
    var c := OnClose(n, m.socket.value, closing);
    if OneTimerOf(c, Delay(n.losses)) { assert c.reconnectTimer in c.timers; }
  }

  /** The refused run: 4401 and then a lost connection leave the page closed, with nothing pending. */
  lemma RefusedRun(b: Browser)
    requires b.hasWebSocket
    ensures var events := [Connect(false), Message(ErrorMessage(4401, false)), Close(0, 1006)];
            IsRun(b, Initial, events)
            && var m := After(b, Initial, events); m.state.Closed? && m.stopped && m.socket.None? && m.timers == map[]
  {
    var p := Step(b, Initial, Connect(false));
    var q := Step(b, p, Message(ErrorMessage(4401, false)));
    var r := Step(b, q, Close(0, 1006));
    assert After(b, r, []) == r;
    assert After(b, q, [Close(0, 1006)]) == r;
    assert After(b, p, [Message(ErrorMessage(4401, false)), Close(0, 1006)]) == r;
  }

  // ---- What the page displays -------------------------------------------------------------------------

  /**
   The displayed state: live while `ready` was seen on the open socket, reconnecting from a loss until then, and
   closed once stopped without a socket.
   */
  ghost predicate Displays(m: Machine) {
    && (m.timers != map[] ==> m.state.Reconnecting?)
    && (m.socket.Some? ==> (m.state.Live? <==> m.ready) && !m.state.Closed? && !m.state.Fallback?)
    && (m.socket.Some? && !m.ready && m.losses > 0 ==> m.state.Reconnecting?) && (!m.begun ==> m.losses == 0)
    && (m.socket.None? ==> (m.state.Closed? <==> m.stopped))
  }

  lemma StepDisplays(b: Browser, m: Machine, e: Event)
    requires Inv(b, m) && Displays(m) && Enabled(m, e)
    ensures Displays(Step(b, m, e))
  {
    if e.TimerFires? { OnlyTimer(m.timers, e.timer); }
    OnlyTimer(m.timers, m.reconnectTimer);
  }

  lemma {:induction false} RunDisplays(b: Browser, m: Machine, events: seq<Event>)
    requires Inv(b, m) && Displays(m) && IsRun(b, m, events)
    ensures Displays(After(b, m, events))
    decreases |events|
  {
    if events != [] {
      StepKeeps(b, m, events[0]);
      StepDisplays(b, m, events[0]);
      hide Inv, Displays, Step;
      RunDisplays(b, Step(b, m, events[0]), events[1..]);
    }
  }

  /** In every run the page shows live exactly while its socket is ready, and reconnecting or closed as it should. */
  lemma StateShows(b: Browser, events: seq<Event>)
    requires IsRun(b, Initial, events)
    ensures Displays(After(b, Initial, events))
  {
    InitialInv(b);
    RunDisplays(b, Initial, events);
  }

  // ---- What each operation leaves, for the object ----------------------------------------------------

  /** Where connect() may be called: stopped, or with nothing open, nothing pending and not given up. */
  ghost predicate MayConnect(b: Browser, m: Machine) {
    && Core(b, m)
    && (if m.stopped then m.socket.None? ==> m.timers == map[] else m.socket.None? && m.timers == map[] && !GaveUp(m))
  }

  /** Where a reconnection may be scheduled: likewise, on a page that has WebSocket and has begun. */
  ghost predicate MayReconnect(b: Browser, m: Machine) {
    MayConnect(b, m) && (m.stopped || (b.hasWebSocket && m.begun))
  }

  /** Exactly one timer is pending, and it fires after `delay`. */
  ghost predicate OneTimerOf(m: Machine, delay: nat) {
    m.timers == map[m.reconnectTimer := delay]
  }

  /** Given up at the third failure without a `ready`, or one timer with the delay the losses so far call for. */
  lemma ReconnectGives(b: Browser, m: Machine)
    requires MayReconnect(b, m)
    ensures var n := ScheduleReconnect(m);
            if m.stopped then n == m
            else
              && Inv(b, n) && n.socket.None? && n.connections == m.connections
              && n.losses == m.losses + 1
              && if !m.everReady && m.failures + 1 == FALLBACK_AFTER
                 then n.state.Fallback? && n.fallbacks == m.fallbacks + 1 && n.timers == map[]
                 else n.state.Reconnecting? && n.fallbacks == m.fallbacks && OneTimerOf(n, Delay(m.losses))
  {
    if !m.stopped { ScheduleKeeps(b, m); }
  }

  /** An attempt that has not opened its socket yet may be scheduled again. */
  lemma AttemptMayReconnect(b: Browser, m: Machine, state: Transport)
    requires MayConnect(b, m) && !m.stopped && b.hasWebSocket
    ensures MayReconnect(b, m.(begun := true, ready := false, state := state))
  {
  }

  /** A socket opened at once, or what a failed attempt gives; where WebSocket is missing, the fallback. */
  lemma ConnectGives(b: Browser, m: Machine, throws: bool)
    requires MayConnect(b, m)
    ensures var n := ConnectNow(b, m, throws);
            && (m.stopped ==> n == m.(begun := true) && MayConnect(b, n))
            && (!m.stopped ==> Inv(b, n) && !n.stopped && Prospects(n) == One(!n.state.Fallback?))
            && (!m.stopped && b.hasWebSocket && !throws ==>
                  n.socket == Some(m.connections) && n.connections == m.connections + 1)
  {
    if !m.stopped { ConnectKeeps(b, m, throws); }
  }

  /** The close of the current socket: closed for good, or tried again. Other sockets change nothing. */
  lemma CloseGives(b: Browser, m: Machine, socket: nat, code: nat)
    requires Inv(b, m) && Enabled(m, Close(socket, code))
    ensures var n := OnClose(m, socket, code);
            && Inv(b, n) && n.connections == m.connections
            && (m.socket != Some(socket) ==> n == m)
            && (m.socket == Some(socket) ==>
                  if m.stopped || Rejection(code) then Quiet(n) && n.state.Closed?
                  else !n.stopped && n.socket.None? && (n.state.Fallback? || OneTimerOf(n, Delay(m.losses))))
  {
    CloseKeeps(b, m, socket, code);
    if m.socket == Some(socket) && !m.stopped && !Rejection(code) { ReconnectGives(b, m.(socket := None)); }
  }
}
