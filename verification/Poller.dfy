/**
 The polling loop of a cluster page (DataPoller.ts) in every interleaving of responses, timers and
 restarts: at most one chain of polls is alive, and stopping really stops.
 */
module Poller {
  import opened Seqs

  /**
   `timers` are the pending timers with the generation each captured, `requests` the polls awaiting a
   response with what they asked for, `resuming` the loops whose poll has returned but which have not
   run on. `target` stands for the cluster, callback and parameter polled; `started` counts requests.
   */
  datatype State = State(
    stopped: bool, generation: nat, timeout: int, timers: map<int, nat>, nextTimer: nat,
    requests: map<nat, nat>, resuming: set<nat>, started: nat,
    target: nat, data: Option<nat>, loaded: bool, unable: bool)

  datatype Response = Success | AuthenticationFailed | PermissionDenied | Canceled | OtherError

  datatype Event =
    | Mount
    | Unmount
    | SetTarget(target: nat)
    | Settle(generation: nat, response: Response)
    | Resume(generation: nat)
    | Fire(timer: int)

  function Fresh(target: nat): State {
    State(false, 0, -1, map[], 1, map[], {}, 0, target, None, false, false)
  }

  /** `start()` up to its first `await`: the request is out. */
  function Start(p: State): State {
    p.(generation := p.generation + 1, stopped := false, unable := false,
       requests := p.requests[p.generation + 1 := p.target], started := p.started + 1)
  }

  /** `stop()`; responses of aborted requests may still come in. */
  function Stop(p: State): State {
    p.(stopped := true, generation := p.generation + 1, timers := p.timers - {p.timeout}, timeout := -1)
  }

  /** The rest of `poll()` once the response to generation `g` is there. */
  function Settled(p: State, g: nat, response: Response): State
    requires g in p.requests
  {
    var q := p.(requests := p.requests - {g}, resuming := p.resuming + {g});
    match response
    case Success => q.(data := Some(p.requests[g]), loaded := true)
    case AuthenticationFailed => q
    case PermissionDenied => Stop(q).(unable := true)
    case Canceled => q
    case OtherError => q.(unable := true)
  }

  /** The rest of `start()` after its poll: only the latest loop arms the next tick. */
  function Resumed(p: State, g: nat): State {
    var q := p.(resuming := p.resuming - {g});
    if p.stopped || g != p.generation then q
    else q.(timeout := p.nextTimer, timers := p.timers[p.nextTimer := g], nextTimer := p.nextTimer + 1)
  }

  function Fired(p: State, timer: int): State
    requires timer in p.timers
  {
    var q := p.(timers := p.timers - {timer});
    if p.timers[timer] == p.generation then Start(q) else q
  }

  predicate Enabled(p: State, e: Event) {
    match e
    case Settle(g, _) => g in p.requests
    case Resume(g) => g in p.resuming
    case Fire(timer) => timer in p.timers
    case _ => true
  }

  function Step(p: State, e: Event): State
    requires Enabled(p, e)
  {
    match e
    case Mount => Start(p)
    case Unmount => Stop(p)
    case SetTarget(t) => Start(Stop(p).(target := t, loaded := false))
    case Settle(g, response) => Settled(p, g, response)
    case Resume(g) => Resumed(p, g)
    case Fire(timer) => Fired(p, timer)
  }

  ghost predicate IsRun(p: State, events: seq<Event>)
    decreases |events|
  {
    events == [] || (Enabled(p, events[0]) && IsRun(Step(p, events[0]), events[1..]))
  }

  function After(p: State, events: seq<Event>): State
    requires IsRun(p, events)
    decreases |events|
  {
    if events == [] then p else After(Step(p, events[0]), events[1..])
  }

  // ---- The one live chain -----------------------------------------------------------------

  /** Timers that will start a poll when they fire. */
  function LiveTimers(p: State): set<int> {
    set id | id in p.timers && p.timers[id] == p.generation
  }

  function One(b: bool): nat { if b then 1 else 0 }

  /** Chains that can still poll: armed timers and loops of the current generation. */
  function Live(p: State): nat {
    |LiveTimers(p)| + One(p.generation in p.requests) + One(p.generation in p.resuming)
  }

  /** `start()` ran after the last `stop()`. */
  predicate Running(p: State) { !p.stopped && p.generation > 0 }

  predicate Armed(p: State) { p.timeout in p.timers && p.timers[p.timeout] == p.generation }

  ghost predicate Inv(p: State) {
    && LiveTimers(p) == (if Armed(p) then {p.timeout} else {})
    && One(Armed(p)) + One(p.generation in p.requests) + One(p.generation in p.resuming) == One(Running(p))
    && Bounded(p)
  }

  /** Generations and timer numbers given out so far bound all that are in use. */
  ghost predicate Bounded(p: State) {
    && (forall g | g in p.requests || g in p.resuming :: g <= p.generation)
    && (forall id | id in p.timers :: 0 < id < p.nextTimer && p.timers[id] <= p.generation)
    && p.timeout < p.nextTimer && p.nextTimer > 0
  }

  lemma FreshInv(target: nat)
    ensures Inv(Fresh(target))
  {
  }

  /** Starting gives one live chain, whatever was alive before: all of it is superseded. */
  lemma StartKeeps(p: State)
    requires Bounded(p)
    ensures Inv(Start(p)) && Live(Start(p)) == 1
  {
    NoLiveTimers(Start(p));
  }

  lemma NoLiveTimers(p: State)
    requires forall id | id in p.timers :: p.timers[id] < p.generation
    ensures LiveTimers(p) == {} && !Armed(p)
  {
    assert forall id | id in p.timers :: p.timers[id] != p.generation;
  }

  lemma StopKeeps(p: State)
    requires Inv(p)
    ensures Inv(Stop(p))
  {
    NoLiveTimers(Stop(p));
  }

  lemma SettledKeeps(p: State, g: nat, response: Response)
    requires Inv(p) && g in p.requests && g !in p.resuming
    ensures Inv(Settled(p, g, response))
  {
    var q := p.(requests := p.requests - {g}, resuming := p.resuming + {g});
    assert LiveTimers(q) == LiveTimers(p);
    assert Inv(q);
    StopKeeps(q);
    var r := Settled(p, g, response);
    assert LiveTimers(r) == LiveTimers(if response.PermissionDenied? then Stop(q) else q);
  }

  lemma ResumedKeeps(p: State, g: nat)
    requires Inv(p) && g in p.resuming
    ensures Inv(Resumed(p, g))
  {
    var q := Resumed(p, g);
    if p.stopped || g != p.generation {
      assert LiveTimers(q) == LiveTimers(p);
    } else {
      assert LiveTimers(q) == {p.nextTimer};
    }
  }

  lemma FiredKeeps(p: State, timer: int)
    requires Inv(p) && timer in p.timers
    ensures Inv(Fired(p, timer))
  {
    var q := p.(timers := p.timers - {timer});
    if p.timers[timer] == p.generation {
      assert timer in LiveTimers(p);
      NoLiveTimers(Start(q));
    } else {
      assert LiveTimers(q) == LiveTimers(p);
    }
  }

  /** No loop is in two places at once. */
  ghost predicate Apart(p: State) {
    && (forall g | g in p.requests :: g !in p.resuming)
    && (forall g | g in p.requests || g in p.resuming :: g <= p.generation)
  }

  lemma StepKeeps(p: State, e: Event)
    requires Inv(p) && Apart(p) && Enabled(p, e)
    ensures Inv(Step(p, e)) && Apart(Step(p, e))
  {
    match e
    case Mount => StartKeeps(p);
    case Unmount => StopKeeps(p);
    case SetTarget(t) =>
      StopKeeps(p);
      var q := Stop(p).(target := t, loaded := false);
      assert LiveTimers(q) == LiveTimers(Stop(p));
      StartKeeps(q);
    case Settle(g, response) => SettledKeeps(p, g, response);
    case Resume(g) => ResumedKeeps(p, g);
    case Fire(timer) => FiredKeeps(p, timer);
  }

  lemma {:induction false} RunKeeps(p: State, events: seq<Event>)
    requires Inv(p) && Apart(p) && IsRun(p, events)
    ensures Inv(After(p, events)) && Apart(After(p, events))
    decreases |events|
  {
    if events != [] {
      StepKeeps(p, events[0]);
      RunKeeps(Step(p, events[0]), events[1..]);
    }
  }

  /**
   One live chain. In every interleaving, pending timers and loops of the current generation number
   exactly one while the poller runs and none otherwise; a timer that will still act is the one
   held in `_timeout`.
   */
  lemma OneLiveChain(target: nat, events: seq<Event>)
    requires IsRun(Fresh(target), events)
    ensures var p := After(Fresh(target), events);
            Live(p) == (if Running(p) then 1 else 0) && LiveTimers(p) <= {p.timeout}
  {
    RunKeeps(Fresh(target), events);
  }

  // ---- Stopping -----------------------------------------------------------------------------

  /** Neither a setter nor a mount. */
  predicate Passive(e: Event) { !e.Mount? && !e.SetTarget? }

  ghost predicate AllPassive(events: seq<Event>) { forall i | 0 <= i < |events| :: Passive(events[i]) }

  lemma StoppedStays(p: State, e: Event)
    requires Inv(p) && p.stopped && Enabled(p, e) && Passive(e)
    ensures var q := Step(p, e); q.stopped && q.started == p.started
  {
    assert forall id | id in p.timers && p.timers[id] == p.generation :: id in LiveTimers(p);
  }

  /** Once stopped, no request starts until a setter or a mount, whatever still completes or fires. */
  lemma {:induction false} NoRequestAfterStop(p: State, events: seq<Event>)
    requires Inv(p) && Apart(p) && p.stopped && IsRun(p, events) && AllPassive(events)
    ensures After(p, events).stopped && After(p, events).started == p.started
    decreases |events|
  {
    if events != [] {
      assert Passive(events[0]);
      StoppedStays(p, events[0]);
      StepKeeps(p, events[0]);
      assert forall i | 0 <= i < |events[1..]| :: events[1..][i] == events[i + 1];
      NoRequestAfterStop(Step(p, events[0]), events[1..]);
    }
  }

  /** Every `stop()` in a run of the poller ends all polling until the next setter or mount. */
  lemma StopEndsPolling(target: nat, before: seq<Event>, later: seq<Event>)
    requires IsRun(Fresh(target), before)
    requires var p := After(Fresh(target), before); IsRun(Stop(p), later) && AllPassive(later)
    ensures var p := After(Fresh(target), before);
            After(Stop(p), later).started == p.started && Live(After(Stop(p), later)) == 0
  {
    var p := After(Fresh(target), before);
    RunKeeps(Fresh(target), before);
    StopKeeps(p);
    NoRequestAfterStop(Stop(p), later);
    RunKeeps(Stop(p), later);
  }

  // ---- Which events keep it polling ------------------------------------------------------------

  predicate Starts(e: Event) { e.Mount? || e.SetTarget? }

  /** An unmount, or a denied permission for any request at all, however old. */
  predicate Ends(e: Event) { e.Unmount? || (e.Settle? && e.response.PermissionDenied?) }

  ghost predicate NoneEnds(events: seq<Event>)
    decreases |events|
  {
    events == [] || (!Ends(events[0]) && NoneEnds(events[1..]))
  }

  /** The last mount or setter is followed by no unmount and no denied permission. */
  ghost predicate LastStartStands(events: seq<Event>)
    decreases |events|
  {
    events != [] && (LastStartStands(events[1..]) || (Starts(events[0]) && NoneEnds(events[1..])))
  }

  lemma StepRuns(p: State, e: Event)
    requires Inv(p) && Apart(p) && Enabled(p, e)
    ensures Running(Step(p, e)) <==> Starts(e) || (Running(p) && !Ends(e))
  {
    assert forall id | id in p.timers && p.timers[id] == p.generation :: id in LiveTimers(p);
  }

  lemma {:induction false} RunRuns(p: State, events: seq<Event>)
    requires Inv(p) && Apart(p) && IsRun(p, events)
    ensures Running(After(p, events)) <==> LastStartStands(events) || (Running(p) && NoneEnds(events))
    decreases |events|
  {
    if events != [] {
      StepRuns(p, events[0]);
      StepKeeps(p, events[0]);
      RunRuns(Step(p, events[0]), events[1..]);
    }
  }

  /**
   In every run the poller has its one live chain exactly if the last mount or setter is followed by
   no unmount and no denied permission.
   */
  lemma PollsExactly(target: nat, events: seq<Event>)
    requires IsRun(Fresh(target), events)
    ensures Live(After(Fresh(target), events)) == 1 <==> LastStartStands(events)
  {
    OneLiveChain(target, events);
    RunRuns(Fresh(target), events);
  }

  /**
   A response of any generation leaves the live chain alone unless it denies permission; then nothing
   is left alive, even when the request belongs to a loop that a restart had already replaced.
   */
  lemma ResponseKillsExactly(p: State, g: nat, response: Response)
    requires Inv(p) && Apart(p) && g in p.requests
    ensures Live(Step(p, Settle(g, response))) == (if response.PermissionDenied? then 0 else Live(p))
    ensures Running(p) ==> (Live(Step(p, Settle(g, response))) == 1 <==> !response.PermissionDenied?)
  {
    StepKeeps(p, Settle(g, response));
    StepRuns(p, Settle(g, response));
  }

  /** A loop that runs on arms a timer exactly if it is the latest and not stopped; that timer is the live chain. */
  lemma ResumedArms(p: State, g: nat)
    requires Inv(p) && Apart(p) && g in p.resuming
    ensures var q := Resumed(p, g);
            && Inv(q) && Apart(q) && Live(q) == Live(p)
            && (q.timers != p.timers <==> !p.stopped && g == p.generation)
            && (q.timers != p.timers ==> LiveTimers(q) == {q.timeout})
  {
    StepKeeps(p, Resume(g));
    StepRuns(p, Resume(g));
    var q := Resumed(p, g);
    if !p.stopped && g == p.generation {
      assert q.timeout in q.timers && q.timeout !in p.timers;
      assert q.timeout in LiveTimers(q);
    }
  }

  /** In particular the loop a setter has just started dies of its predecessor's denial, and of nothing else. */
  lemma StaleDenialStopsNewLoop(p: State, t: nat, g: nat, response: Response)
    requires Inv(p) && Apart(p) && g in p.requests
    ensures var q := Step(p, SetTarget(t));
            && Enabled(q, Settle(g, response)) && Live(q) == 1
            && (Live(Step(q, Settle(g, response))) == 0 <==> response.PermissionDenied?)
  {
    StepKeeps(p, SetTarget(t));
    ResponseKillsExactly(Step(p, SetTarget(t)), g, response);
  }

  // ---- Pending timers ---------------------------------------------------------------------------

  /** Every pending timer is the one in `_timeout`, and none is pending while a loop is under way. */
  ghost predicate OneTimer(p: State) {
    && (forall id | id in p.timers :: id == p.timeout)
    && (p.generation in p.requests || p.generation in p.resuming ==> p.timers == map[])
  }

  /** A mount while a timer of an earlier start is still pending. */
  predicate PendingMount(p: State, e: Event) { e.Mount? && p.timers != map[] }

  /** The only step that leaves a timer behind which `_timeout` will not hold. */
  lemma OneTimerExactly(p: State, e: Event)
    requires Inv(p) && Apart(p) && OneTimer(p) && Enabled(p, e)
    ensures OneTimer(Step(p, e)) <==> !PendingMount(p, e)
  {
    var q := Step(p, e);
    match e
    case Mount =>
    case SetTarget(t) => assert forall id: int :: id !in q.timers;
    case Fire(timer) => assert forall id: int :: id !in q.timers;
    case _ =>
  }

  ghost predicate NoPendingMount(p: State, events: seq<Event>)
    requires IsRun(p, events)
    decreases |events|
  {
    events == [] || (!PendingMount(p, events[0]) && NoPendingMount(Step(p, events[0]), events[1..]))
  }

  /** The timers are in order in every state of the run. */
  ghost predicate AlwaysOneTimer(p: State, events: seq<Event>)
    requires IsRun(p, events)
    decreases |events|
  {
    OneTimer(p) && (events == [] || AlwaysOneTimer(Step(p, events[0]), events[1..]))
  }

  lemma {:induction false} RunOneTimer(p: State, events: seq<Event>)
    requires Inv(p) && Apart(p) && OneTimer(p) && IsRun(p, events)
    ensures AlwaysOneTimer(p, events) <==> NoPendingMount(p, events)
    ensures AlwaysOneTimer(p, events) ==> OneTimer(After(p, events))
    decreases |events|
  {
    if events != [] {
      OneTimerExactly(p, events[0]);
      if !PendingMount(p, events[0]) {
        StepKeeps(p, events[0]);
        RunOneTimer(Step(p, events[0]), events[1..]);
      }
    }
  }

  /**
   In a run from the start, any pending timer at all is the one `stop()` would clear, and none runs
   beside a poll, exactly as long as no mount comes while a timer is pending.
   */
  lemma PendingTimerIsHeld(target: nat, events: seq<Event>)
    requires IsRun(Fresh(target), events)
    ensures AlwaysOneTimer(Fresh(target), events) <==> NoPendingMount(Fresh(target), events)
    ensures NoPendingMount(Fresh(target), events) ==> OneTimer(After(Fresh(target), events))
  {
    FreshInv(target);
    RunOneTimer(Fresh(target), events);
  }

  /** The component is mounted once, before anything else happens to the poller. */
  ghost predicate MountedFirst(events: seq<Event>) { events != [] && events[0].Mount? && NoMount(events[1..]) }

  ghost predicate NoMount(events: seq<Event>)
    decreases |events|
  {
    events == [] || (!events[0].Mount? && NoMount(events[1..]))
  }

  lemma {:induction false} NoMountNonePending(p: State, events: seq<Event>)
    requires IsRun(p, events) && NoMount(events)
    ensures NoPendingMount(p, events)
    decreases |events|
  {
    if events != [] { NoMountNonePending(Step(p, events[0]), events[1..]); }
  }

  /** Mounted once and first, as a component is, no mount ever meets a pending timer. */
  lemma MountedFirstIsSafe(target: nat, events: seq<Event>)
    requires MountedFirst(events) && IsRun(Fresh(target), events)
    ensures NoPendingMount(Fresh(target), events) && OneTimer(After(Fresh(target), events))
  {
    NoMountNonePending(Step(Fresh(target), events[0]), events[1..]);
    PendingTimerIsHeld(target, events);
  }

  /** A setter before the mount leaves a timer behind that `_timeout` no longer holds; it does nothing. */
  lemma SetterBeforeMount(target: nat)
    ensures var events := [SetTarget(target), Settle(2, Success), Resume(2), Mount, Settle(3, Success), Resume(3)];
            IsRun(Fresh(target), events)
            && var p := After(Fresh(target), events); 1 in p.timers && p.timeout == 2 && p.timers[1] != p.generation
  {
    var a := Step(Fresh(target), SetTarget(target));
    var b := Step(a, Settle(2, Success));
    var c := Step(b, Resume(2));
    var d := Step(c, Mount);
    var e := Step(d, Settle(3, Success));
    var f := Step(e, Resume(3));
    assert After(f, []) == f;
    assert After(e, [Resume(3)]) == f;
    assert After(d, [Settle(3, Success), Resume(3)]) == f;
    assert After(c, [Mount, Settle(3, Success), Resume(3)]) == f;
    assert After(b, [Resume(2), Mount, Settle(3, Success), Resume(3)]) == f;
    assert After(a, [Settle(2, Success), Resume(2), Mount, Settle(3, Success), Resume(3)]) == f;
  }

  // ---- Whose data is shown ------------------------------------------------------------------------

  /** What is marked as loaded was fetched for the current cluster, callback and parameter. */
  predicate ShowsTarget(p: State) { p.loaded ==> p.data == Some(p.target) }

  /** Data arriving for a request that asked for something else than the current target. */
  predicate StaleSuccess(p: State, e: Event)
    requires Enabled(p, e)
  {
    e.Settle? && e.response.Success? && p.requests[e.generation] != p.target
  }

  /** The only step that shows data of another target. */
  lemma ShowsTargetExactly(p: State, e: Event)
    requires ShowsTarget(p) && Enabled(p, e)
    ensures ShowsTarget(Step(p, e)) <==> !StaleSuccess(p, e)
  {
  }

  ghost predicate NoStaleSuccess(p: State, events: seq<Event>)
    requires IsRun(p, events)
    decreases |events|
  {
    events == [] || (!StaleSuccess(p, events[0]) && NoStaleSuccess(Step(p, events[0]), events[1..]))
  }

  /** The page is right in every state of the run. */
  ghost predicate AlwaysShowsTarget(p: State, events: seq<Event>)
    requires IsRun(p, events)
    decreases |events|
  {
    ShowsTarget(p) && (events == [] || AlwaysShowsTarget(Step(p, events[0]), events[1..]))
  }

  lemma {:induction false} RunShowsTarget(p: State, events: seq<Event>)
    requires ShowsTarget(p) && IsRun(p, events)
    ensures AlwaysShowsTarget(p, events) <==> NoStaleSuccess(p, events)
    ensures AlwaysShowsTarget(p, events) ==> ShowsTarget(After(p, events))
    decreases |events|
  {
    if events != [] {
      ShowsTargetExactly(p, events[0]);
      if !StaleSuccess(p, events[0]) { RunShowsTarget(Step(p, events[0]), events[1..]); }
    }
  }

  /**
   Over a whole run, what is loaded is always the current target's data exactly if no data arrives
   for a request that asked for another target; data of an older request for the same target is harmless.
   */
  lemma LoadedDataIsCurrent(target: nat, events: seq<Event>)
    requires IsRun(Fresh(target), events)
    ensures AlwaysShowsTarget(Fresh(target), events) <==> NoStaleSuccess(Fresh(target), events)
    ensures NoStaleSuccess(Fresh(target), events) ==> ShowsTarget(After(Fresh(target), events))
  {
    RunShowsTarget(Fresh(target), events);
  }

  /** Aborted requests come back cancelled or in error, never with data. */
  predicate AbortWorks(p: State, e: Event) {
    e.Settle? && e.response.Success? ==> e.generation == p.generation
  }

  ghost predicate AbortAlwaysWorks(p: State, events: seq<Event>)
    requires IsRun(p, events)
    decreases |events|
  {
    events == [] || (AbortWorks(p, events[0]) && AbortAlwaysWorks(Step(p, events[0]), events[1..]))
  }

  /** The current request asks for the current target. */
  predicate AsksTarget(p: State) { p.generation in p.requests ==> p.requests[p.generation] == p.target }

  lemma {:induction false} AbortsPreventStale(p: State, events: seq<Event>)
    requires Inv(p) && Apart(p) && AsksTarget(p) && IsRun(p, events) && AbortAlwaysWorks(p, events)
    ensures NoStaleSuccess(p, events)
    decreases |events|
  {
    if events != [] {
      StepKeeps(p, events[0]);
      AbortsPreventStale(Step(p, events[0]), events[1..]);
    }
  }

  /** So the page is right throughout when every abort takes effect. */
  lemma AbortsSuffice(target: nat, events: seq<Event>)
    requires IsRun(Fresh(target), events) && AbortAlwaysWorks(Fresh(target), events)
    ensures AlwaysShowsTarget(Fresh(target), events)
  {
    AbortsPreventStale(Fresh(target), events);
    LoadedDataIsCurrent(target, events);
  }

  /** The input that fails: the first target's data slips past the abort and is shown as the second's. */
  lemma StaleSuccessShows(a: nat, b: nat)
    requires a != b
    ensures var events := [Mount, SetTarget(b), Settle(1, Success)];
            IsRun(Fresh(a), events) && !NoStaleSuccess(Fresh(a), events)
            && var p := After(Fresh(a), events); p.loaded && p.target == b && p.data == Some(a)
  {
    var p := Step(Fresh(a), Mount);
    var q := Step(p, SetTarget(b));
    var r := Step(q, Settle(1, Success));
    assert q.requests[1] == a;
    assert After(r, []) == r;
    assert After(q, [Settle(1, Success)]) == r;
    assert After(p, [SetTarget(b), Settle(1, Success)]) == r;
    LoadedDataIsCurrent(a, [Mount, SetTarget(b), Settle(1, Success)]);
  }

  // ---- When the page is marked unable ---------------------------------------------------------------

  /** A response that is an error other than an expired session or a cancelled request, to any request. */
  predicate Disables(e: Event) { e.Settle? && (e.response.PermissionDenied? || e.response.OtherError?) }

  /** A request is sent: on a mount, on a setter, and when a live timer fires. */
  predicate Polls(p: State, e: Event)
    requires Enabled(p, e)
  {
    e.Mount? || e.SetTarget? || (e.Fire? && p.timers[e.timer] == p.generation)
  }

  ghost predicate NoPoll(p: State, events: seq<Event>)
    requires IsRun(p, events)
    decreases |events|
  {
    events == [] || (!Polls(p, events[0]) && NoPoll(Step(p, events[0]), events[1..]))
  }

  /** Some response disables the page, and no request is sent after it. */
  ghost predicate LastErrorStands(p: State, events: seq<Event>)
    requires IsRun(p, events)
    decreases |events|
  {
    events != []
    && (LastErrorStands(Step(p, events[0]), events[1..])
        || (Disables(events[0]) && NoPoll(Step(p, events[0]), events[1..])))
  }

  lemma StepUnable(p: State, e: Event)
    requires Enabled(p, e)
    ensures Step(p, e).unable <==> Disables(e) || (p.unable && !Polls(p, e))
    ensures Step(p, e).started == p.started + if Polls(p, e) then 1 else 0
  {
  }

  lemma {:induction false} RunUnable(p: State, events: seq<Event>)
    requires IsRun(p, events)
    ensures After(p, events).unable <==> LastErrorStands(p, events) || (p.unable && NoPoll(p, events))
    decreases |events|
  {
    if events != [] {
      StepUnable(p, events[0]);
      hide Step, Polls, Disables;
      RunUnable(Step(p, events[0]), events[1..]);
    }
  }

  /**
   In every run the page is marked unable exactly if some response since the last request, whichever request
   it answers, was a denied permission or another error.
   */
  lemma UnableExactly(target: nat, events: seq<Event>)
    requires IsRun(Fresh(target), events)
    ensures After(Fresh(target), events).unable <==> LastErrorStands(Fresh(target), events)
  {
    RunUnable(Fresh(target), events);
  }
}
