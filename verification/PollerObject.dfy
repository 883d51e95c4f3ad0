/**
 The poller as DataPoller.ts runs it: variables reassigned by start, stop, the setters, the rest of
 a poll and the timer callback. Pending timers and unfinished polls are kept beside them.
 */
module PollerObject {
  import opened Seqs
  import opened Poller

  class ClusterDataPoller {
    var stopped: bool
    var pollGeneration: nat
    var timeout: int
    var target: nat
    var data: Option<nat>
    var loaded: bool
    var unable: bool
    var timers: map<int, nat>
    var nextTimer: nat
    var requests: map<nat, nat>
    var resuming: set<nat>
    var started: nat

    function View(): State
      reads this
    {
      State(stopped, pollGeneration, timeout, timers, nextTimer, requests, resuming, started,
            target, data, loaded, unable)
    }

    /** What every run of the poller keeps: one live chain while it runs, none otherwise. */
    ghost predicate Valid()
      reads this
    {
      Inv(View()) && Apart(View())
    }

    constructor (target: nat)
      ensures Valid() && Live(View()) == 0
      ensures View() == Fresh(target)
    {
      stopped, pollGeneration, timeout := false, 0, -1;
      this.target, data, loaded, unable := target, None, false, false;
      timers, nextTimer, requests, resuming, started := map[], 1, map[], {}, 0;
    }

    /** `start()` up to the request; also what `onMounted` runs. Whatever was alive before is superseded. */
    method StartPolling()
      requires Bounded(View()) && Apart(View())
      modifies this
      ensures Valid() && Live(View()) == 1 && AsksTarget(View()) && pollGeneration in requests
      ensures target == old(target) && started == old(started) + 1 && !unable
      ensures View() == Start(old(View()))
    {
      StartKeeps(View());
      pollGeneration := pollGeneration + 1;
      stopped := false;
      unable := false;
      requests := requests[pollGeneration := target];
      started := started + 1;
    }

    /** `stop()`; also what `onUnmounted` runs. Nothing is left that could send a request. */
    method StopPolling()
      requires Valid()
      modifies this
      ensures Valid() && stopped && Live(View()) == 0 && timeout !in timers
      ensures started == old(started) && data == old(data) && loaded == old(loaded) && target == old(target)
      ensures View() == Stop(old(View()))
    {
      StepKeeps(View(), Unmount);
      stopped := true;
      pollGeneration := pollGeneration + 1;
      timers := timers - {timeout};
      timeout := -1;
    }

    /** `setCluster`, `setCallback` and `setParam`: one chain, for the new target, and nothing shown as loaded. */
    method SetTarget(t: nat)
      requires Valid()
      modifies this
      ensures Valid() && Live(View()) == 1 && AsksTarget(View()) && pollGeneration in requests
      ensures target == t && !loaded && !unable && started == old(started) + 1
      ensures View() == Step(old(View()), Event.SetTarget(t))
    {
      StopPolling();
      target := t;
      loaded := false;
      assert LiveTimers(View()) == {};
      StartPolling();
    }

    /**
     `poll()` after its `await`. Only a denied permission ends the live chain, whichever loop asked;
     only data changes what is shown, and it is right unless it answers a request for another target.
     */
    method PollReturns(g: nat, response: Response)
      requires Valid() && g in requests
      modifies this
      ensures Valid() && Live(View()) == (if response.PermissionDenied? then 0 else old(Live(View())))
      ensures started == old(started) && target == old(target)
      ensures response.Success? ==> loaded && data == Some(old(requests[g]))
      ensures !response.Success? ==> loaded == old(loaded) && data == old(data)
      ensures unable <==> response.PermissionDenied? || response.OtherError? || old(unable)
      ensures old(ShowsTarget(View())) ==> (ShowsTarget(View()) <==> !(response.Success? && old(requests[g]) != target))
      ensures View() == Settled(old(View()), g, response)
    {
      hide Inv, Apart, Live, Running;
      StepKeeps(View(), Settle(g, response));
      StepKeeps(View(), Settle(g, Canceled));
      ResponseKillsExactly(View(), g, response);
      var asked := requests[g];
      requests, resuming := requests - {g}, resuming + {g};
      assert View() == Step(old(View()), Settle(g, Canceled));
      match response
      case Success =>
        data := Some(asked);
        loaded := true;
      case AuthenticationFailed =>
      case PermissionDenied =>
        StopPolling();
        unable := true;
      case Canceled =>
      case OtherError => unable := true;
    }

    /** `start()` after its `await`: arms the next tick when its generation is still the latest. */
    method StartContinues(g: nat)
      requires Valid() && g in resuming
      modifies this
      ensures Valid() && Live(View()) == old(Live(View())) && started == old(started)
      ensures timers != old(timers) <==> !old(stopped) && g == old(pollGeneration)
      ensures timers != old(timers) ==> LiveTimers(View()) == {timeout}
      ensures View() == Resumed(old(View()), g)
    {
      hide Inv, Apart, Live, LiveTimers;
      ResumedArms(View(), g);
      resuming := resuming - {g};
      if !stopped && g == pollGeneration {
        timers := timers[nextTimer := g];
        timeout := nextTimer;
        nextTimer := nextTimer + 1;
      }
    }

    /** The timer callback: stale timers do nothing, a live one sends the next request. */
    method TimerFires(timer: int)
      requires Valid() && timer in timers
      modifies this
      ensures Valid() && Live(View()) == old(Live(View())) && timer !in timers
      ensures started == old(started) + One(old(timer in LiveTimers(View())))
      ensures View() == Fired(old(View()), timer)
    {
      StepKeeps(View(), Fire(timer));
      StepRuns(View(), Fire(timer));
      var g := timers[timer];
      timers := timers - {timer};
      if g == pollGeneration { StartPolling(); }
    }
  }
}
