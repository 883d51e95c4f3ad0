/**
 The reconnecting WebSocket as useJobLiveSocket.ts runs it: variables reassigned by connect, close,
 restart and the socket's handlers. Pending timers and three counters are kept beside them.
 */
module LiveSocketObject {
  import opened Seqs
  import opened LiveSocket

  class JobLiveSocket {
    const browser: Browser
    var state: Transport
    var socket: Option<nat>
    var reconnectTimer: int
    var backoff: nat
    var failures: nat
    var ready: bool
    var everReady: bool
    var stopped: bool
    var timers: map<int, nat>
    var nextTimer: nat
    var begun: bool
    var connections: nat
    var fallbacks: nat
    var losses: nat

    function View(): Machine
      reads this
    {
      Machine(state, socket, reconnectTimer, timers, nextTimer, backoff, failures, ready, everReady, stopped,
              begun, connections, fallbacks, losses)
    }

    /** What every run keeps: at most one of a socket and a pending timer, and exactly one while active. */
    ghost predicate Valid()
      reads this
    {
      Inv(browser, View())
    }

    constructor (browser: Browser)
      ensures Valid() && Prospects(View()) == 0
      ensures View() == Initial && this.browser == browser
    {
      this.browser := browser;
      state, socket, reconnectTimer, backoff, failures := Connecting, None, -1, FIRST_BACKOFF, 0;
      ready, everReady, stopped := false, false, false;
      timers, nextTimer, begun, connections, fallbacks, losses := map[], 1, false, 0, 0, 0;
    }

    method FallBack()
      modifies this
      ensures View() == GiveUp(old(View()))
    {
      state := Fallback;
      fallbacks := fallbacks + 1;
    }

    /**
     A connection was lost: given up at the third failure without a `ready`, otherwise exactly one
     timer, with the delay that the losses so far call for.
     */
    method Reconnect()
      requires MayReconnect(browser, View())
      modifies this
      ensures View() == ScheduleReconnect(old(View()))
      ensures !old(stopped) ==> Valid() && socket.None? && connections == old(connections)
      ensures !old(stopped) && !everReady && old(failures) + 1 == FALLBACK_AFTER ==>
                state.Fallback? && timers == map[] && fallbacks == old(fallbacks) + 1
      ensures !old(stopped) && !(!everReady && old(failures) + 1 == FALLBACK_AFTER) ==>
                state.Reconnecting? && OneTimerOf(View(), Delay(old(losses))) && fallbacks == old(fallbacks)
    {
      ReconnectGives(browser, View());
      hide Inv, MayReconnect, OneTimerOf;
      if stopped { return; }
      losses := losses + 1;
      if !ready { failures := failures + 1; }
      if !everReady && failures >= FALLBACK_AFTER {
        FallBack();
        return;
      }
      ArmTimer();
    }

    /** Replaces the pending timer by one that fires after the current backoff, and doubles the backoff. */
    method ArmTimer()
      modifies this
      ensures var m := old(View());
              View() == m.(state := Reconnecting, timers := (m.timers - {m.reconnectTimer})[m.nextTimer := m.backoff],
                           reconnectTimer := m.nextTimer, nextTimer := m.nextTimer + 1,
                           backoff := Min(MAX_BACKOFF, m.backoff * 2))
    {
      state := Reconnecting;
      timers := timers - {reconnectTimer};
      timers := timers[nextTimer := backoff];
      reconnectTimer := nextTimer;
      nextTimer := nextTimer + 1;
      backoff := Min(MAX_BACKOFF, backoff * 2);
    }

    /** Opens a socket, or schedules another try, or falls back: unless stopped, exactly one of the three. */
    method Connect(throws: bool)
      requires MayConnect(browser, View())
      modifies this
      ensures View() == ConnectNow(browser, old(View()), throws)
      ensures old(stopped) ==> View() == old(View()).(begun := true)
      ensures !old(stopped) ==> Valid() && !stopped && Prospects(View()) == One(!state.Fallback?)
      ensures !old(stopped) && browser.hasWebSocket && !throws ==>
                socket == Some(old(connections)) && connections == old(connections) + 1
    {
      ConnectGives(browser, View(), throws);
      ghost var was := View();
      hide Inv, Core, MayConnect, MayReconnect, Prospects, OneTimerOf, One, Delay;
      begun := true;
      if stopped { return; }
      if !browser.hasWebSocket {
        FallBack();
        return;
      }
      ready := false;
      if state != Reconnecting { state := Connecting; }
      if throws {
        AttemptMayReconnect(browser, was, state);
        Reconnect();
      } else {
        socket := Some(connections);
        connections := connections + 1;
      }
    }

    /**
     `onmessage` of the current socket: opens and arms nothing. A lasting error decides whether the machine
     is stopped, by its code alone; every other frame leaves that as it was.
     */
    method Receive(message: ServerMessage)
      requires Valid() && socket.Some?
      modifies this
      ensures View() == OnMessage(old(View()), message)
      ensures Valid() && socket == old(socket) && timers == old(timers) && connections == old(connections)
      ensures stopped <==> if LastingError(message) then message.code in {4401, 4403, 4404} else old(stopped)
      ensures message.Ready? ==> ready && everReady && failures == 0 && backoff == FIRST_BACKOFF && state.Live?
      ensures !message.Ready? ==> View() == old(View()).(stopped := stopped)
    {
      MessageKeeps(browser, View(), message);
      hide Inv;
      match message
      case Ready =>
        ready := true;
        everReady := true;
        failures := 0;
        losses := 0;
        backoff := FIRST_BACKOFF;
        state := Live;
      case ErrorMessage(code, transient) =>
        if !transient { stopped := code == 4401 || code == 4403 || code == 4404; }
      case Data =>
    }

    /** `onclose` of any socket; only the current one matters. */
    method SocketClosed(closing: nat, code: nat)
      requires Valid() && closing < connections
      modifies this
      ensures View() == OnClose(old(View()), closing, code)
      ensures Valid() && connections == old(connections)
      ensures old(socket) != Some(closing) ==> View() == old(View())
      ensures old(socket) == Some(closing) && (old(stopped) || (4400 <= code <= 4499 && code != 4502)) ==>
                Quiet(View()) && state.Closed?
      ensures old(socket) == Some(closing) && !old(stopped) && !(4400 <= code <= 4499 && code != 4502) ==>
                !stopped && socket.None? && (state.Fallback? || OneTimerOf(View(), Delay(old(losses))))
    {
      CloseGives(browser, View(), closing, code);
      if socket != Some(closing) { return; }
      socket := None;
      if stopped {
        state := Closed;
        return;
      }
      if Rejection(code) {
        stopped := true;
        state := Closed;
        return;
      }
      Reconnect();
    }

    /** The pending timer fires: another try, or nothing when stopped. */
    method TimerFires(timer: int, throws: bool)
      requires Valid() && timer in timers
      modifies this
      ensures View() == Step(browser, old(View()), Event.TimerFires(timer, throws))
      ensures Valid() && stopped == old(stopped)
      ensures stopped ==> connections == old(connections)
      ensures !stopped ==> Prospects(View()) == One(!state.Fallback?)
    {
      OnlyTimer(timers, timer);
      TimerKeeps(browser, View(), timer, throws);
      timers := timers - {timer};
      Connect(throws);
    }

    /** Nothing is left that could open a connection. */
    method Close()
      requires Valid()
      modifies this
      ensures View() == CloseNow(old(View()))
      ensures Valid() && Quiet(View()) && state.Closed? && connections == old(connections)
    {
      OnlyTimer(timers, reconnectTimer);
      stopped := true;
      timers := timers - {reconnectTimer};
      socket := None;
      state := Closed;
    }

    /** Whatever state it was in, stopped or given up, it is active again from the first delay on. */
    method Restart(throws: bool)
      requires Valid()
      modifies this
      ensures View() == RestartNow(browser, old(View()), throws)
      ensures Valid() && !stopped && Prospects(View()) == One(!state.Fallback?)
      ensures browser.hasWebSocket && !throws ==>
                socket == Some(old(connections)) && backoff == FIRST_BACKOFF && failures == 0
    {
      OnlyTimer(timers, reconnectTimer);
      timers := timers - {reconnectTimer};
      stopped := false;
      failures := 0;
      losses := 0;
      backoff := FIRST_BACKOFF;
      socket := None;
      assert View() == old(View()).(timers := timers, stopped := false, failures := 0, backoff := FIRST_BACKOFF,
                                    socket := None, losses := 0);
      Connect(throws);
    }
  }
}
