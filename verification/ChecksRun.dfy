/**
 The checks channel over whole runs of the live session, events being recorded in any order: what the
 page has been told of, when its list is right for all that was recorded, and which events get lost.
 */
module ChecksRun {
  import opened Seqs
  import opened JobFiles
  import opened CheckEvents
  import opened LiveSession
  import opened LiveRun

  // ---- Stores and parts of them ---------------------------------------------------------------

  /** Event numbers are positive and never repeat. */
  ghost predicate StoreOk(store: seq<Event>) {
    DistinctNos(store) && forall e | e in store :: e.no > 0
  }

  function UpTo(all: seq<Event>, cursor: int): seq<Event> { all[..Rank(all, cursor)] }

  lemma {:induction false} UpToElements(all: seq<Event>, cursor: int)
    requires StrictlySorted(all)
    ensures StrictlySorted(UpTo(all, cursor))
    ensures forall e :: e in UpTo(all, cursor) <==> e in all && e.no <= cursor
  {
    if all == [] || Last(all).no <= cursor {
      TopBounds(all);
      assert UpTo(all, cursor) == all;
    } else {
      LastIsNewest(all);
      UpToElements(Init(all), cursor);
      assert UpTo(all, cursor) == UpTo(Init(all), cursor);
    }
  }

  /** Some recorded events, in order. */
  ghost predicate Part(v: seq<Event>, store: seq<Event>) {
    StrictlySorted(v) && forall e | e in v :: e in store
  }

  lemma TopBounds(v: seq<Event>)
    requires StrictlySorted(v)
    ensures forall e | e in v :: e.no <= Top(v)
  {
  }

  lemma TopOfPart(v: seq<Event>, store: seq<Event>)
    requires StoreOk(store) && Part(v, store)
    ensures 0 <= Top(v) <= Top(Sort(store)) && (v != [] ==> Last(v) in store)
  {
    SortStrict(store);
    TopBounds(Sort(store));
    if v != [] { assert Last(v) in v; }
    if Sort(store) != [] { assert Last(Sort(store)) in Sort(store); }
  }

  lemma WindowIsPart(store: seq<Event>)
    requires StoreOk(store)
    ensures Part(JobCheckEvents(store), store)
  {
    SortStrict(store);
    hide Sort;
    var all := Sort(store);
    if |all| > WINDOW { assert all == all[..|all| - WINDOW] + all[|all| - WINDOW..]; }
  }

  lemma WindowTop(store: seq<Event>)
    ensures Top(JobCheckEvents(store)) == Top(Sort(store))
  {
  }

  /** Recording an event anywhere in the files. */
  lemma RecordElements(store: seq<Event>, e: Event, at: nat)
    requires at <= |store|
    ensures forall x :: x in store[..at] + [e] + store[at..] <==> x == e || x in store
  {
    assert store == store[..at] + store[at..];
  }

  lemma RecordStore(store: seq<Event>, e: Event, at: nat)
    requires StoreOk(store) && at <= |store| && e.no > 0 && forall x | x in store :: x.no != e.no
    ensures StoreOk(store[..at] + [e] + store[at..])
  {
    var store' := store[..at] + [e] + store[at..];
    RecordElements(store, e, at);
    forall i, j | 0 <= i < j < |store'| ensures store'[i].no != store'[j].no {
      assert i != at ==> store'[i] == store[if i < at then i else i - 1];
      assert j != at ==> store'[j] == store[if j < at then j else j - 1];
    }
  }

  lemma StrictSnoc(v: seq<Event>, e: Event)
    requires StrictlySorted(v) && e.no > Top(v)
    ensures StrictlySorted(v + [e]) && Top(v + [e]) == e.no
    ensures forall x :: x in v + [e] <==> x == e || x in v
  {
    TopBounds(v);
    assert forall i | 0 <= i < |v| :: v[i] in v;
  }

  lemma {:induction false} StrictAppend(v: seq<Event>, more: seq<Event>)
    requires StrictlySorted(v) && StrictlySorted(more) && forall e | e in more :: e.no > Top(v)
    ensures StrictlySorted(v + more) && Top(v + more) == if more == [] then Top(v) else Top(more)
  {
    TopBounds(v);
    assert forall i | 0 <= i < |v| :: v[i] in v;
    assert forall i | 0 <= i < |more| :: more[i] in more;
    if more == [] { assert v + more == v; }
  }

  /** Replacing a check's event by a newer one keeps the list the latest view. */
  lemma UpsertKeepsLatest(list: seq<Event>, events: seq<Event>, e: Event)
    requires StrictlySorted(events + [e]) && IsLatest(list, events)
    ensures IsLatest(Sort(Upsert(list, e)), events + [e])
  {
    var all := events + [e];
    assert all[..|events|] == events;
    assert forall x | x in events :: x.no < e.no by {
      forall x | x in events ensures x.no < e.no {
        var i :| 0 <= i < |events| && events[i] == x;
        assert all[i] == x && all[|events|] == e;
      }
    }
    forall i, j | 0 <= i < j < |list| ensures list[i].key != list[j].key {
      assert list[i] in list && list[j] in list;
      assert Newest(events, list[i]) && Newest(events, list[j]);
    }
    var list' := Upsert(list, e);
    UpsertElements(list, e);
    forall x ensures x in list' <==> Newest(all, x) {
      assert x in list <==> Newest(events, x);
    }
    forall i, j | 0 <= i < j < |list'| ensures list'[i].no != list'[j].no {
      assert list'[i] in list' && list'[j] in list';
      SameNoSameEvent(all, list'[i], list'[j]);
    }
    SortStrict(list');
  }

  // ---- What the page and the session have been told ---------------------------------------------

  /** The events behind what the page shows, behind the session's snapshot, and behind all it has sent. */
  datatype Told = Told(page: seq<Event>, snapshot: seq<Event>, session: seq<Event>)

  const Untold := Told([], [], [])

  /** What one round reads above a cursor: the newest events only. */
  function Fresh(store: seq<Event>, cursor: int): seq<Event> { CheckEvents.After(JobCheckEvents(store), cursor) }

  predicate Subscribed(w: World) { w.session.Some? && w.session.value.channels != {} }

  function PageTold(told: Told, f: Frame): seq<Event> {
    match f
    case ChecksFrame(_) => told.snapshot
    case CheckFrame(e) => told.page + [e]
    case _ => told.page
  }

  /** A subscription tells the session's snapshot, a round what is above its cursor, a delivery the page. */
  function Tell(w: World, told: Told, a: Action): Told
    requires Enabled(w, a)
  {
    match a
    case Hear(_) =>
      if Subscribed(w) then told
      else told.(snapshot := JobCheckEvents(w.store), session := JobCheckEvents(w.store))
    case Tick(_) =>
      if Subscribed(w) then told.(session := told.session + Fresh(w.store, w.session.value.checksCursor)) else told
    case Deliver => told.(page := PageTold(told, w.relayOut[0]))
    case _ => told
  }

  function ToldAfter(w: World, told: Told, actions: seq<Action>): Told
    requires IsRun(w, actions)
    decreases |actions|
  {
    if actions == [] then told else ToldAfter(Step(w, actions[0]), Tell(w, told, actions[0]), actions[1..])
  }

  // ---- Frames in flight -------------------------------------------------------------------------

  /** The check frames tell, one by one, what the page has not been told of the session's events. */
  ghost predicate Follows(page: seq<Event>, frames: seq<Frame>, session: seq<Event>)
    decreases |frames|
  {
    if frames == [] then page == session
    else match frames[0]
      case ChecksFrame(_) => false
      case CheckFrame(e) => e.no > Top(page) && Follows(page + [e], frames[1..], session)
      case _ => Follows(page, frames[1..], session)
  }

  ghost predicate Shows(s: Snapshot, v: seq<Event>) {
    s.cursor == Top(v) && IsLatest(Underlying(s.checks), v)
  }

  /** The snapshot is still to come, and the rest follows on it. */
  ghost predicate Awaits(snapshot: seq<Event>, frames: seq<Frame>, session: seq<Event>)
    decreases |frames|
  {
    && frames != []
    && match frames[0]
       case ChecksFrame(s) => Shows(s, snapshot) && Follows(snapshot, frames[1..], session)
       case CheckFrame(_) => false
       case _ => Awaits(snapshot, frames[1..], session)
  }

  ghost predicate Leads(told: Told, frames: seq<Frame>) {
    || (told.snapshot <= told.page && Follows(told.page, frames, told.session))
    || (Top(told.page) <= Top(told.snapshot) && Awaits(told.snapshot, frames, told.session))
  }

  ghost predicate NoChecks(frames: seq<Frame>) {
    forall i | 0 <= i < |frames| :: !frames[i].ChecksFrame? && !frames[i].CheckFrame?
  }

  lemma {:induction false} QuietFollows(v: seq<Event>, frames: seq<Frame>)
    requires NoChecks(frames)
    ensures Follows(v, frames, v)
    decreases |frames|
  {
    if frames != [] { QuietFollows(v, frames[1..]); }
  }

  lemma {:induction false} FollowsConcat(
    page: seq<Event>, a: seq<Frame>, mid: seq<Event>, b: seq<Frame>, session: seq<Event>)
    requires Follows(page, a, mid) && Follows(mid, b, session)
    ensures Follows(page, a + b, session)
    decreases |a|
  {
    if a == [] {
      assert a + b == b;
    } else {
      assert (a + b)[1..] == a[1..] + b;
      FollowsConcat(if a[0].CheckFrame? then page + [a[0].event] else page, a[1..], mid, b, session);
    }
  }

  lemma {:induction false} AwaitsConcat(
    snapshot: seq<Event>, a: seq<Frame>, mid: seq<Event>, b: seq<Frame>, session: seq<Event>)
    requires Awaits(snapshot, a, mid) && Follows(mid, b, session)
    ensures Awaits(snapshot, a + b, session)
    decreases |a|
  {
    assert (a + b)[1..] == a[1..] + b;
    if a[0].ChecksFrame? {
      FollowsConcat(snapshot, a[1..], mid, b, session);
    } else {
      AwaitsConcat(snapshot, a[1..], mid, b, session);
    }
  }

  lemma {:induction false} AwaitsLater(snapshot: seq<Event>, a: seq<Frame>, b: seq<Frame>, session: seq<Event>)
    requires NoChecks(a) && Awaits(snapshot, b, session)
    ensures Awaits(snapshot, a + b, session)
    decreases |a|
  {
    if a == [] {
      assert a + b == b;
    } else {
      assert (a + b)[1..] == a[1..] + b;
      AwaitsLater(snapshot, a[1..], b, session);
    }
  }

  /** What follows only adds to what was told. */
  lemma {:induction false} FollowsExtends(page: seq<Event>, frames: seq<Frame>, session: seq<Event>)
    requires Follows(page, frames, session)
    ensures page <= session
    decreases |frames|
  {
    if frames != [] {
      FollowsExtends(if frames[0].CheckFrame? then page + [frames[0].event] else page, frames[1..], session);
    }
  }

  ghost predicate AllAbove(sent: seq<Event>, no: int) { forall e | e in sent :: e.no > no }

  lemma RestAbove(sent: seq<Event>)
    requires StrictlySorted(sent) && sent != []
    ensures StrictlySorted(sent[1..]) && AllAbove(sent[1..], sent[0].no)
  {
    var rest := sent[1..];
    forall x | x in rest ensures x.no > sent[0].no {
      var i :| 0 <= i < |rest| && rest[i] == x;
      assert sent[0].no < sent[i + 1].no;
    }
  }

  lemma {:induction false} PushedFollow(v: seq<Event>, sent: seq<Event>)
    requires StrictlySorted(sent) && AllAbove(sent, Top(v))
    ensures Follows(v, CheckFrames(sent), v + sent)
    decreases |sent|
  {
    if sent == [] {
      assert v + sent == v;
    } else {
      var e, rest := sent[0], sent[1..];
      RestAbove(sent);
      assert e in sent && Top(v + [e]) == e.no;
      hide StrictlySorted, AllAbove, Follows, Top;
      PushedFollow(v + [e], rest);
      assert (v + [e]) + rest == v + sent;
      EventFollows(v, e, CheckFrames(rest), v + sent);
      assert CheckFrames(sent) == [CheckFrame(e)] + CheckFrames(rest);
    }
  }

  lemma EventFollows(page: seq<Event>, e: Event, rest: seq<Frame>, session: seq<Event>)
    requires e.no > Top(page) && Follows(page + [e], rest, session)
    ensures Follows(page, [CheckFrame(e)] + rest, session)
  {
    assert ([CheckFrame(e)] + rest)[1..] == rest;
  }

  // ---- The invariant ------------------------------------------------------------------------------

  ghost predicate Displays(client: Client, v: seq<Event>) {
    IsLatest(client.checks, v) && client.checksCursor == Top(v)
  }

  /** The first message is a subscription at this checks cursor. */
  ghost predicate Resumes(uplink: seq<Message>, cursor: int) {
    uplink != [] && uplink[0].Subscribe? && uplink[0].checksCursor == Some(cursor)
  }

  ghost predicate SessionOk(w: World, told: Told)
    requires w.session.Some?
  {
    var s := w.session.value;
    if s.channels == {} then NoChecks(InFlight(w)) && Resumes(w.uplink, w.client.checksCursor)
    else
      && Checks in s.channels && s.checksCursor == Top(told.session)
      && Part(told.snapshot, w.store) && Part(told.session, w.store) && Leads(told, InFlight(w))
  }

  ghost predicate ChecksOk(w: World, told: Told) {
    && StoreOk(w.store) && Part(told.page, w.store) && Displays(w.client, told.page)
    && (w.session.Some? ==> SessionOk(w, told))
  }

  // ---- Serving --------------------------------------------------------------------------------------

  lemma {:induction false} AfterElements(events: seq<Event>, cursor: int)
    ensures forall e :: e in CheckEvents.After(events, cursor) <==> e in events && e.no > cursor
  {
    if events != [] {
      AfterElements(Init(events), cursor);
      assert events == Init(events) + [Last(events)];
    }
  }

  lemma FreshEvents(store: seq<Event>, cursor: int)
    requires StoreOk(store)
    ensures StrictlySorted(Fresh(store, cursor))
    ensures forall e :: e in Fresh(store, cursor) <==> e in JobCheckEvents(store) && e.no > cursor
  {
    WindowIsPart(store);
    AfterElements(JobCheckEvents(store), cursor);
    AfterIsSuffix(JobCheckEvents(store), cursor);
    hide JobCheckEvents, CheckEvents.After, StoreOk;
  }

  /** A round sends exactly the fresh events and moves the cursor to the last of them. */
  lemma PushFollows(s: Session, store: seq<Event>, v: seq<Event>)
    requires StoreOk(store) && StrictlySorted(v) && s.checksCursor == Top(v)
    ensures var (s', frames) := PushChecks(s, store);
            var v' := v + Fresh(store, s.checksCursor);
            && s' == s.(checksCursor := s'.checksCursor) && s'.checksCursor == Top(v') && Follows(v, frames, v')
  {
    var events, c := JobCheckEvents(store), s.checksCursor;
    WindowIsPart(store);
    FreshEvents(store, c);
    PushSkipsNothing(events, c);
    PushIncreases(events, c);
    PushedFollow(v, Fresh(store, c));
    StrictAppend(v, Fresh(store, c));
  }

  lemma {:induction false} LogFramesQuiet(fs: FileSystem, job: JobData, streams: seq<StreamState>)
    ensures NoChecks(PushStreams(fs, job, streams).1)
    decreases |streams|
  {
    if streams != [] { LogFramesQuiet(fs, job, streams[1..]); }
  }

  lemma RefreshQuiet(s: Session, refresh: Refresh)
    ensures var (s1, f1) := RefreshJob(s, refresh);
            NoChecks(f1) && s1 == s.(job := s1.job)
  {
  }

  lemma LogQuiet(s: Session, fs: FileSystem)
    ensures var (s', frames) := ServeLog(s, fs);
            NoChecks(frames) && s'.channels == s.channels && s'.checksCursor == s.checksCursor
  {
    LogFramesQuiet(fs, s.job, s.logStreams);
  }

  lemma ServiceFollows(s: Session, fs: FileSystem, store: seq<Event>, refresh: Refresh, v: seq<Event>)
    requires Checks in s.channels && StoreOk(store) && StrictlySorted(v) && s.checksCursor == Top(v)
    ensures var (s', frames) := Service(s, fs, store, refresh);
            var v' := v + Fresh(store, s.checksCursor);
            && s'.channels == s.channels && s'.checksCursor == Top(v') && Follows(v, frames, v')
  {
    hide Sort, JobCheckEvents, Follows, PushChecks, ServeLog, RefreshJob, Fresh, StoreOk, StrictlySorted, Top;
    var (s1, f1) := RefreshJob(s, refresh);
    var (s2, f2) := PushChecks(s1, store);
    var (s3, f3) := ServeLog(s2, fs);
    var v' := v + Fresh(store, s.checksCursor);
    RefreshQuiet(s, refresh);
    PushFollows(s1, store, v);
    LogQuiet(s2, fs);
    QuietFollows(v, f1);
    QuietFollows(v', f3);
    FollowsConcat(v, f1, v, f2, v');
    FollowsConcat(v, f1 + f2, v', f3, v');
    assert Service(s, fs, store, refresh) == (s3, f1 + f2 + f3) by { RoundParts(s, fs, store, refresh); }
  }

  lemma RoundParts(s: Session, fs: FileSystem, store: seq<Event>, refresh: Refresh)
    requires Checks in s.channels
    ensures var (s1, f1) := RefreshJob(s, refresh);
            var (s2, f2) := PushChecks(s1, store);
            var (s3, f3) := ServeLog(s2, fs);
            Service(s, fs, store, refresh) == (s3, f1 + f2 + f3)
  {
    RefreshQuiet(s, refresh);
    hide PushChecks, ServeLog, RefreshJob;
  }

  lemma SubscribedToChecks()
    ensures var request := ChannelsFrom(ChannelNames(["checks", "log", "gpu", "job"]));
            request.Some? && Checks in request.value
  {
    var names := ["checks", "log", "gpu", "job"];
    assert ChannelOf(names[0]) == Some(Checks);
    SubscribedChannels();
  }

  /** A subscription is answered with the snapshot and the confirmation. */
  lemma SubscribeServed(s: Session, client: Client, store: seq<Event>, now: real)
    requires client.checksCursor >= 0
    ensures var o, snapshot := Handle(s, SubscribeMessage(client), store, now), SnapshotOf(store, now);
            && o.Served? && Checks in o.session.channels
            && o.session.checksCursor == Max(client.checksCursor, snapshot.cursor)
            && |o.frames| == 2 && o.frames[0] == ChecksFrame(snapshot) && NoChecks([o.frames[1]])
  {
    hide SnapshotOf, ChannelsFrom, LogStreamsFrom, OffsetsOf;
    SubscribedToChecks();
    SubscribedStreams(client.out.cursor, client.err.cursor);
  }

  /** What a page's subscription gets: its snapshot of the newest events, and a session cursor at its end. */
  lemma SubscribeChecks(s: Session, client: Client, store: seq<Event>, now: real)
    returns (s': Session, frames: seq<Frame>)
    requires StoreOk(store) && 0 <= client.checksCursor <= Top(Sort(store))
    ensures Handle(s, SubscribeMessage(client), store, now) == Served(s', frames)
    ensures Checks in s'.channels && s'.checksCursor == Top(JobCheckEvents(store))
    ensures Awaits(JobCheckEvents(store), frames, JobCheckEvents(store))
    ensures |frames| == 2 && frames[0] == ChecksFrame(SnapshotOf(store, now)) && NoChecks([frames[1]])
  {
    SubscribeServed(s, client, store, now);
    SnapshotIsLatest(store, now);
    WindowTop(store);
    hide Handle, SnapshotOf, JobCheckEvents, Sort, IsLatest, StoreOk, Top, NoChecks;
    var o := Handle(s, SubscribeMessage(client), store, now);
    s', frames := o.session, o.frames;
    assert frames[1..] == [frames[1]];
    QuietFollows(JobCheckEvents(store), frames[1..]);
  }

  // ---- Every action keeps the invariant -------------------------------------------------------------

  /** More events recorded leave every part a part. */
  lemma RecordKeeps(w: World, told: Told, e: Event, at: nat)
    requires ChecksOk(w, told) && Enabled(w, Record(e, at))
    ensures ChecksOk(Step(w, Record(e, at)), told)
  {
    RecordStore(w.store, e, at);
    RecordElements(w.store, e, at);
    hide Leads, IsLatest, NoChecks;
  }

  lemma HearServed(w: World, now: real, s': Session, frames: seq<Frame>)
    requires Enabled(w, Hear(now)) && Handle(w.session.value, w.uplink[0], w.store, now) == Served(s', frames)
    ensures Step(w, Hear(now)) == w.(session := Some(s'), uplink := w.uplink[1..], agentOut := w.agentOut + frames)
  {
  }

  lemma HearSubscribeKeeps(w: World, told: Told, now: real)
    requires ChecksOk(w, told) && Enabled(w, Hear(now)) && !Subscribed(w) && IsSubscribe(w.client, w.uplink[0])
    ensures ChecksOk(Step(w, Hear(now)), Tell(w, told, Hear(now)))
  {
    TopOfPart(told.page, w.store);
    WindowIsPart(w.store);
    WindowTop(w.store);
    var s', frames := SubscribeChecks(w.session.value, w.client, w.store, now);
    HearServed(w, now, s', frames);
    AwaitsLater(JobCheckEvents(w.store), InFlight(w), frames, JobCheckEvents(w.store));
    Associates(w.relayOut, w.agentOut, frames);
  }

  lemma ControlQuiet(s: Session, m: Message, store: seq<Event>, now: real)
    returns (s': Session, frames: seq<Frame>)
    requires IsControl(m)
    ensures Handle(s, m, store, now) == Served(s', frames)
    ensures NoChecks(frames) && s'.channels == s.channels && s'.checksCursor == s.checksCursor
  {
    var o := Handle(s, m, store, now);
    s', frames := o.session, o.frames;
  }

  /** Frames that follow on what the session has told. */
  lemma Continues(w: World, told: Told, s': Session, frames: seq<Frame>, more: seq<Event>, w': World)
    requires ChecksOk(w, told) && Subscribed(w) && s'.channels == w.session.value.channels
    requires s'.checksCursor == Top(told.session + more) && Follows(told.session, frames, told.session + more)
    requires Part(told.session + more, w.store)
    requires w'.session == Some(s') && w'.store == w.store && w'.client == w.client
    requires w'.relayOut == w.relayOut && w'.agentOut == w.agentOut + frames
    ensures ChecksOk(w', told.(session := told.session + more))
  {
    hide Follows, Awaits, IsLatest, Part, Top;
    Associates(w.relayOut, w.agentOut, frames);
    if told.snapshot <= told.page && Follows(told.page, InFlight(w), told.session) {
      FollowsConcat(told.page, InFlight(w), told.session, frames, told.session + more);
    } else {
      AwaitsConcat(told.snapshot, InFlight(w), told.session, frames, told.session + more);
    }
  }

  lemma HearControlKeeps(w: World, told: Told, now: real)
    requires Enabled(w, Hear(now)) && IsControl(w.uplink[0]) && Subscribed(w)
    requires ChecksOk(w, told)
    ensures ChecksOk(Step(w, Hear(now)), told)
  {
    assert w.session.Some? && w.uplink != [];
    hide *;
    var s', frames := ControlQuiet(w.session.value, w.uplink[0], w.store, now);
    HearServed(w, now, s', frames);
    SessionFacts(w, told);
    QuietFollows(told.session, frames);
    assert told.session + [] == told.session;
    Continues(w, told, s', frames, [], Step(w, Hear(now)));
  }

  lemma TickKeepsChecks(w: World, told: Told, refresh: Refresh)
    requires ChecksOk(w, told) && Enabled(w, Tick(refresh))
    ensures ChecksOk(Step(w, Tick(refresh)), Tell(w, told, Tick(refresh)))
  {
    if Subscribed(w) {
      RoundKeepsChecks(w, told, refresh);
    } else {
      assert w.agentOut + [] == w.agentOut;
    }
  }

  lemma RoundKeepsChecks(w: World, told: Told, refresh: Refresh)
    requires ChecksOk(w, told) && Enabled(w, Tick(refresh)) && Subscribed(w)
    ensures ChecksOk(Step(w, Tick(refresh)), Tell(w, told, Tick(refresh)))
  {
    var s, w' := w.session.value, Step(w, Tick(refresh));
    var (s', frames) := Service(s, w.fs, w.store, refresh);
    var more := Fresh(w.store, s.checksCursor);
    RoundStep(w, told, refresh);
    SessionFacts(w, told);
    hide *;
    ServiceFollows(s, w.fs, w.store, refresh, told.session);
    FreshPart(told.session, w.store, s.checksCursor);
    Continues(w, told, s', frames, more, w');
  }

  lemma RoundStep(w: World, told: Told, refresh: Refresh)
    requires Enabled(w, Tick(refresh)) && Subscribed(w) && Checks in w.session.value.channels
    ensures var s := w.session.value; var (s', frames) := Service(s, w.fs, w.store, refresh);
            && Step(w, Tick(refresh)) == w.(session := Some(s'), job := s'.job, agentOut := w.agentOut + frames)
            && Tell(w, told, Tick(refresh)) == told.(session := told.session + Fresh(w.store, s.checksCursor))
  {
    hide Service, Fresh;
  }

  lemma SessionFacts(w: World, told: Told)
    requires ChecksOk(w, told) && Subscribed(w)
    ensures Checks in w.session.value.channels && w.session.value.checksCursor == Top(told.session)
    ensures Part(told.session, w.store) && StrictlySorted(told.session) && StoreOk(w.store)
  {
  }

  lemma FreshPart(v: seq<Event>, store: seq<Event>, cursor: int)
    requires StoreOk(store) && Part(v, store) && cursor == Top(v)
    ensures Part(v + Fresh(store, cursor), store)
  {
    FreshEvents(store, cursor);
    WindowIsPart(store);
    StrictAppend(v, Fresh(store, cursor));
  }

  lemma QuietMessage(client: Client, f: Frame)
    requires !f.ChecksFrame? && !f.CheckFrame?
    ensures var client' := OnMessage(client, f);
            client'.checks == client.checks && client'.checksCursor == client.checksCursor
  {
  }

  lemma DeliverMoves(w: World)
    requires w.relayOut != []
    ensures var w' := Step(w, Deliver);
            && InFlight(w) == [w.relayOut[0]] + InFlight(w') && w'.client == OnMessage(w.client, w.relayOut[0])
            && w'.store == w.store && w'.session == w.session && w'.uplink == w.uplink
  {
  }

  /** An event that arrives is the next of what the session has told. */
  lemma EventArrives(told: Told, frames: seq<Frame>, e: Event)
    requires Leads(told, frames) && frames != [] && frames[0] == CheckFrame(e)
    ensures e.no > Top(told.page) && told.page + [e] <= told.session && told.snapshot <= told.page
    ensures Follows(told.page + [e], frames[1..], told.session)
  {
    FollowsExtends(told.page + [e], frames[1..], told.session);
  }

  lemma DeliverEvent(client: Client, told: Told, store: seq<Event>, frames: seq<Frame>, e: Event)
    requires Part(told.page, store) && Part(told.session, store) && Displays(client, told.page)
    requires Leads(told, frames) && frames != [] && frames[0] == CheckFrame(e)
    ensures Displays(OnMessage(client, CheckFrame(e)), told.page + [e]) && Part(told.page + [e], store)
    ensures Leads(told.(page := told.page + [e]), frames[1..])
  {
    EventArrives(told, frames, e);
    StrictSnoc(told.page, e);
    assert (told.page + [e])[|told.page|] == e && told.session[|told.page|] == e;
    UpsertKeepsLatest(client.checks, told.page, e);
  }

  lemma DeliverSnapshot(client: Client, told: Told, frames: seq<Frame>, s: Snapshot)
    requires Displays(client, told.page) && Leads(told, frames) && frames != [] && frames[0] == ChecksFrame(s)
    ensures Displays(OnMessage(client, ChecksFrame(s)), told.snapshot)
    ensures Leads(told.(page := told.snapshot), frames[1..])
  {
  }

  lemma DeliverKeepsChecks(w: World, told: Told)
    requires ChecksOk(w, told) && Enabled(w, Deliver) && w.session.Some?
    ensures ChecksOk(Step(w, Deliver), Tell(w, told, Deliver))
  {
    var f, w' := w.relayOut[0], Step(w, Deliver);
    DeliverMoves(w);
    var frames := InFlight(w);
    assert frames[0] == f && frames[1..] == InFlight(w');
    hide Step, OnMessage, InFlight;
    if f.ChecksFrame? {
      DeliverSnapshot(w.client, told, frames, f.snapshot);
    } else if f.CheckFrame? {
      DeliverEvent(w.client, told, w.store, frames, f.event);
    } else {
      QuietMessage(w.client, f);
    }
  }

  lemma HearKeepsChecks(w: World, told: Told, now: real)
    requires ConnectionOk(w) && ChecksOk(w, told) && Enabled(w, Hear(now))
    ensures ChecksOk(Step(w, Hear(now)), Tell(w, told, Hear(now)))
  {
    if Subscribed(w) { HearControlKeeps(w, told, now); } else { HearSubscribeKeeps(w, told, now); }
  }

  /** What the checks channel does not see: the log files, the job record, later messages, the relay. */
  lemma Unseen(w: World, told: Told, w': World)
    requires ChecksOk(w, told) && w'.store == w.store && w'.client == w.client && w'.session == w.session
    requires InFlight(w') == InFlight(w) && (w.uplink != [] ==> w'.uplink != [] && w'.uplink[0] == w.uplink[0])
    ensures ChecksOk(w', told)
  {
  }

  lemma Reconnecting(w: World, told: Told, w': World)
    requires ChecksOk(w, told) && w'.store == w.store && w'.client == w.client && InFlight(w') == []
    requires w'.session.Some? && w'.session.value.channels == {} && w'.uplink == [SubscribeMessage(w.client)]
    ensures ChecksOk(w', told)
  {
  }

  lemma StepKeepsChecks(w: World, told: Told, a: Action)
    requires ConnectionOk(w) && ChecksOk(w, told) && Enabled(w, a)
    ensures ChecksOk(Step(w, a), Tell(w, told, a))
  {
    match a
    case Record(e, at) => RecordKeeps(w, told, e, at);
    case Hear(now) => HearKeepsChecks(w, told, now);
    case Tick(refresh) => TickKeepsChecks(w, told, refresh);
    case Deliver => DeliverKeepsChecks(w, told);
    case Open(_) =>
      assert InFlight(Step(w, a)) == [];
      Reconnecting(w, told, Step(w, a));
    case Drop =>
    case Relay =>
      HeadMoves(w.relayOut, w.agentOut);
      Unseen(w, told, Step(w, a));
    case _ => Unseen(w, told, Step(w, a));
  }

  lemma {:induction false} RunKeepsChecks(w: World, told: Told, actions: seq<Action>)
    requires Inv(w) && ChecksOk(w, told) && IsRun(w, actions)
    ensures ChecksOk(LiveRun.After(w, actions), ToldAfter(w, told, actions)) && Inv(LiveRun.After(w, actions))
    decreases |actions|
  {
    if actions != [] {
      StepKeeps(w, actions[0]);
      StepKeepsChecks(w, told, actions[0]);
      RunKeepsChecks(Step(w, actions[0]), Tell(w, told, actions[0]), actions[1..]);
    }
  }

  lemma InitialChecks(w: World)
    requires Initial(w)
    ensures ChecksOk(w, Untold)
  {
  }

  // ---- When a list is right for all that was recorded ---------------------------------------------

  /** A newer event of the same check is among these. */
  ghost predicate Overtakes(v: seq<Event>, e: Event) { exists x | x in v :: x.key == e.key && x.no > e.no }

  /** Every event of `all` is told, or out of date. */
  ghost predicate Covers(all: seq<Event>, v: seq<Event>) { forall e | e in all :: e in v || Overtakes(v, e) }

  /** The latest view of a part is the latest view of everything exactly if the rest is out of date. */
  lemma LatestOfPartExactly(list: seq<Event>, v: seq<Event>, all: seq<Event>)
    requires StrictlySorted(all) && Part(v, all) && IsLatest(list, v)
    ensures IsLatest(list, all) <==> Covers(all, v)
  {
    if IsLatest(list, all) {
      forall e | e in all && e !in v ensures Overtakes(v, e) {
        var y := NewestExists(all, e);
        assert y in list <==> Newest(v, y);
        SameNoSameEvent(all, y, e);
      }
    } else if Covers(all, v) {
      forall x ensures x in list <==> Newest(all, x) {
        assert x in list <==> Newest(v, x);
        PartNewest(v, all, x);
      }
    }
  }

  lemma PartNewest(v: seq<Event>, all: seq<Event>, x: Event)
    requires Part(v, all) && Covers(all, v)
    ensures Newest(v, x) <==> Newest(all, x)
  {
    if Newest(v, x) {
      forall y | y in all && y.key == x.key ensures y.no <= x.no {
        if y !in v { var z :| z in v && z.key == y.key && z.no > y.no; }
      }
    }
    if Newest(all, x) { assert !Overtakes(v, x); }
  }

  /** One event recorded with any number leaves a right list right exactly if its check has a newer event. */
  lemma LateRecordExactly(list: seq<Event>, store: seq<Event>, e: Event, at: nat)
    requires StoreOk(store) && at <= |store| && e.no > 0 && (forall x | x in store :: x.no != e.no)
    requires IsLatest(list, Sort(store))
    ensures IsLatest(list, Sort(store[..at] + [e] + store[at..])) <==> Overtakes(Sort(store), e)
  {
    var store' := store[..at] + [e] + store[at..];
    RecordStore(store, e, at);
    RecordElements(store, e, at);
    SortStrict(store);
    SortStrict(store');
    LatestOfPartExactly(list, Sort(store), Sort(store'));
    assert e in Sort(store') && e !in Sort(store);
  }

  // ---- Main results -----------------------------------------------------------------------------------

  /**
   In every run, whatever the order in which events are recorded and whatever a read leaves out, the
   page shows the latest event of every check among those it has been told of, and the frames in
   flight tell it the rest of what the session has told, none twice and none out of order.
   */
  lemma PageShowsTold(w0: World, actions: seq<Action>)
    requires Initial(w0) && IsRun(w0, actions)
    ensures var w, told := LiveRun.After(w0, actions), ToldAfter(w0, Untold, actions);
            && IsLatest(w.client.checks, told.page) && w.client.checksCursor == Top(told.page)
            && Part(told.page, w.store)
            && (Subscribed(w) ==> Leads(told, InFlight(w)) && w.session.value.checksCursor == Top(told.session))
  {
    InitialInv(w0);
    InitialChecks(w0);
    RunKeepsChecks(w0, Untold, actions);
  }

  /**
   And that is the latest event of every check among all recorded up to its cursor exactly if each of
   those that it was not told of has been overtaken by a newer event of the same check.
   */
  lemma RightExactly(w0: World, actions: seq<Action>)
    requires Initial(w0) && IsRun(w0, actions)
    ensures var w, told := LiveRun.After(w0, actions), ToldAfter(w0, Untold, actions);
            var recorded := UpTo(Sort(w.store), w.client.checksCursor);
            IsLatest(w.client.checks, recorded) <==> Covers(recorded, told.page)
  {
    InitialInv(w0);
    InitialChecks(w0);
    RunKeepsChecks(w0, Untold, actions);
    var w, told := LiveRun.After(w0, actions), ToldAfter(w0, Untold, actions);
    PartUpTo(told.page, w.store);
    UpToSorted(w.store, w.client.checksCursor);
    LatestOfPartExactly(w.client.checks, told.page, UpTo(Sort(w.store), w.client.checksCursor));
  }

  lemma UpToSorted(store: seq<Event>, cursor: int)
    requires StoreOk(store)
    ensures StrictlySorted(UpTo(Sort(store), cursor))
    ensures forall e :: e in UpTo(Sort(store), cursor) <==> e in store && e.no <= cursor
  {
    SortStrict(store);
    UpToElements(Sort(store), cursor);
  }

  lemma PartUpTo(v: seq<Event>, store: seq<Event>)
    requires StoreOk(store) && Part(v, store)
    ensures Part(v, UpTo(Sort(store), Top(v)))
  {
    UpToSorted(store, Top(v));
    TopBounds(v);
  }

  // ---- Which events are lost ------------------------------------------------------------------------------

  /**
   The events a session will never send: those a snapshot or a round leaves out of its window, and
   those recorded under a number its cursor has passed. A new subscription starts anew.
   */
  function Miss(w: World, missed: set<Event>, a: Action): set<Event>
    requires Enabled(w, a)
  {
    match a
    case Hear(_) =>
      if Subscribed(w) then missed else set e | e in w.store && e !in JobCheckEvents(w.store)
    case Record(e, _) =>
      if Subscribed(w) && e.no < w.session.value.checksCursor then missed + {e} else missed
    case Tick(_) =>
      if Subscribed(w)
      then missed + set e | e in w.store && e.no > w.session.value.checksCursor && e !in JobCheckEvents(w.store)
      else missed
    case _ => missed
  }

  function MissedAfter(w: World, missed: set<Event>, actions: seq<Action>): set<Event>
    requires IsRun(w, actions)
    decreases |actions|
  {
    if actions == [] then missed else MissedAfter(Step(w, actions[0]), Miss(w, missed, actions[0]), actions[1..])
  }

  /** What is recorded up to a number and not told. */
  ghost predicate Lacks(store: seq<Event>, v: seq<Event>, missed: set<Event>) {
    forall e :: e in missed <==> e in store && e.no <= Top(v) && e !in v
  }

  ghost predicate MissedOk(w: World, told: Told, missed: set<Event>) {
    Subscribed(w) ==> Lacks(w.store, told.session, missed)
  }

  lemma RecordMissed(w: World, told: Told, missed: set<Event>, e: Event, at: nat)
    requires ChecksOk(w, told) && MissedOk(w, told, missed) && Enabled(w, Record(e, at)) && Subscribed(w)
    ensures MissedOk(Step(w, Record(e, at)), told, Miss(w, missed, Record(e, at)))
  {
    var store' := w.store[..at] + [e] + w.store[at..];
    RecordElements(w.store, e, at);
    TopOfPart(told.session, w.store);
    if told.session != [] { assert Last(told.session).no != e.no; }
    assert Step(w, Record(e, at)) == w.(store := store');
    hide Part, Top, Leads, IsLatest, Lacks;
    RecordLacks(w.store, told.session, missed, e, store');
  }

  lemma RecordLacks(store: seq<Event>, v: seq<Event>, missed: set<Event>, e: Event, store': seq<Event>)
    requires Lacks(store, v, missed) && Part(v, store) && e !in store && e.no != Top(v)
    requires forall x :: x in store' <==> x == e || x in store
    ensures Lacks(store', v, if e.no < Top(v) then missed + {e} else missed)
  {
    hide Top;
  }

  lemma WindowMissed(store: seq<Event>)
    requires StoreOk(store)
    ensures Lacks(store, JobCheckEvents(store), set e | e in store && e !in JobCheckEvents(store))
  {
    SortStrict(store);
    TopBounds(Sort(store));
    WindowTop(store);
  }

  lemma RoundMissed(store: seq<Event>, v: seq<Event>, missed: set<Event>, window: seq<Event>)
    requires StoreOk(store) && Part(v, store) && Lacks(store, v, missed) && window == JobCheckEvents(store)
    ensures Lacks(store, v + Fresh(store, Top(v)), missed + set e | e in store && e.no > Top(v) && e !in window)
  {
    var sent := Fresh(store, Top(v));
    FreshEvents(store, Top(v));
    WindowIsPart(store);
    RoundTop(store, v);
    SortStrict(store);
    TopBounds(Sort(store));
    assert forall e | e in store :: e.no <= Top(v + sent);
    TopBounds(v);
    hide Fresh, JobCheckEvents, Sort, StoreOk, StrictlySorted, Top;
    forall e ensures e in v + sent <==> e in v || (e in window && e.no > Top(v)) {}
  }

  /** A round brings the cursor to the newest event, whatever it leaves out. */
  lemma RoundTop(store: seq<Event>, v: seq<Event>)
    requires StoreOk(store) && Part(v, store)
    ensures Top(v + Fresh(store, Top(v))) == Top(Sort(store))
  {
    var sent, window := Fresh(store, Top(v)), JobCheckEvents(store);
    FreshEvents(store, Top(v));
    WindowIsPart(store);
    WindowTop(store);
    StrictAppend(v, sent);
    TopOfPart(v, store);
    TopBounds(window);
    if Top(v) < Top(window) {
      assert Last(window) in sent;
      TopBounds(sent);
      assert Last(sent) in sent;
    } else {
      NoneAfter(window, Top(v));
    }
  }

  lemma StepMissed(w: World, told: Told, missed: set<Event>, a: Action)
    requires ConnectionOk(w) && ChecksOk(w, told) && MissedOk(w, told, missed) && Enabled(w, a)
    ensures MissedOk(Step(w, a), Tell(w, told, a), Miss(w, missed, a))
  {
    hide JobCheckEvents, Fresh, Service, Handle;
    match a
    case Record(e, at) => if Subscribed(w) { RecordMissed(w, told, missed, e, at); }
    case Hear(now) => if !Subscribed(w) { WindowMissed(w.store); } else { HeardControl(w, told, now); }
    case Tick(refresh) =>
      if Subscribed(w) {
        RoundMissed(w.store, told.session, missed, JobCheckEvents(w.store));
      } else {
        NotServed(w, refresh);
      }
    case _ =>
  }

  lemma NotServed(w: World, refresh: Refresh)
    requires Enabled(w, Tick(refresh)) && !Subscribed(w)
    ensures !Subscribed(Step(w, Tick(refresh)))
  {
  }

  lemma HeardControl(w: World, told: Told, now: real)
    requires ConnectionOk(w) && Enabled(w, Hear(now)) && Subscribed(w)
    ensures Step(w, Hear(now)).store == w.store
  {
  }

  lemma {:induction false} RunMissed(w: World, told: Told, missed: set<Event>, actions: seq<Action>)
    requires Inv(w) && ChecksOk(w, told) && MissedOk(w, told, missed) && IsRun(w, actions)
    ensures MissedOk(LiveRun.After(w, actions), ToldAfter(w, told, actions), MissedAfter(w, missed, actions))
    decreases |actions|
  {
    if actions != [] {
      StepKeeps(w, actions[0]);
      StepKeepsChecks(w, told, actions[0]);
      StepMissed(w, told, missed, actions[0]);
      RunMissed(Step(w, actions[0]), Tell(w, told, actions[0]), Miss(w, missed, actions[0]), actions[1..]);
    }
  }

  /**
   In every run the events up to the session's cursor that it has not told are exactly those recorded
   since its subscription under a number already passed, and those a read left out of its window.
   */
  lemma LostExactly(w0: World, actions: seq<Action>)
    requires Initial(w0) && IsRun(w0, actions) && Subscribed(LiveRun.After(w0, actions))
    ensures var w, told := LiveRun.After(w0, actions), ToldAfter(w0, Untold, actions);
            forall e :: e in MissedAfter(w0, {}, actions)
              <==> e in w.store && e.no <= w.session.value.checksCursor && e !in told.session
  {
    InitialInv(w0);
    InitialChecks(w0);
    RunKeepsChecks(w0, Untold, actions);
    RunMissed(w0, Untold, {}, actions);
  }

  /** With everything delivered, the page has been told all that the session has. */
  lemma NothingInFlight(w: World, told: Told)
    requires ChecksOk(w, told) && Subscribed(w) && InFlight(w) == []
    ensures told.page == told.session
  {
  }

  /** A round brings the session's cursor to the newest event. */
  lemma RoundReachesTop(w0: World, actions: seq<Action>, refresh: Refresh)
    requires Initial(w0) && IsRun(w0, actions)
    requires Enabled(LiveRun.After(w0, actions), Tick(refresh)) && Subscribed(LiveRun.After(w0, actions))
    ensures var w := LiveRun.After(w0, actions);
            Step(w, Tick(refresh)).session.value.checksCursor == Top(Sort(w.store))
  {
    InitialInv(w0);
    InitialChecks(w0);
    RunKeepsChecks(w0, Untold, actions);
    var w, told := LiveRun.After(w0, actions), ToldAfter(w0, Untold, actions);
    ServiceFollows(w.session.value, w.fs, w.store, refresh, told.session);
    RoundTop(w.store, told.session);
  }

  /** An event that arrives comes after all the page has been told, and is the next the session has told. */
  lemma EventsArriveInOrder(w0: World, actions: seq<Action>)
    requires Initial(w0) && IsRun(w0, actions)
    requires var w := LiveRun.After(w0, actions);
             w.session.Some? && w.relayOut != [] && w.relayOut[0].CheckFrame?
    ensures var w, told := LiveRun.After(w0, actions), ToldAfter(w0, Untold, actions);
            var e := w.relayOut[0].event;
            && e.no > w.client.checksCursor && told.page + [e] <= told.session
            && Step(w, Deliver).client.checksCursor == e.no
  {
    InitialInv(w0);
    InitialChecks(w0);
    RunKeepsChecks(w0, Untold, actions);
    var w, told := LiveRun.After(w0, actions), ToldAfter(w0, Untold, actions);
    assert InFlight(w)[0] == w.relayOut[0];
    DeliverMoves(w);
    EventArrives(told, InFlight(w), w.relayOut[0].event);
  }

  // ---- Events the session has passed -------------------------------------------------------------------------

  ghost predicate NoOpen(actions: seq<Action>)
    decreases |actions|
  {
    actions == [] || (!actions[0].Open? && NoOpen(actions[1..]))
  }

  lemma {:induction false} FollowsAbove(page: seq<Event>, frames: seq<Frame>, session: seq<Event>, e: Event)
    requires Follows(page, frames, session) && CheckFrame(e) in frames
    ensures e.no > Top(page)
    decreases |frames|
  {
    var f := frames[0];
    assert frames == [f] + frames[1..];
    if f != CheckFrame(e) {
      FollowsAbove(if f.CheckFrame? then page + [f.event] else page, frames[1..], session, e);
    }
  }

  /** The connection is gone, or the session's cursor has passed the event and no frame carries it. */
  ghost predicate Gone(w: World, e: Event) {
    w.session.None?
    || (Subscribed(w) && e.no <= w.session.value.checksCursor && CheckFrame(e) !in InFlight(w))
  }

  /** The frames of a round carry only events above the cursor, which does not fall. */
  lemma RoundSends(w: World, told: Told, refresh: Refresh, e: Event)
    requires ChecksOk(w, told) && Enabled(w, Tick(refresh)) && Subscribed(w)
    ensures var (s', frames) := Service(w.session.value, w.fs, w.store, refresh);
            && s'.channels == w.session.value.channels && s'.checksCursor >= w.session.value.checksCursor
            && (CheckFrame(e) in frames ==> e.no > w.session.value.checksCursor)
  {
    var s := w.session.value;
    var (s', frames) := Service(s, w.fs, w.store, refresh);
    hide Service, Fresh, ChecksOk, Top, Follows, StoreOk, StrictlySorted, JobCheckEvents, Sort;
    SessionFacts(w, told);
    ServiceFollows(s, w.fs, w.store, refresh, told.session);
    RoundTop(w.store, told.session);
    TopOfPart(told.session, w.store);
    if CheckFrame(e) in frames { FollowsAbove(told.session, frames, told.session + Fresh(w.store, s.checksCursor), e); }
  }

  lemma GoneServed(w: World, told: Told, refresh: Refresh, e: Event)
    requires ChecksOk(w, told) && Gone(w, e) && Enabled(w, Tick(refresh)) && Subscribed(w)
    ensures Gone(Step(w, Tick(refresh)), e)
  {
    var (s', frames) := Service(w.session.value, w.fs, w.store, refresh);
    var w' := Step(w, Tick(refresh));
    assert w' == w.(session := Some(s'), job := s'.job, agentOut := w.agentOut + frames);
    RoundSends(w, told, refresh, e);
    hide Service, ChecksOk, Step;
    Associates(w.relayOut, w.agentOut, frames);
  }

  lemma GoneHeard(w: World, told: Told, now: real, e: Event)
    requires ConnectionOk(w) && Gone(w, e) && Enabled(w, Hear(now)) && Subscribed(w)
    ensures Gone(Step(w, Hear(now)), e)
  {
    var s', frames := ControlQuiet(w.session.value, w.uplink[0], w.store, now);
    HearServed(w, now, s', frames);
    Associates(w.relayOut, w.agentOut, frames);
  }

  lemma StaysGone(w: World, told: Told, a: Action, e: Event)
    requires ConnectionOk(w) && ChecksOk(w, told) && Gone(w, e) && Enabled(w, a) && !a.Open?
    ensures Gone(Step(w, a), e)
  {
    match a
    case Hear(now) => GoneHeard(w, told, now, e);
    case Tick(refresh) => GoneServed(w, told, refresh, e);
    case Deliver =>
      DeliverMoves(w);
      assert forall f | f in InFlight(Step(w, a)) :: f in InFlight(w);
    case Relay => HeadMoves(w.relayOut, w.agentOut);
    case _ =>
  }

  lemma {:induction false} RunGone(w: World, told: Told, actions: seq<Action>, e: Event)
    requires Inv(w) && ChecksOk(w, told) && Gone(w, e) && IsRun(w, actions) && NoOpen(actions)
    ensures Gone(LiveRun.After(w, actions), e)
    decreases |actions|
  {
    if actions != [] {
      StepKeeps(w, actions[0]);
      StepKeepsChecks(w, told, actions[0]);
      StaysGone(w, told, actions[0], e);
      RunGone(Step(w, actions[0]), Tell(w, told, actions[0]), actions[1..], e);
    }
  }

  /** An event under a number the session's cursor has passed is never pushed while the connection lasts. */
  lemma PassedNeverPushed(w0: World, before: seq<Action>, later: seq<Action>, e: Event)
    requires Initial(w0) && IsRun(w0, before) && IsRun(LiveRun.After(w0, before), later) && NoOpen(later)
    requires var w := LiveRun.After(w0, before);
             Subscribed(w) && e.no <= w.session.value.checksCursor && CheckFrame(e) !in InFlight(w)
    ensures CheckFrame(e) !in InFlight(LiveRun.After(LiveRun.After(w0, before), later))
  {
    InitialInv(w0);
    InitialChecks(w0);
    RunKeepsChecks(w0, Untold, before);
    var w, told := LiveRun.After(w0, before), ToldAfter(w0, Untold, before);
    RunKeepsChecks(w, told, later);
    RunGone(w, told, later, e);
  }

  // ---- A new subscription ---------------------------------------------------------------------------------------

  lemma {:induction false} AwaitsSnapshot(snapshot: seq<Event>, frames: seq<Frame>, session: seq<Event>)
    requires Awaits(snapshot, frames, session)
    ensures exists f :: f in frames && f.ChecksFrame?
    decreases |frames|
  {
    assert frames == [frames[0]] + frames[1..];
    if !frames[0].ChecksFrame? { AwaitsSnapshot(snapshot, frames[1..], session); }
  }

  /** The connection is gone, or its session has sent this snapshot. */
  ghost predicate Since(w: World, told: Told, snapshot: seq<Event>) {
    w.session.None? || (Subscribed(w) && told.snapshot == snapshot)
  }

  lemma {:induction false} RunSince(w: World, told: Told, snapshot: seq<Event>, actions: seq<Action>)
    requires Inv(w) && ChecksOk(w, told) && Since(w, told, snapshot) && IsRun(w, actions) && NoOpen(actions)
    ensures Since(LiveRun.After(w, actions), ToldAfter(w, told, actions), snapshot)
    decreases |actions|
  {
    if actions != [] {
      StepKeeps(w, actions[0]);
      StepKeepsChecks(w, told, actions[0]);
      StepSince(w, told, snapshot, actions[0]);
      RunSince(Step(w, actions[0]), Tell(w, told, actions[0]), snapshot, actions[1..]);
    }
  }

  lemma StepSince(w: World, told: Told, snapshot: seq<Event>, a: Action)
    requires ConnectionOk(w) && ChecksOk(w, told) && Since(w, told, snapshot) && Enabled(w, a) && !a.Open?
    ensures Since(Step(w, a), Tell(w, told, a), snapshot)
  {
    match a
    case Hear(now) => var _, _ := ControlQuiet(w.session.value, w.uplink[0], w.store, now);
    case _ =>
  }

  /**
   A new subscription puts the page right: as soon as its snapshot has arrived, the page has been told
   of all that the snapshot was taken from, whatever earlier sessions had missed.
   */
  lemma SubscriptionRights(w0: World, before: seq<Action>, now: real, later: seq<Action>)
    requires Initial(w0) && IsRun(w0, before) && NoOpen(later)
    requires var w := LiveRun.After(w0, before);
             Enabled(w, Hear(now)) && !Subscribed(w) && IsRun(Step(w, Hear(now)), later)
    requires var w' := LiveRun.After(Step(LiveRun.After(w0, before), Hear(now)), later);
             Subscribed(w') && forall f | f in InFlight(w') :: !f.ChecksFrame?
    ensures var w := LiveRun.After(w0, before);
            var told := ToldAfter(Step(w, Hear(now)), Tell(w, ToldAfter(w0, Untold, before), Hear(now)), later);
            var w' := LiveRun.After(Step(w, Hear(now)), later);
            && IsLatest(w'.client.checks, told.page) && JobCheckEvents(w.store) <= told.page
            && (SnapshotSuffices(w.store) ==> Covers(w.store, told.page))
  {
    InitialInv(w0);
    InitialChecks(w0);
    RunKeepsChecks(w0, Untold, before);
    var w, told0 := LiveRun.After(w0, before), ToldAfter(w0, Untold, before);
    StepKeeps(w, Hear(now));
    StepKeepsChecks(w, told0, Hear(now));
    var w1, told1 := Step(w, Hear(now)), Tell(w, told0, Hear(now));
    SubscribedNow(w, told0, now);
    RunSince(w1, told1, JobCheckEvents(w.store), later);
    RunKeepsChecks(w1, told1, later);
    var w', told := LiveRun.After(w1, later), ToldAfter(w1, told1, later);
    if Awaits(told.snapshot, InFlight(w'), told.session) { AwaitsSnapshot(told.snapshot, InFlight(w'), told.session); }
    if SnapshotSuffices(w.store) {
      WindowCoversAll(w.store);
      MoreCovers(w.store, JobCheckEvents(w.store), told.page);
    }
  }

  lemma SubscribedNow(w: World, told: Told, now: real)
    requires ConnectionOk(w) && ChecksOk(w, told) && Enabled(w, Hear(now)) && !Subscribed(w)
    ensures Subscribed(Step(w, Hear(now)))
  {
    TopOfPart(told.page, w.store);
    var s', frames := SubscribeChecks(w.session.value, w.client, w.store, now);
    HearServed(w, now, s', frames);
  }

  lemma MoreCovers(all: seq<Event>, v: seq<Event>, v': seq<Event>)
    requires Covers(all, v) && v <= v'
    ensures Covers(all, v')
  {
    assert forall e | e in v :: e in v';
    forall e | e in all && e !in v' ensures Overtakes(v', e) { var x :| x in v && x.key == e.key && x.no > e.no; }
  }

  // ---- When a read through the window is enough -----------------------------------------------------

  /** The newest WINDOW events still name every check. */
  ghost predicate SnapshotSuffices(store: seq<Event>) {
    var all := Sort(store);
    |all| > WINDOW ==> Covered(all[..|all| - WINDOW], all[|all| - WINDOW..])
  }

  /** At most WINDOW events were recorded since the last round. */
  ghost predicate PushSuffices(store: seq<Event>, cursor: int) {
    |CheckEvents.After(Sort(store), cursor)| <= WINDOW
  }

  ghost predicate ReadSuffices(w: World, a: Action)
    requires Enabled(w, a)
  {
    match a
    case Hear(_) => w.session.value.channels == {} ==> SnapshotSuffices(w.store)
    case Tick(_) => PushSuffices(w.store, w.session.value.checksCursor)
    case _ => true
  }

  ghost predicate ReadsSuffice(w: World, actions: seq<Action>)
    requires IsRun(w, actions)
    decreases |actions|
  {
    actions == [] || (ReadSuffices(w, actions[0]) && ReadsSuffice(Step(w, actions[0]), actions[1..]))
  }

  /** The window leaves out only what it overtakes. */
  lemma WindowCoversAll(store: seq<Event>)
    requires StoreOk(store) && SnapshotSuffices(store)
    ensures Covers(store, JobCheckEvents(store))
  {
    SortStrict(store);
    var all, d := Sort(store), |Sort(store)| - WINDOW;
    if d > 0 {
      hide Sort;
      assert all == all[..d] + all[d..];
      forall e | e in all && e !in all[d..] ensures Overtakes(all[d..], e) {
        var x :| x in all[d..] && x.key == e.key;
        DroppedEarlier(all, d, e, x);
      }
    }
  }

  lemma DroppedEarlier(all: seq<Event>, d: nat, e: Event, x: Event)
    requires StrictlySorted(all) && d <= |all| && e in all[..d] && x in all[d..]
    ensures e.no < x.no
  {
    var i :| 0 <= i < d && all[..d][i] == e;
    var j :| 0 <= j < |all| - d && all[d..][j] == x;
    assert all[i] == e && all[d + j] == x;
  }

  ghost predicate AllOvertaken(missed: set<Event>, v: seq<Event>) { forall e | e in missed :: Overtakes(v, e) }

  /**
   When everything sent has arrived, the page shows what a fresh snapshot of a sufficient window would
   show exactly if every event the session missed is out of date.
   */
  lemma CaughtUpWithSnapshot(w0: World, actions: seq<Action>, now: real)
    requires Initial(w0) && IsRun(w0, actions)
    requires var w := LiveRun.After(w0, actions);
             && Subscribed(w) && InFlight(w) == [] && SnapshotSuffices(w.store)
             && w.session.value.checksCursor == Top(Sort(w.store))
    ensures var w, told := LiveRun.After(w0, actions), ToldAfter(w0, Untold, actions);
            && w.client.checksCursor == SnapshotOf(w.store, now).cursor
            && (w.client.checks == Underlying(SnapshotOf(w.store, now).checks)
                <==> AllOvertaken(MissedAfter(w0, {}, actions), told.session))
  {
    hide SnapshotOf, Sort, SnapshotSuffices, Top, AllOvertaken, Underlying;
    InitialInv(w0);
    InitialChecks(w0);
    RunKeepsChecks(w0, Untold, actions);
    RunMissed(w0, Untold, {}, actions);
    CaughtUp(LiveRun.After(w0, actions), ToldAfter(w0, Untold, actions), MissedAfter(w0, {}, actions), now);
  }

  lemma CaughtUp(w: World, told: Told, missed: set<Event>, now: real)
    requires ChecksOk(w, told) && MissedOk(w, told, missed) && Subscribed(w) && InFlight(w) == []
    requires SnapshotSuffices(w.store) && w.session.value.checksCursor == Top(Sort(w.store))
    ensures w.client.checksCursor == SnapshotOf(w.store, now).cursor
    ensures w.client.checks == Underlying(SnapshotOf(w.store, now).checks)
            <==> AllOvertaken(missed, told.session)
  {
    NothingInFlight(w, told);
    SameAsSnapshot(w.store, w.client.checks, told.session, missed, now);
  }

  lemma SameAsSnapshot(store: seq<Event>, list: seq<Event>, v: seq<Event>, missed: set<Event>, now: real)
    requires StoreOk(store) && SnapshotSuffices(store) && Part(v, store) && IsLatest(list, v)
    requires Lacks(store, v, missed) && Top(v) == Top(Sort(store))
    ensures SnapshotOf(store, now).cursor == Top(v)
    ensures list == Underlying(SnapshotOf(store, now).checks) <==> AllOvertaken(missed, v)
  {
    var shown, all := Underlying(SnapshotOf(store, now).checks), Sort(store);
    SnapshotIsLatest(store, now);
    WindowTop(store);
    SortStrict(store);
    WindowIsPart(store);
    WindowCoversAll(store);
    TopBounds(all);
    hide Sort, SnapshotOf, JobCheckEvents, IsLatest;
    assert Part(v, all) && Part(JobCheckEvents(store), all) && Covers(all, JobCheckEvents(store));
    LatestOfPartExactly(shown, JobCheckEvents(store), all);
    LatestOfPartExactly(list, v, all);
    OneLatest(list, shown, all);
    assert Covers(all, v) <==> AllOvertaken(missed, v);
  }

  lemma OneLatest(list: seq<Event>, shown: seq<Event>, all: seq<Event>)
    requires IsLatest(shown, all)
    ensures IsLatest(list, all) <==> list == shown
  {
    if IsLatest(list, all) {
      forall e ensures e in list <==> e in shown { assert e in list <==> Newest(all, e); }
      LatestUnique(list, shown);
    }
  }

  // ---- When nothing is missed -----------------------------------------------------------------------------------

  /** Every event up to the last one told is told, or overtaken by one that is. */
  ghost predicate CoversTop(store: seq<Event>, v: seq<Event>) {
    forall e | e in store && e.no <= Top(v) :: e in v || Overtakes(v, e)
  }

  /** Nothing recorded between a number and the last event told is left out. */
  ghost predicate Complete(store: seq<Event>, v: seq<Event>, from: int) {
    forall e | e in store && from < e.no <= Top(v) :: e in v
  }

  ghost predicate CoverOk(w: World, told: Told) {
    && CoversTop(w.store, told.page)
    && (Subscribed(w) ==>
          && CoversTop(w.store, told.snapshot) && told.snapshot <= told.session
          && Complete(w.store, told.session, Top(told.snapshot)))
  }

  /** An event is recorded under a number that no cursor has passed. */
  predicate Timely(w: World, a: Action) {
    a.Record? ==>
      a.event.no > w.client.checksCursor && (Subscribed(w) ==> a.event.no > w.session.value.checksCursor)
  }

  ghost predicate AllTimely(w: World, actions: seq<Action>)
    requires IsRun(w, actions)
    decreases |actions|
  {
    actions == [] || (Timely(w, actions[0]) && AllTimely(Step(w, actions[0]), actions[1..]))
  }

  /** So it is when every event is numbered above all recorded before it. */
  lemma InOrderIsTimely(w: World, told: Told, e: Event, at: nat)
    requires ChecksOk(w, told) && Enabled(w, Record(e, at)) && forall x | x in w.store :: x.no < e.no
    ensures Timely(w, Record(e, at))
  {
    TopOfPart(told.page, w.store);
    if told.page != [] { assert Last(told.page) in w.store; }
    if Subscribed(w) {
      TopOfPart(told.session, w.store);
      if told.session != [] { assert Last(told.session) in w.store; }
    }
  }

  lemma PrefixTop(v: seq<Event>, s: seq<Event>)
    requires StrictlySorted(s) && v <= s && forall e | e in s :: e.no > 0
    ensures Top(v) <= Top(s) && forall e | e in s && e.no <= Top(v) :: e in v
  {
    forall e | e in s && e.no <= Top(v) ensures e in v {
      var i :| 0 <= i < |s| && s[i] == e;
      if i >= |v| {
        assert s[i] in s;
        if v != [] { assert s[|v| - 1].no < s[i].no; }
      }
    }
    if v != [] { assert s[|v| - 1] == Last(v) && s[|s| - 1] == Last(s); }
  }

  lemma RecordCovers(w: World, told: Told, e: Event, at: nat)
    requires ChecksOk(w, told) && CoverOk(w, told) && Enabled(w, Record(e, at)) && Timely(w, Record(e, at))
    ensures CoverOk(Step(w, Record(e, at)), told)
  {
    RecordElements(w.store, e, at);
    if Subscribed(w) {
      assert forall x | x in told.session :: x in w.store && x.no > 0;
      PrefixTop(told.snapshot, told.session);
    }
  }

  lemma SubscribeCovers(store: seq<Event>)
    requires StoreOk(store) && SnapshotSuffices(store)
    ensures CoversTop(store, JobCheckEvents(store))
    ensures Complete(store, JobCheckEvents(store), Top(JobCheckEvents(store)))
  {
    WindowCoversAll(store);
    hide JobCheckEvents, Overtakes;
  }

  lemma RoundCovers(store: seq<Event>, v: seq<Event>, from: int)
    requires StoreOk(store) && Part(v, store) && Complete(store, v, from) && PushSuffices(store, Top(v))
    ensures Complete(store, v + Fresh(store, Top(v)), from)
  {
    WindowPush(store, Top(v));
    WindowIsPart(store);
    PushSkipsNothing(JobCheckEvents(store), Top(v));
    AfterElements(Sort(store), Top(v));
    SortStrict(store);
    hide JobCheckEvents, Push;
  }

  lemma EventCovers(store: seq<Event>, told: Told, e: Event)
    requires StoreOk(store) && Part(told.session, store) && StrictlySorted(told.page) && e.no > Top(told.page)
    requires told.snapshot <= told.page && told.page + [e] <= told.session
    requires CoversTop(store, told.snapshot) && Complete(store, told.session, Top(told.snapshot))
    ensures CoversTop(store, told.page + [e])
  {
    var v := told.page + [e];
    assert Top(v) == e.no;
    PrefixTop(v, told.session);
    forall y | y in store && y.no <= e.no ensures y in v || Overtakes(v, y) {
      if y.no <= Top(told.snapshot) {
        assert forall x | x in told.snapshot :: x in v;
        if y !in told.snapshot { var x :| x in told.snapshot && x.key == y.key && x.no > y.no; }
      }
    }
  }

  lemma DeliverCovers(w: World, told: Told)
    requires ChecksOk(w, told) && CoverOk(w, told) && Enabled(w, Deliver) && ConnectionOk(w)
    ensures CoverOk(Step(w, Deliver), Tell(w, told, Deliver))
  {
    var f := w.relayOut[0];
    DeliverMoves(w);
    assert InFlight(w)[0] == f;
    if f.CheckFrame? {
      EventArrives(told, InFlight(w), f.event);
      EventCovers(w.store, told, f.event);
    }
  }

  lemma StepCovers(w: World, told: Told, a: Action)
    requires ConnectionOk(w) && ChecksOk(w, told) && CoverOk(w, told) && Enabled(w, a)
    requires Timely(w, a) && ReadSuffices(w, a)
    ensures CoverOk(Step(w, a), Tell(w, told, a))
  {
    hide CoversTop, Complete, Fresh, Service, Handle, JobCheckEvents, PushSuffices, SnapshotSuffices;
    match a
    case Record(e, at) => RecordCovers(w, told, e, at);
    case Hear(now) => if !Subscribed(w) { SubscribeCovers(w.store); } else { HeardControl(w, told, now); }
    case Tick(refresh) =>
      if Subscribed(w) {
        RoundCovers(w.store, told.session, Top(told.snapshot));
      } else {
        NotServed(w, refresh);
      }
    case Deliver => DeliverCovers(w, told);
    case _ =>
  }

  lemma {:induction false} RunCovers(w: World, told: Told, actions: seq<Action>)
    requires Inv(w) && ChecksOk(w, told) && CoverOk(w, told) && IsRun(w, actions)
    requires AllTimely(w, actions) && ReadsSuffice(w, actions)
    ensures CoverOk(LiveRun.After(w, actions), ToldAfter(w, told, actions))
    decreases |actions|
  {
    if actions != [] {
      StepKeeps(w, actions[0]);
      StepKeepsChecks(w, told, actions[0]);
      StepCovers(w, told, actions[0]);
      RunCovers(Step(w, actions[0]), Tell(w, told, actions[0]), actions[1..]);
    }
  }

  lemma CoversUpTo(store: seq<Event>, v: seq<Event>)
    requires StoreOk(store)
    ensures CoversTop(store, v) <==> Covers(UpTo(Sort(store), Top(v)), v)
  {
    UpToSorted(store, Top(v));
  }

  /**
   Incremental checks refine the snapshot. After any run whose reads fit the window and whose events
   are recorded under numbers that no cursor has passed, the page's list holds the latest event of
   every check among the events up to its cursor, and beyond its snapshot the session has left out
   nothing: the frames in flight lead to its cursor without skipping or repeating an event.
   */
  lemma ChecksNeverMissed(w0: World, actions: seq<Action>)
    requires Initial(w0) && IsRun(w0, actions) && ReadsSuffice(w0, actions) && AllTimely(w0, actions)
    ensures var w, told := LiveRun.After(w0, actions), ToldAfter(w0, Untold, actions);
            && IsLatest(w.client.checks, UpTo(Sort(w.store), w.client.checksCursor))
            && (Subscribed(w) ==>
                  Leads(told, InFlight(w)) && w.session.value.checksCursor == Top(told.session)
                  && Complete(w.store, told.session, Top(told.snapshot)))
  {
    InitialInv(w0);
    InitialChecks(w0);
    RunKeepsChecks(w0, Untold, actions);
    RunCovers(w0, Untold, actions);
    RightExactly(w0, actions);
    CoversUpTo(LiveRun.After(w0, actions).store, ToldAfter(w0, Untold, actions).page);
  }

  // ---- Small stores -------------------------------------------------------------------------------------

  lemma {:induction false} StoreGrows(w: World, actions: seq<Action>)
    requires IsRun(w, actions)
    ensures |w.store| <= |LiveRun.After(w, actions).store|
    decreases |actions|
  {
    if actions != [] { StoreGrows(Step(w, actions[0]), actions[1..]); }
  }

  lemma SortLength(store: seq<Event>)
    ensures |Sort(store)| == |store|
  {
    assert |multiset(Sort(store))| == |Sort(store)| && |multiset(store)| == |store|;
  }

  lemma SmallStoreSuffices(store: seq<Event>, cursor: int)
    requires |store| <= WINDOW
    ensures SnapshotSuffices(store) && PushSuffices(store, cursor)
  {
    SortLength(store);
    hide Sort;
    AfterAtMost(Sort(store), cursor);
  }

  /** A job that never records more than WINDOW events is read in full by every round. */
  lemma {:induction false} SmallRunsSuffice(w: World, actions: seq<Action>)
    requires IsRun(w, actions) && |LiveRun.After(w, actions).store| <= WINDOW
    ensures ReadsSuffice(w, actions)
    decreases |actions|
  {
    if actions != [] {
      StoreGrows(w, actions);
      SmallRunsSuffice(Step(w, actions[0]), actions[1..]);
      SmallStoreSuffices(w.store, if w.session.Some? then w.session.value.checksCursor else 0);
    }
  }

  // ---- Inputs that fail ---------------------------------------------------------------------------------------

  /** A run that begins with `a`. */
  lemma RunFirst(w: World, a: Action, rest: seq<Action>)
    requires Enabled(w, a) && IsRun(Step(w, a), rest)
    ensures IsRun(w, [a] + rest) && LiveRun.After(w, [a] + rest) == LiveRun.After(Step(w, a), rest)
  {
    assert ([a] + rest)[1..] == rest;
  }

  lemma OneEvent(b: Event, now: real)
    requires b.no > 0
    ensures Sort([b]) == [b] == JobCheckEvents([b]) && Top([b]) == b.no
    ensures SnapshotOf([b], now).cursor == b.no && Underlying(SnapshotOf([b], now).checks) == [b]
  {
    assert Init([b]) == [];
    SortStrict([b]);
    assert forall e :: e in Sort([b]) <==> e in [b];
    LatestUnique(Sort([b]), [b]);
    SnapshotIsLatest([b], now);
    assert forall e :: e in [b] <==> Newest([b], e);
    OneLatest(Underlying(SnapshotOf([b], now).checks), [b], [b]);
  }

  /** A page that subscribes and is sent the snapshot of the only event. */
  lemma ShownOne(w: World, job: JobData, b: Event) returns (w': World, last: Frame)
    requires w.session.None? && w.uplink == [] && w.agentOut == [] && w.relayOut == [] && w.store == [b]
    requires w.client == Client(Nothing, Nothing, [], 0) && b.no > 0
    ensures IsRun(w, [Open(job)] + ([Hear(0.0)] + [Relay, Deliver]))
    ensures LiveRun.After(w, [Open(job)] + ([Hear(0.0)] + [Relay, Deliver])) == w'
    ensures Subscribed(w') && w'.session.value.checksCursor == b.no && w'.store == [b]
    ensures w'.client.checks == [b] && w'.client.checksCursor == b.no
    ensures w'.agentOut == [last] && w'.relayOut == [] && !last.CheckFrame?
  {
    var w1, rest := Step(w, Open(job)), [Hear(0.0)] + [Relay, Deliver];
    w', last := AnsweredOne(w1, job, b);
    assert Enabled(w, Open(job));
    hide Step, Enabled;
    RunFirst(w, Open(job), rest);
  }

  lemma AnsweredOne(w: World, job: JobData, b: Event) returns (w': World, last: Frame)
    requires w.session == Some(NewSession(job)) && w.uplink == [SubscribeMessage(w.client)] && w.store == [b]
    requires w.client.checksCursor == 0 && b.no > 0 && w.agentOut == [] && w.relayOut == []
    ensures IsRun(w, [Hear(0.0)] + [Relay, Deliver]) && LiveRun.After(w, [Hear(0.0)] + [Relay, Deliver]) == w'
    ensures Subscribed(w') && w'.session.value.checksCursor == b.no && w'.store == [b]
    ensures w'.client.checks == [b] && w'.client.checksCursor == b.no
    ensures w'.agentOut == [last] && w'.relayOut == [] && !last.CheckFrame?
  {
    var s', f, g := FirstHeard(w, job, b);
    last := g;
    var w1 := w.(session := Some(s'), uplink := [], agentOut := [f, g]);
    assert Enabled(w, Hear(0.0));
    hide Step, Enabled, Handle, OnMessage, SubscribeMessage;
    HeadArrives(w1, f, g);
    w' := w1.(agentOut := [g], client := OnMessage(w1.client, f));
    RunFirst(w, Hear(0.0), [Relay, Deliver]);
  }

  /** What the first subscription is answered when one event is recorded. */
  lemma FirstHeard(w: World, job: JobData, b: Event) returns (s': Session, f: Frame, g: Frame)
    requires w.session == Some(NewSession(job)) && w.uplink == [SubscribeMessage(w.client)] && w.store == [b]
    requires w.client.checksCursor == 0 && b.no > 0 && w.agentOut == []
    ensures Step(w, Hear(0.0)) == w.(session := Some(s'), uplink := [], agentOut := [f, g])
    ensures s'.channels != {} && s'.checksCursor == b.no && !g.ChecksFrame? && !g.CheckFrame?
    ensures OnMessage(w.client, f).checks == [b] && OnMessage(w.client, f).checksCursor == b.no
  {
    OneEvent(b, 0.0);
    var frames;
    s', frames := SubscribeChecks(NewSession(job), w.client, [b], 0.0);
    f, g := frames[0], frames[1];
    ShowsOne(w.client, b, 0.0);
    assert [g][0] == g;
    hide Handle, SnapshotOf, SubscribeMessage, Awaits, Sort, JobCheckEvents, OnMessage, NoChecks;
    HearServed(w, 0.0, s', frames);
    assert frames == [f, g] && w.agentOut + frames == [f, g] && w.uplink[1..] == [];
  }

  lemma ShowsOne(client: Client, b: Event, now: real)
    requires b.no > 0 && client.checksCursor == 0
    ensures var client' := OnMessage(client, ChecksFrame(SnapshotOf([b], now)));
            client'.checks == [b] && client'.checksCursor == b.no
  {
    OneEvent(b, now);
    hide SnapshotOf;
  }

  /** The first of two frames crosses the gateway and arrives. */
  lemma HeadArrives(w: World, f: Frame, g: Frame)
    requires w.agentOut == [f, g] && w.relayOut == []
    ensures IsRun(w, [Relay, Deliver])
    ensures LiveRun.After(w, [Relay, Deliver]) == w.(agentOut := [g], client := OnMessage(w.client, f))
  {
    hide OnMessage;
    var w1 := Step(w, Relay);
    RunFirst(w1, Deliver, []);
    RunFirst(w, Relay, [Deliver]);
    assert w1.relayOut[1..] == [] && w1.agentOut == [g];
  }

  /** Recorded, subscribed, shown; then another event is recorded. */
  function LateRun(job: JobData, a: Event, b: Event): seq<Action> {
    [Record(b, 0), Open(job), Hear(0.0), Relay, Deliver, Record(a, 0)]
  }

  lemma LateRunEnds(w0: World, job: JobData, a: Event, b: Event) returns (w: World, last: Frame)
    requires Initial(w0) && 0 < a.no < b.no
    ensures IsRun(w0, LateRun(job, a, b)) && LiveRun.After(w0, LateRun(job, a, b)) == w
    ensures Subscribed(w) && w.session.value.checksCursor == b.no && w.store == [a, b]
    ensures w.client.checks == [b] && w.client.checksCursor == b.no
    ensures w.agentOut == [last] && w.relayOut == [] && !last.CheckFrame?
  {
    var w1 := Step(w0, Record(b, 0));
    assert w1.store == [b];
    var first := [Open(job)] + ([Hear(0.0)] + [Relay, Deliver]);
    var w2;
    w2, last := ShownOne(w1, job, b);
    w := w2.(store := [a, b]);
    assert [] + [a] + [b] == [a, b];
    assert Step(w2, Record(a, 0)) == w;
    assert Enabled(w0, Record(b, 0)) && Enabled(w2, Record(a, 0));
    hide Step, Enabled;
    RunFirst(w2, Record(a, 0), []);
    RunJoined(w1, first, [Record(a, 0)]);
    RunFirst(w0, Record(b, 0), first + [Record(a, 0)]);
    assert [Record(b, 0)] + (first + [Record(a, 0)]) == LateRun(job, a, b);
  }

  /**
   The input that fails: an event of another check, numbered lower, becomes readable after the higher
   number was shown. The page is not told of it, and no frame carries it.
   */
  lemma LateEventNotShown(w0: World, job: JobData, a: Event, b: Event)
    requires Initial(w0) && 0 < a.no < b.no && a.key != b.key
    ensures IsRun(w0, LateRun(job, a, b))
    ensures var w := LiveRun.After(w0, LateRun(job, a, b));
            && Subscribed(w) && a in w.store && a.no <= w.session.value.checksCursor
            && CheckFrame(a) !in InFlight(w)
            && !IsLatest(w.client.checks, UpTo(Sort(w.store), w.client.checksCursor))
  {
    var w, last := LateRunEnds(w0, job, a, b);
    hide LateRun, IsLatest, UpTo, Sort;
    assert InFlight(w) == [last] && CheckFrame(a) !in [last];
    LateEventMissing(a, b);
  }

  lemma {:induction false} RunJoined(w: World, a: seq<Action>, b: seq<Action>)
    requires IsRun(w, a) && IsRun(LiveRun.After(w, a), b)
    ensures IsRun(w, a + b) && LiveRun.After(w, a + b) == LiveRun.After(LiveRun.After(w, a), b)
    decreases |a|
  {
    if a == [] {
      assert a + b == b;
    } else {
      RunJoined(Step(w, a[0]), a[1..], b);
      RunFirst(w, a[0], a[1..] + b);
      assert a + b == [a[0]] + (a[1..] + b);
    }
  }

  lemma LateEventMissing(a: Event, b: Event)
    requires 0 < a.no < b.no && a.key != b.key
    ensures !IsLatest([b], UpTo(Sort([a, b]), b.no))
  {
    hide Sort, UpTo, StrictlySorted, IsLatest;
    TwoEvents(a, b);
    UpToSorted([a, b], b.no);
    OtherCheckMissing(UpTo(Sort([a, b]), b.no), a, b);
  }

  lemma TwoEvents(a: Event, b: Event)
    requires 0 < a.no < b.no
    ensures StoreOk([a, b]) && forall e :: e in [a, b] <==> e == a || e == b
  {
  }

  lemma OtherCheckMissing(all: seq<Event>, a: Event, b: Event)
    requires a.key != b.key && forall e :: e in all <==> e == a || e == b
    ensures !IsLatest([b], all)
  {
    assert Newest(all, a) && a !in [b];
  }

  // ---- Checks outside the window ------------------------------------------------------------------------------------

  function Records(store: seq<Event>, k: nat): seq<Action>
    requires k <= |store|
    decreases |store| - k
  {
    if k == |store| then [] else [Record(store[k], k)] + Records(store, k + 1)
  }

  /** Every store of positive, distinct numbers is recorded by some run. */
  lemma {:induction false} StoreIsReached(w: World, store: seq<Event>, k: nat)
    requires StoreOk(store) && k <= |store| && w.store == store[..k]
    ensures IsRun(w, Records(store, k)) && LiveRun.After(w, Records(store, k)) == w.(store := store)
    decreases |store| - k
  {
    if k == |store| {
      assert store[..k] == store;
    } else {
      var w' := Step(w, Record(store[k], k));
      assert store[k] in store;
      assert w'.store == store[..k + 1];
      StoreIsReached(w', store, k + 1);
      RunFirst(w, Record(store[k], k), Records(store, k + 1));
    }
  }

  /** One event of a check, and then more of another one than the window holds. */
  function Crowded(a: Key, b: Key): seq<Event> {
    seq(WINDOW + 1, i => Event(i + 1, if i == 0 then a else b, "running", None, ""))
  }

  /** The input that fails: the check named only outside the window is missing from the snapshot. */
  lemma OutsideWindow(w0: World, a: Key, b: Key, now: real)
    requires Initial(w0) && a != b
    ensures var store := Crowded(a, b);
            && IsRun(w0, Records(store, 0)) && LiveRun.After(w0, Records(store, 0)).store == store
            && !IsLatest(Underlying(SnapshotOf(store, now).checks), Sort(store))
  {
    var store := Crowded(a, b);
    CrowdedStore(a, b);
    StoreIsReached(w0, store, 0);
    SnapshotIsLatest(store, now);
    hide Crowded, SnapshotOf, Sort, JobCheckEvents;
    WindowCovers(store[..1], store[1..], Underlying(SnapshotOf(store, now).checks));
  }

  lemma CrowdedStore(a: Key, b: Key)
    requires a != b
    ensures var store := Crowded(a, b);
            && StoreOk(store) && Sort(store) == store == store[..1] + store[1..] && StrictlySorted(store)
            && JobCheckEvents(store) == store[1..] && !Covered(store[..1], store[1..])
  {
    var store := Crowded(a, b);
    assert StoreOk(store);
    SortStrict(store);
    LatestUnique(Sort(store), store);
    hide Sort;
    assert store == store[..1] + store[1..];
    CrowdedUncovered(a, b);
  }

  lemma CrowdedUncovered(a: Key, b: Key)
    requires a != b
    ensures !Covered(Crowded(a, b)[..1], Crowded(a, b)[1..])
  {
    var store := Crowded(a, b);
    forall w | w in store[1..] ensures w.key == b { var i :| 0 <= i < WINDOW && store[1..][i] == w; }
    assert store[..1][0] in store[..1] && store[..1][0].key == a;
  }
}
