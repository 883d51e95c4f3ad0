/**
 Structured check events of a job: reading them back in sequence order, the snapshot of the latest
 event per check, the events pushed after a cursor, and the list the page keeps.
 */
module CheckEvents {
  import opened Seqs

  datatype Key = Key(step: string, task: string, check: string)

  /** One event. `timestamp` is None when it cannot be parsed as a date. */
  datatype Event = Event(no: int, key: Key, state: string, timestamp: Option<real>, body: string)

  /** An event as displayed: a silent running check is shown stalled for so many seconds. */
  datatype Shown = Shown(event: Event, stalled: Option<real>)

  datatype Snapshot = Snapshot(cursor: int, checks: seq<Shown>)

  const WINDOW: nat := 10000

  // ---- Order ------------------------------------------------------------------------------

  ghost predicate Sorted(s: seq<Event>) { forall i, j | 0 <= i < j < |s| :: s[i].no <= s[j].no }

  ghost predicate StrictlySorted(s: seq<Event>) { forall i, j | 0 <= i < j < |s| :: s[i].no < s[j].no }

  ghost predicate DistinctNos(s: seq<Event>) { forall i, j | 0 <= i < j < |s| :: s[i].no != s[j].no }

  /** How many leading events of a sorted list do not come after `no`. */
  function Rank(s: seq<Event>, no: int): (k: nat)
    ensures k <= |s|
    ensures k > 0 ==> s[k - 1].no <= no
    ensures forall i | k <= i < |s| :: s[i].no > no
  {
    if s == [] || Last(s).no <= no then |s| else Rank(Init(s), no)
  }

  /** Places `e` behind every event that does not come after it. */
  function Insert(s: seq<Event>, e: Event): (r: seq<Event>)
    ensures multiset(r) == multiset(s) + multiset{e}
    ensures Sorted(s) ==> Sorted(r)
  {
    var k := Rank(s, e.no);
    InsertedElements(s, e, k);
    InsertKeeps(s, e, k);
    s[..k] + [e] + s[k..]
  }

  lemma InsertedElements(s: seq<Event>, e: Event, k: nat)
    requires k <= |s|
    ensures multiset(s[..k] + [e] + s[k..]) == multiset(s) + multiset{e}
  {
    assert s == s[..k] + s[k..];
  }

  lemma InsertKeeps(s: seq<Event>, e: Event, k: nat)
    requires k <= |s| && (k > 0 ==> s[k - 1].no <= e.no) && forall i | k <= i < |s| :: s[i].no > e.no
    ensures Sorted(s) ==> Sorted(s[..k] + [e] + s[k..])
  {
    if Sorted(s) {
      assert forall i | 0 <= i < k :: s[i].no <= e.no;
      SortedAround(s[..k], e, s[k..]);
    }
  }

  lemma SortedAround(a: seq<Event>, e: Event, b: seq<Event>)
    requires Sorted(a) && Sorted(b)
    requires forall i | 0 <= i < |a| :: a[i].no <= e.no
    requires forall i | 0 <= i < |b| :: e.no <= b[i].no
    ensures Sorted(a + [e] + b)
  {
  }

  /** Python's stable `sort(key=seq)`. */
  function Sort(s: seq<Event>): (r: seq<Event>)
    ensures Sorted(r) && multiset(r) == multiset(s)
  {
    if s == [] then []
    else
      assert s == Init(s) + [Last(s)];
      Insert(Sort(Init(s)), Last(s))
  }

  /** The newest events, oldest first. */
  function JobCheckEvents(store: seq<Event>): seq<Event> {
    var s := Sort(store);
    if |s| <= WINDOW then s else s[|s| - WINDOW..]
  }

  // ---- The latest event of every check ------------------------------------------------------

  /** Replaces the event with the same key in place, or appends. */
  function Upsert(list: seq<Event>, e: Event): (r: seq<Event>) {
    if list == [] then [e]
    else if list[0].key == e.key then [e] + list[1..]
    else [list[0]] + Upsert(list[1..], e)
  }

  function Latest(events: seq<Event>): seq<Event> {
    if events == [] then [] else Upsert(Latest(Init(events)), Last(events))
  }

  /** `e` is the newest event of its check. */
  ghost predicate Newest(events: seq<Event>, e: Event) {
    e in events && forall x | x in events && x.key == e.key :: x.no <= e.no
  }

  /** The list holds the newest event of every check, in sequence order, and nothing else. */
  ghost predicate IsLatest(list: seq<Event>, events: seq<Event>) {
    && StrictlySorted(list)
    && forall e :: e in list <==> Newest(events, e)
  }

  ghost predicate UniqueKeys(list: seq<Event>) {
    forall i, j | 0 <= i < j < |list| :: list[i].key != list[j].key
  }

  lemma {:induction false} UpsertElements(list: seq<Event>, e: Event)
    requires UniqueKeys(list)
    ensures UniqueKeys(Upsert(list, e))
    ensures forall x :: x in Upsert(list, e) <==> x == e || (x in list && x.key != e.key)
  {
    if list != [] {
      var rest := Upsert(list[1..], e);
      UpsertElements(list[1..], e);
      assert list == [list[0]] + list[1..];
      if list[0].key == e.key {
        assert forall x | x in list[1..] :: x.key != e.key;
      } else {
        assert forall x | x in rest :: x.key != list[0].key;
      }
    }
  }

  lemma NewestSnoc(before: seq<Event>, z: Event, e: Event)
    requires StrictlySorted(before + [z])
    ensures Newest(before + [z], e) <==> e == z || (Newest(before, e) && e.key != z.key)
  {
    var all := before + [z];
    assert forall i | 0 <= i < |before| :: all[i] == before[i] && all[i].no < all[|before|].no;
    assert z in all && forall x | x in before :: x.no < z.no;
    assert forall x :: x in all <==> x in before || x == z;
  }

  lemma {:induction false} LatestElements(events: seq<Event>)
    requires StrictlySorted(events)
    ensures UniqueKeys(Latest(events))
    ensures forall e :: e in Latest(events) <==> Newest(events, e)
  {
    if events != [] {
      var before, z := Init(events), Last(events);
      LatestElements(before);
      UpsertElements(Latest(before), z);
      assert events == before + [z];
      hide Upsert, UniqueKeys, Newest, StrictlySorted;
      forall e ensures e in Latest(events) <==> Newest(events, e) { NewestSnoc(before, z, e); }
    }
  }

  lemma LastIsNewest(s: seq<Event>)
    requires StrictlySorted(s) && s != []
    ensures forall e :: e in s <==> e in Init(s) || e == Last(s)
    ensures forall e | e in Init(s) :: e.no < Last(s).no
  {
    assert s == Init(s) + [Last(s)];
  }

  lemma SameLast(a: seq<Event>, b: seq<Event>)
    requires StrictlySorted(a) && StrictlySorted(b) && a != [] && b != []
    requires forall e :: e in a <==> e in b
    ensures Last(a) == Last(b)
    ensures forall e :: e in Init(a) <==> e in Init(b)
  {
    LastIsNewest(a);
    LastIsNewest(b);
    assert Last(a) in b && Last(b) in a;
    assert Last(a) == Last(b);
    forall e ensures e in Init(a) <==> e in Init(b) {
      assert e in a <==> e in b;
    }
  }

  /** Only one list can be the latest view of given events. */
  lemma {:induction false} LatestUnique(a: seq<Event>, b: seq<Event>)
    requires StrictlySorted(a) && StrictlySorted(b)
    requires forall e :: e in a <==> e in b
    ensures a == b
    decreases |a|
  {
    assert a != [] ==> a[0] in a;
    assert b != [] ==> b[0] in b;
    if a != [] {
      SameLast(a, b);
      LatestUnique(Init(a), Init(b));
      assert a == Init(a) + [Last(a)] && b == Init(b) + [Last(b)];
    }
  }

  // ---- The window of the newest events --------------------------------------------------------

  /** Sorting distinct events gives a strictly increasing list of the same events. */
  lemma {:induction false} SortStrict(store: seq<Event>)
    requires DistinctNos(store)
    ensures StrictlySorted(Sort(store))
    ensures forall e :: e in Sort(store) <==> e in store
  {
    SameElements(Sort(store), store);
    if store != [] {
      var before, z := Init(store), Last(store);
      SortStrict(before);
      assert store == before + [z];
      forall e | e in before ensures e.no != z.no {
        var i :| 0 <= i < |before| && before[i] == e;
        assert store[i] == e && store[|before|] == z;
      }
      InsertStrict(Sort(before), z);
    }
  }

  lemma InsertStrict(s: seq<Event>, e: Event)
    requires StrictlySorted(s) && forall x | x in s :: x.no != e.no
    ensures StrictlySorted(Insert(s, e))
  {
    assert forall i | 0 <= i < |s| :: s[i] in s;
    StrictlyPlaced(s, e, Rank(s, e.no));
  }

  lemma StrictlyPlaced(s: seq<Event>, e: Event, k: nat)
    requires StrictlySorted(s) && k <= |s| && (k > 0 ==> s[k - 1].no < e.no)
    requires forall i | k <= i < |s| :: s[i].no > e.no
    ensures StrictlySorted(s[..k] + [e] + s[k..])
  {
    assert forall i | 0 <= i < k :: s[i].no < e.no;
    StrictAround(s[..k], e, s[k..]);
  }

  lemma StrictAround(a: seq<Event>, e: Event, b: seq<Event>)
    requires StrictlySorted(a) && StrictlySorted(b)
    requires forall i | 0 <= i < |a| :: a[i].no < e.no
    requires forall i | 0 <= i < |b| :: e.no < b[i].no
    ensures StrictlySorted(a + [e] + b)
  {
  }

  lemma SameElements(a: seq<Event>, b: seq<Event>)
    requires multiset(a) == multiset(b)
    ensures forall e :: e in a <==> e in b
  {
    assert forall e :: e in a <==> e in multiset(a);
    assert forall e :: e in b <==> e in multiset(b);
  }

  /** Every check an event of `dropped` speaks about is also spoken about in `kept`. */
  ghost predicate Covered(dropped: seq<Event>, kept: seq<Event>) {
    forall d | d in dropped :: exists w | w in kept :: w.key == d.key
  }

  lemma {:induction false} NewestExists(events: seq<Event>, d: Event) returns (e: Event)
    requires StrictlySorted(events) && d in events
    ensures Newest(events, e) && e.key == d.key
  {
    var before, z := Init(events), Last(events);
    LastIsNewest(events);
    if z.key == d.key {
      e := z;
    } else {
      e := NewestExists(before, d);
    }
  }

  /** Dropping old events leaves the latest view intact exactly when every check they name is still named. */
  lemma WindowCovers(dropped: seq<Event>, kept: seq<Event>, list: seq<Event>)
    requires StrictlySorted(dropped + kept) && IsLatest(list, kept)
    ensures IsLatest(list, dropped + kept) <==> Covered(dropped, kept)
  {
    var all := dropped + kept;
    assert forall d, w | d in dropped && w in kept :: d.no < w.no by {
      forall d, w | d in dropped && w in kept ensures d.no < w.no {
        var i :| 0 <= i < |dropped| && dropped[i] == d;
        var j :| 0 <= j < |kept| && kept[j] == w;
        assert all[i] == d && all[|dropped| + j] == w;
      }
    }
    assert forall e :: e in all <==> e in dropped || e in kept;
    if Covered(dropped, kept) {
      forall e ensures e in list <==> Newest(all, e) {
        assert e in list <==> Newest(kept, e);
      }
    } else {
      var d :| d in dropped && !exists w | w in kept :: w.key == d.key;
      var e := NewestExists(all, d);
      assert e !in kept && !Newest(kept, e) && e !in list;
    }
  }

  // ---- Snapshot -------------------------------------------------------------------------------

  const STALE_AFTER: real := 15.0

  /** A running check without an update for more than 15 seconds is shown stalled. */
  function Relabel(now: real): Event -> Shown {
    (e: Event) =>
      if e.state == "running" && e.timestamp.Some? && now - e.timestamp.value > STALE_AFTER
      then Shown(e, Some(now - e.timestamp.value))
      else Shown(e, None)
  }

  function MaxNo(events: seq<Event>): int {
    if events == [] then 0
    else if |events| == 1 then events[0].no
    else var m := MaxNo(Init(events)); if Last(events).no > m then Last(events).no else m
  }

  /** Number of the newest event. */
  function Top(all: seq<Event>): int { if all == [] then 0 else Last(all).no }

  function SnapshotOf(store: seq<Event>, now: real): Snapshot {
    var events := JobCheckEvents(store);
    Snapshot(MaxNo(events), MapSeq(Relabel(now), Sort(Latest(events))))
  }

  /** The events behind what is displayed. */
  function Underlying(shown: seq<Shown>): seq<Event> {
    MapSeq((s: Shown) => s.event, shown)
  }

  lemma WindowStrict(store: seq<Event>)
    requires DistinctNos(store)
    ensures StrictlySorted(JobCheckEvents(store))
  {
    SortStrict(store);
  }

  lemma {:induction false} MaxNoIsLast(events: seq<Event>)
    requires Sorted(events) && events != []
    ensures MaxNo(events) == Last(events).no
  {
    if |events| > 1 {
      MaxNoIsLast(Init(events));
    }
  }

  /** Behind its stalled labels the snapshot is the latest view of the newest events. */
  lemma SnapshotIsLatest(store: seq<Event>, now: real)
    requires DistinctNos(store)
    ensures IsLatest(Underlying(SnapshotOf(store, now).checks), JobCheckEvents(store))
    ensures SnapshotOf(store, now).cursor == Top(JobCheckEvents(store))
  {
    var events := JobCheckEvents(store);
    WindowStrict(store);
    LatestElements(events);
    var list := Latest(events);
    forall i, j | 0 <= i < j < |list| ensures list[i].no != list[j].no {
      assert list[i] in list && list[j] in list;
      SameNoSameEvent(events, list[i], list[j]);
    }
    SortStrict(list);
    assert Underlying(MapSeq(Relabel(now), Sort(list))) == Sort(list);
    if events != [] { MaxNoIsLast(events); }
  }

  /** A check is shown stalled exactly if it runs and was last heard of more than 15 seconds ago, and for how long. */
  predicate Labelled(shown: Shown, now: real) {
    var e := shown.event;
    && (shown.stalled.Some? <==> e.state == "running" && e.timestamp.Some? && now - e.timestamp.value > 15.0)
    && (shown.stalled.Some? ==> shown.stalled.value == now - e.timestamp.value)
  }

  lemma RelabelLabels(events: seq<Event>, now: real)
    ensures forall i | 0 <= i < |events| ::
              MapSeq(Relabel(now), events)[i].event == events[i] && Labelled(MapSeq(Relabel(now), events)[i], now)
  {
  }

  /** Every check the snapshot shows is the newest event of its check, labelled by its own state and time. */
  lemma SnapshotShows(store: seq<Event>, now: real)
    requires DistinctNos(store)
    ensures var shown, events := SnapshotOf(store, now).checks, JobCheckEvents(store);
            && (forall i | 0 <= i < |shown| :: Labelled(shown[i], now) && Newest(events, shown[i].event))
            && (forall e | Newest(events, e) :: exists i | 0 <= i < |shown| :: shown[i].event == e)
            && (forall i, j | 0 <= i < j < |shown| :: shown[i].event.no < shown[j].event.no)
  {
    var shown, events := SnapshotOf(store, now).checks, JobCheckEvents(store);
    SnapshotIsLatest(store, now);
    RelabelLabels(Sort(Latest(events)), now);
    hide SnapshotOf, Labelled, Newest, JobCheckEvents;
    var list := Underlying(shown);
    assert forall i | 0 <= i < |shown| :: list[i] == shown[i].event && list[i] in list;
  }

  lemma SameNoSameEvent(events: seq<Event>, a: Event, b: Event)
    requires StrictlySorted(events) && a in events && b in events
    ensures a.no == b.no ==> a == b
  {
    var i :| 0 <= i < |events| && events[i] == a;
    var j :| 0 <= j < |events| && events[j] == b;
  }

  // ---- Events after a cursor ------------------------------------------------------------------

  function After(events: seq<Event>, cursor: int): seq<Event> {
    if events == [] then []
    else After(Init(events), cursor) + if Last(events).no > cursor then [Last(events)] else []
  }

  /** The live push: skip what is not above the cursor, send the rest, moving the cursor along. */
  function Push(events: seq<Event>, cursor: int): (int, seq<Event>) {
    if events == [] then (cursor, [])
    else
      var (c, sent) := Push(Init(events), cursor);
      if Last(events).no <= c then (c, sent) else (Last(events).no, sent + [Last(events)])
  }

  /** One poll of the SSE stream: all events above the cursor as it stood when the poll began. */
  function SsePoll(events: seq<Event>, cursor: int): (int, seq<Event>) {
    var sent := After(events, cursor);
    (if sent == [] then cursor else if MaxNo(sent) > cursor then MaxNo(sent) else cursor, sent)
  }

  /** In a sorted list the events above a cursor are those behind its rank. */
  lemma {:induction false} AfterIsSuffix(events: seq<Event>, cursor: int)
    requires Sorted(events)
    ensures After(events, cursor) == events[Rank(events, cursor)..]
  {
    if events != [] {
      var before, z := Init(events), Last(events);
      assert events == before + [z];
      if z.no <= cursor {
        NoneAfter(events, cursor);
      } else {
        AfterIsSuffix(before, cursor);
        SuffixSnoc(before, z, Rank(before, cursor));
      }
    }
  }

  lemma SuffixSnoc(before: seq<Event>, z: Event, k: nat)
    requires k <= |before|
    ensures (before + [z])[k..] == before[k..] + [z]
  {
  }

  lemma {:induction false} NoneAfter(events: seq<Event>, cursor: int)
    requires forall i | 0 <= i < |events| :: events[i].no <= cursor
    ensures After(events, cursor) == []
  {
    if events != [] { NoneAfter(Init(events), cursor); }
  }

  /** Pushed numbers strictly increase from the cursor on, whatever the store holds. */
  lemma {:induction false} PushIncreases(events: seq<Event>, cursor: int)
    ensures var (c, sent) := Push(events, cursor);
            && StrictlySorted(sent)
            && (forall i | 0 <= i < |sent| :: cursor < sent[i].no <= c)
            && c == if sent == [] then cursor else Last(sent).no
  {
    if events != [] { PushIncreases(Init(events), cursor); }
  }

  /** Nothing above the cursor is skipped when the numbers above it do not repeat. */
  lemma {:induction false} PushIsAfter(events: seq<Event>, cursor: int)
    requires Sorted(events)
    ensures Push(events, cursor).1 == After(events, cursor) <==> StrictlySorted(After(events, cursor))
  {
    PushIncreases(events, cursor);
    if StrictlySorted(After(events, cursor)) && events != [] {
      var before, z := Init(events), Last(events);
      assert After(events, cursor) == After(before, cursor) + if z.no > cursor then [z] else [];
      var head := After(before, cursor);
      assert head == After(events, cursor)[..|head|];
      if z.no > cursor { assert After(events, cursor)[|head|] == z; }
      PushIsAfter(before, cursor);
      PushIncreases(before, cursor);
    }
  }

  /**
   A read through the window brings every event above the cursor exactly when there are at most
   WINDOW of them.
   */
  lemma WindowPush(store: seq<Event>, cursor: int)
    requires DistinctNos(store)
    ensures Push(JobCheckEvents(store), cursor).1 == After(Sort(store), cursor)
       <==> |After(Sort(store), cursor)| <= WINDOW
  {
    SortStrict(store);
    WindowStrict(store);
    PushSkipsNothing(JobCheckEvents(store), cursor);
    WindowAfter(Sort(store), JobCheckEvents(store), cursor);
  }

  lemma WindowAfter(all: seq<Event>, window: seq<Event>, cursor: int)
    requires StrictlySorted(all)
    requires window == if |all| <= WINDOW then all else all[|all| - WINDOW..]
    ensures After(window, cursor) == After(all, cursor) <==> |After(all, cursor)| <= WINDOW
  {
    var d := if |all| <= WINDOW then 0 else |all| - WINDOW;
    assert window == all[d..];
    AfterInWindow(all, d, cursor);
    AfterAtMost(all, cursor);
  }

  lemma {:induction false} AfterAtMost(events: seq<Event>, cursor: int)
    ensures |After(events, cursor)| <= |events|
  {
    if events != [] { AfterAtMost(Init(events), cursor); }
  }

  lemma PushSkipsNothing(events: seq<Event>, cursor: int)
    requires StrictlySorted(events)
    ensures Push(events, cursor).1 == After(events, cursor)
  {
    AfterIsSuffix(events, cursor);
    PushIsAfter(events, cursor);
  }

  lemma AfterInWindow(all: seq<Event>, d: nat, cursor: int)
    requires StrictlySorted(all) && d <= |all|
    ensures After(all[d..], cursor) == After(all, cursor) <==> |After(all, cursor)| <= |all| - d
  {
    AfterIsSuffix(all, cursor);
    AfterIsSuffix(all[d..], cursor);
    RankOfSuffix(all, d, cursor);
  }

  lemma RankOfSuffix(s: seq<Event>, d: nat, cursor: int)
    requires Sorted(s) && d <= |s|
    ensures Rank(s[d..], cursor) == if Rank(s, cursor) <= d then 0 else Rank(s, cursor) - d
    ensures d <= Rank(s, cursor) ==> s[d..][Rank(s[d..], cursor)..] == s[Rank(s, cursor)..]
    ensures d > Rank(s, cursor) ==> s[d..][Rank(s[d..], cursor)..] == s[d..]
  {
    hide Rank;
    var k, k' := Rank(s, cursor), Rank(s[d..], cursor);
    assert k > d ==> s[d..][k - d - 1] == s[k - 1];
    assert k < |s| && k >= d ==> s[d..][k - d] == s[k];
    assert k' > 0 ==> s[d..][k' - 1] == s[d + k' - 1];
    assert k' < |s| - d ==> s[d..][k'] == s[d + k'];
  }

  // ---- Live push and SSE stream over successive reads -----------------------------------------

  function PushRun(polls: seq<seq<Event>>, cursor: int): (int, seq<Event>) {
    if polls == [] then (cursor, [])
    else
      var (c, sent) := PushRun(Init(polls), cursor);
      var (c', more) := Push(Last(polls), c);
      (c', sent + more)
  }

  function SseRun(polls: seq<seq<Event>>, cursor: int): (int, seq<Event>) {
    if polls == [] then (cursor, [])
    else
      var (c, sent) := SseRun(Init(polls), cursor);
      var (c', more) := SsePoll(Last(polls), c);
      (c', sent + more)
  }

  /** From the same cursor and the same reads both transports emit the same events. */
  lemma {:induction false} SseEmitsTheSame(polls: seq<seq<Event>>, cursor: int)
    requires forall r | r in polls :: StrictlySorted(r)
    ensures PushRun(polls, cursor) == SseRun(polls, cursor)
  {
    if polls != [] {
      SseEmitsTheSame(Init(polls), cursor);
      assert Last(polls) in polls;
      PushIsSsePoll(Last(polls), PushRun(Init(polls), cursor).0);
    }
  }

  lemma PushIsSsePoll(events: seq<Event>, cursor: int)
    requires StrictlySorted(events)
    ensures Push(events, cursor) == SsePoll(events, cursor)
  {
    AfterIsSuffix(events, cursor);
    PushIsAfter(events, cursor);
    PushIncreases(events, cursor);
    var sent := After(events, cursor);
    if sent != [] { MaxNoIsLast(sent); }
  }

  /** A repeated number is emitted twice by the SSE stream and once by the live push. */
  lemma RepeatedNumberDiffers(e: Event, f: Event)
    requires e.no == f.no > 0
    ensures SsePoll([e, f], 0).1 == [e, f]
    ensures Push([e, f], 0).1 == [e]
  {
    assert Init([e, f]) == [e] && Init([e]) == [];
    assert After([e], 0) == After([], 0) + [e];
    assert After([e, f], 0) == After([e], 0) + [f];
    assert Push([e], 0) == (e.no, [] + [e]);
  }
}
