/**
 Many workers on one Redis: cached calls, counting one command at a time, resets of the statistics.
 The counters balance, and cached answers are never older than their expiration.
 */
module CacheRun {
  import opened Seqs
  import opened Cache

  /**
   Calls of one side that still have to record their name (`todo`), to count it (`adding`), to count
   the total (`between`).
   */
  datatype Progress = Progress(todo: multiset<string>, adding: multiset<string>, between: multiset<string>)

  const Idle := Progress(multiset{}, multiset{}, multiset{})

  /** A call that missed: waiting for Slurm since its lookup, or holding the answer it will store and return. */
  datatype Worker =
    | Asking(query: Query, looked: real)
    | Storing(query: Query, looked: real, asked: real, value: Value)

  /**
   Where a reset stands: the next command zeroes a total, reads the recorded names, deletes one of the
   counters still `left` of those it read, or deletes the set of names; hits come before misses.
   */
  datatype Stage =
    | Zero(side: Side)
    | ReadNames(side: Side)
    | DeleteCounters(side: Side, left: set<string>)
    | DropNames(side: Side)

  /** `calls` counts successful cached calls since the last reset zeroed the totals. */
  datatype World = World(
    redis: Redis, workers: multiset<Worker>, hit: Progress, miss: Progress, now: real, calls: nat,
    reset: Option<Stage>)

  function Of(w: World, side: Side): Progress { if side == Hit then w.hit else w.miss }

  function With(w: World, side: Side, p: Progress): World {
    if side == Hit then w.(hit := p) else w.(miss := p)
  }

  datatype Action =
    | Lookup(query: Query)
    | Answer(worker: Worker)
    | Store(worker: Worker)
    | RecordName(side: Side, name: string)
    | CountKey(side: Side, name: string)
    | CountTotal(side: Side, name: string)
    | BeginReset
    | ResetCommand(name: string)
    | Wait(until: real)

  predicate Enabled(w: World, a: Action) {
    match a
    case Lookup(_) => true
    case Answer(worker) => worker in w.workers && worker.Asking?
    case Store(worker) => worker in w.workers && worker.Storing?
    case RecordName(side, name) => name in Of(w, side).todo
    case CountKey(side, name) => name in Of(w, side).adding
    case CountTotal(side, name) => name in Of(w, side).between
    case BeginReset => w.reset.None?
    case ResetCommand(name) =>
      w.reset.Some? && (w.reset.value.DeleteCounters? ==> name in w.reset.value.left)
    case Wait(until) => until >= w.now
  }

  /** What the cache has for a query now, if caching is on. */
  function Found(b: Backend, w: World, q: Query): Option<Value> {
    if !b.enabled then None
    else
      var data := Get(w.redis, MainKey(q), w.now);
      if data == Some(NoData) then None else data
  }

  /** One more successful call, to be counted on a side. */
  function CountCall(w: World, side: Side, q: Query): World {
    var p := Of(w, side);
    With(w.(calls := w.calls + 1), side, p.(todo := p.todo + multiset{CountName(q)}))
  }

  /** Without caching a call goes straight to Slurm and leaves no trace here. */
  function LookedUp(b: Backend, w: World, q: Query): World {
    if !b.enabled then w
    else if Found(b, w, q).Some? then CountCall(w, Hit, q)
    else w.(workers := w.workers + multiset{Asking(q, w.now)})
  }

  /** Slurm's answer to a waiting worker; a failed call ends there. */
  function Answered(b: Backend, w: World, worker: Worker): World
    requires worker.Asking?
  {
    var others := w.workers - multiset{worker};
    match b.answer(worker.query, w.now)
    case Failed => w.(workers := others)
    case Got(value) =>
      w.(workers := others + multiset{Storing(worker.query, worker.looked, w.now, value)})
  }

  function Stored(b: Backend, w: World, worker: Worker): World
    requires worker.Storing?
  {
    var q := worker.query;
    var redis := Put(w.redis, MainKey(q), worker.value, worker.asked, w.now, b.expiration(q));
    CountCall(w.(redis := redis, workers := w.workers - multiset{worker}), Miss, q)
  }

  function Step(b: Backend, w: World, a: Action): World
    requires Enabled(w, a)
  {
    match a
    case Lookup(q) => LookedUp(b, w, q)
    case Answer(worker) => Answered(b, w, worker)
    case Store(worker) => Stored(b, w, worker)
    case RecordName(side, name) =>
      var p := Of(w, side);
      With(w.(redis := Sadd(w.redis, StatKey(side, KEYS), name)), side,
           p.(todo := p.todo - multiset{name}, adding := p.adding + multiset{name}))
    case CountKey(side, name) =>
      var p := Of(w, side);
      With(w.(redis := Incr(w.redis, StatKey(side, name))), side,
           p.(adding := p.adding - multiset{name}, between := p.between + multiset{name}))
    case CountTotal(side, name) =>
      var p := Of(w, side);
      With(w.(redis := Incr(w.redis, StatKey(side, TOTAL))), side, p.(between := p.between - multiset{name}))
    case BeginReset => w.(reset := Some(Zero(Hit)))
    case ResetCommand(name) => Commanded(w, name)
    case Wait(until) => w.(now := until)
  }

  /** What follows once `left` counters of a side remain to be deleted. */
  function AfterRead(side: Side, left: set<string>): Stage {
    if left != {} then DeleteCounters(side, left) else if side == Hit then ReadNames(Miss) else DropNames(Hit)
  }

  /** One command of the reset under way. */
  function Commanded(w: World, name: string): World
    requires w.reset.Some?
  {
    match w.reset.value
    case Zero(side) =>
      w.(redis := w.redis[StatKey(side, TOTAL) := Counter(0)],
         reset := Some(if side == Hit then Zero(Miss) else ReadNames(Hit)),
         calls := if side == Hit then w.calls else 0)
    case ReadNames(side) => w.(reset := Some(AfterRead(side, NamesOf(w.redis, side))))
    case DeleteCounters(side, left) =>
      w.(redis := w.redis - {StatKey(side, name)}, reset := Some(AfterRead(side, left - {name})))
    case DropNames(side) =>
      w.(redis := w.redis - {StatKey(side, KEYS)}, reset := if side == Hit then Some(DropNames(Miss)) else None)
  }

  ghost predicate IsRun(b: Backend, w: World, actions: seq<Action>)
    decreases |actions|
  {
    actions == [] || (Enabled(w, actions[0]) && IsRun(b, Step(b, w, actions[0]), actions[1..]))
  }

  function After(b: Backend, w: World, actions: seq<Action>): World
    requires IsRun(b, w, actions)
    decreases |actions|
  {
    if actions == [] then w else After(b, Step(b, w, actions[0]), actions[1..])
  }

  predicate Initial(w: World) {
    w.redis == map[] && w.workers == multiset{} && w.hit == Idle && w.miss == Idle && w.calls == 0
    && w.reset.None?
  }

  predicate Quiet(w: World) { w.hit == Idle && w.miss == Idle }

  /** No call is being counted while a reset begins or is under way. */
  ghost predicate QuietResets(b: Backend, w: World, actions: seq<Action>)
    requires IsRun(b, w, actions)
    decreases |actions|
  {
    actions == []
    || ((w.reset.Some? || actions[0].BeginReset? ==> Quiet(w)) && QuietResets(b, Step(b, w, actions[0]), actions[1..]))
  }

  // ---- Sums over the counters ---------------------------------------------------------------

  function Total(r: Redis, side: Side): nat { CounterOf(r, StatKey(side, TOTAL)) }

  function SumOf(r: Redis, side: Side, names: seq<string>): nat {
    if names == [] then 0 else CounterOf(r, StatKey(side, names[0])) + SumOf(r, side, names[1..])
  }

  /** Sum of the per-name counters of a side. */
  function Sum(r: Redis, side: Side): nat { SumOf(r, side, COUNT_NAMES) }

  ghost predicate Distinct(names: seq<string>) { forall i, j | 0 <= i < j < |names| :: names[i] != names[j] }

  lemma CountNamesDistinct()
    ensures Distinct(COUNT_NAMES)
  {
  }

  /** The counters of these names are the same in both stores. */
  ghost predicate SameCounters(r: Redis, r': Redis, side: Side, names: seq<string>) {
    forall i | 0 <= i < |names| :: CounterOf(r', StatKey(side, names[i])) == CounterOf(r, StatKey(side, names[i]))
  }

  lemma {:induction false} SumUnchanged(r: Redis, r': Redis, side: Side, names: seq<string>)
    requires SameCounters(r, r', side, names)
    ensures SumOf(r', side, names) == SumOf(r, side, names)
  {
    if names != [] {
      assert forall i | 0 <= i < |names[1..]| :: names[1..][i] == names[i + 1];
      SumUnchanged(r, r', side, names[1..]);
    }
  }

  lemma {:induction false} SumIncr(r: Redis, side: Side, name: string, names: seq<string>)
    requires Distinct(names) && name in names
    ensures SumOf(Incr(r, StatKey(side, name)), side, names) == SumOf(r, side, names) + 1
  {
    var r', rest := Incr(r, StatKey(side, name)), names[1..];
    assert forall i | 0 <= i < |rest| :: rest[i] == names[i + 1];
    if names[0] == name {
      forall i | 0 <= i < |rest| ensures StatKey(side, rest[i]) != StatKey(side, name) {
        if StatKey(side, rest[i]) == StatKey(side, name) { StatKeysInjective(side, rest[i], side, name); }
      }
      SumUnchanged(r, r', side, rest);
    } else {
      if StatKey(side, names[0]) == StatKey(side, name) { StatKeysInjective(side, names[0], side, name); }
      SumIncr(r, side, name, rest);
    }
  }

  // ---- Counter conservation -------------------------------------------------------------------

  ghost predicate Listed(p: Progress) {
    forall name | name in p.todo || name in p.adding || name in p.between :: name in COUNT_NAMES
  }

  /** One side in balance: its total and the workers between their two increments make up the counters. */
  ghost predicate Balanced(w: World, side: Side) {
    Listed(Of(w, side)) && Total(w.redis, side) + |Of(w, side).between| == Sum(w.redis, side)
  }

  /** Stores that agree on one side's counters. */
  ghost predicate SameSide(r: Redis, r': Redis, side: Side) {
    Total(r', side) == Total(r, side) && SameCounters(r, r', side, COUNT_NAMES)
  }

  lemma StillBalanced(w: World, w': World, side: Side)
    requires Balanced(w, side) && SameSide(w.redis, w'.redis, side) && Of(w', side).between == Of(w, side).between
    requires Listed(Of(w', side))
    ensures Balanced(w', side)
  {
    SumUnchanged(w.redis, w'.redis, side, COUNT_NAMES);
  }

  /** Writing anything but this side's own counters leaves the side alone. */
  lemma ElsewhereSame(r: Redis, key: string, e: Entry, side: Side)
    requires key != StatKey(side, TOTAL)
    requires forall i | 0 <= i < |COUNT_NAMES| :: key != StatKey(side, COUNT_NAMES[i])
    ensures SameSide(r, r[key := e], side)
  {
  }

  lemma DataElsewhere(r: Redis, q: Query, e: Entry, side: Side)
    ensures SameSide(r, r[MainKey(q) := e], side)
  {
    DataApartFromStatistics(q, side, TOTAL);
    forall i | 0 <= i < |COUNT_NAMES| ensures MainKey(q) != StatKey(side, COUNT_NAMES[i]) {
      DataApartFromStatistics(q, side, COUNT_NAMES[i]);
    }
    ElsewhereSame(r, MainKey(q), e, side);
  }

  lemma OtherSuffix(r: Redis, from: Side, suffix: string, e: Entry, side: Side)
    requires from != side || (suffix != TOTAL && suffix !in COUNT_NAMES)
    ensures SameSide(r, r[StatKey(from, suffix) := e], side)
  {
    var key := StatKey(from, suffix);
    if key == StatKey(side, TOTAL) { StatKeysInjective(from, suffix, side, TOTAL); }
    forall i | 0 <= i < |COUNT_NAMES| ensures key != StatKey(side, COUNT_NAMES[i]) {
      if key == StatKey(side, COUNT_NAMES[i]) { StatKeysInjective(from, suffix, side, COUNT_NAMES[i]); }
    }
    ElsewhereSame(r, key, e, side);
  }

  lemma KeysNotListed()
    ensures KEYS !in COUNT_NAMES && TOTAL !in COUNT_NAMES
  {
    if KEYS in COUNT_NAMES { CountNamesPlain(KEYS); }
    if TOTAL in COUNT_NAMES { CountNamesPlain(TOTAL); }
  }

  /** A lookup, an answer or a store: at most cached data is written and one more call waits to be counted. */
  predicate CallAction(a: Action) { a.Lookup? || a.Answer? || a.Store? }

  lemma CallListed(b: Backend, w: World, a: Action, side: Side)
    requires Listed(Of(w, side)) && Enabled(w, a) && CallAction(a)
    ensures var w' := Step(b, w, a);
            && Listed(Of(w', side)) && Of(w', side).between == Of(w, side).between
            && Of(w', side).adding == Of(w, side).adding
  {
    CountNamesListed(if a.Lookup? then a.query else a.worker.query);
  }

  /** Such an action leaves the statistics alone. */
  lemma CallElsewhere(b: Backend, w: World, a: Action, side: Side)
    requires Enabled(w, a) && CallAction(a)
    ensures SameSide(w.redis, Step(b, w, a).redis, side)
    ensures NamesOf(Step(b, w, a).redis, side) == NamesOf(w.redis, side)
  {
    if a.Store? {
      var q := a.worker.query;
      DataElsewhere(w.redis, q, Step(b, w, a).redis[MainKey(q)], side);
      DataApartFromStatistics(q, side, KEYS);
    }
  }

  lemma CallBalanced(b: Backend, w: World, a: Action, side: Side)
    requires Balanced(w, side) && Enabled(w, a) && CallAction(a)
    ensures Balanced(Step(b, w, a), side)
  {
    CallListed(b, w, a, side);
    CallElsewhere(b, w, a, side);
    StillBalanced(w, Step(b, w, a), side);
  }

  lemma RecordBalanced(b: Backend, w: World, from: Side, name: string, side: Side)
    requires Balanced(w, side) && Listed(Of(w, from)) && Enabled(w, RecordName(from, name))
    ensures Balanced(Step(b, w, RecordName(from, name)), side)
  {
    KeysNotListed();
    OtherSuffix(w.redis, from, KEYS, Members(MembersOf(w.redis, StatKey(from, KEYS)) + {name}), side);
    StillBalanced(w, Step(b, w, RecordName(from, name)), side);
  }

  lemma OwnCount(r: Redis, side: Side, name: string)
    requires name in COUNT_NAMES
    ensures Total(Incr(r, StatKey(side, name)), side) == Total(r, side)
    ensures Sum(Incr(r, StatKey(side, name)), side) == Sum(r, side) + 1
  {
    CountNamesDistinct();
    SumIncr(r, side, name, COUNT_NAMES);
    CountNamesPlain(name);
    if StatKey(side, name) == StatKey(side, TOTAL) { StatKeysInjective(side, name, side, TOTAL); }
  }

  lemma CountBalanced(b: Backend, w: World, from: Side, name: string, side: Side)
    requires Balanced(w, side) && Listed(Of(w, from)) && Enabled(w, CountKey(from, name))
    ensures Balanced(Step(b, w, CountKey(from, name)), side)
  {
    if from == side {
      OwnCount(w.redis, side, name);
    } else {
      OtherSuffix(w.redis, from, name, Counter(CounterOf(w.redis, StatKey(from, name)) + 1), side);
      StillBalanced(w, Step(b, w, CountKey(from, name)), side);
    }
  }

  /** Writing a side's total leaves its counters alone. */
  lemma {:induction false} OwnTotal(r: Redis, side: Side, e: Entry, names: seq<string>)
    requires TOTAL !in names
    ensures SumOf(r[StatKey(side, TOTAL) := e], side, names) == SumOf(r, side, names)
  {
    if names != [] {
      if StatKey(side, names[0]) == StatKey(side, TOTAL) { StatKeysInjective(side, names[0], side, TOTAL); }
      OwnTotal(r, side, e, names[1..]);
    }
  }

  lemma TotalBalanced(b: Backend, w: World, from: Side, name: string, side: Side)
    requires Balanced(w, side) && Listed(Of(w, from)) && Enabled(w, CountTotal(from, name))
    ensures Balanced(Step(b, w, CountTotal(from, name)), side)
  {
    hide Sum, StatKey;
    if from == side {
      OwnTotalBalanced(w, Step(b, w, CountTotal(from, name)), side, name);
    } else {
      OtherSuffix(w.redis, from, TOTAL, Counter(Total(w.redis, from) + 1), side);
      StillBalanced(w, Step(b, w, CountTotal(from, name)), side);
    }
  }

  lemma OwnTotalBalanced(w: World, w': World, side: Side, name: string)
    requires Balanced(w, side) && name in Of(w, side).between && w'.redis == Incr(w.redis, StatKey(side, TOTAL))
    requires Of(w', side) == Of(w, side).(between := Of(w, side).between - multiset{name})
    ensures Balanced(w', side)
  {
    TotalIncremented(w.redis, side);
    hide Sum, Incr;
  }

  lemma TotalIncremented(r: Redis, side: Side)
    ensures Sum(Incr(r, StatKey(side, TOTAL)), side) == Sum(r, side)
    ensures Total(Incr(r, StatKey(side, TOTAL)), side) == Total(r, side) + 1
  {
    hide SumOf, StatKey;
    KeysNotListed();
    OwnTotal(r, side, Counter(Total(r, side) + 1), COUNT_NAMES);
  }

  // ---- Recorded names -------------------------------------------------------------------------

  function NamesOf(r: Redis, side: Side): set<string> { MembersOf(r, StatKey(side, KEYS)) }

  /** Every counter in use has its name in the set that metrics and reset go through. */
  ghost predicate Recorded(r: Redis, p: Progress, side: Side) {
    && (forall name | name in NamesOf(r, side) :: name in COUNT_NAMES)
    && (forall name | name in COUNT_NAMES :: InUse(r, p, side, name) ==> name in NamesOf(r, side))
  }

  predicate InUse(r: Redis, p: Progress, side: Side, name: string) {
    CounterOf(r, StatKey(side, name)) > 0 || name in p.adding || name in p.between
  }

  /** Stores that agree on one side's names and on which counters are in use. */
  lemma StillRecorded(r: Redis, p: Progress, r': Redis, p': Progress, side: Side)
    requires Recorded(r, p, side) && NamesOf(r', side) == NamesOf(r, side) && SameCounters(r, r', side, COUNT_NAMES)
    requires p'.adding + p'.between <= p.adding + p.between
    ensures Recorded(r', p', side)
  {
    forall name | name in COUNT_NAMES && InUse(r', p', side, name) ensures name in NamesOf(r', side) {
      var i :| 0 <= i < |COUNT_NAMES| && COUNT_NAMES[i] == name;
      assert CounterOf(r', StatKey(side, COUNT_NAMES[i])) == CounterOf(r, StatKey(side, COUNT_NAMES[i]));
      assert name in p'.adding + p'.between ==> name in p.adding + p.between;
      assert InUse(r, p, side, name);
    }
  }

  lemma NamesElsewhere(r: Redis, from: Side, suffix: string, e: Entry, side: Side)
    requires from != side || suffix != KEYS
    ensures NamesOf(r[StatKey(from, suffix) := e], side) == NamesOf(r, side)
  {
    if StatKey(from, suffix) == StatKey(side, KEYS) { StatKeysInjective(from, suffix, side, KEYS); }
  }

  lemma CallRecorded(b: Backend, w: World, a: Action, side: Side)
    requires Recorded(w.redis, Of(w, side), side) && Listed(Of(w, side)) && Enabled(w, a) && CallAction(a)
    ensures var w' := Step(b, w, a); Recorded(w'.redis, Of(w', side), side)
  {
    var w' := Step(b, w, a);
    CallListed(b, w, a, side);
    CallElsewhere(b, w, a, side);
    StillRecorded(w.redis, Of(w, side), w'.redis, Of(w', side), side);
  }

  lemma RecordRecorded(b: Backend, w: World, from: Side, name: string, side: Side)
    requires Recorded(w.redis, Of(w, side), side) && Enabled(w, RecordName(from, name)) && name in COUNT_NAMES
    ensures var w' := Step(b, w, RecordName(from, name)); Recorded(w'.redis, Of(w', side), side)
  {
    var w' := Step(b, w, RecordName(from, name));
    var e := Members(MembersOf(w.redis, StatKey(from, KEYS)) + {name});
    KeysNotListed();
    OtherSuffix(w.redis, from, KEYS, e, side);
    if from == side {
      OwnRecord(w.redis, Of(w, side), w'.redis, Of(w', side), side, name);
    } else {
      NamesElsewhere(w.redis, from, KEYS, e, side);
      StillRecorded(w.redis, Of(w, side), w'.redis, Of(w', side), side);
    }
  }

  lemma OwnRecord(r: Redis, p: Progress, r': Redis, p': Progress, side: Side, name: string)
    requires Recorded(r, p, side) && SameCounters(r, r', side, COUNT_NAMES) && name in COUNT_NAMES
    requires NamesOf(r', side) == NamesOf(r, side) + {name}
    requires p'.adding == p.adding + multiset{name} && p'.between == p.between
    ensures Recorded(r', p', side)
  {
    forall x | x in COUNT_NAMES && InUse(r', p', side, x) ensures x in NamesOf(r', side) {
      var i :| 0 <= i < |COUNT_NAMES| && COUNT_NAMES[i] == x;
      assert CounterOf(r', StatKey(side, COUNT_NAMES[i])) == CounterOf(r, StatKey(side, COUNT_NAMES[i]));
      assert x == name || InUse(r, p, side, x);
    }
  }

  lemma CountRecorded(b: Backend, w: World, from: Side, name: string, side: Side)
    requires Recorded(w.redis, Of(w, side), side) && Enabled(w, CountKey(from, name)) && name in COUNT_NAMES
    ensures var w' := Step(b, w, CountKey(from, name)); Recorded(w'.redis, Of(w', side), side)
  {
    var w' := Step(b, w, CountKey(from, name));
    var e := Counter(CounterOf(w.redis, StatKey(from, name)) + 1);
    CountNamesPlain(name);
    NamesElsewhere(w.redis, from, name, e, side);
    if from == side {
      OwnCounter(w.redis, Of(w, side), side, name);
    } else {
      OtherSuffix(w.redis, from, name, e, side);
      StillRecorded(w.redis, Of(w, side), w'.redis, Of(w', side), side);
    }
  }

  lemma OwnCounter(r: Redis, p: Progress, side: Side, name: string)
    requires Recorded(r, p, side) && name in p.adding && name in COUNT_NAMES
    requires NamesOf(Incr(r, StatKey(side, name)), side) == NamesOf(r, side)
    ensures Recorded(Incr(r, StatKey(side, name)),
                     p.(adding := p.adding - multiset{name}, between := p.between + multiset{name}), side)
  {
    var r', p' := Incr(r, StatKey(side, name)),
                  p.(adding := p.adding - multiset{name}, between := p.between + multiset{name});
    assert InUse(r, p, side, name);
    forall x | x in COUNT_NAMES && InUse(r', p', side, x) ensures x in NamesOf(r', side) {
      if StatKey(side, x) == StatKey(side, name) { StatKeysInjective(side, x, side, name); }
      assert x == name || InUse(r, p, side, x);
    }
  }

  lemma TotalRecorded(b: Backend, w: World, from: Side, name: string, side: Side)
    requires Recorded(w.redis, Of(w, side), side) && Enabled(w, CountTotal(from, name))
    ensures var w' := Step(b, w, CountTotal(from, name)); Recorded(w'.redis, Of(w', side), side)
  {
    var w', e := Step(b, w, CountTotal(from, name)), Counter(Total(w.redis, from) + 1);
    KeysNotListed();
    assert |TOTAL| != |KEYS|;
    NamesElsewhere(w.redis, from, TOTAL, e, side);
    CountersApart(w.redis, from, e, side, COUNT_NAMES);
    StillRecorded(w.redis, Of(w, side), w'.redis, Of(w', side), side);
  }

  lemma CountersApart(r: Redis, from: Side, e: Entry, side: Side, names: seq<string>)
    requires TOTAL !in names
    ensures SameCounters(r, r[StatKey(from, TOTAL) := e], side, names)
  {
    forall i | 0 <= i < |names| ensures StatKey(side, names[i]) != StatKey(from, TOTAL) {
      if StatKey(side, names[i]) == StatKey(from, TOTAL) { StatKeysInjective(side, names[i], from, TOTAL); }
    }
  }

  // ---- Reset ------------------------------------------------------------------------------------

  /** After the totals are zeroed and the recorded counters deleted nothing is left to report. */
  lemma ResetRemoves(r: Redis, side: Side)
    ensures Total(ResetAll(r), side) == 0 && NamesOf(ResetAll(r), side) == {}
    ensures forall name | name in NamesOf(r, side) :: StatKey(side, name) !in ResetAll(r)
    ensures forall key | key in ResetAll(r) ::
              (key in r && ResetAll(r)[key] == r[key]) || key == StatKey(Hit, TOTAL) || key == StatKey(Miss, TOTAL)
  {
    var zeroed := r[StatKey(Hit, TOTAL) := Counter(0)][StatKey(Miss, TOTAL) := Counter(0)];
    var less := zeroed - CounterKeys(zeroed, Hit);
    assert |TOTAL| != |KEYS|;
    NamesElsewhere(r, Hit, TOTAL, Counter(0), side);
    NamesElsewhere(r[StatKey(Hit, TOTAL) := Counter(0)], Miss, TOTAL, Counter(0), side);
    assert NamesOf(zeroed, side) == NamesOf(r, side);
    if side == Miss && StatKey(Miss, KEYS) in CounterKeys(zeroed, Hit) {
      var name :| name in NamesOf(zeroed, Hit) && StatKey(Hit, name) == StatKey(Miss, KEYS);
      StatKeysInjective(Hit, name, Miss, KEYS);
    }
    assert side == Miss ==> NamesOf(less, Miss) == NamesOf(r, Miss);
  }

  lemma {:induction false} NothingCounted(r: Redis, side: Side, names: seq<string>)
    requires forall i | 0 <= i < |names| :: CounterOf(r, StatKey(side, names[i])) == 0
    ensures SumOf(r, side, names) == 0
  {
    if names != [] {
      assert forall i | 0 <= i < |names[1..]| :: names[1..][i] == names[i + 1];
      NothingCounted(r, side, names[1..]);
    }
  }

  /** A reset leaves all-zero metrics. */
  lemma ResetZero(r: Redis, p: Progress, side: Side)
    requires Recorded(r, p, side)
    ensures Total(ResetAll(r), side) == 0 && Sum(ResetAll(r), side) == 0 && Reported(ResetAll(r), side) == map[]
    ensures Recorded(ResetAll(r), Idle, side)
  {
    var r' := ResetAll(r);
    ResetRemoves(r, side);
    KeysNotListed();
    forall i | 0 <= i < |COUNT_NAMES| ensures CounterOf(r', StatKey(side, COUNT_NAMES[i])) == 0 {
      ResetCounter(r, p, side, COUNT_NAMES[i]);
    }
    NothingCounted(r', side, COUNT_NAMES);
  }

  lemma ResetCounter(r: Redis, p: Progress, side: Side, name: string)
    requires Recorded(r, p, side) && name in COUNT_NAMES
    ensures CounterOf(ResetAll(r), StatKey(side, name)) == 0
  {
    ResetRemoves(r, side);
    CountNamesPlain(name);
    var key := StatKey(side, name);
    if key == StatKey(Hit, TOTAL) { StatKeysInjective(side, name, Hit, TOTAL); }
    if key == StatKey(Miss, TOTAL) { StatKeysInjective(side, name, Miss, TOTAL); }
    if CounterOf(r, key) > 0 { assert InUse(r, p, side, name); }
  }

  // ---- The stages of a reset --------------------------------------------------------------------

  predicate ZeroPending(reset: Option<Stage>, side: Side) {
    reset == Some(Zero(Hit)) || (side == Miss && reset == Some(Zero(Miss)))
  }

  predicate ReadPending(reset: Option<Stage>, side: Side) {
    reset.Some?
    && match reset.value
       case Zero(_) => true
       case ReadNames(at) => side == Miss || at == Hit
       case DeleteCounters(at, _) => side == Miss && at == Hit
       case DropNames(_) => false
  }

  /** The counter of this name is still to be deleted, or it is not yet known whether it will be. */
  predicate Waiting(reset: Option<Stage>, side: Side, name: string) {
    ReadPending(reset, side)
    || (reset.Some? && reset.value.DeleteCounters? && reset.value.side == side && name in reset.value.left)
  }

  predicate DropPending(reset: Option<Stage>, side: Side) {
    reset.Some? && !(side == Hit && reset == Some(DropNames(Miss)))
  }

  ghost predicate NamesListed(r: Redis, side: Side) { forall name | name in NamesOf(r, side) :: name in COUNT_NAMES }

  /** The counters left to delete belong to recorded names. */
  ghost predicate StageFits(r: Redis, reset: Option<Stage>) {
    reset.Some? && reset.value.DeleteCounters? ==> reset.value.left <= NamesOf(r, reset.value.side)
  }

  lemma ZeroEffect(r: Redis, from: Side, side: Side)
    ensures var r' := r[StatKey(from, TOTAL) := Counter(0)];
            && Total(r', side) == (if from == side then 0 else Total(r, side))
            && SameCounters(r, r', side, COUNT_NAMES) && NamesOf(r', side) == NamesOf(r, side)
  {
    KeysNotListed();
    assert |TOTAL| != |KEYS|;
    NamesElsewhere(r, from, TOTAL, Counter(0), side);
    CountersApart(r, from, Counter(0), side, COUNT_NAMES);
    if StatKey(from, TOTAL) == StatKey(side, TOTAL) { StatKeysInjective(from, TOTAL, side, TOTAL); }
  }

  lemma DeleteEffect(r: Redis, from: Side, x: string, side: Side)
    requires x in COUNT_NAMES
    ensures var r' := r - {StatKey(from, x)};
            && Total(r', side) == Total(r, side) && NamesOf(r', side) == NamesOf(r, side)
            && (forall name :: CounterOf(r', StatKey(side, name)) ==
                               if from == side && name == x then 0 else CounterOf(r, StatKey(side, name)))
  {
    CountNamesPlain(x);
    if StatKey(from, x) == StatKey(side, TOTAL) { StatKeysInjective(from, x, side, TOTAL); }
    if StatKey(from, x) == StatKey(side, KEYS) { StatKeysInjective(from, x, side, KEYS); }
    forall name ensures StatKey(side, name) == StatKey(from, x) ==> from == side && name == x {
      if StatKey(side, name) == StatKey(from, x) { StatKeysInjective(side, name, from, x); }
    }
  }

  lemma DropEffect(r: Redis, from: Side, side: Side)
    ensures var r' := r - {StatKey(from, KEYS)};
            && Total(r', side) == Total(r, side) && SameCounters(r, r', side, COUNT_NAMES)
            && NamesOf(r', side) == (if from == side then {} else NamesOf(r, side))
  {
    KeysNotListed();
    assert |TOTAL| != |KEYS|;
    if StatKey(from, KEYS) == StatKey(side, TOTAL) { StatKeysInjective(from, KEYS, side, TOTAL); }
    if StatKey(from, KEYS) == StatKey(side, KEYS) { StatKeysInjective(from, KEYS, side, KEYS); }
    forall i | 0 <= i < |COUNT_NAMES| ensures StatKey(side, COUNT_NAMES[i]) != StatKey(from, KEYS) {
      if StatKey(side, COUNT_NAMES[i]) == StatKey(from, KEYS) { StatKeysInjective(side, COUNT_NAMES[i], from, KEYS); }
    }
  }

  lemma CounterSame(r: Redis, r': Redis, side: Side, name: string)
    requires SameCounters(r, r', side, COUNT_NAMES) && name in COUNT_NAMES
    ensures CounterOf(r', StatKey(side, name)) == CounterOf(r, StatKey(side, name))
  {
    var i :| 0 <= i < |COUNT_NAMES| && COUNT_NAMES[i] == name;
    assert CounterOf(r', StatKey(side, COUNT_NAMES[i])) == CounterOf(r, StatKey(side, COUNT_NAMES[i]));
  }

  // ---- Every action keeps the books ---------------------------------------------------------------

  function Underway(p: Progress): nat { |p.todo| + |p.adding| + |p.between| }

  /** Calls since the last reset: still being counted, or in one of the two totals. */
  ghost predicate CallsAccounted(w: World) {
    w.calls == Underway(w.hit) + Total(w.redis, Hit) + Underway(w.miss) + Total(w.redis, Miss)
  }

  ghost predicate Inv(w: World) {
    && Balanced(w, Hit) && Balanced(w, Miss) && CallsAccounted(w)
    && Recorded(w.redis, w.hit, Hit) && Recorded(w.redis, w.miss, Miss)
  }

  lemma CallAccounted(b: Backend, w: World, a: Action)
    requires CallsAccounted(w) && Enabled(w, a) && CallAction(a)
    ensures CallsAccounted(Step(b, w, a))
  {
    CallElsewhere(b, w, a, Hit);
    CallElsewhere(b, w, a, Miss);
  }

  /** A counting step moves a call along one side and leaves the other side alone. */
  lemma MovedOn(w: World, w': World, side: Side)
    requires CallsAccounted(w) && w'.calls == w.calls
    requires Underway(Of(w', side)) + Total(w'.redis, side) == Underway(Of(w, side)) + Total(w.redis, side)
    requires Of(w', Other(side)) == Of(w, Other(side)) && Total(w'.redis, Other(side)) == Total(w.redis, Other(side))
    ensures CallsAccounted(w')
  {
  }

  function Other(side: Side): Side { if side == Hit then Miss else Hit }

  lemma RecordAccounted(b: Backend, w: World, side: Side, name: string)
    requires CallsAccounted(w) && Enabled(w, RecordName(side, name))
    ensures CallsAccounted(Step(b, w, RecordName(side, name)))
  {
    KeysNotListed();
    var e := Members(MembersOf(w.redis, StatKey(side, KEYS)) + {name});
    OtherSuffix(w.redis, side, KEYS, e, side);
    OtherSuffix(w.redis, side, KEYS, e, Other(side));
    MovedOn(w, Step(b, w, RecordName(side, name)), side);
  }

  lemma CountAccounted(b: Backend, w: World, side: Side, name: string)
    requires CallsAccounted(w) && Enabled(w, CountKey(side, name)) && name in COUNT_NAMES
    ensures CallsAccounted(Step(b, w, CountKey(side, name)))
  {
    OwnCount(w.redis, side, name);
    OtherSuffix(w.redis, side, name, Counter(CounterOf(w.redis, StatKey(side, name)) + 1), Other(side));
    MovedOn(w, Step(b, w, CountKey(side, name)), side);
  }

  lemma TotalAccounted(b: Backend, w: World, side: Side, name: string)
    requires CallsAccounted(w) && Enabled(w, CountTotal(side, name))
    ensures CallsAccounted(Step(b, w, CountTotal(side, name)))
  {
    OtherSuffix(w.redis, side, TOTAL, Counter(Total(w.redis, side) + 1), Other(side));
    MovedOn(w, Step(b, w, CountTotal(side, name)), side);
  }

  lemma CallKeeps(b: Backend, w: World, a: Action)
    requires Inv(w) && Enabled(w, a) && CallAction(a)
    ensures Inv(Step(b, w, a))
  {
    CallBalanced(b, w, a, Hit);
    CallBalanced(b, w, a, Miss);
    CallRecorded(b, w, a, Hit);
    CallRecorded(b, w, a, Miss);
    CallAccounted(b, w, a);
  }

  lemma RecordKeeps(b: Backend, w: World, side: Side, name: string)
    requires Inv(w) && Enabled(w, RecordName(side, name))
    ensures Inv(Step(b, w, RecordName(side, name)))
  {
    RecordBalanced(b, w, side, name, Hit);
    RecordBalanced(b, w, side, name, Miss);
    RecordRecorded(b, w, side, name, Hit);
    RecordRecorded(b, w, side, name, Miss);
    RecordAccounted(b, w, side, name);
  }

  lemma CountKeeps(b: Backend, w: World, side: Side, name: string)
    requires Inv(w) && Enabled(w, CountKey(side, name))
    ensures Inv(Step(b, w, CountKey(side, name)))
  {
    CountBalanced(b, w, side, name, Hit);
    CountBalanced(b, w, side, name, Miss);
    CountRecorded(b, w, side, name, Hit);
    CountRecorded(b, w, side, name, Miss);
    CountAccounted(b, w, side, name);
  }

  lemma TotalKeeps(b: Backend, w: World, side: Side, name: string)
    requires Inv(w) && Enabled(w, CountTotal(side, name))
    ensures Inv(Step(b, w, CountTotal(side, name)))
  {
    TotalBalanced(b, w, side, name, Hit);
    TotalBalanced(b, w, side, name, Miss);
    TotalRecorded(b, w, side, name, Hit);
    TotalRecorded(b, w, side, name, Miss);
    TotalAccounted(b, w, side, name);
  }

  lemma StepKeeps(b: Backend, w: World, a: Action)
    requires Inv(w) && Enabled(w, a) && !a.BeginReset? && !a.ResetCommand?
    ensures Inv(Step(b, w, a))
  {
    match a
    case Lookup(_) => CallKeeps(b, w, a);
    case Answer(_) => CallKeeps(b, w, a);
    case Store(_) => CallKeeps(b, w, a);
    case RecordName(side, name) => RecordKeeps(b, w, side, name);
    case CountKey(side, name) => CountKeeps(b, w, side, name);
    case CountTotal(side, name) => TotalKeeps(b, w, side, name);
    case Wait(until) =>
  }

  lemma InitialInv(w: World)
    requires Initial(w)
    ensures Inv(w)
  {
    NothingCounted(w.redis, Hit, COUNT_NAMES);
    NothingCounted(w.redis, Miss, COUNT_NAMES);
  }

  // ---- Quiet resets ---------------------------------------------------------------------------------

  /** What a reset without interruption has done to one side so far. */
  ghost predicate Clearing(r: Redis, reset: Option<Stage>, side: Side) {
    && (!ZeroPending(reset, side) ==> Total(r, side) == 0)
    && (ReadPending(reset, side) ==> Recorded(r, Idle, side))
    && (forall name | name in COUNT_NAMES && !Waiting(reset, side, name) :: CounterOf(r, StatKey(side, name)) == 0)
    && (!DropPending(reset, side) ==> NamesOf(r, side) == {})
    && NamesListed(r, side)
  }

  ghost predicate UnderReset(w: World) {
    && Clearing(w.redis, w.reset, Hit) && Clearing(w.redis, w.reset, Miss) && StageFits(w.redis, w.reset)
    && (!ZeroPending(w.reset, Miss) ==> w.calls == 0)
  }

  /** The books are right, or a quiet reset is putting them right. */
  ghost predicate Sound(w: World) {
    if w.reset.None? then Inv(w) else Quiet(w) ==> UnderReset(w)
  }

  lemma ZeroClears(r: Redis, reset: Option<Stage>, from: Side, side: Side)
    requires Clearing(r, reset, side) && reset == Some(Zero(from))
    ensures Clearing(r[StatKey(from, TOTAL) := Counter(0)],
                     Some(if from == Hit then Zero(Miss) else ReadNames(Hit)), side)
  {
    var r' := r[StatKey(from, TOTAL) := Counter(0)];
    ZeroEffect(r, from, side);
    hide StatKey;
    StillRecorded(r, Idle, r', Idle, side);
  }

  lemma ReadClears(r: Redis, reset: Option<Stage>, from: Side, side: Side)
    requires Clearing(r, reset, side) && reset == Some(ReadNames(from))
    ensures Clearing(r, Some(AfterRead(from, NamesOf(r, from))), side)
  {
    hide StatKey;
    forall name | name in COUNT_NAMES && !Waiting(Some(AfterRead(from, NamesOf(r, from))), side, name)
      ensures CounterOf(r, StatKey(side, name)) == 0
    {
      if from == side && name !in NamesOf(r, side) { assert !InUse(r, Idle, side, name); }
    }
  }

  lemma DeleteClears(r: Redis, reset: Option<Stage>, from: Side, left: set<string>, x: string, side: Side)
    requires Clearing(r, reset, side) && reset == Some(DeleteCounters(from, left)) && x in left && x in COUNT_NAMES
    ensures Clearing(r - {StatKey(from, x)}, Some(AfterRead(from, left - {x})), side)
  {
    var r' := r - {StatKey(from, x)};
    DeleteEffect(r, from, x, side);
    hide StatKey;
    if ReadPending(reset, side) {
      forall i | 0 <= i < |COUNT_NAMES|
        ensures CounterOf(r', StatKey(side, COUNT_NAMES[i])) == CounterOf(r, StatKey(side, COUNT_NAMES[i])) {}
      StillRecorded(r, Idle, r', Idle, side);
    }
  }

  lemma DropClears(r: Redis, reset: Option<Stage>, from: Side, side: Side)
    requires Clearing(r, reset, side) && reset == Some(DropNames(from))
    ensures Clearing(r - {StatKey(from, KEYS)}, if from == Hit then Some(DropNames(Miss)) else None, side)
  {
    var r' := r - {StatKey(from, KEYS)};
    DropEffect(r, from, side);
    hide StatKey;
    forall name | name in COUNT_NAMES ensures CounterOf(r', StatKey(side, name)) == CounterOf(r, StatKey(side, name)) {
      CounterSame(r, r', side, name);
    }
  }

  lemma CommandClears(w: World, name: string, side: Side)
    requires UnderReset(w) && Enabled(w, ResetCommand(name))
    ensures Clearing(Commanded(w, name).redis, Commanded(w, name).reset, side)
  {
    hide Clearing, StatKey;
    assert Clearing(w.redis, w.reset, side) by { SideClearing(w, side); }
    match w.reset.value
    case Zero(from) => ZeroClears(w.redis, w.reset, from, side);
    case ReadNames(from) => ReadClears(w.redis, w.reset, from, side);
    case DeleteCounters(from, left) =>
      LeftListed(w, name);
      DeleteClears(w.redis, w.reset, from, left, name, side);
    case DropNames(from) => DropClears(w.redis, w.reset, from, side);
  }

  lemma SideClearing(w: World, side: Side)
    requires UnderReset(w)
    ensures Clearing(w.redis, w.reset, side) && NamesListed(w.redis, side)
  {
  }

  lemma LeftListed(w: World, name: string)
    requires UnderReset(w) && Enabled(w, ResetCommand(name)) && w.reset.value.DeleteCounters?
    ensures name in COUNT_NAMES
  {
    SideClearing(w, w.reset.value.side);
  }

  lemma CommandFits(w: World, name: string)
    requires StageFits(w.redis, w.reset) && NamesListed(w.redis, Hit) && NamesListed(w.redis, Miss)
    requires Enabled(w, ResetCommand(name))
    ensures StageFits(Commanded(w, name).redis, Commanded(w, name).reset)
  {
    if w.reset.value.DeleteCounters? {
      var side := w.reset.value.side;
      assert name in NamesOf(w.redis, side);
      DeleteEffect(w.redis, side, name, side);
    }
  }

  /** When the last command is done the books are right. */
  lemma CommandSound(b: Backend, w: World, name: string)
    requires UnderReset(w) && Quiet(w) && Enabled(w, ResetCommand(name))
    ensures Sound(Step(b, w, ResetCommand(name)))
  {
    var w' := Step(b, w, ResetCommand(name));
    CommandClears(w, name, Hit);
    CommandClears(w, name, Miss);
    SideClearing(w, Hit);
    SideClearing(w, Miss);
    CommandFits(w, name);
    if w'.reset.None? { ClearedInv(w'); }
  }

  lemma ClearedInv(w: World)
    requires w.reset.None? && Quiet(w) && Clearing(w.redis, None, Hit) && Clearing(w.redis, None, Miss) && w.calls == 0
    ensures Inv(w)
  {
    ClearedSide(w.redis, Hit);
    ClearedSide(w.redis, Miss);
  }

  lemma ClearedSide(r: Redis, side: Side)
    requires Clearing(r, None, side)
    ensures Total(r, side) == 0 && Sum(r, side) == 0 && Recorded(r, Idle, side)
  {
    hide StatKey;
    assert forall i | 0 <= i < |COUNT_NAMES| :: COUNT_NAMES[i] in COUNT_NAMES;
    NothingCounted(r, side, COUNT_NAMES);
  }

  /** Waiting, and calls up to their store, leave the statistics of a reset under way alone. */
  lemma ElseSound(b: Backend, w: World, a: Action)
    requires UnderReset(w) && w.reset.Some? && Enabled(w, a) && (CallAction(a) || a.Wait?)
    ensures Sound(Step(b, w, a))
  {
    var w' := Step(b, w, a);
    if CallAction(a) {
      CallElsewhere(b, w, a, Hit);
      CallElsewhere(b, w, a, Miss);
      CallCalls(b, w, a);
      StillClearing(w.redis, w'.redis, w.reset, Hit);
      StillClearing(w.redis, w'.redis, w.reset, Miss);
    }
  }

  lemma CallCalls(b: Backend, w: World, a: Action)
    requires Enabled(w, a) && CallAction(a)
    ensures Step(b, w, a).reset == w.reset && (Quiet(Step(b, w, a)) ==> Step(b, w, a).calls == w.calls)
  {
  }

  lemma StillClearing(r: Redis, r': Redis, reset: Option<Stage>, side: Side)
    requires Clearing(r, reset, side) && SameSide(r, r', side) && NamesOf(r', side) == NamesOf(r, side)
    ensures Clearing(r', reset, side)
  {
    hide StatKey;
    forall name | name in COUNT_NAMES ensures CounterOf(r', StatKey(side, name)) == CounterOf(r, StatKey(side, name)) {
      CounterSame(r, r', side, name);
    }
    if ReadPending(reset, side) { StillRecorded(r, Idle, r', Idle, side); }
  }

  lemma StepSound(b: Backend, w: World, a: Action)
    requires Sound(w) && Enabled(w, a) && (w.reset.Some? || a.BeginReset? ==> Quiet(w))
    ensures Sound(Step(b, w, a))
  {
    if w.reset.None? {
      if !a.BeginReset? {
        StepKeeps(b, w, a);
        ResetStays(b, w, a);
      } else {
        BeginSound(b, w);
      }
    } else if a.ResetCommand? {
      CommandSound(b, w, a.name);
    } else {
      QuietActions(w, a);
      ElseSound(b, w, a);
    }
  }

  lemma ResetStays(b: Backend, w: World, a: Action)
    requires Enabled(w, a) && !a.BeginReset? && !a.ResetCommand?
    ensures Step(b, w, a).reset == w.reset
  {
  }

  lemma QuietActions(w: World, a: Action)
    requires Quiet(w) && Enabled(w, a) && w.reset.Some? && !a.ResetCommand?
    ensures CallAction(a) || a.Wait?
  {
  }

  /** A reset may begin wherever every counter has its name recorded and nothing is being counted. */
  lemma BeginSound(b: Backend, w: World)
    requires Orderly(w)
    ensures Sound(Step(b, w, BeginReset))
  {
  }

  lemma {:induction false} RunSound(b: Backend, w: World, actions: seq<Action>)
    requires Sound(w) && IsRun(b, w, actions) && QuietResets(b, w, actions)
    ensures Sound(After(b, w, actions))
    decreases |actions|
  {
    if actions != [] {
      StepSound(b, w, actions[0]);
      RunSound(b, Step(b, w, actions[0]), actions[1..]);
    }
  }

  /** Nothing is being counted, no reset is under way, and every counter in use has its name recorded. */
  ghost predicate Orderly(w: World) {
    w.reset.None? && Quiet(w) && Recorded(w.redis, Idle, Hit) && Recorded(w.redis, Idle, Miss)
  }

  /** The run begins before any call, or with a reset in an orderly state, whatever went wrong before that. */
  ghost predicate Opens(w: World, actions: seq<Action>) {
    Initial(w) || (Orderly(w) && actions != [] && actions[0].BeginReset?)
  }

  /** A quiet reset puts the books in order again, even where the totals had lost their balance. */
  lemma OpenedInv(b: Backend, w: World, actions: seq<Action>)
    requires Opens(w, actions) && IsRun(b, w, actions) && QuietResets(b, w, actions)
    ensures After(b, w, actions).reset.None? ==> Inv(After(b, w, actions))
  {
    if Initial(w) {
      InitialInv(w);
      RunSound(b, w, actions);
    } else {
      BeginSound(b, w);
      RunSound(b, Step(b, w, actions[0]), actions[1..]);
    }
  }

  /**
   Conservation under interleaving. Whatever workers run between each other's commands, on each side
   the total plus the workers between their two increments is the sum of the counters; when nothing
   is under way, hits plus misses are the cached calls since the last reset. Resets that overlap a call
   lie before the last quiet reset.
   */
  lemma CountersConserved(b: Backend, w0: World, actions: seq<Action>)
    requires Opens(w0, actions) && IsRun(b, w0, actions) && QuietResets(b, w0, actions)
    requires After(b, w0, actions).reset.None?
    ensures var w := After(b, w0, actions);
            && Total(w.redis, Hit) + |w.hit.between| == Sum(w.redis, Hit)
            && Total(w.redis, Miss) + |w.miss.between| == Sum(w.redis, Miss)
            && (Quiet(w) ==> Total(w.redis, Hit) + Total(w.redis, Miss) == w.calls)
  {
    OpenedInv(b, w0, actions);
  }

  /** The metrics report every counter in use with its value, and nothing else. */
  lemma MetricsComplete(b: Backend, w0: World, actions: seq<Action>, side: Side)
    requires Opens(w0, actions) && IsRun(b, w0, actions) && QuietResets(b, w0, actions)
    requires After(b, w0, actions).reset.None?
    ensures var r := After(b, w0, actions).redis;
            && (forall name | name in COUNT_NAMES && CounterOf(r, StatKey(side, name)) > 0 ::
                  name in Reported(r, side) && Reported(r, side)[name] == CounterOf(r, StatKey(side, name)))
            && (forall name | name in Reported(r, side) :: name in COUNT_NAMES)
  {
    OpenedInv(b, w0, actions);
    var w := After(b, w0, actions);
    ReportedComplete(w.redis, Of(w, side), side);
  }

  lemma ReportedComplete(r: Redis, p: Progress, side: Side)
    requires Recorded(r, p, side)
    ensures forall name | name in COUNT_NAMES && CounterOf(r, StatKey(side, name)) > 0 ::
              name in Reported(r, side) && Reported(r, side)[name] == CounterOf(r, StatKey(side, name))
    ensures forall name | name in Reported(r, side) :: name in COUNT_NAMES
  {
    forall name | name in COUNT_NAMES && CounterOf(r, StatKey(side, name)) > 0 ensures name in NamesOf(r, side) {
      assert InUse(r, p, side, name);
    }
  }

  // ---- Transparency -------------------------------------------------------------------------------------

  /** What is stored for a query is what Slurm answered when asked, which was before it was written. */
  ghost predicate Genuine(b: Backend, q: Query, e: Entry, now: real) {
    && e.Cached? && b.answer(q, e.asked) == Got(e.value)
    && e.asked <= e.written <= now && e.until == e.written + b.expiration(q)
  }

  ghost predicate StoreGenuine(b: Backend, r: Redis, now: real) {
    forall q | MainKey(q) in r :: Genuine(b, q, r[MainKey(q)], now)
  }

  /** A worker holds what Slurm answered at an instant after its lookup. */
  ghost predicate Honest(b: Backend, worker: Worker, now: real) {
    worker.looked <= now
    && (worker.Storing? ==>
          worker.looked <= worker.asked <= now && b.answer(worker.query, worker.asked) == Got(worker.value))
  }

  ghost predicate AllGenuine(b: Backend, w: World) {
    StoreGenuine(b, w.redis, w.now) && forall worker | worker in w.workers :: Honest(b, worker, w.now)
  }

  /** Statistics commands leave the stored data alone. */
  lemma StatisticsElsewhere(b: Backend, r: Redis, side: Side, suffix: string, e: Entry, now: real)
    requires StoreGenuine(b, r, now)
    ensures StoreGenuine(b, r[StatKey(side, suffix) := e], now)
  {
    forall q: Query ensures MainKey(q) != StatKey(side, suffix) { DataApartFromStatistics(q, side, suffix); }
  }

  lemma CommandGenuine(b: Backend, w: World, name: string)
    requires AllGenuine(b, w) && Enabled(w, ResetCommand(name))
    ensures AllGenuine(b, Commanded(w, name))
  {
    if w.reset.value.Zero? { StatisticsElsewhere(b, w.redis, w.reset.value.side, TOTAL, Counter(0), w.now); }
  }

  lemma StoreKeepsGenuine(b: Backend, w: World, worker: Worker)
    requires AllGenuine(b, w) && worker in w.workers && worker.Storing?
    ensures AllGenuine(b, Stored(b, w, worker))
  {
    var r' := Stored(b, w, worker).redis;
    assert Honest(b, worker, w.now);
    forall p | MainKey(p) in r' ensures Genuine(b, p, r'[MainKey(p)], w.now) {
      if MainKey(p) == MainKey(worker.query) { MainKeysInjective(p, worker.query); }
    }
  }

  lemma LookupGenuine(b: Backend, w: World, q: Query)
    requires AllGenuine(b, w)
    ensures AllGenuine(b, LookedUp(b, w, q))
  {
    hide Genuine, Found;
  }

  lemma AnswerGenuine(b: Backend, w: World, worker: Worker)
    requires AllGenuine(b, w) && worker in w.workers && worker.Asking?
    ensures AllGenuine(b, Answered(b, w, worker))
  {
    hide Genuine;
    assert Honest(b, worker, w.now);
  }

  lemma WaitGenuine(b: Backend, w: World, until: real)
    requires AllGenuine(b, w) && until >= w.now
    ensures AllGenuine(b, w.(now := until))
  {
    forall worker | worker in w.workers ensures Honest(b, worker, until) { assert Honest(b, worker, w.now); }
  }

  lemma StepGenuine(b: Backend, w: World, a: Action)
    requires AllGenuine(b, w) && Enabled(w, a)
    ensures AllGenuine(b, Step(b, w, a))
  {
    match a
    case Lookup(q) => LookupGenuine(b, w, q);
    case Answer(worker) => AnswerGenuine(b, w, worker);
    case Store(worker) => StoreKeepsGenuine(b, w, worker);
    case RecordName(side, name) =>
      StatisticsElsewhere(b, w.redis, side, KEYS, Members(MembersOf(w.redis, StatKey(side, KEYS)) + {name}), w.now);
    case CountKey(side, name) =>
      StatisticsElsewhere(b, w.redis, side, name, Counter(CounterOf(w.redis, StatKey(side, name)) + 1), w.now);
    case CountTotal(side, name) =>
      StatisticsElsewhere(b, w.redis, side, TOTAL, Counter(Total(w.redis, side) + 1), w.now);
    case BeginReset =>
    case ResetCommand(name) => CommandGenuine(b, w, name);
    case Wait(until) => WaitGenuine(b, w, until);
  }

  lemma {:induction false} RunGenuine(b: Backend, w: World, actions: seq<Action>)
    requires AllGenuine(b, w) && IsRun(b, w, actions)
    ensures AllGenuine(b, After(b, w, actions))
    decreases |actions|
  {
    if actions != [] {
      StepGenuine(b, w, actions[0]);
      RunGenuine(b, Step(b, w, actions[0]), actions[1..]);
    }
  }

  /**
   Transparency. In any run, resets included and however workers interleave, a call that finds data
   returns what Slurm answered to the same query at `asked`, and that answer was stored at `written`,
   less than the expiration ago. A call that finds none returns what Slurm answered after its lookup.
   */
  lemma CallIsTransparent(b: Backend, w0: World, actions: seq<Action>, q: Query)
    returns (asked: real, written: real)
    requires Initial(w0) && IsRun(b, w0, actions)
    ensures var w := After(b, w0, actions); var found := Found(b, w, q);
            && (found.Some? ==>
                  Got(found.value) == b.answer(q, asked) && asked <= written <= w.now < written + b.expiration(q))
            && (forall worker | worker in w.workers && worker.Storing? ::
                  Got(worker.value) == b.answer(worker.query, worker.asked) && worker.looked <= worker.asked <= w.now)
  {
    RunGenuine(b, w0, actions);
    var w := After(b, w0, actions);
    forall worker | worker in w.workers ensures Honest(b, worker, w.now) {}
    asked, written := w.now, w.now;
    if Found(b, w, q).Some? {
      asked, written := w.redis[MainKey(q)].asked, w.redis[MainKey(q)].written;
    }
  }

  /** A call that misses and is answered at once holds an answer as old as its lookup. */
  lemma MissHoldsAnswer(b: Backend, w: World, q: Query)
    requires b.enabled && Found(b, w, q).None? && b.answer(q, w.now).Got?
    ensures var run := [Lookup(q), Answer(Asking(q, w.now))];
            IsRun(b, w, run) && Storing(q, w.now, w.now, b.answer(q, w.now).value) in After(b, w, run).workers
            && After(b, w, run).now == w.now
  {
    var w1 := Step(b, w, Lookup(q));
    RunFirst(b, w1, Answer(Asking(q, w.now)), []);
    RunFirst(b, w, Lookup(q), [Answer(Asking(q, w.now))]);
  }

  /**
   The expiration bounds the time since the store, not the age of the answer: from any state, an
   answer that takes `slow` longer to be stored is still served almost a whole expiration after that.
   */
  lemma SlowAnswerServedOld(b: Backend, w: World, worker: Worker, slow: real, later: real)
    requires b.enabled && worker in w.workers && worker.Storing? && worker.value != NoData
    requires slow >= 0.0 && 0.0 <= later < b.expiration(worker.query)
    ensures var stored := w.now + slow; var run := [Wait(stored), Store(worker), Wait(stored + later)];
            IsRun(b, w, run) && After(b, w, run).now == stored + later
            && Found(b, After(b, w, run), worker.query) == Some(worker.value)
  {
    var stored := w.now + slow;
    var w1 := w.(now := stored);
    var w2 := Stored(b, w1, worker);
    hide MainKey;
    RunFirst(b, w2, Wait(stored + later), []);
    RunFirst(b, w1, Store(worker), [Wait(stored + later)]);
    RunFirst(b, w, Wait(stored), [Store(worker), Wait(stored + later)]);
  }

  // ---- Without caching -----------------------------------------------------------------------------------

  ghost predicate Untouched(w: World) {
    w.workers == multiset{} && Quiet(w) && w.calls == 0 && forall q :: MainKey(q) !in w.redis
  }

  lemma StepUntouched(b: Backend, w: World, a: Action)
    requires !b.enabled && Untouched(w) && Enabled(w, a)
    ensures Untouched(Step(b, w, a))
  {
    hide MainKey, StatKey, CountName;
    if a.ResetCommand? && w.reset.value.Zero? { ElsewhereSameData(w.reset.value.side, TOTAL); }
  }

  /** Where caching is off, no call ever stores an answer, counts, or waits to do either. */
  lemma {:induction false} NoCachingNoTrace(b: Backend, w: World, actions: seq<Action>)
    requires !b.enabled && Untouched(w) && IsRun(b, w, actions)
    ensures Untouched(After(b, w, actions))
    decreases |actions|
  {
    if actions != [] {
      StepUntouched(b, w, actions[0]);
      NoCachingNoTrace(b, Step(b, w, actions[0]), actions[1..]);
    }
  }

  // ---- When no answer is served too old ------------------------------------------------------------------

  function FoundAt(b: Backend, w: World, q: Query, t: real): Option<Value> { Found(b, w.(now := t), q) }

  /**
   For one answer, stored at `stored`: everything that is served of it, at any time, is younger than the
   expiration exactly if it was stored at the instant it was asked for.
   */
  lemma ServedYoungExactly(b: Backend, w: World, worker: Worker)
    requires b.enabled && worker in w.workers && worker.Storing? && worker.value != NoData
    requires worker.asked <= w.now && b.expiration(worker.query) > 0.0
    ensures var q, e, w' := worker.query, b.expiration(worker.query), Step(b, w, Store(worker));
            (forall t | t >= w.now && FoundAt(b, w', q, t).Some? :: t - worker.asked < e) <==> w.now == worker.asked
  {
    var q, e, w' := worker.query, b.expiration(worker.query), Step(b, w, Store(worker));
    if worker.asked < w.now {
      var t := if worker.asked + e >= w.now then worker.asked + e else w.now;
      assert FoundAt(b, w', q, t) == Some(worker.value);
    }
  }

  /** From this state on, as long as nothing new is stored, nothing is served that is too old. */
  ghost predicate ServesYoung(b: Backend, w: World) {
    forall q, t | t >= w.now && FoundAt(b, w, q, t).Some? :: Young(b, w.redis, q, t)
  }

  predicate Young(b: Backend, r: Redis, q: Query, t: real) {
    MainKey(q) in r && r[MainKey(q)].Cached? && t - r[MainKey(q)].asked < b.expiration(q)
  }

  /** An answer that can be served is stored at the instant it was asked for. */
  predicate Prompt(b: Backend, w: World, a: Action)
    requires Enabled(w, a)
  {
    a.Store? && a.worker.value != NoData && b.expiration(a.worker.query) > 0.0 ==> a.worker.asked == w.now
  }

  ghost predicate AllPrompt(b: Backend, w: World, actions: seq<Action>)
    requires IsRun(b, w, actions)
    decreases |actions|
  {
    actions == [] || (Prompt(b, w, actions[0]) && AllPrompt(b, Step(b, w, actions[0]), actions[1..]))
  }

  ghost predicate AlwaysYoung(b: Backend, w: World, actions: seq<Action>)
    requires IsRun(b, w, actions)
    decreases |actions|
  {
    ServesYoung(b, w) && (actions == [] || AlwaysYoung(b, Step(b, w, actions[0]), actions[1..]))
  }

  /** Every answer that can be served was stored when asked for; without caching nobody waits to store. */
  ghost predicate PromptlyStored(b: Backend, w: World) {
    && AllGenuine(b, w) && (!b.enabled ==> w.workers == multiset{})
    && forall q | MainKey(q) in w.redis :: PromptEntry(b, q, w.redis[MainKey(q)])
  }

  predicate PromptEntry(b: Backend, q: Query, e: Entry) {
    e.Cached? && e.value != NoData && b.expiration(q) > 0.0 ==> e.written == e.asked
  }

  lemma PromptServesYoung(b: Backend, w: World)
    requires PromptlyStored(b, w)
    ensures ServesYoung(b, w)
  {
    hide MainKey;
    forall q, t | t >= w.now && FoundAt(b, w, q, t).Some? ensures Young(b, w.redis, q, t) {
      assert Genuine(b, q, w.redis[MainKey(q)], w.now) && PromptEntry(b, q, w.redis[MainKey(q)]);
    }
  }

  lemma StorePromptly(b: Backend, w: World, worker: Worker)
    requires PromptlyStored(b, w) && Enabled(w, Store(worker)) && Prompt(b, w, Store(worker))
    ensures var r' := Stored(b, w, worker).redis; forall q | MainKey(q) in r' :: PromptEntry(b, q, r'[MainKey(q)])
  {
    var r' := Stored(b, w, worker).redis;
    forall q | MainKey(q) in r' ensures PromptEntry(b, q, r'[MainKey(q)]) {
      if MainKey(q) == MainKey(worker.query) { MainKeysInjective(q, worker.query); }
    }
  }

  lemma StepPrompt(b: Backend, w: World, a: Action)
    requires PromptlyStored(b, w) && Enabled(w, a) && Prompt(b, w, a)
    ensures PromptlyStored(b, Step(b, w, a))
  {
    StepGenuine(b, w, a);
    hide AllGenuine, MainKey, CountName;
    match a
    case Store(worker) => StorePromptly(b, w, worker);
    case RecordName(side, _) => ElsewhereSameData(side, KEYS);
    case CountKey(side, name) => ElsewhereSameData(side, name);
    case CountTotal(side, _) => ElsewhereSameData(side, TOTAL);
    case ResetCommand(_) => if w.reset.value.Zero? { ElsewhereSameData(w.reset.value.side, TOTAL); }
    case _ =>
  }

  lemma ElsewhereSameData(side: Side, suffix: string)
    ensures forall q: Query :: MainKey(q) != StatKey(side, suffix)
  {
    forall q: Query ensures MainKey(q) != StatKey(side, suffix) { DataApartFromStatistics(q, side, suffix); }
  }

  lemma {:induction false} RunYoung(b: Backend, w: World, actions: seq<Action>)
    requires PromptlyStored(b, w) && IsRun(b, w, actions)
    ensures AlwaysYoung(b, w, actions) <==> AllPrompt(b, w, actions)
    decreases |actions|
  {
    PromptServesYoung(b, w);
    if actions != [] {
      var a, w' := actions[0], Step(b, w, actions[0]);
      if Prompt(b, w, a) {
        StepPrompt(b, w, a);
        RunYoung(b, w', actions[1..]);
      } else {
        LateServesOld(b, w, a.worker);
      }
    }
  }

  lemma LateServesOld(b: Backend, w: World, worker: Worker)
    requires PromptlyStored(b, w) && Enabled(w, Store(worker)) && !Prompt(b, w, Store(worker))
    ensures !ServesYoung(b, Step(b, w, Store(worker)))
  {
    var w' := Step(b, w, Store(worker));
    assert Honest(b, worker, w.now);
    ServedYoungExactly(b, w, worker);
    hide MainKey;
    var t :| t >= w.now && FoundAt(b, w', worker.query, t).Some? && t - worker.asked >= b.expiration(worker.query);
    assert !Young(b, w'.redis, worker.query, t);
  }

  /**
   Over every run, at every moment: nothing older than its expiration can be served, now or later,
   exactly if every answer was stored at the instant it was asked for.
   */
  lemma NeverServedOldExactly(b: Backend, w0: World, actions: seq<Action>)
    requires Initial(w0) && IsRun(b, w0, actions)
    ensures AlwaysYoung(b, w0, actions) <==> AllPrompt(b, w0, actions)
  {
    RunYoung(b, w0, actions);
  }

  /** A run that begins with `a`. */
  lemma RunFirst(b: Backend, w: World, a: Action, rest: seq<Action>)
    requires Enabled(w, a) && IsRun(b, Step(b, w, a), rest)
    ensures IsRun(b, w, [a] + rest) && After(b, w, [a] + rest) == After(b, Step(b, w, a), rest)
  {
    assert ([a] + rest)[1..] == rest;
  }
}
