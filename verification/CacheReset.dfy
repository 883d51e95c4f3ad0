/**
 A reset of the cache statistics among workers that go on counting: what exactly it leaves of totals,
 counters and recorded names, command by command, and what becomes of a counter it has lost.
 */
module CacheReset {
  import opened Seqs
  import opened Cache
  import opened CacheRun

  ghost predicate AllListed(w: World) { Listed(w.hit) && Listed(w.miss) }

  lemma StepListed(b: Backend, w: World, a: Action)
    requires AllListed(w) && Enabled(w, a)
    ensures AllListed(Step(b, w, a))
  {
    hide Listed, LookedUp, Answered, Stored, Incr, Sadd, StatKey;
    match a
    case RecordName(side, name) => MovedListed(Of(w, side), name);
    case CountKey(side, name) => MovedListed(Of(w, side), name);
    case CountTotal(side, name) => MovedListed(Of(w, side), name);
    case BeginReset =>
    case ResetCommand(_) =>
    case Wait(_) =>
    case _ =>
      CallListed(b, w, a, Hit);
      CallListed(b, w, a, Miss);
  }

  /** A name moving on through the counting stays listed. */
  lemma MovedListed(p: Progress, name: string)
    requires Listed(p)
    ensures name in p.todo ==> Listed(p.(todo := p.todo - multiset{name}, adding := p.adding + multiset{name}))
    ensures name in p.adding ==> Listed(p.(adding := p.adding - multiset{name}, between := p.between + multiset{name}))
    ensures name in p.between ==> Listed(p.(between := p.between - multiset{name}))
  {
  }

  // ---- What every run keeps ---------------------------------------------------------------------

  /** Names being counted and recorded are known ones, and a reset deletes counters of recorded names only. */
  ghost predicate Regular(w: World) {
    AllListed(w) && NamesListed(w.redis, Hit) && NamesListed(w.redis, Miss) && StageFits(w.redis, w.reset)
  }

  /** The names of this side as an action leaves them. */
  function NamesLeft(w: World, a: Action, side: Side): set<string>
    requires Enabled(w, a)
  {
    match a
    case RecordName(at, name) => NamesOf(w.redis, side) + (if at == side then {name} else {})
    case ResetCommand(_) => if w.reset == Some(DropNames(side)) then {} else NamesOf(w.redis, side)
    case _ => NamesOf(w.redis, side)
  }

  lemma RecordedNames(r: Redis, at: Side, name: string, side: Side)
    ensures NamesOf(Sadd(r, StatKey(at, KEYS), name), side) == NamesOf(r, side) + (if at == side then {name} else {})
  {
    if at != side { NamesElsewhere(r, at, KEYS, Members(MembersOf(r, StatKey(at, KEYS)) + {name}), side); }
  }

  lemma LeftName(w: World, name: string)
    requires Regular(w) && Enabled(w, ResetCommand(name)) && w.reset.value.DeleteCounters?
    ensures name in COUNT_NAMES && name in NamesOf(w.redis, w.reset.value.side)
  {
  }

  lemma CommandNames(w: World, name: string, side: Side)
    requires Regular(w) && Enabled(w, ResetCommand(name))
    ensures NamesOf(Commanded(w, name).redis, side) == NamesLeft(w, ResetCommand(name), side)
  {
    hide StatKey, Listed;
    match w.reset.value
    case Zero(at) => ZeroEffect(w.redis, at, side);
    case ReadNames(_) =>
    case DeleteCounters(at, left) =>
      LeftName(w, name);
      DeleteEffect(w.redis, at, name, side);
    case DropNames(at) => DropEffect(w.redis, at, side);
  }

  lemma StepNames(b: Backend, w: World, a: Action, side: Side)
    requires Regular(w) && Enabled(w, a)
    ensures NamesOf(Step(b, w, a).redis, side) == NamesLeft(w, a, side)
  {
    hide NamesOf, StatKey, Commanded, LookedUp, Answered, Stored, Incr, Sadd;
    match a
    case RecordName(at, name) => RecordedNames(w.redis, at, name, side);
    case CountKey(at, name) =>
      ListedName(w, at, name);
      CountNames(w.redis, at, name, side);
    case CountTotal(at, _) =>
      assert |TOTAL| != |KEYS|;
      CountNames(w.redis, at, TOTAL, side);
    case ResetCommand(name) => CommandNames(w, name, side);
    case BeginReset =>
    case Wait(_) =>
    case _ => CallElsewhere(b, w, a, side);
  }

  lemma ListedName(w: World, side: Side, name: string)
    requires AllListed(w) && (name in Of(w, side).todo || name in Of(w, side).adding || name in Of(w, side).between)
    ensures name in COUNT_NAMES && name != KEYS && name != TOTAL
  {
    CountNamesPlain(name);
  }

  lemma CountNames(r: Redis, at: Side, suffix: string, side: Side)
    requires suffix != KEYS
    ensures NamesOf(Incr(r, StatKey(at, suffix)), side) == NamesOf(r, side)
  {
    NamesElsewhere(r, at, suffix, Counter(CounterOf(r, StatKey(at, suffix)) + 1), side);
  }

  lemma StepNamesListed(b: Backend, w: World, a: Action, side: Side)
    requires Regular(w) && Enabled(w, a)
    ensures NamesListed(Step(b, w, a).redis, side)
  {
    StepNames(b, w, a, side);
    if a.RecordName? { ListedName(w, a.side, a.name); }
    hide Listed, NamesOf, Step, StageFits;
    assert NamesListed(w.redis, side);
  }

  lemma StepFits(b: Backend, w: World, a: Action)
    requires Regular(w) && Enabled(w, a)
    ensures StageFits(Step(b, w, a).redis, Step(b, w, a).reset)
  {
    if a.ResetCommand? {
      CommandFits(w, a.name);
    } else {
      StageStays(b, w, a);
      if w.reset.Some? && w.reset.value.DeleteCounters? { StepNames(b, w, a, w.reset.value.side); }
      hide Step, NamesOf, AllListed, NamesListed;
    }
  }

  lemma StepRegular(b: Backend, w: World, a: Action)
    requires Regular(w) && Enabled(w, a)
    ensures Regular(Step(b, w, a))
  {
    hide Step, NamesListed, StageFits, Listed;
    StepListed(b, w, a);
    StepNamesListed(b, w, a, Hit);
    StepNamesListed(b, w, a, Miss);
    StepFits(b, w, a);
  }

  lemma StageStays(b: Backend, w: World, a: Action)
    requires Enabled(w, a) && !a.ResetCommand?
    ensures Step(b, w, a).reset == if a.BeginReset? then Some(Zero(Hit)) else w.reset
  {
  }

  lemma InitialRegular(w: World)
    requires Initial(w)
    ensures Regular(w)
  {
  }

  lemma {:induction false} RunRegular(b: Backend, w: World, actions: seq<Action>)
    requires Regular(w) && IsRun(b, w, actions)
    ensures Regular(After(b, w, actions))
    decreases |actions|
  {
    if actions != [] {
      StepRegular(b, w, actions[0]);
      RunRegular(b, Step(b, w, actions[0]), actions[1..]);
    }
  }

  // ---- What will be left when the reset is done ---------------------------------------------------

  /** The total, the counter and the names that are there now and that the reset will not touch any more. */
  function SafeTotal(w: World, side: Side): nat { if ZeroPending(w.reset, side) then 0 else Total(w.redis, side) }

  function SafeCounter(w: World, side: Side, name: string): nat {
    if Waiting(w.reset, side, name) then 0 else CounterOf(w.redis, StatKey(side, name))
  }

  function SafeNames(w: World, side: Side): set<string> {
    if DropPending(w.reset, side) then {} else NamesOf(w.redis, side)
  }

  /** A total counted after the reset zeroed it. */
  function AddsTotal(w: World, a: Action, side: Side): nat {
    if a.CountTotal? && a.side == side && !ZeroPending(w.reset, side) then 1 else 0
  }

  /** A counter incremented after the reset deleted it, or read the names without it. */
  function AddsCounter(w: World, a: Action, side: Side, name: string): nat {
    if a == CountKey(side, name) && !Waiting(w.reset, side, name) then 1 else 0
  }

  /** A name recorded after the reset deleted the set of names. */
  function AddsNames(w: World, a: Action, side: Side): set<string> {
    if a.RecordName? && a.side == side && !DropPending(w.reset, side) then {a.name} else {}
  }

  /** Until the reset has read the names of a side, all its counters in use are recorded. */
  ghost predicate Ready(w: World, side: Side) {
    ReadPending(w.reset, side) ==> Recorded(w.redis, Of(w, side), side)
  }

  lemma TotalKept(r: Redis, at: Side, suffix: string, side: Side)
    requires at != side || suffix != TOTAL
    ensures Total(Incr(r, StatKey(at, suffix)), side) == Total(r, side)
    ensures forall name: string :: Total(Sadd(r, StatKey(at, suffix), name), side) == Total(r, side)
  {
    if StatKey(at, suffix) == StatKey(side, TOTAL) { StatKeysInjective(at, suffix, side, TOTAL); }
  }

  lemma StepTotal(b: Backend, w: World, a: Action, side: Side)
    requires Regular(w) && Enabled(w, a) && !a.BeginReset?
    ensures SafeTotal(Step(b, w, a), side) == SafeTotal(w, side) + AddsTotal(w, a, side)
  {
    hide Total, StatKey, Commanded, LookedUp, Answered, Stored, Incr, Sadd;
    StepStage(b, w, a);
    assert |TOTAL| != |KEYS|;
    match a
    case RecordName(at, name) => TotalKept(w.redis, at, KEYS, side);
    case CountKey(at, name) =>
      ListedName(w, at, name);
      TotalKept(w.redis, at, name, side);
    case CountTotal(at, _) =>
      if at == side { TotalIncremented(w.redis, side); } else { TotalKept(w.redis, at, TOTAL, side); }
    case ResetCommand(name) => CommandTotal(w, name, side);
    case Wait(_) =>
    case BeginReset =>
    case _ => CallElsewhere(b, w, a, side);
  }

  lemma StepStage(b: Backend, w: World, a: Action)
    requires Enabled(w, a) && !a.BeginReset?
    ensures !a.ResetCommand? ==> Step(b, w, a).reset == w.reset
  {
  }

  lemma CommandTotal(w: World, name: string, side: Side)
    requires Regular(w) && Enabled(w, ResetCommand(name))
    ensures SafeTotal(Commanded(w, name), side) == SafeTotal(w, side)
  {
    hide Total, StatKey;
    match w.reset.value
    case Zero(at) => ZeroEffect(w.redis, at, side);
    case ReadNames(_) =>
    case DeleteCounters(at, left) =>
      LeftName(w, name);
      DeleteEffect(w.redis, at, name, side);
    case DropNames(at) => DropEffect(w.redis, at, side);
  }

  lemma CounterKept(r: Redis, at: Side, suffix: string, side: Side, name: string)
    ensures CounterOf(Incr(r, StatKey(at, suffix)), StatKey(side, name))
            == CounterOf(r, StatKey(side, name)) + if at == side && suffix == name then 1 else 0
    ensures suffix != name ==>
              forall x: string ::
                CounterOf(Sadd(r, StatKey(at, suffix), x), StatKey(side, name)) == CounterOf(r, StatKey(side, name))
  {
    if StatKey(at, suffix) == StatKey(side, name) { StatKeysInjective(at, suffix, side, name); }
  }

  lemma StepCounter(b: Backend, w: World, a: Action, side: Side, name: string)
    requires Regular(w) && Ready(w, side) && Enabled(w, a) && !a.BeginReset? && name in COUNT_NAMES
    ensures SafeCounter(Step(b, w, a), side, name) == SafeCounter(w, side, name) + AddsCounter(w, a, side, name)
  {
    hide CounterOf, StatKey, Commanded, LookedUp, Answered, Stored, Incr, Sadd;
    CountNamesPlain(name);
    StepStage(b, w, a);
    match a
    case RecordName(at, x) => CounterKept(w.redis, at, KEYS, side, name);
    case CountKey(at, x) => CounterKept(w.redis, at, x, side, name);
    case CountTotal(at, _) => CounterKept(w.redis, at, TOTAL, side, name);
    case ResetCommand(x) => CommandCounter(w, x, side, name);
    case Wait(_) =>
    case BeginReset =>
    case _ =>
      CallElsewhere(b, w, a, side);
      CounterSame(w.redis, Step(b, w, a).redis, side, name);
  }

  lemma CommandCounter(w: World, x: string, side: Side, name: string)
    requires Regular(w) && Ready(w, side) && Enabled(w, ResetCommand(x)) && name in COUNT_NAMES
    ensures SafeCounter(Commanded(w, x), side, name) == SafeCounter(w, side, name)
  {
    hide StatKey, AllListed;
    match w.reset.value
    case Zero(at) =>
      ZeroEffect(w.redis, at, side);
      CounterSame(w.redis, w.redis[StatKey(at, TOTAL) := Counter(0)], side, name);
    case ReadNames(at) =>
      if at == side && name !in NamesOf(w.redis, side) { assert !InUse(w.redis, Of(w, side), side, name); }
    case DeleteCounters(at, left) =>
      LeftName(w, x);
      DeleteEffect(w.redis, at, x, side);
      assert name in left && name != x ==> name in left - {x};
      assert CounterOf(Commanded(w, x).redis, StatKey(side, name))
          == if at == side && name == x then 0 else CounterOf(w.redis, StatKey(side, name));
    case DropNames(at) =>
      DropEffect(w.redis, at, side);
      CounterSame(w.redis, w.redis - {StatKey(at, KEYS)}, side, name);
  }

  lemma StepSafeNames(b: Backend, w: World, a: Action, side: Side)
    requires Regular(w) && Enabled(w, a) && !a.BeginReset?
    ensures SafeNames(Step(b, w, a), side) == SafeNames(w, side) + AddsNames(w, a, side)
  {
    StepNames(b, w, a, side);
    if !a.ResetCommand? { StepStage(b, w, a); }
    hide NamesOf, Regular;
  }

  lemma StepReady(b: Backend, w: World, a: Action, side: Side)
    requires Regular(w) && Ready(w, side) && Enabled(w, a) && !a.BeginReset?
    ensures Ready(Step(b, w, a), side)
  {
    StepStage(b, w, a);
    if a.ResetCommand? {
      CommandReady(w, a.name, side);
    } else if ReadPending(w.reset, side) {
      StaysRecorded(b, w, a, side);
    }
  }

  lemma StaysRecorded(b: Backend, w: World, a: Action, side: Side)
    requires Regular(w) && Recorded(w.redis, Of(w, side), side)
    requires Enabled(w, a) && !a.BeginReset? && !a.ResetCommand?
    ensures Recorded(Step(b, w, a).redis, Of(Step(b, w, a), side), side)
  {
    hide Recorded, StatKey;
    match a
    case RecordName(at, name) =>
      ListedName(w, at, name);
      RecordRecorded(b, w, at, name, side);
    case CountKey(at, name) =>
      ListedName(w, at, name);
      CountRecorded(b, w, at, name, side);
    case CountTotal(at, name) => TotalRecorded(b, w, at, name, side);
    case Wait(_) =>
    case BeginReset =>
    case ResetCommand(_) =>
    case _ => CallRecorded(b, w, a, side);
  }

  lemma CommandReady(w: World, name: string, side: Side)
    requires Regular(w) && Ready(w, side) && Enabled(w, ResetCommand(name))
    ensures Ready(Commanded(w, name), side)
  {
    hide StatKey, AllListed, Recorded;
    match w.reset.value
    case Zero(at) =>
      ZeroEffect(w.redis, at, side);
      StillRecorded(w.redis, Of(w, side), w.redis[StatKey(at, TOTAL) := Counter(0)], Of(w, side), side);
    case ReadNames(_) =>
    case DeleteCounters(at, left) =>
      if side == Miss && at == Hit {
        LeftName(w, name);
        DeleteEffect(w.redis, at, name, side);
        StillRecorded(w.redis, Of(w, side), w.redis - {StatKey(at, name)}, Of(w, side), side);
      }
    case DropNames(_) =>
  }

  // ---- Over a whole reset ---------------------------------------------------------------------------

  function TotalsAdded(b: Backend, w: World, actions: seq<Action>, side: Side): nat
    requires IsRun(b, w, actions)
    decreases |actions|
  {
    if actions == [] then 0
    else AddsTotal(w, actions[0], side) + TotalsAdded(b, Step(b, w, actions[0]), actions[1..], side)
  }

  function CountersAdded(b: Backend, w: World, actions: seq<Action>, side: Side, name: string): nat
    requires IsRun(b, w, actions)
    decreases |actions|
  {
    if actions == [] then 0
    else AddsCounter(w, actions[0], side, name) + CountersAdded(b, Step(b, w, actions[0]), actions[1..], side, name)
  }

  function NamesAdded(b: Backend, w: World, actions: seq<Action>, side: Side): set<string>
    requires IsRun(b, w, actions)
    decreases |actions|
  {
    if actions == [] then {}
    else AddsNames(w, actions[0], side) + NamesAdded(b, Step(b, w, actions[0]), actions[1..], side)
  }

  ghost predicate NoBegin(actions: seq<Action>)
    decreases |actions|
  {
    actions == [] || (!actions[0].BeginReset? && NoBegin(actions[1..]))
  }

  lemma {:induction false} RunTotals(b: Backend, w: World, actions: seq<Action>, side: Side)
    requires Regular(w) && IsRun(b, w, actions) && NoBegin(actions)
    ensures SafeTotal(After(b, w, actions), side) == SafeTotal(w, side) + TotalsAdded(b, w, actions, side)
    decreases |actions|
  {
    if actions != [] {
      StepRegular(b, w, actions[0]);
      StepTotal(b, w, actions[0], side);
      hide Regular, SafeTotal, Step, AddsTotal, Enabled;
      RunTotals(b, Step(b, w, actions[0]), actions[1..], side);
    }
  }

  lemma {:induction false} RunNames(b: Backend, w: World, actions: seq<Action>, side: Side)
    requires Regular(w) && IsRun(b, w, actions) && NoBegin(actions)
    ensures SafeNames(After(b, w, actions), side) == SafeNames(w, side) + NamesAdded(b, w, actions, side)
    decreases |actions|
  {
    if actions != [] {
      StepRegular(b, w, actions[0]);
      StepSafeNames(b, w, actions[0], side);
      hide Regular, SafeNames, Step, AddsNames, Enabled;
      RunNames(b, Step(b, w, actions[0]), actions[1..], side);
    }
  }

  lemma {:induction false} RunCounters(b: Backend, w: World, actions: seq<Action>, side: Side, name: string)
    requires Regular(w) && Ready(w, side) && IsRun(b, w, actions) && NoBegin(actions) && name in COUNT_NAMES
    ensures SafeCounter(After(b, w, actions), side, name)
            == SafeCounter(w, side, name) + CountersAdded(b, w, actions, side, name)
    decreases |actions|
  {
    if actions != [] {
      StepRegular(b, w, actions[0]);
      StepReady(b, w, actions[0], side);
      StepCounter(b, w, actions[0], side, name);
      hide Regular, Ready, SafeCounter, Step, AddsCounter, Enabled;
      RunCounters(b, Step(b, w, actions[0]), actions[1..], side, name);
    }
  }

  /** A reset has just begun in a state whose counters in use are all recorded. */
  ghost predicate JustBegun(w: World, side: Side) {
    Regular(w) && w.reset == Some(Zero(Hit)) && Recorded(w.redis, Of(w, side), side)
  }

  /**
   What a reset leaves, whatever is counted among its commands: the totals counted after it zeroed
   them, the increments of each counter after it deleted it or read the names without it, and the names
   recorded after it deleted the set of names.
   */
  lemma ResetLeaves(b: Backend, w: World, actions: seq<Action>, side: Side, name: string)
    requires JustBegun(w, side) && IsRun(b, w, actions) && NoBegin(actions) && name in COUNT_NAMES
    requires After(b, w, actions).reset.None?
    ensures var r := After(b, w, actions).redis;
            && Total(r, side) == TotalsAdded(b, w, actions, side)
            && NamesOf(r, side) == NamesAdded(b, w, actions, side)
            && CounterOf(r, StatKey(side, name)) == CountersAdded(b, w, actions, side, name)
  {
    RunTotals(b, w, actions, side);
    RunNames(b, w, actions, side);
    RunCounters(b, w, actions, side, name);
  }

  // ---- The balance after a reset ----------------------------------------------------------------------

  function SumBy(f: string -> nat, names: seq<string>): nat {
    if names == [] then 0 else f(names[0]) + SumBy(f, names[1..])
  }

  lemma {:induction false} SumBySplits(f: string -> nat, d: string -> nat, g: string -> nat, names: seq<string>)
    requires forall n | n in names :: g(n) == f(n) + d(n)
    ensures SumBy(g, names) == SumBy(f, names) + SumBy(d, names)
  {
    if names != [] {
      assert names == [names[0]] + names[1..];
      SumBySplits(f, d, g, names[1..]);
    }
  }

  lemma {:induction false} SumByOne(d: string -> nat, names: seq<string>, x: string)
    requires Distinct(names) && forall n | n in names && n != x :: d(n) == 0
    ensures SumBy(d, names) == if x in names then d(x) else 0
  {
    if names != [] {
      assert names == [names[0]] + names[1..];
      assert forall i | 0 <= i < |names[1..]| :: names[1..][i] == names[i + 1];
      SumByOne(d, names[1..], x);
    }
  }

  lemma {:induction false} SumByIs(r: Redis, side: Side, f: string -> nat, names: seq<string>)
    requires forall n | n in names :: f(n) == CounterOf(r, StatKey(side, n))
    ensures SumBy(f, names) == SumOf(r, side, names)
  {
    if names != [] {
      assert names == [names[0]] + names[1..];
      SumByIs(r, side, f, names[1..]);
    }
  }

  function SafeOf(w: World, side: Side): string -> nat { (name: string) => SafeCounter(w, side, name) }

  function AddedBy(w: World, a: Action, side: Side): string -> nat { (name: string) => AddsCounter(w, a, side, name) }

  /** By how much the total and the calls between their increments exceed the counters, once the reset is done. */
  function Gap(w: World, side: Side): int {
    SafeTotal(w, side) + |Of(w, side).between| - SumBy(SafeOf(w, side), COUNT_NAMES)
  }

  /** A counter incremented that the reset will delete, or a total counted that it will zero. */
  function GapChange(w: World, a: Action, side: Side): int {
    if a.CountKey? && a.side == side && Waiting(w.reset, side, a.name) then 1
    else if a.CountTotal? && a.side == side && ZeroPending(w.reset, side) then -1
    else 0
  }

  lemma StepSafe(b: Backend, w: World, a: Action, side: Side)
    requires Regular(w) && Ready(w, side) && Enabled(w, a) && !a.BeginReset?
    ensures forall name | name in COUNT_NAMES ::
              SafeOf(Step(b, w, a), side)(name) == SafeOf(w, side)(name) + AddedBy(w, a, side)(name)
  {
    hide SafeCounter, AddsCounter, Step, Regular, Ready, Enabled;
    forall name | name in COUNT_NAMES
      ensures SafeOf(Step(b, w, a), side)(name) == SafeOf(w, side)(name) + AddedBy(w, a, side)(name)
    {
      StepCounter(b, w, a, side, name);
    }
  }

  /** Only the counter that is incremented adds anything. */
  lemma AddedOnce(w: World, a: Action, side: Side)
    requires AllListed(w) && Enabled(w, a)
    ensures SumBy(AddedBy(w, a, side), COUNT_NAMES)
            == if a.CountKey? && a.side == side then AddsCounter(w, a, side, a.name) else 0
  {
    if a.CountKey? { ListedName(w, a.side, a.name); }
    hide Waiting, Listed, SumBy;
    CountNamesDistinct();
    SumByOne(AddedBy(w, a, side), COUNT_NAMES, if a.CountKey? then a.name else "");
  }

  lemma StepSum(b: Backend, w: World, a: Action, side: Side)
    requires Regular(w) && Ready(w, side) && Enabled(w, a) && !a.BeginReset?
    ensures SumBy(SafeOf(Step(b, w, a), side), COUNT_NAMES) == SumBy(SafeOf(w, side), COUNT_NAMES)
              + if a.CountKey? && a.side == side then AddsCounter(w, a, side, a.name) else 0
  {
    StepSafe(b, w, a, side);
    AddedOnce(w, a, side);
    hide SafeOf, AddedBy, AddsCounter, Step, Regular, Ready, SumBy;
    SumBySplits(SafeOf(w, side), AddedBy(w, a, side), SafeOf(Step(b, w, a), side), COUNT_NAMES);
  }

  function BetweenChange(a: Action, side: Side): int {
    if a.CountKey? && a.side == side then 1 else if a.CountTotal? && a.side == side then -1 else 0
  }

  lemma CommandMovesNobody(w: World, name: string)
    requires Enabled(w, ResetCommand(name))
    ensures Commanded(w, name).hit == w.hit && Commanded(w, name).miss == w.miss
  {
  }

  lemma StepBetween(b: Backend, w: World, a: Action, side: Side)
    requires Enabled(w, a)
    ensures |Of(Step(b, w, a), side).between| as int == |Of(w, side).between| + BetweenChange(a, side)
  {
    hide Commanded, Incr, Sadd, StatKey, Put, Found, CountName;
    if a.ResetCommand? { CommandMovesNobody(w, a.name); }
  }

  /** What an increment adds to the counters the reset will leave, and to the gap. */
  lemma GapPieces(w: World, a: Action, side: Side)
    ensures GapChange(w, a, side)
            == AddsTotal(w, a, side) - (if a.CountKey? && a.side == side then AddsCounter(w, a, side, a.name) else 0)
               + BetweenChange(a, side)
  {
  }

  lemma StepGap(b: Backend, w: World, a: Action, side: Side)
    requires Regular(w) && Ready(w, side) && Enabled(w, a) && !a.BeginReset?
    ensures Gap(Step(b, w, a), side) == Gap(w, side) + GapChange(w, a, side)
  {
    StepTotal(b, w, a, side);
    StepSum(b, w, a, side);
    StepBetween(b, w, a, side);
    GapPieces(w, a, side);
    hide SafeTotal, SafeOf, SumBy, Step, Regular, Ready, Enabled, GapChange, AddsTotal, AddsCounter, BetweenChange, Of;
  }

  function GapAdded(b: Backend, w: World, actions: seq<Action>, side: Side): int
    requires IsRun(b, w, actions)
    decreases |actions|
  {
    if actions == [] then 0
    else GapChange(w, actions[0], side) + GapAdded(b, Step(b, w, actions[0]), actions[1..], side)
  }

  lemma {:induction false} RunGap(b: Backend, w: World, actions: seq<Action>, side: Side)
    requires Regular(w) && Ready(w, side) && IsRun(b, w, actions) && NoBegin(actions)
    ensures Gap(After(b, w, actions), side) == Gap(w, side) + GapAdded(b, w, actions, side)
    decreases |actions|
  {
    if actions != [] {
      StepRegular(b, w, actions[0]);
      StepReady(b, w, actions[0], side);
      StepGap(b, w, actions[0], side);
      hide Regular, Ready, Gap, GapChange, Step;
      RunGap(b, Step(b, w, actions[0]), actions[1..], side);
    }
  }

  lemma GapAtEnd(w: World, side: Side)
    requires w.reset.None?
    ensures Gap(w, side) == Total(w.redis, side) + |Of(w, side).between| - Sum(w.redis, side)
  {
    SumByIs(w.redis, side, SafeOf(w, side), COUNT_NAMES);
  }

  lemma {:induction false} SumByZero(f: string -> nat, names: seq<string>)
    requires forall n | n in names :: f(n) == 0
    ensures SumBy(f, names) == 0
  {
    if names != [] {
      assert names == [names[0]] + names[1..];
      SumByZero(f, names[1..]);
    }
  }

  /**
   The balance after a reset: it holds exactly if the calls that were between their two increments when
   the reset began, and the increments of counters it deleted afterwards, are as many as the totals that
   were counted before it zeroed the total.
   */
  lemma ResetBalance(b: Backend, w: World, actions: seq<Action>, side: Side)
    requires JustBegun(w, side) && IsRun(b, w, actions) && NoBegin(actions) && After(b, w, actions).reset.None?
    ensures var w' := After(b, w, actions);
            && Total(w'.redis, side) + |Of(w', side).between|
               == Sum(w'.redis, side) + |Of(w, side).between| + GapAdded(b, w, actions, side)
            && (Balanced(w', side) <==> |Of(w, side).between| + GapAdded(b, w, actions, side) == 0)
  {
    RunGap(b, w, actions, side);
    RunRegular(b, w, actions);
    GapAtEnd(After(b, w, actions), side);
    SumByZero(SafeOf(w, side), COUNT_NAMES);
    hide Sum, Total, SumBy, GapAdded, JustBegun;
  }

  // ---- The recorded names after a reset ---------------------------------------------------------------------

  /** A counter whose name is not recorded: no metrics report it and no reset finds it. */
  predicate Orphaned(r: Redis, side: Side, name: string) {
    CounterOf(r, StatKey(side, name)) > 0 && name !in NamesOf(r, side)
  }

  /** A counter is lost exactly if it was incremented after the reset passed it and not recorded after the drop. */
  lemma ResetLosesExactly(b: Backend, w: World, actions: seq<Action>, side: Side, name: string)
    requires JustBegun(w, side) && IsRun(b, w, actions) && NoBegin(actions) && name in COUNT_NAMES
    requires After(b, w, actions).reset.None?
    ensures Orphaned(After(b, w, actions).redis, side, name)
            <==> CountersAdded(b, w, actions, side, name) > 0 && name !in NamesAdded(b, w, actions, side)
  {
    ResetLeaves(b, w, actions, side, name);
    hide JustBegun, IsRun, After, CountersAdded, NamesAdded, StatKey, NamesOf;
  }

  /** In use after the reset: incremented after the reset passed the counter, or a call is at an increment. */
  ghost function UsedAfter(b: Backend, w: World, actions: seq<Action>, side: Side): set<string>
    requires IsRun(b, w, actions)
  {
    var p := Of(After(b, w, actions), side);
    set name | name in COUNT_NAMES
               && (CountersAdded(b, w, actions, side, name) > 0 || name in p.adding || name in p.between)
  }

  lemma UsedIsInUse(b: Backend, w: World, actions: seq<Action>, side: Side, name: string)
    requires JustBegun(w, side) && IsRun(b, w, actions) && NoBegin(actions) && name in COUNT_NAMES
    requires After(b, w, actions).reset.None?
    ensures var w' := After(b, w, actions);
            InUse(w'.redis, Of(w', side), side, name) <==> name in UsedAfter(b, w, actions, side)
  {
    ResetLeaves(b, w, actions, side, name);
    hide JustBegun, IsRun, After, CountersAdded, NamesAdded, StatKey, NamesOf, Of;
  }

  lemma RecordedIsUsed(r: Redis, p: Progress, side: Side, used: set<string>)
    requires NamesListed(r, side) && forall name | name in used :: name in COUNT_NAMES
    requires forall name | name in COUNT_NAMES :: InUse(r, p, side, name) <==> name in used
    ensures Recorded(r, p, side) <==> used <= NamesOf(r, side)
  {
    hide InUse, NamesOf;
  }

  /** After a reset the counters in use have their names recorded exactly if they were recorded after the drop. */
  lemma ResetRecordsExactly(b: Backend, w: World, actions: seq<Action>, side: Side)
    requires JustBegun(w, side) && IsRun(b, w, actions) && NoBegin(actions) && After(b, w, actions).reset.None?
    ensures var w' := After(b, w, actions);
            Recorded(w'.redis, Of(w', side), side)
            <==> UsedAfter(b, w, actions, side) <= NamesAdded(b, w, actions, side)
  {
    var w' := After(b, w, actions);
    RunRegular(b, w, actions);
    assert NamesListed(w'.redis, side);
    ResetLeaves(b, w, actions, side, COUNT_NAMES[0]);
    hide JustBegun, Regular, IsRun, After, NoBegin, CountersAdded, NamesAdded, NamesOf, StatKey, InUse, Recorded;
    forall name | name in COUNT_NAMES
      ensures InUse(w'.redis, Of(w', side), side, name) <==> name in UsedAfter(b, w, actions, side)
    {
      UsedIsInUse(b, w, actions, side, name);
    }
    RecordedIsUsed(w'.redis, Of(w', side), side, UsedAfter(b, w, actions, side));
  }

  // ---- A reset without interruption --------------------------------------------------------------------------

  function KeysOf(side: Side, names: set<string>): set<string> { set name | name in names :: StatKey(side, name) }

  /** What the rest of a reset does when nothing comes in between. */
  function Finished(r: Redis, stage: Stage): Redis {
    match stage
    case DropNames(side) =>
      if side == Hit then r - {StatKey(Hit, KEYS)} - {StatKey(Miss, KEYS)} else r - {StatKey(Miss, KEYS)}
    case DeleteCounters(side, left) => FinishedSide(r - KeysOf(side, left), side)
    case ReadNames(side) => FinishedSide(r - CounterKeys(r, side), side)
    case Zero(side) =>
      var zeroed := if side == Hit then r[StatKey(Hit, TOTAL) := Counter(0)][StatKey(Miss, TOTAL) := Counter(0)]
                    else r[StatKey(Miss, TOTAL) := Counter(0)];
      FinishedSide(zeroed - CounterKeys(zeroed, Hit), Hit)
  }

  /** The same, once the counters of a side are deleted. */
  function FinishedSide(r: Redis, side: Side): Redis {
    var r' := if side == Hit then r - CounterKeys(r, Miss) else r;
    r' - {StatKey(Hit, KEYS)} - {StatKey(Miss, KEYS)}
  }

  lemma FinishedNext(r: Redis, side: Side, left: set<string>)
    ensures Finished(r, AfterRead(side, left)) == FinishedSide(r - KeysOf(side, left), side)
  {
    if left == {} {
      assert KeysOf(side, left) == {};
      assert r - {} == r;
    }
  }

  lemma CommandFinishes(w: World, name: string)
    requires w.reset.Some? && Enabled(w, ResetCommand(name))
    ensures var w' := Commanded(w, name);
            (if w'.reset.Some? then Finished(w'.redis, w'.reset.value) else w'.redis)
            == Finished(w.redis, w.reset.value)
  {
    hide StatKey, MembersOf;
    match w.reset.value
    case Zero(side) =>
    case ReadNames(side) =>
      FinishedNext(w.redis, side, NamesOf(w.redis, side));
      assert CounterKeys(w.redis, side) == KeysOf(side, NamesOf(w.redis, side));
    case DeleteCounters(side, left) =>
      FinishedNext(w.redis - {StatKey(side, name)}, side, left - {name});
      assert KeysOf(side, left) == {StatKey(side, name)} + KeysOf(side, left - {name});
      assert w.redis - {StatKey(side, name)} - KeysOf(side, left - {name}) == w.redis - KeysOf(side, left);
    case DropNames(side) =>
  }

  ghost predicate CommandsOnly(actions: seq<Action>)
    decreases |actions|
  {
    actions == [] || (actions[0].ResetCommand? && CommandsOnly(actions[1..]))
  }

  lemma {:induction false} RunFinishes(b: Backend, w: World, actions: seq<Action>)
    requires w.reset.Some? && IsRun(b, w, actions) && CommandsOnly(actions) && After(b, w, actions).reset.None?
    ensures After(b, w, actions).redis == Finished(w.redis, w.reset.value)
    ensures Of(After(b, w, actions), Hit) == w.hit && Of(After(b, w, actions), Miss) == w.miss
    decreases |actions|
  {
    CommandFinishes(w, actions[0].name);
    hide Finished;
    var w' := Step(b, w, actions[0]);
    if w'.reset.Some? {
      RunFinishes(b, w', actions[1..]);
    } else {
      NothingLeft(b, w', actions[1..]);
    }
  }

  lemma NothingLeft(b: Backend, w: World, actions: seq<Action>)
    requires w.reset.None? && IsRun(b, w, actions) && CommandsOnly(actions)
    ensures actions == []
  {
  }

  /** Without interruption the commands, in whatever order counters are deleted, do what a reset in one step does. */
  lemma UninterruptedReset(b: Backend, w: World, actions: seq<Action>)
    requires w.reset == Some(Zero(Hit)) && IsRun(b, w, actions) && CommandsOnly(actions)
    requires After(b, w, actions).reset.None?
    ensures After(b, w, actions).redis == ResetAll(w.redis)
    ensures Of(After(b, w, actions), Hit) == w.hit && Of(After(b, w, actions), Miss) == w.miss
  {
    RunFinishes(b, w, actions);
    var zeroed := w.redis[StatKey(Hit, TOTAL) := Counter(0)][StatKey(Miss, TOTAL) := Counter(0)];
    var less := zeroed - CounterKeys(zeroed, Hit);
    assert less - CounterKeys(less, Miss) - {StatKey(Hit, KEYS)} - {StatKey(Miss, KEYS)} == ResetAll(w.redis);
  }

  /** With nothing counted in between: exactly when no call is at one of its two increments. */
  lemma UninterruptedRecordsExactly(r: Redis, p: Progress, side: Side)
    requires Recorded(r, p, side) && Listed(p)
    ensures Recorded(ResetAll(r), p, side) <==> p.adding == multiset{} && p.between == multiset{}
  {
    ResetRemoves(r, side);
    if Recorded(ResetAll(r), p, side) {
      forall name: string ensures name !in p.adding && name !in p.between {
        assert name in COUNT_NAMES ==> !InUse(ResetAll(r), p, side, name);
      }
    } else {
      forall name | name in COUNT_NAMES ensures CounterOf(ResetAll(r), StatKey(side, name)) == 0 {
        ResetCounter(r, p, side, name);
      }
    }
  }

  /** A reset without interruption between a call's record of its name and its increment loses the counter. */
  lemma OverlappingResetOrphans(b: Backend, w: World, actions: seq<Action>, side: Side, name: string)
    requires Listed(Of(w, side)) && name in Of(w, side).adding && w.reset == Some(Zero(Hit))
    requires IsRun(b, w, actions) && CommandsOnly(actions) && After(b, w, actions).reset.None?
    ensures Enabled(After(b, w, actions), CountKey(side, name))
    ensures Orphaned(Step(b, After(b, w, actions), CountKey(side, name)).redis, side, name)
  {
    UninterruptedReset(b, w, actions);
    ResetRemoves(w.redis, side);
    CountNamesPlain(name);
    hide ResetAll;
    var r := ResetAll(w.redis);
    CountNames(r, side, name, side);
    CounterKept(r, side, name, side, name);
  }

  /** A lost counter stays lost, through every command of every reset, until its side and name are recorded again. */
  lemma OrphanExactly(b: Backend, w: World, a: Action, side: Side, name: string)
    requires Regular(w) && Enabled(w, a) && name in COUNT_NAMES && Orphaned(w.redis, side, name)
    ensures Orphaned(Step(b, w, a).redis, side, name) <==> a != RecordName(side, name)
  {
    StepNames(b, w, a, side);
    if a.ResetCommand? {
      CommandMissesOrphan(w, a.name, side, name);
    } else {
      CounterNeverFalls(b, w, a, side, name);
    }
    hide Step, CounterOf, NamesOf, Regular;
  }

  lemma CounterNeverFalls(b: Backend, w: World, a: Action, side: Side, name: string)
    requires Regular(w) && Enabled(w, a) && !a.ResetCommand? && name in COUNT_NAMES
    ensures CounterOf(Step(b, w, a).redis, StatKey(side, name)) >= CounterOf(w.redis, StatKey(side, name))
  {
    hide CounterOf, StatKey, LookedUp, Answered, Stored, Incr, Sadd, Regular;
    CountNamesPlain(name);
    match a
    case RecordName(at, x) => CounterKept(w.redis, at, KEYS, side, name);
    case CountKey(at, x) => CounterKept(w.redis, at, x, side, name);
    case CountTotal(at, _) => CounterKept(w.redis, at, TOTAL, side, name);
    case BeginReset =>
    case ResetCommand(_) =>
    case Wait(_) =>
    case _ =>
      CallElsewhere(b, w, a, side);
      CounterSame(w.redis, Step(b, w, a).redis, side, name);
  }

  lemma CommandMissesOrphan(w: World, x: string, side: Side, name: string)
    requires Regular(w) && Enabled(w, ResetCommand(x)) && name in COUNT_NAMES && Orphaned(w.redis, side, name)
    ensures CounterOf(Commanded(w, x).redis, StatKey(side, name)) == CounterOf(w.redis, StatKey(side, name))
  {
    hide StatKey, AllListed;
    match w.reset.value
    case Zero(at) =>
      ZeroEffect(w.redis, at, side);
      CounterSame(w.redis, w.redis[StatKey(at, TOTAL) := Counter(0)], side, name);
    case ReadNames(at) =>
    case DeleteCounters(at, left) =>
      LeftName(w, x);
      DeleteEffect(w.redis, at, x, side);
      assert !(at == side && name == x);
    case DropNames(at) =>
      DropEffect(w.redis, at, side);
      CounterSame(w.redis, w.redis - {StatKey(at, KEYS)}, side, name);
  }

  /** Over a whole run without such a record, through any number of resets, the metrics leave the counter out. */
  lemma {:induction false} OrphanStays(b: Backend, w: World, actions: seq<Action>, side: Side, name: string)
    requires Regular(w) && IsRun(b, w, actions) && name in COUNT_NAMES && Orphaned(w.redis, side, name)
    requires RecordName(side, name) !in actions
    ensures var r := After(b, w, actions).redis; Orphaned(r, side, name) && name !in Reported(r, side)
    decreases |actions|
  {
    if actions != [] {
      OrphanExactly(b, w, actions[0], side, name);
      StepRegular(b, w, actions[0]);
      OrphanStays(b, Step(b, w, actions[0]), actions[1..], side, name);
    }
  }

  // ---- Two resets met by one whole call ------------------------------------------------------------------

  /** A call that finds nothing cached, from its lookup to its last increment, with nothing in between. */
  function WholeCall(q: Query, now: real, value: Value): seq<Action> {
    [Lookup(q), Answer(Asking(q, now)), Store(Storing(q, now, now, value))] + Counting(CountName(q))
  }

  function Counting(name: string): seq<Action> {
    [RecordName(Miss, name), CountKey(Miss, name), CountTotal(Miss, name)]
  }

  /** The state after it: the answer is stored, the call is counted, and nobody is left at an increment. */
  function WholeCalled(b: Backend, w: World, q: Query, value: Value): World {
    var redis := Put(w.redis, MainKey(q), value, w.now, w.now, b.expiration(q));
    w.(redis := CountOne(redis, Miss, CountName(q)), calls := w.calls + 1)
  }

  lemma CountingRuns(b: Backend, w: World, name: string)
    requires w.miss == Idle.(todo := multiset{name})
    ensures IsRun(b, w, Counting(name))
    ensures After(b, w, Counting(name)) == w.(redis := CountOne(w.redis, Miss, name), miss := Idle)
  {
    hide StatKey, Incr, Sadd;
    var w1 := Step(b, w, RecordName(Miss, name));
    assert w1.miss == Idle.(adding := multiset{name});
    var w2 := Step(b, w1, CountKey(Miss, name));
    assert w2.miss == Idle.(between := multiset{name});
    var w3 := Step(b, w2, CountTotal(Miss, name));
    assert w3.miss == Idle;
    RunFirst(b, w2, CountTotal(Miss, name), []);
    RunFirst(b, w1, CountKey(Miss, name), [CountTotal(Miss, name)]);
    RunFirst(b, w, RecordName(Miss, name), [CountKey(Miss, name), CountTotal(Miss, name)]);
  }

  lemma {:induction false} RunAppend(b: Backend, w: World, first: seq<Action>, rest: seq<Action>)
    requires IsRun(b, w, first) && IsRun(b, After(b, w, first), rest)
    ensures IsRun(b, w, first + rest) && After(b, w, first + rest) == After(b, After(b, w, first), rest)
    decreases |first|
  {
    if first == [] {
      assert first + rest == rest;
    } else {
      RunAppend(b, Step(b, w, first[0]), first[1..], rest);
      assert first + rest == [first[0]] + (first[1..] + rest);
      RunFirst(b, w, first[0], first[1..] + rest);
    }
  }

  ghost predicate CanMiss(b: Backend, w: World, q: Query, value: Value) {
    Quiet(w) && b.enabled && Found(b, w, q).None? && b.answer(q, w.now) == Got(value)
  }

  lemma StoreRuns(b: Backend, w: World, worker: Worker)
    requires Quiet(w) && worker.Storing? && worker in w.workers
    ensures var q, rest := worker.query, [Store(worker)] + Counting(CountName(worker.query));
            && IsRun(b, w, rest)
            && After(b, w, rest) == WholeStored(b, w, worker)
  {
    hide MainKey, CountName, Put, CountOne;
    var w' := Step(b, w, Store(worker));
    var name := CountName(worker.query);
    assert w'.miss == Idle.(todo := multiset{name});
    CountingRuns(b, w', name);
    hide Counting;
    RunFirst(b, w, Store(worker), Counting(name));
  }

  /** The state after a store and its counting. */
  function WholeStored(b: Backend, w: World, worker: Worker): World
    requires worker.Storing?
  {
    var redis := Put(w.redis, MainKey(worker.query), worker.value, worker.asked, w.now, b.expiration(worker.query));
    w.(redis := CountOne(redis, Miss, CountName(worker.query)),
       workers := w.workers - multiset{worker}, calls := w.calls + 1)
  }

  lemma AskRuns(b: Backend, w: World, q: Query, value: Value)
    requires CanMiss(b, w, q, value)
    ensures var run := [Lookup(q), Answer(Asking(q, w.now))]; var storing := Storing(q, w.now, w.now, value);
            IsRun(b, w, run) && After(b, w, run) == w.(workers := w.workers + multiset{storing})
  {
    hide MainKey, CountName, Put, Found;
    var asking := Asking(q, w.now);
    var w1 := Step(b, w, Lookup(q));
    assert w1.workers - multiset{asking} == w.workers;
    RunFirst(b, w1, Answer(asking), []);
    RunFirst(b, w, Lookup(q), [Answer(asking)]);
  }

  lemma CallRuns(b: Backend, w: World, q: Query, value: Value)
    requires CanMiss(b, w, q, value)
    ensures IsRun(b, w, WholeCall(q, w.now, value))
    ensures After(b, w, WholeCall(q, w.now, value)) == WholeCalled(b, w, q, value)
  {
    var ask, storing := [Lookup(q), Answer(Asking(q, w.now))], Storing(q, w.now, w.now, value);
    AskRuns(b, w, q, value);
    var w' := After(b, w, ask);
    assert w'.workers - multiset{storing} == w.workers;
    hide MainKey, CountName, Put, Found, CountOne, Counting;
    StoreRuns(b, w', storing);
    RunAppend(b, w, ask, [Store(storing)] + Counting(CountName(q)));
    assert ask + ([Store(storing)] + Counting(CountName(q))) == WholeCall(q, w.now, value);
  }

  /** The commands of a reset that finds no hits recorded, until it has to read the names of misses. */
  const BeginFirst := [BeginReset, ResetCommand(""), ResetCommand(""), ResetCommand("")]

  const DropBoth := [ResetCommand(""), ResetCommand("")]

  lemma TwoCommands(b: Backend, w: World)
    requires w.reset == Some(DropNames(Hit))
    ensures IsRun(b, w, DropBoth)
    ensures After(b, w, DropBoth)
            == w.(redis := w.redis - {StatKey(Hit, KEYS)} - {StatKey(Miss, KEYS)}, reset := None)
  {
    hide StatKey;
    var w1 := Step(b, w, ResetCommand(""));
    RunFirst(b, w1, ResetCommand(""), []);
    RunFirst(b, w, ResetCommand(""), [ResetCommand("")]);
  }

  function Zeroed(r: Redis): Redis { r[StatKey(Hit, TOTAL) := Counter(0)][StatKey(Miss, TOTAL) := Counter(0)] }

  lemma BeginRuns(b: Backend, w: World)
    requires w.reset.None? && NamesOf(w.redis, Hit) == {}
    ensures IsRun(b, w, BeginFirst)
    ensures After(b, w, BeginFirst)
            == w.(redis := Zeroed(w.redis), reset := Some(ReadNames(Miss)), calls := 0)
  {
    hide StatKey, NamesOf;
    var c := ResetCommand("");
    var w1 := Step(b, w, BeginReset);
    var w2 := Step(b, w1, c);
    var w3 := Step(b, w2, c);
    ZeroEffect(w.redis, Hit, Hit);
    ZeroEffect(w1.redis, Miss, Hit);
    ZeroEffect(w2.redis, Miss, Hit);
    RunFirst(b, w3, c, []);
    RunFirst(b, w2, c, [c]);
    RunFirst(b, w1, c, [c, c]);
    RunFirst(b, w, BeginReset, [c, c, c]);
    assert BeginFirst == [BeginReset] + ([c] + ([c] + [c]));
  }

  lemma CountOneNames(r: Redis, name: string, side: Side)
    requires name in COUNT_NAMES
    ensures NamesOf(CountOne(r, Miss, name), side) == NamesOf(r, side) + if side == Miss then {name} else {}
  {
    var r1 := Sadd(r, StatKey(Miss, KEYS), name);
    var r2 := Incr(r1, StatKey(Miss, name));
    CountNamesPlain(name);
    assert |TOTAL| != |KEYS|;
    hide StatKey, Incr, Sadd, NamesOf;
    RecordedNames(r, Miss, name, side);
    CountNames(r1, Miss, name, side);
    CountNames(r2, Miss, TOTAL, side);
  }

  lemma CountOneEffect(r: Redis, name: string)
    requires name in COUNT_NAMES
    ensures Total(CountOne(r, Miss, name), Miss) == Total(r, Miss) + 1
    ensures CounterOf(CountOne(r, Miss, name), StatKey(Miss, name)) == CounterOf(r, StatKey(Miss, name)) + 1
  {
    var r1 := Sadd(r, StatKey(Miss, KEYS), name);
    var r2 := Incr(r1, StatKey(Miss, name));
    CountNamesPlain(name);
    hide StatKey, Incr, Sadd, Total, CounterOf;
    TotalKept(r, Miss, KEYS, Miss);
    assert Total(r1, Miss) == Total(r, Miss);
    TotalKept(r1, Miss, name, Miss);
    TotalIncremented(r2, Miss);
    CounterKept(r, Miss, KEYS, Miss, name);
    assert CounterOf(r1, StatKey(Miss, name)) == CounterOf(r, StatKey(Miss, name));
    CounterKept(r1, Miss, name, Miss, name);
    CounterKept(r2, Miss, TOTAL, Miss, name);
  }

  lemma PutEffect(r: Redis, q: Query, e: Entry, side: Side, name: string)
    requires name in COUNT_NAMES
    ensures var r' := r[MainKey(q) := e];
            && Total(r', side) == Total(r, side) && NamesOf(r', side) == NamesOf(r, side)
            && CounterOf(r', StatKey(side, name)) == CounterOf(r, StatKey(side, name))
  {
    DataElsewhere(r, q, e, side);
    DataApartFromStatistics(q, side, KEYS);
    CounterSame(r, r[MainKey(q) := e], side, name);
  }

  /** What a whole call that misses leaves of the statistics. */
  lemma CalledEffect(b: Backend, w: World, q: Query, value: Value)
    ensures var n, r, r' := CountName(q), w.redis, WholeCalled(b, w, q, value).redis;
            && Total(r', Miss) == Total(r, Miss) + 1
            && CounterOf(r', StatKey(Miss, n)) == CounterOf(r, StatKey(Miss, n)) + 1
            && NamesOf(r', Miss) == NamesOf(r, Miss) + {n} && NamesOf(r', Hit) == NamesOf(r, Hit)
  {
    var redis := Put(w.redis, MainKey(q), value, w.now, w.now, b.expiration(q));
    CountNamesListed(q);
    PutEffect(w.redis, q, redis[MainKey(q)], Miss, CountName(q));
    PutEffect(w.redis, q, redis[MainKey(q)], Hit, CountName(q));
    CountOneEffect(redis, CountName(q));
    CountOneNames(redis, CountName(q), Miss);
    CountOneNames(redis, CountName(q), Hit);
  }

  /** What is left to do once the counters are deleted. */
  lemma DropsEffect(r: Redis, name: string)
    requires name in COUNT_NAMES
    ensures var r' := r - {StatKey(Hit, KEYS)} - {StatKey(Miss, KEYS)};
            && Total(r', Miss) == Total(r, Miss) && NamesOf(r', Miss) == {}
            && CounterOf(r', StatKey(Miss, name)) == CounterOf(r, StatKey(Miss, name))
  {
    var r1 := r - {StatKey(Hit, KEYS)};
    DropEffect(r, Hit, Miss);
    CounterSame(r, r1, Miss, name);
    DropEffect(r1, Miss, Miss);
    CounterSame(r1, r1 - {StatKey(Miss, KEYS)}, Miss, name);
  }

  /**
   A whole call after a reset has read the names and before it deletes the sets of names: nobody is at an
   increment when the reset begins or ends, and the counter is lost.
   */
  lemma CallAfterRead(b: Backend, w: World, q: Query, value: Value)
    requires CanMiss(b, w, q, value) && w.reset == Some(ReadNames(Miss)) && NamesOf(w.redis, Miss) == {}
    ensures var run := [ResetCommand("")] + (WholeCall(q, w.now, value) + DropBoth);
            && IsRun(b, w, run) && Quiet(After(b, w, run)) && After(b, w, run).reset.None?
            && Orphaned(After(b, w, run).redis, Miss, CountName(q))
  {
    var w1 := Step(b, w, ResetCommand(""));
    CountNamesListed(q);
    hide CountName, MainKey, Orphaned;
    assert w1.reset == Some(DropNames(Hit)) && w1.redis == w.redis && CanMiss(b, w1, q, value);
    CallRuns(b, w1, q, value);
    CalledEffect(b, w1, q, value);
    var w2 := WholeCalled(b, w1, q, value);
    TwoCommands(b, w2);
    DropsEffect(w2.redis, CountName(q));
    RunAppend(b, w1, WholeCall(q, w.now, value), DropBoth);
    RunFirst(b, w, ResetCommand(""), WholeCall(q, w.now, value) + DropBoth);
  }

  /** The end of a reset with one counter left to delete. */
  lemma DeleteRuns(b: Backend, w: World, name: string)
    requires w.reset == Some(DeleteCounters(Miss, {name})) && name in COUNT_NAMES
    ensures var run := [ResetCommand(name)] + DropBoth; var r' := After(b, w, run).redis;
            && IsRun(b, w, run) && Of(After(b, w, run), Hit) == w.hit && Of(After(b, w, run), Miss) == w.miss
            && After(b, w, run).reset.None? && Total(r', Miss) == Total(w.redis, Miss) && NamesOf(r', Miss) == {}
  {
    hide StatKey, NamesOf, Total;
    var w' := Step(b, w, ResetCommand(name));
    assert {name} - {name} == {};
    DeleteEffect(w.redis, Miss, name, Miss);
    TwoCommands(b, w');
    DropsEffect(w'.redis, name);
    RunFirst(b, w, ResetCommand(name), DropBoth);
  }

  /**
   A whole call between the zeroing of the totals and the deletion of its counter: nobody is at an
   increment when the reset begins or ends, and the total counts a call that nothing else reports.
   */
  lemma CallBeforeDelete(b: Backend, w: World, q: Query, value: Value)
    requires CanMiss(b, w, q, value)
    requires w.reset == Some(DeleteCounters(Miss, {CountName(q)})) && Total(w.redis, Miss) == 0
    ensures var run := WholeCall(q, w.now, value) + ([ResetCommand(CountName(q))] + DropBoth);
            && IsRun(b, w, run) && Quiet(After(b, w, run)) && After(b, w, run).reset.None?
            && Total(After(b, w, run).redis, Miss) == 1 && Reported(After(b, w, run).redis, Miss) == map[]
  {
    var n := CountName(q);
    CountNamesListed(q);
    CallRuns(b, w, q, value);
    CalledEffect(b, w, q, value);
    CalledKeeps(b, w, q, value);
    hide CountName, MainKey, WholeCalled, WholeCall, Total, StatKey, CounterOf;
    DeleteRuns(b, WholeCalled(b, w, q, value), n);
    RunAppend(b, w, WholeCall(q, w.now, value), [ResetCommand(n)] + DropBoth);
  }

  lemma CalledKeeps(b: Backend, w: World, q: Query, value: Value)
    ensures var w' := WholeCalled(b, w, q, value);
            w'.reset == w.reset && w'.hit == w.hit && w'.miss == w.miss && w'.now == w.now
  {
  }

  /** From the start: a reset with nothing to delete, and one call among its commands. */
  lemma CounterLostByReset(b: Backend, w: World, q: Query, value: Value)
    requires Initial(w) && b.enabled && b.answer(q, w.now) == Got(value)
    ensures var run := BeginFirst + ([ResetCommand("")] + (WholeCall(q, w.now, value) + DropBoth));
            && IsRun(b, w, run) && Quiet(After(b, w, run)) && After(b, w, run).reset.None?
            && Orphaned(After(b, w, run).redis, Miss, CountName(q))
  {
    BeginRuns(b, w);
    var w1 := After(b, w, BeginFirst);
    ZeroEffect(w.redis, Hit, Miss);
    ZeroEffect(w.redis[StatKey(Hit, TOTAL) := Counter(0)], Miss, Miss);
    DataApartFromStatistics(q, Hit, TOTAL);
    DataApartFromStatistics(q, Miss, TOTAL);
    hide MainKey, CountName, StatKey;
    CallAfterRead(b, w1, q, value);
    RunAppend(b, w, BeginFirst, [ResetCommand("")] + (WholeCall(q, w.now, value) + DropBoth));
  }

  lemma CalledStores(b: Backend, w: World, q: Query, value: Value, p: Query)
    requires Initial(w) && p != q
    ensures MainKey(p) !in Zeroed(WholeCalled(b, w, q, value).redis)
  {
    DataApartFromStatistics(p, Hit, TOTAL);
    DataApartFromStatistics(p, Miss, TOTAL);
    DataApartFromStatistics(p, Miss, KEYS);
    DataApartFromStatistics(p, Miss, CountName(q));
    if MainKey(p) == MainKey(q) { MainKeysInjective(p, q); }
  }

  lemma ZeroedEffect(r: Redis, side: Side)
    ensures Total(Zeroed(r), side) == 0 && NamesOf(Zeroed(r), side) == NamesOf(r, side)
  {
    hide StatKey, Total, NamesOf;
    ZeroEffect(r, Hit, side);
    ZeroEffect(r[StatKey(Hit, TOTAL) := Counter(0)], Miss, side);
  }

  /** The commands of a reset that finds one miss recorded, until it has read its name. */
  const BeginRead := BeginFirst + [ResetCommand("")]

  lemma ReadRuns(b: Backend, w: World, name: string)
    requires w.reset.None? && NamesOf(w.redis, Hit) == {} && NamesOf(w.redis, Miss) == {name}
    ensures IsRun(b, w, BeginRead)
    ensures After(b, w, BeginRead)
            == w.(redis := Zeroed(w.redis), reset := Some(DeleteCounters(Miss, {name})), calls := 0)
  {
    BeginRuns(b, w);
    ZeroedEffect(w.redis, Miss);
    hide Zeroed, NamesOf;
    var w' := After(b, w, BeginFirst);
    RunFirst(b, w', ResetCommand(""), []);
    RunAppend(b, w, BeginFirst, [ResetCommand("")]);
  }

  /** From the start: one call before the reset, a second of the same name among its commands. */
  lemma TotalLeftByReset(b: Backend, w: World, q: Query, value: Value, p: Query, other: Value)
    requires Initial(w) && b.enabled && b.answer(q, w.now) == Got(value) && b.answer(p, w.now) == Got(other)
    requires p != q && CountName(p) == CountName(q)
    ensures var during := WholeCall(p, w.now, other) + ([ResetCommand(CountName(p))] + DropBoth);
            var run := WholeCall(q, w.now, value) + (BeginRead + during);
            && IsRun(b, w, run) && Quiet(After(b, w, run)) && After(b, w, run).reset.None?
            && Total(After(b, w, run).redis, Miss) == 1 && Reported(After(b, w, run).redis, Miss) == map[]
  {
    var during := WholeCall(p, w.now, other) + ([ResetCommand(CountName(p))] + DropBoth);
    var w1 := WholeCalled(b, w, q, value);
    CallRuns(b, w, q, value);
    CalledEffect(b, w, q, value);
    CalledKeeps(b, w, q, value);
    CalledStores(b, w, q, value, p);
    ZeroedEffect(w1.redis, Miss);
    ReadRuns(b, w1, CountName(q));
    var w2 := After(b, w1, BeginRead);
    hide MainKey, CountName, StatKey, WholeCalled, WholeCall, Total, Zeroed, CounterOf, Reported;
    CallBeforeDelete(b, w2, p, other);
    hide NamesOf, Found, Quiet, CanMiss;
    RunAppend(b, w1, BeginRead, during);
    RunAppend(b, w, WholeCall(q, w.now, value), BeginRead + during);
  }

  // ---- What is counted on which side ---------------------------------------------------------------------

  /** The action ends a call that is to be counted on this side: data is found, or an answer is stored. */
  predicate EndsCall(b: Backend, w: World, a: Action, side: Side)
    requires Enabled(w, a)
  {
    if side == Hit then a.Lookup? && Found(b, w, a.query).Some? else a.Store?
  }

  function CallsEnded(b: Backend, w: World, actions: seq<Action>, side: Side): nat
    requires IsRun(b, w, actions)
    decreases |actions|
  {
    if actions == [] then 0
    else (if EndsCall(b, w, actions[0], side) then 1 else 0) + CallsEnded(b, Step(b, w, actions[0]), actions[1..], side)
  }

  /** Calls of a side in its total or still on their way into it. */
  function Accounted(w: World, side: Side): nat { Underway(Of(w, side)) + Total(w.redis, side) }

  lemma CallSide(b: Backend, w: World, a: Action, side: Side)
    requires Enabled(w, a) && CallAction(a)
    ensures Underway(Of(Step(b, w, a), side)) == Underway(Of(w, side)) + if EndsCall(b, w, a, side) then 1 else 0
  {
    hide Put, MainKey, CountName;
  }

  lemma UnderwayMoved(p: Progress, name: string)
    ensures name in p.todo ==>
              Underway(p.(todo := p.todo - multiset{name}, adding := p.adding + multiset{name})) == Underway(p)
    ensures name in p.adding ==>
              Underway(p.(adding := p.adding - multiset{name}, between := p.between + multiset{name})) == Underway(p)
    ensures name in p.between ==> Underway(p.(between := p.between - multiset{name})) == Underway(p) - 1
  {
  }

  lemma CountingMoves(b: Backend, w: World, a: Action, side: Side)
    requires Enabled(w, a) && (a.RecordName? || a.CountKey? || a.CountTotal?)
    ensures Underway(Of(Step(b, w, a), side))
            == Underway(Of(w, side)) - if a.CountTotal? && a.side == side then 1 else 0
  {
    hide Underway, Incr, Sadd, StatKey;
    UnderwayMoved(Of(w, a.side), a.name);
  }

  lemma CountingTotals(b: Backend, w: World, a: Action, side: Side)
    requires Regular(w) && Enabled(w, a) && (a.RecordName? || a.CountKey? || a.CountTotal?)
    ensures Total(Step(b, w, a).redis, side) == Total(w.redis, side) + if a.CountTotal? && a.side == side then 1 else 0
  {
    hide Total, StatKey, Incr, Sadd, Listed;
    assert |TOTAL| != |KEYS|;
    match a
    case RecordName(at, name) => TotalKept(w.redis, at, KEYS, side);
    case CountKey(at, name) =>
      ListedName(w, at, name);
      TotalKept(w.redis, at, name, side);
    case CountTotal(at, _) =>
      if at == side { TotalIncremented(w.redis, side); } else { TotalKept(w.redis, at, TOTAL, side); }
  }

  lemma StepAccounted(b: Backend, w: World, a: Action, side: Side)
    requires Regular(w) && Enabled(w, a) && !a.ResetCommand?
    ensures Accounted(Step(b, w, a), side) == Accounted(w, side) + if EndsCall(b, w, a, side) then 1 else 0
  {
    if CallAction(a) {
      CallSide(b, w, a, side);
      CallElsewhere(b, w, a, side);
    } else if a.RecordName? || a.CountKey? || a.CountTotal? {
      CountingMoves(b, w, a, side);
      CountingTotals(b, w, a, side);
    }
  }

  lemma {:induction false} RunAccounted(b: Backend, w: World, actions: seq<Action>, side: Side)
    requires Regular(w) && w.reset.None? && IsRun(b, w, actions) && NoBegin(actions)
    ensures Accounted(After(b, w, actions), side) == Accounted(w, side) + CallsEnded(b, w, actions, side)
    decreases |actions|
  {
    if actions != [] {
      StepAccounted(b, w, actions[0], side);
      StepRegular(b, w, actions[0]);
      StageStays(b, w, actions[0]);
      hide Regular, Accounted, Step, Enabled, EndsCall;
      RunAccounted(b, Step(b, w, actions[0]), actions[1..], side);
    }
  }

  /**
   In every run without a reset, hits are the calls that found data and misses the calls that stored an answer:
   at rest each total is that number, and before that the calls still being counted make it up.
   */
  lemma TotalsAreCalls(b: Backend, w0: World, actions: seq<Action>, side: Side)
    requires Initial(w0) && IsRun(b, w0, actions) && NoBegin(actions)
    ensures var w := After(b, w0, actions);
            && Total(w.redis, side) + Underway(Of(w, side)) == CallsEnded(b, w0, actions, side)
            && (Quiet(w) ==> Total(w.redis, side) == CallsEnded(b, w0, actions, side))
  {
    InitialRegular(w0);
    RunAccounted(b, w0, actions, side);
  }
}
