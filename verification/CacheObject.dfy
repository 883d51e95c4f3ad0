/** The caching service and the cached calls as the agent runs them, on one Redis connection. */
module CacheObject {
  import opened Seqs
  import opened Cache
  import opened CacheRun

  ghost predicate Books(r: Redis, side: Side) { Total(r, side) == Sum(r, side) && Recorded(r, Idle, side) }

  lemma EmptyBooks(side: Side)
    ensures Books(map[], side)
  {
    var w := World(map[], multiset{}, Idle, Idle, 0.0, 0, None);
    InitialInv(w);
    assert Balanced(w, side) && Recorded(w.redis, Of(w, side), side);
  }

  /** Totals, counters and recorded names are the same on both sides. */
  ghost predicate SameStatistics(r: Redis, r': Redis) {
    forall side :: SameSide(r, r', side) && NamesOf(r', side) == NamesOf(r, side)
  }

  lemma StoreKeepsBooks(r: Redis, q: Query, e: Entry)
    ensures SameStatistics(r, r[MainKey(q) := e])
    ensures forall side | Books(r, side) :: Books(r[MainKey(q) := e], side)
  {
    var r' := r[MainKey(q) := e];
    forall side ensures SameSide(r, r', side) && NamesOf(r', side) == NamesOf(r, side) {
      DataElsewhere(r, q, e, side);
      DataApartFromStatistics(q, side, KEYS);
    }
    forall side | Books(r, side) ensures Books(r', side) {
      assert SameSide(r, r', side);
      SumUnchanged(r, r', side, COUNT_NAMES);
      StillRecorded(r, Idle, r', Idle, side);
    }
  }

  lemma ResetKeepsBooks(r: Redis)
    ensures Total(ResetAll(r), Hit) == 0 && Total(ResetAll(r), Miss) == 0
    ensures forall side | Books(r, side) :: Books(ResetAll(r), side) && Reported(ResetAll(r), side) == map[]
  {
    ResetRemoves(r, Hit);
    ResetRemoves(r, Miss);
    forall side | Books(r, side) ensures Books(ResetAll(r), side) && Reported(ResetAll(r), side) == map[] {
      ResetZero(r, Idle, side);
    }
  }

  /** Data can be read as before. */
  ghost predicate SameData(r: Redis, r': Redis) {
    forall p: Query, t: real :: Get(r', MainKey(p), t) == Get(r, MainKey(p), t)
  }

  lemma StatisticsKeepData(r: Redis, side: Side, suffix: string, e: Entry)
    ensures SameData(r, r[StatKey(side, suffix) := e])
  {
    forall p: Query ensures MainKey(p) != StatKey(side, suffix) { DataApartFromStatistics(p, side, suffix); }
  }

  /** The three commands of one count keep the books of both sides. */
  lemma CountKeepsBooks(r: Redis, side: Side, q: Query)
    ensures forall of | Books(r, of) :: Books(CountOne(r, side, CountName(q)), of)
  {
    hide CountOne, Total;
    CountOneGives(r, side, q);
    var r' := CountOne(r, side, CountName(q));
    if Books(r, side) { CountRecords(r, side, q); }
    if Books(r, Other(side)) {
      SumUnchanged(r, r', Other(side), COUNT_NAMES) by { assert SameSide(r, r', Other(side)); }
      StillRecorded(r, Idle, r', Idle, Other(side));
    }
    forall of | Books(r, of) ensures Books(r', of) { assert of == side || of == Other(side); }
  }

  lemma CountRecords(r: Redis, side: Side, q: Query)
    requires Recorded(r, Idle, side)
    ensures Recorded(CountOne(r, side, CountName(q)), Idle, side)
  {
    var name := CountName(q);
    var r1 := Sadd(r, StatKey(side, KEYS), name);
    var r2 := Incr(r1, StatKey(side, name));
    hide StatKey, Total, CounterOf, MembersOf;
    var p1, p2 := Idle.(adding := multiset{name}), Idle.(between := multiset{name});
    CountNamesListed(q);
    RecordGives(r, side, name);
    OwnRecord(r, Idle, r1, p1, side, name);
    CountKeyGives(r1, side, name);
    OwnCounter(r1, p1, side, name);
    assert p1.(adding := p1.adding - multiset{name}, between := p1.between + multiset{name}) == p2;
    CountTotalGives(r2, side);
    KeysNotListed();
    CountersApart(r2, side, Counter(CounterOf(r2, StatKey(side, TOTAL)) + 1), side, COUNT_NAMES);
    StillRecorded(r2, p2, Incr(r2, StatKey(side, TOTAL)), Idle, side);
  }

  /** What the three commands change on their own side, and that they change nothing else. */
  lemma CountOneGives(r: Redis, side: Side, q: Query)
    ensures var r', name := CountOne(r, side, CountName(q)), CountName(q);
            && Total(r', side) == Total(r, side) + 1 && Sum(r', side) == Sum(r, side) + 1
            && NamesOf(r', side) == NamesOf(r, side) + {name}
            && SameSide(r, r', Other(side)) && NamesOf(r', Other(side)) == NamesOf(r, Other(side))
            && SameData(r, r')
  {
    var name := CountName(q);
    var r1 := Sadd(r, StatKey(side, KEYS), name);
    var r2 := Incr(r1, StatKey(side, name));
    CountNamesListed(q);
    KeysNotListed();
    RecordGives(r, side, name);
    CountKeyGives(r1, side, name);
    CountTotalGives(r2, side);
  }

  lemma RecordGives(r: Redis, side: Side, name: string)
    ensures var r' := Sadd(r, StatKey(side, KEYS), name);
            && SameSide(r, r', side) && Sum(r', side) == Sum(r, side) && NamesOf(r', side) == NamesOf(r, side) + {name}
            && SameSide(r, r', Other(side)) && NamesOf(r', Other(side)) == NamesOf(r, Other(side)) && SameData(r, r')
  {
    var e := Members(MembersOf(r, StatKey(side, KEYS)) + {name});
    KeysNotListed();
    OtherSuffix(r, side, KEYS, e, side);
    OtherSuffix(r, side, KEYS, e, Other(side));
    SumUnchanged(r, Sadd(r, StatKey(side, KEYS), name), side, COUNT_NAMES);
    NamesElsewhere(r, side, KEYS, e, Other(side));
    StatisticsKeepData(r, side, KEYS, e);
  }

  lemma CountKeyGives(r: Redis, side: Side, name: string)
    requires name in COUNT_NAMES
    ensures var r' := Incr(r, StatKey(side, name));
            && Total(r', side) == Total(r, side) && Sum(r', side) == Sum(r, side) + 1
            && NamesOf(r', side) == NamesOf(r, side)
            && SameSide(r, r', Other(side)) && NamesOf(r', Other(side)) == NamesOf(r, Other(side)) && SameData(r, r')
  {
    var e := Counter(CounterOf(r, StatKey(side, name)) + 1);
    CountNamesPlain(name);
    OwnCount(r, side, name);
    OtherSuffix(r, side, name, e, Other(side));
    NamesElsewhere(r, side, name, e, side);
    NamesElsewhere(r, side, name, e, Other(side));
    StatisticsKeepData(r, side, name, e);
  }

  lemma CountTotalGives(r: Redis, side: Side)
    ensures var r' := Incr(r, StatKey(side, TOTAL));
            && Total(r', side) == Total(r, side) + 1 && Sum(r', side) == Sum(r, side)
            && NamesOf(r', side) == NamesOf(r, side)
            && SameSide(r, r', Other(side)) && NamesOf(r', Other(side)) == NamesOf(r, Other(side)) && SameData(r, r')
  {
    var e := Counter(CounterOf(r, StatKey(side, TOTAL)) + 1);
    assert |TOTAL| != |KEYS|;
    TotalIncremented(r, side);
    OtherSuffix(r, side, TOTAL, e, Other(side));
    NamesElsewhere(r, side, TOTAL, e, side);
    NamesElsewhere(r, side, TOTAL, e, Other(side));
    StatisticsKeepData(r, side, TOTAL, e);
  }

  class CachingService {
    /** What the Redis server holds. */
    var connection: Redis

    /** At rest: on both sides the counters add up to the total and every counter's name is recorded. */
    ghost predicate Valid()
      reads this
    {
      Books(connection, Hit) && Books(connection, Miss)
    }

    constructor ()
      ensures Valid() && connection == map[]
    {
      connection := map[];
      EmptyBooks(Hit);
      EmptyBooks(Miss);
    }

    /**
     `put`: from now on, until the expiration has passed, a get of the query's key finds the value.
     What is stored for other queries and all the statistics stay as they are.
     */
    method StoreData(q: Query, value: Value, asked: real, now: real, expiration: real)
      modifies this
      ensures connection == Put(old(connection), MainKey(q), value, asked, now, expiration)
      ensures forall t: real ::
                Get(connection, MainKey(q), t) == if t < now + expiration then Some(value) else None
      ensures forall p: Query, t: real | p != q :: Get(connection, MainKey(p), t) == Get(old(connection), MainKey(p), t)
      ensures SameStatistics(old(connection), connection)
      ensures old(Valid()) ==> Valid()
    {
      connection := connection[MainKey(q) := Cached(value, asked, now, now + expiration)];
      StoreKeepsBooks(old(connection), q, Cached(value, asked, now, now + expiration));
      forall p: Query, t: real | p != q ensures Get(connection, MainKey(p), t) == Get(old(connection), MainKey(p), t) {
        if MainKey(p) == MainKey(q) { MainKeysInjective(p, q); }
      }
    }

    /**
     `count_hit` and `count_miss`: the side's total and the sum of its counters grow by one, the name
     is recorded; the other side and the cached data stay as they are.
     */
    method CountEvent(side: Side, q: Query)
      modifies this
      ensures connection == CountOne(old(connection), side, CountName(q))
      ensures Total(connection, side) == Total(old(connection), side) + 1
      ensures Sum(connection, side) == Sum(old(connection), side) + 1
      ensures NamesOf(connection, side) == NamesOf(old(connection), side) + {CountName(q)}
      ensures SameSide(old(connection), connection, Other(side))
              && NamesOf(connection, Other(side)) == NamesOf(old(connection), Other(side))
      ensures SameData(old(connection), connection)
      ensures old(Valid()) ==> Valid()
    {
      var name := CountName(q);
      connection := Sadd(connection, StatKey(side, KEYS), name);
      connection := Incr(connection, StatKey(side, name));
      connection := Incr(connection, StatKey(side, TOTAL));
      CountOneGives(old(connection), side, q);
      CountKeepsBooks(old(connection), side, q);
    }

    /** Per-name counts of both sides, and the totals. */
    method Metrics()
      returns (hits: map<string, nat>, misses: map<string, nat>, totalHits: nat, totalMisses: nat)
      ensures hits == Reported(connection, Hit) && misses == Reported(connection, Miss)
      ensures totalHits == CounterOf(connection, StatKey(Hit, TOTAL))
      ensures totalMisses == CounterOf(connection, StatKey(Miss, TOTAL))
    {
      misses := SideMetrics(Miss);
      hits := SideMetrics(Hit);
      totalHits := CounterOf(connection, StatKey(Hit, TOTAL));
      totalMisses := CounterOf(connection, StatKey(Miss, TOTAL));
    }

    method SideMetrics(side: Side) returns (counts: map<string, nat>)
      ensures counts == Reported(connection, side)
    {
      counts := map[];
      ghost var all := MembersOf(connection, StatKey(side, KEYS));
      var todo := MembersOf(connection, StatKey(side, KEYS));
      while todo != {}
        invariant todo <= all
        invariant counts == map name | name in all - todo && CounterOf(connection, StatKey(side, name)) > 0
                              :: CounterOf(connection, StatKey(side, name))
        decreases todo
      {
        var name :| name in todo;
        var value := CounterOf(connection, StatKey(side, name));
        if value > 0 { counts := counts[name := value]; }
        todo := todo - {name};
      }
    }

    /** `reset()` of the statistics. */
    method Reset()
      modifies this
      ensures old(Valid()) ==> Valid() && Reported(connection, Hit) == map[] && Reported(connection, Miss) == map[]
      ensures Total(connection, Hit) == 0 && Total(connection, Miss) == 0
      ensures connection == ResetAll(old(connection))
    {
      connection := connection[StatKey(Hit, TOTAL) := Counter(0)];
      connection := connection[StatKey(Miss, TOTAL) := Counter(0)];
      DeleteCounters(Hit);
      DeleteCounters(Miss);
      ghost var less := connection;
      connection := connection - {StatKey(Hit, KEYS)};
      connection := connection - {StatKey(Miss, KEYS)};
      ResetKeepsBooks(old(connection));
      assert connection == less - {StatKey(Hit, KEYS), StatKey(Miss, KEYS)};
    }

    method DeleteCounters(side: Side)
      modifies this
      ensures connection == old(connection) - CounterKeys(old(connection), side)
    {
      ghost var before, all := connection, MembersOf(connection, StatKey(side, KEYS));
      var todo := MembersOf(connection, StatKey(side, KEYS));
      while todo != {}
        invariant todo <= all
        invariant connection == before - (set name | name in all - todo :: StatKey(side, name))
        decreases todo
      {
        var name :| name in todo;
        ghost var removed := set n | n in all - todo :: StatKey(side, n);
        connection := connection - {StatKey(side, name)};
        assert (set n | n in all - (todo - {name}) :: StatKey(side, n)) == removed + {StatKey(side, name)};
        todo := todo - {name};
      }
      assert (set n | n in all - todo :: StatKey(side, n)) == CounterKeys(before, side);
    }

    /**
     `_cached`: look up, ask and store on a miss, count. Data found is returned and counted as a hit, and nothing
     is stored; an answer fetched is counted as a miss and found from then on; otherwise nothing changes.
     */
    method CallCached(b: Backend, q: Query, t: Times) returns (result: Fetched)
      modifies this
      ensures var c := CachedCall(b, old(connection), q, t);
              && result == c.result
              && connection == if c.counted.None? then c.redis else CountOne(c.redis, c.counted.value, CountName(q))
      ensures old(Valid()) ==> Valid()
      ensures var data := Get(old(connection), MainKey(q), t.looked);
              var found := b.enabled && data.Some? && data.value != NoData;
              var fetched := b.enabled && !found && b.answer(q, t.asked).Got?;
              && result == (if found then Got(data.value) else b.answer(q, t.asked))
              && Total(connection, Hit) == Total(old(connection), Hit) + (if found then 1 else 0)
              && Total(connection, Miss) == Total(old(connection), Miss) + (if fetched then 1 else 0)
              && (found ==> SameData(old(connection), connection))
              && (fetched ==> forall at: real :: Get(connection, MainKey(q), at)
                                == if at < t.stored + b.expiration(q) then Some(result.value) else None)
              && (!found && !fetched ==> connection == old(connection))
    {
      if !b.enabled { return b.answer(q, t.asked); }
      var data := Get(connection, MainKey(q), t.looked);
      if data.None? || data.value == NoData {
        result := b.answer(q, t.asked);
        if result.Failed? { return; }
        StoreData(q, result.value, t.asked, t.stored, b.expiration(q));
        CountEvent(Miss, q);
      } else {
        result := Got(data.value);
        CountEvent(Hit, q);
      }
    }
  }
}
