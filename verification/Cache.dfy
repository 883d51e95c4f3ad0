/**
 The agent's Redis cache (slurmweb/cache.py) and the cached queries on top of it: key strings, the
 commands of the caching service, and what one cached call returns and leaves behind.
 */
module Cache {
  import opened Seqs
  import opened Decimal

  // ---- Keys -------------------------------------------------------------------------------

  /** The cached queries with their arguments. */
  datatype Query =
    | Jobs
    | JobsPast(hours: int)
    | Job(id: int)
    | Nodes
    | Node(name: string)
    | Partitions
    | Accounts
    | Associations
    | Reservations
    | Qos

  /** The key the data is stored under. */
  function MainKey(q: Query): string {
    match q
    case Jobs => "jobs"
    case JobsPast(hours) => "jobs-past-" + IntToString(hours)
    case Job(id) => "job-" + IntToString(id)
    case Nodes => "nodes"
    case Node(name) => "node-" + name
    case Partitions => "partitions"
    case Accounts => "accounts"
    case Associations => "associations"
    case Reservations => "reservations"
    case Qos => "qos"
  }

  /** The name hits and misses are counted under. */
  function CountName(q: Query): string {
    match q
    case JobsPast(_) => "jobs-past"
    case Job(_) => "individual-job"
    case Node(_) => "individual-node"
    case _ => MainKey(q)
  }

  const COUNT_NAMES: seq<string> := [
    "jobs", "jobs-past", "individual-job", "nodes", "individual-node",
    "partitions", "accounts", "associations", "reservations", "qos"]

  datatype Side = Hit | Miss

  /** Statistics keys: `cache-hit-keys`, `cache-miss-total`, `cache-hit-<name>`, ... */
  function StatKey(side: Side, suffix: string): string {
    (if side == Hit then "cache-hit-" else "cache-miss-") + suffix
  }

  const KEYS: string := "keys"
  const TOTAL: string := "total"

  // ---- Redis --------------------------------------------------------------------------------

  /** What a query returns; NoData stands for Python's None, which is never taken for cached data. */
  datatype Value = NoData | Data(content: string)

  /** Cached data carries when it was asked for and written; Redis itself keeps only the expiry. */
  datatype Entry =
    | Cached(value: Value, asked: real, written: real, until: real)
    | Counter(count: nat)
    | Members(names: set<string>)

  type Redis = map<string, Entry>

  function CounterOf(r: Redis, key: string): nat {
    if key in r && r[key].Counter? then r[key].count else 0
  }

  function MembersOf(r: Redis, key: string): set<string> {
    if key in r && r[key].Members? then r[key].names else {}
  }

  function Incr(r: Redis, key: string): Redis { r[key := Counter(CounterOf(r, key) + 1)] }

  function Sadd(r: Redis, key: string, name: string): Redis { r[key := Members(MembersOf(r, key) + {name})] }

  // ---- The caching service --------------------------------------------------------------------

  /** `get`: what is stored and not expired. */
  function Get(r: Redis, key: string, now: real): Option<Value> {
    if key in r && r[key].Cached? && now < r[key].until then Some(r[key].value) else None
  }

  /** `put` of an answer that was asked for at `asked`. */
  function Put(r: Redis, key: string, value: Value, asked: real, now: real, expiration: real): Redis {
    r[key := Cached(value, asked, now, now + expiration)]
  }

  /** `count_hit` and `count_miss`, run without interruption. */
  function CountOne(r: Redis, side: Side, name: string): Redis {
    Incr(Incr(Sadd(r, StatKey(side, KEYS), name), StatKey(side, name)), StatKey(side, TOTAL))
  }

  /** Names and counts as `metrics` reports them; a name without a counter is skipped. */
  function Reported(r: Redis, side: Side): map<string, nat> {
    map name | name in MembersOf(r, StatKey(side, KEYS)) && CounterOf(r, StatKey(side, name)) > 0
      :: CounterOf(r, StatKey(side, name))
  }

  function CounterKeys(r: Redis, side: Side): set<string> {
    set name | name in MembersOf(r, StatKey(side, KEYS)) :: StatKey(side, name)
  }

  /** `reset`: totals to zero, then the counters of all recorded names, then the sets of names. */
  function ResetAll(r: Redis): Redis {
    var zeroed := r[StatKey(Hit, TOTAL) := Counter(0)][StatKey(Miss, TOTAL) := Counter(0)];
    var less := zeroed - CounterKeys(zeroed, Hit);
    less - CounterKeys(less, Miss) - {StatKey(Hit, KEYS), StatKey(Miss, KEYS)}
  }

  // ---- One cached call --------------------------------------------------------------------------

  datatype Fetched = Failed | Got(value: Value)

  /** What Slurm would answer a query at an instant, and how long answers may be kept. */
  datatype Backend = Backend(answer: (Query, real) -> Fetched, expiration: Query -> real, enabled: bool)

  /** Result of a call, the store after it, and the side to count it on, if any. */
  datatype Called = Called(result: Fetched, redis: Redis, counted: Option<Side>)

  /** When a call looks its key up, when Slurm answers it, and when the answer is stored. */
  datatype Times = Times(looked: real, asked: real, stored: real)

  /** `_cached`, up to the counting: look up, and on a miss ask and store. */
  function CachedCall(b: Backend, r: Redis, q: Query, t: Times): Called {
    if !b.enabled then Called(b.answer(q, t.asked), r, None)
    else
      var data := Get(r, MainKey(q), t.looked);
      if data.Some? && data.value != NoData then Called(Got(data.value), r, Some(Hit))
      else
        match b.answer(q, t.asked)
        case Failed => Called(Failed, r, None)
        case Got(value) => Called(Got(value), Put(r, MainKey(q), value, t.asked, t.stored, b.expiration(q)), Some(Miss))
  }

  // ---- Keys never collide -------------------------------------------------------------------------

  function ParseInt(s: string): int
    requires s != "" && AllDigits(if s[0] == '-' then s[1..] else s)
  {
    if s[0] == '-' then 0 - ParseNat(s[1..]) else ParseNat(s)
  }

  lemma IntReads(n: int)
    ensures var s := IntToString(n); s != "" && AllDigits(if s[0] == '-' then s[1..] else s) && ParseInt(s) == n
  {
    ParsePrinted(if n < 0 then -n else n);
    var digits := NatToString(if n < 0 then -n else n);
    assert IsDigit(digits[0]);
    if n < 0 { assert ("-" + digits)[1..] == digits; }
  }

  lemma SameInt(a: int, b: int)
    requires IntToString(a) == IntToString(b)
    ensures a == b
  {
    IntReads(a);
    IntReads(b);
  }

  lemma SamePrefix(p: string, a: string, b: string)
    requires p + a == p + b
    ensures a == b
  {
    assert (p + a)[|p|..] == a && (p + b)[|p|..] == b;
  }

  /** The kind of query a key belongs to, read off its first characters. */
  function KindOf(key: string): nat {
    if |key| < 3 then 0
    else if key[0] == 'p' then 1
    else if key[0] == 'r' then 2
    else if key[0] == 'q' then 3
    else if key[0] == 'a' then if key[1] == 'c' then 4 else 5
    else if key[0] == 'n' then if |key| > 4 && key[4] == '-' then 6 else 7
    else if key[0] == 'j' then
      if |key| > 3 && key[3] == '-' then 8 else if |key| > 4 && key[4] == '-' then 9 else 10
    else 0
  }

  function KindOfQuery(q: Query): nat {
    match q
    case Partitions => 1
    case Reservations => 2
    case Qos => 3
    case Accounts => 4
    case Associations => 5
    case Node(_) => 6
    case Nodes => 7
    case Job(_) => 8
    case JobsPast(_) => 9
    case Jobs => 10
  }

  lemma KeyKind(q: Query)
    ensures KindOf(MainKey(q)) == KindOfQuery(q)
    ensures MainKey(q) != "" && MainKey(q)[0] != 'c'
  {
    hide NatToString, IntToString, CountName;
    match q
    case JobsPast(hours) => IntReads(hours);
    case Job(id) => IntReads(id);
    case _ =>
  }

  /** Two queries share a key only when they are the same method with the same argument. */
  lemma MainKeysInjective(p: Query, q: Query)
    requires MainKey(p) == MainKey(q)
    ensures p == q
  {
    KeyKind(p);
    KeyKind(q);
    if p.JobsPast? {
      SamePrefix("jobs-past-", IntToString(p.hours), IntToString(q.hours));
      SameInt(p.hours, q.hours);
    } else if p.Job? {
      SamePrefix("job-", IntToString(p.id), IntToString(q.id));
      SameInt(p.id, q.id);
    } else if p.Node? {
      SamePrefix("node-", p.name, q.name);
    }
  }

  /** No cached data is stored under a statistics key. */
  lemma DataApartFromStatistics(q: Query, side: Side, suffix: string)
    ensures MainKey(q) != StatKey(side, suffix)
  {
    KeyKind(q);
    assert StatKey(side, suffix)[0] == 'c';
  }

  lemma StatKeysInjective(side: Side, a: string, side': Side, b: string)
    requires StatKey(side, a) == StatKey(side', b)
    ensures side == side' && a == b
  {
    assert StatKey(side, a)[6] == if side == Hit then 'h' else 'm';
    assert StatKey(side', b)[6] == if side' == Hit then 'h' else 'm';
    SamePrefix(if side == Hit then "cache-hit-" else "cache-miss-", a, b);
  }

  /** The names counted under are the ten listed ones, none of which is `keys` or `total`. */
  lemma CountNamesListed(q: Query)
    ensures CountName(q) in COUNT_NAMES
  {
    var i := match q
      case Jobs => 0 case JobsPast(_) => 1 case Job(_) => 2 case Nodes => 3 case Node(_) => 4
      case Partitions => 5 case Accounts => 6 case Associations => 7 case Reservations => 8 case Qos => 9;
    assert COUNT_NAMES[i] == CountName(q);
  }

  lemma CountNamesPlain(name: string)
    requires name in COUNT_NAMES
    ensures name != KEYS && name != TOTAL
  {
    var i :| 0 <= i < |COUNT_NAMES| && COUNT_NAMES[i] == name;
    assert |KEYS| == 4 && |TOTAL| == 5;
    assert COUNT_NAMES[0][0] == 'j' && COUNT_NAMES[3][0] == 'n';
  }

  /** Calls are counted under one name for each method, whatever their arguments. */
  lemma CountNamesByMethod(p: Query, q: Query)
    ensures CountName(p) == CountName(q) <==> KindOfQuery(p) == KindOfQuery(q)
    ensures !q.JobsPast? && !q.Job? && !q.Node? ==> CountName(q) == MainKey(q)
  {
    CountNameNumber(p);
    CountNameNumber(q);
  }

  lemma CountNameNumber(q: Query)
    ensures var i := NameNumber(KindOfQuery(q)); i < |COUNT_NAMES| && COUNT_NAMES[i] == CountName(q)
    ensures forall j | 0 <= j < |COUNT_NAMES| && COUNT_NAMES[j] == CountName(q) :: j == NameNumber(KindOfQuery(q))
  {
  }

  /** Place of a method's name among those listed. */
  function NameNumber(kind: nat): nat {
    match kind
    case 10 => 0 case 9 => 1 case 8 => 2 case 7 => 3 case 6 => 4
    case 1 => 5 case 4 => 6 case 5 => 7 case 2 => 8 case _ => 9
  }
}
