/**
 Resource accounting: the loops that read GPU counts, and the agent's tally of nodes, cores and GPUs
 by node state.
 */
module Resources {
  import opened Seqs
  import opened Text
  import opened Gres

  // ---- The readers as loops ---------------------------------------------------------------

  lemma SumNext(reader: Reader, pieces: seq<string>, i: nat)
    requires i < |pieces|
    ensures SumOver(reader, pieces[..i + 1]) == Plus(SumOver(reader, pieces[..i]), ReadPiece(reader, pieces[i]))
  {
    assert pieces[..i + 1] == pieces[..i] + [pieces[i]];
    SumConcat(reader, pieces[..i], [pieces[i]]);
    SumFirst(reader, pieces[i], []);
    assert [pieces[i]] + [] == [pieces[i]];
  }

  /** Once a piece cannot be read the sum is spoilt. */
  lemma SumSpoilt(reader: Reader, pieces: seq<string>, i: nat)
    requires i <= |pieces| && SumOver(reader, pieces[..i]).None?
    ensures SumOver(reader, pieces).None?
  {
    assert pieces == pieces[..i] + pieces[i..];
    SumConcat(reader, pieces[..i], pieces[i..]);
  }

  /** `node_gres_extract_gpus`: a count that is no number raises an error. */
  method ExtractGpus(gresFull: string) returns (result: Option<int>)
    ensures result == GpusRead(Agent, gresFull)
  {
    var pieces, total, i := SplitOn(gresFull, ','), 0, 0;
    while i < |pieces|
      invariant 0 <= i <= |pieces| && SumOver(Agent, pieces[..i]) == Some(total)
    {
      SumNext(Agent, pieces, i);
      var piece := pieces[i];
      i := i + 1;
      if piece == "" { continue; }
      var gres := SplitOn(SplitOn(piece, '(')[0], ':');
      if gres[0] == "gpu" {
        var count := PyInt(Last(gres));
        if count.None? {
          SumSpoilt(Agent, pieces, i);
          return None;
        }
        total := total + count.value;
      }
    }
    assert pieces[..i] == pieces;
    return Some(total);
  }

  /** `countGPURequest`: NaN, once added, stays. */
  method CountGpuRequest(tresRequest: string) returns (total: Option<int>)
    ensures total == GpusRead(JobView, tresRequest)
  {
    var pieces, i := SplitOn(tresRequest, ','), 0;
    total := Some(0);
    while i < |pieces|
      invariant 0 <= i <= |pieces| && SumOver(JobView, pieces[..i]) == total
    {
      SumNext(JobView, pieces, i);
      var items := SplitOn(ReplaceEquals(SplitOn(pieces[i], '(')[0]), ':');
      i := i + 1;
      if items[0] != "gpu" && items[0] != "gres/gpu" { continue; }
      total := Plus(total, if |items| == 2 then JsInt(items[1]) else if |items| > 2 then JsInt(items[2]) else None);
    }
    assert pieces[..i] == pieces;
  }

  lemma {:induction false} MatchAllConcat(a: seq<string>, b: seq<string>)
    ensures MatchAll(a + b) == MatchAll(a) + MatchAll(b)
  {
    if a == [] {
      assert a + b == b;
    } else {
      hide MatchGpu;
      MatchAllConcat(a[1..], b);
      assert (a + b)[1..] == a[1..] + b;
      Associates(if MatchGpu(a[0]).Some? then [MatchGpu(a[0]).value] else [], MatchAll(a[1..]), MatchAll(b));
    }
  }

  lemma MatchOne(entries: seq<string>, i: nat)
    requires i < |entries|
    ensures MatchAll(entries[..i + 1]) ==
            MatchAll(entries[..i]) + if MatchGpu(entries[i]).Some? then [MatchGpu(entries[i]).value] else []
  {
    assert entries[..i + 1] == entries[..i] + [entries[i]];
    MatchAllConcat(entries[..i], [entries[i]]);
    assert MatchAll([entries[i]][1..]) == [];
  }

  /** `nodeGPUFromGRES`. */
  method NodeGpuFromGres(fullGres: string) returns (results: seq<NodeGpu>)
    ensures results == NodeGpus(fullGres)
  {
    if fullGres == "" { return []; }
    results := [];
    var entries, i := SplitEntries(fullGres), 0;
    while i < |entries|
      invariant 0 <= i <= |entries| && results == MatchAll(entries[..i])
    {
      MatchOne(entries, i);
      var matched := MatchGpu(entries[i]);
      if matched.Some? { results := results + [matched.value]; }
      i := i + 1;
    }
    assert entries[..i] == entries;
  }

  // ---- The tally ------------------------------------------------------------------------------

  datatype Node = Node(
    state: set<string>, cpus: int, allocCpus: int, allocIdleCpus: int, gres: string, gresUsed: string)

  datatype Tally = Tally(idle: int, mixed: int, inUse: int, drain: int, down: int, error: int, fail: int, unknown: int)

  const Zero := Tally(0, 0, 0, 0, 0, 0, 0, 0)

  function SumOf(t: Tally): int { t.idle + t.mixed + t.inUse + t.drain + t.down + t.error + t.fail + t.unknown }

  datatype States = States(nodes: Tally, cores: Tally, gpus: Tally, nodesTotal: int, coresTotal: int, gpusTotal: int)

  const NoNodes := States(Zero, Zero, Zero, 0, 0, 0)

  /** The branch a node falls into; the first flag found decides. */
  datatype Branch = Error | Fail | Mixed | Allocated | Down | Drain | Idle | Unknown

  function BranchOf(state: set<string>): Branch {
    if "ERROR" in state then Error
    else if "FAIL" in state then Fail
    else if "MIXED" in state then Mixed
    else if "ALLOCATED" in state then Allocated
    else if "DOWN" in state then Down
    else if "DRAIN" in state then Drain
    else if "IDLE" in state then Idle
    else Unknown
  }

  /** Amounts a node adds to a tally: `whole` where it counts as one, the two parts where it is split. */
  function Add(t: Tally, branch: Branch, whole: int): Tally {
    match branch
    case Error => t.(error := t.error + whole)
    case Fail => t.(fail := t.fail + whole)
    case Mixed => t.(mixed := t.mixed + whole)
    case Allocated => t.(inUse := t.inUse + whole)
    case Down => t.(down := t.down + whole)
    case Drain => t.(drain := t.drain + whole)
    case Idle => t.(idle := t.idle + whole)
    case Unknown => t.(unknown := t.unknown + whole)
  }

  function Split(t: Tally, busy: int, free: int): Tally {
    t.(inUse := t.inUse + busy, idle := t.idle + free)
  }

  predicate InUse(branch: Branch) { branch == Mixed || branch == Allocated }

  /** One node counted; None when one of its GPU lists cannot be read. */
  function CountNode(s: States, node: Node): Option<States> {
    var branch, gpus := BranchOf(node.state), GpusRead(Agent, node.gres);
    if gpus.None? then None
    else
      var used := if InUse(branch) then GpusRead(Agent, node.gresUsed) else Some(0);
      if used.None? then None
      else
        Some(States(
          Add(s.nodes, branch, 1),
          if branch == Mixed then Split(s.cores, node.allocCpus, node.allocIdleCpus)
          else Add(s.cores, branch, node.cpus),
          if InUse(branch) then Split(s.gpus, used.value, gpus.value - used.value) else Add(s.gpus, branch, gpus.value),
          s.nodesTotal + 1, s.coresTotal + node.cpus, s.gpusTotal + gpus.value))
  }

  /** Nodes counted one after the other; an error ends the count. */
  function CountBy(count: (States, Node) -> Option<States>, nodes: seq<Node>): Option<States> {
    if nodes == [] then Some(NoNodes)
    else
      var before := CountBy(count, Init(nodes));
      if before.None? then None else count(before.value, Last(nodes))
  }

  function CountNodes(nodes: seq<Node>): Option<States> { CountBy(CountNode, nodes) }

  // ---- Which node counts where ---------------------------------------------------------------------

  /** The flags that decide, in the order they are looked for. */
  const FLAGS: seq<string> := ["ERROR", "FAIL", "MIXED", "ALLOCATED", "DOWN", "DRAIN", "IDLE"]

  const ERROR := 0
  const FAIL := 1
  const MIXED := 2
  const ALLOCATED := 3
  const DOWN := 4
  const DRAIN := 5
  const IDLE := 6

  /** This flag is set and none that comes before it. */
  predicate Decides(node: Node, k: nat)
    requires k < |FLAGS|
  {
    FLAGS[k] in node.state && forall j | 0 <= j < k :: FLAGS[j] !in node.state
  }

  predicate Undecided(node: Node) { forall j | 0 <= j < |FLAGS| :: FLAGS[j] !in node.state }

  /** Sum of an amount over those nodes that a condition picks. */
  function Over(nodes: seq<Node>, picks: Node -> bool, amount: Node -> int): int {
    if nodes == [] then 0
    else Over(Init(nodes), picks, amount) + if picks(Last(nodes)) then amount(Last(nodes)) else 0
  }

  function By(k: nat): Node -> bool
    requires k < |FLAGS|
  {
    (node: Node) => Decides(node, k)
  }

  /** The nodes in use: some or all of their cores are allocated. */
  function Busy(): Node -> bool { (node: Node) => Decides(node, MIXED) || Decides(node, ALLOCATED) }

  function Other(): Node -> bool { (node: Node) => Undecided(node) }

  function Gpus(list: string): int { if GpusRead(Agent, list).Some? then GpusRead(Agent, list).value else 0 }

  /** The list of a node's GPUs can be read, and for a node in use the list of those taken as well. */
  predicate Readable(node: Node) {
    && GpusRead(Agent, node.gres).Some?
    && (Decides(node, MIXED) || Decides(node, ALLOCATED) ==> GpusRead(Agent, node.gresUsed).Some?)
  }

  /** Each node counts in the state of its deciding flag, and nowhere else. */
  ghost predicate NodesByState(t: Tally, nodes: seq<Node>) {
    var one := (_: Node) => 1;
    && t.error == Over(nodes, By(ERROR), one) && t.fail == Over(nodes, By(FAIL), one)
    && t.mixed == Over(nodes, By(MIXED), one) && t.inUse == Over(nodes, By(ALLOCATED), one)
    && t.down == Over(nodes, By(DOWN), one) && t.drain == Over(nodes, By(DRAIN), one)
    && t.idle == Over(nodes, By(IDLE), one) && t.unknown == Over(nodes, Other(), one)
  }

  /** So do its cores, but a mixed node's: its allocated and its idle ones count in those states. */
  ghost predicate CoresByState(t: Tally, nodes: seq<Node>) {
    var all, taken, free := (n: Node) => n.cpus, (n: Node) => n.allocCpus, (n: Node) => n.allocIdleCpus;
    && t.error == Over(nodes, By(ERROR), all) && t.fail == Over(nodes, By(FAIL), all) && t.mixed == 0
    && t.inUse == Over(nodes, By(ALLOCATED), all) + Over(nodes, By(MIXED), taken)
    && t.down == Over(nodes, By(DOWN), all) && t.drain == Over(nodes, By(DRAIN), all)
    && t.idle == Over(nodes, By(IDLE), all) + Over(nodes, By(MIXED), free)
    && t.unknown == Over(nodes, Other(), all)
  }

  /** And its GPUs, but those of a node in use: taken ones count as allocated, the others as idle. */
  ghost predicate GpusByState(t: Tally, nodes: seq<Node>) {
    var all, taken := (n: Node) => Gpus(n.gres), (n: Node) => Gpus(n.gresUsed);
    && t.error == Over(nodes, By(ERROR), all) && t.fail == Over(nodes, By(FAIL), all) && t.mixed == 0
    && t.inUse == Over(nodes, Busy(), taken)
    && t.down == Over(nodes, By(DOWN), all) && t.drain == Over(nodes, By(DRAIN), all)
    && t.idle == Over(nodes, By(IDLE), all) + Over(nodes, Busy(), (n: Node) => Gpus(n.gres) - Gpus(n.gresUsed))
    && t.unknown == Over(nodes, Other(), all)
  }

  ghost predicate Everything(s: States, nodes: seq<Node>) {
    var any := (_: Node) => true;
    && s.nodesTotal == |nodes| && s.coresTotal == Over(nodes, any, (n: Node) => n.cpus)
    && s.gpusTotal == Over(nodes, any, (n: Node) => Gpus(n.gres))
  }

  lemma FlagsAre()
    ensures FLAGS[0] == "ERROR" && FLAGS[1] == "FAIL" && FLAGS[2] == "MIXED" && FLAGS[3] == "ALLOCATED"
    ensures FLAGS[4] == "DOWN" && FLAGS[5] == "DRAIN" && FLAGS[6] == "IDLE" && |FLAGS| == 7
  {
  }

  /** Exactly one of the flags decides, the one of the node's branch, or none does. */
  lemma OneState(node: Node)
    ensures var b := BranchOf(node.state);
            && (Decides(node, ERROR) <==> b == Branch.Error) && (Decides(node, FAIL) <==> b == Fail)
            && (Decides(node, MIXED) <==> b == Mixed) && (Decides(node, ALLOCATED) <==> b == Allocated)
            && (Decides(node, DOWN) <==> b == Down) && (Decides(node, DRAIN) <==> b == Drain)
            && (Decides(node, IDLE) <==> b == Idle) && (Undecided(node) <==> b == Branch.Unknown)
  {
    FlagsAre();
  }

  lemma NodeCounts(t: Tally, nodes: seq<Node>)
    requires nodes != [] && NodesByState(t, Init(nodes))
    ensures NodesByState(Add(t, BranchOf(Last(nodes).state), 1), nodes)
  {
    OneState(Last(nodes));
    hide Decides, Undecided, BranchOf;
  }

  lemma CoreCounts(t: Tally, nodes: seq<Node>)
    requires nodes != [] && CoresByState(t, Init(nodes))
    ensures var node := Last(nodes); var branch := BranchOf(node.state);
            CoresByState(if branch == Mixed then Split(t, node.allocCpus, node.allocIdleCpus)
                         else Add(t, branch, node.cpus), nodes)
  {
    OneState(Last(nodes));
    hide Decides, Undecided, BranchOf;
  }

  lemma GpuCounts(t: Tally, nodes: seq<Node>)
    requires nodes != [] && GpusByState(t, Init(nodes))
    ensures var node := Last(nodes); var branch := BranchOf(node.state);
            GpusByState(if InUse(branch) then Split(t, Gpus(node.gresUsed), Gpus(node.gres) - Gpus(node.gresUsed))
                        else Add(t, branch, Gpus(node.gres)), nodes)
  {
    OneState(Last(nodes));
    hide Decides, Undecided, BranchOf, Gpus;
  }

  lemma CountNodeExactly(s: States, nodes: seq<Node>)
    requires nodes != [] && NodesByState(s.nodes, Init(nodes)) && CoresByState(s.cores, Init(nodes))
    requires GpusByState(s.gpus, Init(nodes)) && Everything(s, Init(nodes))
    ensures CountNode(s, Last(nodes)).Some? <==> Readable(Last(nodes))
    ensures CountNode(s, Last(nodes)).Some? ==>
              var s' := CountNode(s, Last(nodes)).value;
              && NodesByState(s'.nodes, nodes) && CoresByState(s'.cores, nodes) && GpusByState(s'.gpus, nodes)
              && Everything(s', nodes)
  {
    NodeCounts(s.nodes, nodes);
    CoreCounts(s.cores, nodes);
    GpuCounts(s.gpus, nodes);
    OneState(Last(nodes));
    hide NodesByState, CoresByState, GpusByState, Add, Split, BranchOf, Decides, GpusRead;
  }

  /**
   The tallies, in terms of the nodes: the count succeeds exactly if the GPU lists it needs can be read, and
   then every state has the nodes that the first flag set puts there, with their cores and GPUs.
   */
  lemma {:induction false} TalliesByState(nodes: seq<Node>)
    ensures CountNodes(nodes).Some? <==> forall i | 0 <= i < |nodes| :: Readable(nodes[i])
    ensures CountNodes(nodes).Some? ==>
              var s := CountNodes(nodes).value;
              && NodesByState(s.nodes, nodes) && CoresByState(s.cores, nodes) && GpusByState(s.gpus, nodes)
              && Everything(s, nodes)
  {
    if nodes != [] {
      TalliesByState(Init(nodes));
      var before := CountNodes(Init(nodes));
      if before.Some? { CountNodeExactly(before.value, nodes); }
      hide CountNode, Readable, NodesByState, CoresByState, GpusByState, Everything;
      assert forall i | 0 <= i < |nodes| - 1 :: Init(nodes)[i] == nodes[i];
    }
  }

  // ---- The tally as a loop --------------------------------------------------------------------------

  lemma {:induction false} PrefixReadable(nodes: seq<Node>, i: nat)
    requires i <= |nodes| && CountNodes(nodes[..i]).None?
    ensures CountNodes(nodes).None?
    decreases |nodes|
  {
    if i < |nodes| {
      assert Init(nodes)[..i] == nodes[..i];
      PrefixReadable(Init(nodes), i);
    } else {
      assert nodes[..i] == nodes;
    }
  }

  /**
   `resources_states`: None stands for the error an unreadable GPU list raises. Otherwise nodes, cores and GPUs
   are counted in the state that the first flag set decides.
   */
  method ResourcesStates(nodes: seq<Node>) returns (states: Option<States>)
    ensures states == CountNodes(nodes)
    ensures states.Some? <==> forall i | 0 <= i < |nodes| :: Readable(nodes[i])
    ensures states.Some? ==>
              var s := states.value;
              && NodesByState(s.nodes, nodes) && CoresByState(s.cores, nodes) && GpusByState(s.gpus, nodes)
              && Everything(s, nodes)
  {
    TalliesByState(nodes);
    hide CountNode, Readable, NodesByState, CoresByState, GpusByState, Everything;
    var s, i := NoNodes, 0;
    while i < |nodes|
      invariant 0 <= i <= |nodes| && CountNodes(nodes[..i]) == Some(s)
    {
      assert Init(nodes[..i + 1]) == nodes[..i] && Last(nodes[..i + 1]) == nodes[i];
      var counted := TallyNode(s, nodes[i]);
      i := i + 1;
      if counted.None? {
        PrefixReadable(nodes, i);
        return None;
      }
      s := counted.value;
    }
    assert nodes[..i] == nodes;
    return Some(s);
  }

  method TallyNode(s: States, node: Node) returns (r: Option<States>)
    ensures r == CountNode(s, node)
  {
    hide Add, Split, BranchOf, GpusRead;
    var cores := node.cpus;
    var nodeGpus := ExtractGpus(node.gres);
    if nodeGpus.None? { return None; }
    var gpus: int := nodeGpus.value;
    var branch := BranchOf(node.state);
    var n, c, g := Add(s.nodes, branch, 1), s.cores, s.gpus;
    if InUse(branch) {
      var used := ExtractGpus(node.gresUsed);
      if used.None? { return None; }
      c := if branch == Mixed then Split(c, node.allocCpus, node.allocIdleCpus) else Add(c, branch, cores);
      g := Split(g, used.value, gpus - used.value);
    } else {
      c, g := Add(c, branch, cores), Add(g, branch, gpus);
    }
    return Some(States(n, c, g, s.nodesTotal + 1, s.coresTotal + cores, s.gpusTotal + gpus));
  }

  // ---- Conservation ------------------------------------------------------------------------------

  /** Cores of the mixed nodes that their allocated and idle counts leave over, or count twice. */
  function Discrepancy(nodes: seq<Node>): int {
    if nodes == [] then 0 else Discrepancy(Init(nodes)) + Unaccounted(Last(nodes))
  }

  /** What the counts of a state exceed their totals by. */
  function Excess(s: States): (int, int, int) {
    (SumOf(s.nodes) - s.nodesTotal, SumOf(s.gpus) - s.gpusTotal, SumOf(s.cores) - s.coresTotal)
  }

  function Unaccounted(node: Node): int {
    if BranchOf(node.state) == Mixed then node.allocCpus + node.allocIdleCpus - node.cpus else 0
  }

  /** A node counted keeps node and GPU counts in step, and core counts but for a mixed node's own. */
  ghost predicate AddsUp(s: States, s': States, node: Node) {
    s'.nodesTotal == s.nodesTotal + 1 && Excess(s') == (Excess(s).0, Excess(s).1, Excess(s).2 + Unaccounted(node))
  }

  lemma TallyAdds(t: Tally, branch: Branch, whole: int, busy: int, free: int)
    ensures SumOf(Add(t, branch, whole)) == SumOf(t) + whole && SumOf(Split(t, busy, free)) == SumOf(t) + busy + free
  {
  }

  lemma NodeAddsUp(s: States, node: Node)
    requires CountNode(s, node).Some?
    ensures AddsUp(s, CountNode(s, node).value, node)
  {
    var branch, gpus: int := BranchOf(node.state), GpusRead(Agent, node.gres).value;
    var used: int := if InUse(branch) then GpusRead(Agent, node.gresUsed).value else 0;
    TallyAdds(s.nodes, branch, 1, 0, 0);
    TallyAdds(s.cores, branch, node.cpus, node.allocCpus, node.allocIdleCpus);
    TallyAdds(s.gpus, branch, gpus, used, gpus - used);
  }

  lemma {:induction false} CountByAddsUp(count: (States, Node) -> Option<States>, nodes: seq<Node>)
    requires CountBy(count, nodes).Some?
    requires forall s, node :: count(s, node).Some? ==> AddsUp(s, count(s, node).value, node)
    ensures var s := CountBy(count, nodes).value;
            s.nodesTotal == |nodes| && Excess(s) == (0, 0, Discrepancy(nodes))
  {
    if nodes != [] {
      CountByAddsUp(count, Init(nodes));
      var before := CountBy(count, Init(nodes)).value;
      assert AddsUp(before, count(before, Last(nodes)).value, Last(nodes));
    }
  }

  /**
   Conservation. Node counts by state add up to the nodes and GPU counts to the GPUs; core counts
   differ from the total by exactly what the mixed nodes' own counts do not account for.
   */
  lemma CountsAddUp(nodes: seq<Node>)
    requires CountNodes(nodes).Some?
    ensures var s := CountNodes(nodes).value;
            && SumOf(s.nodes) == s.nodesTotal == |nodes|
            && SumOf(s.gpus) == s.gpusTotal
            && SumOf(s.cores) == s.coresTotal + Discrepancy(nodes)
  {
    forall s, node | CountNode(s, node).Some? ensures AddsUp(s, CountNode(s, node).value, node) { NodeAddsUp(s, node); }
    CountByAddsUp(CountNode, nodes);
    var s := CountNodes(nodes).value;
    assert Excess(s) == (0, 0, Discrepancy(nodes));
  }

  /** Core counts add up exactly when the mixed nodes are accounted for as a whole. */
  lemma CoresAddUp(nodes: seq<Node>)
    requires CountNodes(nodes).Some?
    ensures var s := CountNodes(nodes).value; SumOf(s.cores) == s.coresTotal <==> Discrepancy(nodes) == 0
  {
    CountsAddUp(nodes);
  }

  /** Which is so when every mixed node's allocated and idle cores are all its cores. */
  lemma {:induction false} NoDiscrepancy(nodes: seq<Node>)
    requires forall i | 0 <= i < |nodes| && BranchOf(nodes[i].state) == Mixed ::
               nodes[i].allocCpus + nodes[i].allocIdleCpus == nodes[i].cpus
    ensures Discrepancy(nodes) == 0
  {
    if nodes != [] { NoDiscrepancy(Init(nodes)); }
  }
}
