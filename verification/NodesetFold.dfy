/** Nodeset.ts as it runs: the group object updated in place, and the loops that fold and expand. */
module NodesetFold {
  import opened Seqs
  import opened Decimal
  import opened Text
  import opened Nodeset

  predicate AllRuns(ids: seq<string>) { forall i | 0 <= i < |ids| :: ids[i] != "" && AllDigits(ids[i]) }

  class ConsecutiveNodes {
    const pattern: string
    const ids: seq<string>
    const firstNodeId: int
    var lastNodeId: int

    function View(): Group
      reads this
    {
      Group(pattern, ids, firstNodeId, lastNodeId)
    }

    constructor (pattern: string, ids: seq<string>)
      requires AllRuns(ids)
      ensures View() == OpenGroup(Parsed(pattern, ids))
    {
      this.pattern, this.ids := pattern, ids;
      if ids != [] {
        firstNodeId, lastNodeId := ParseNat(Last(ids)), ParseNat(Last(ids));
      } else {
        firstNodeId, lastNodeId := -1, -1;
      }
    }

    method Follows(pattern: string, ids: seq<string>) returns (next: bool)
      requires AllRuns(ids)
      ensures next == IsNext(View(), Parsed(pattern, ids))
    {
      if pattern != this.pattern { return false; }
      if |ids| != |this.ids| { return false; }
      var i := 0;
      while i < |ids|
        invariant 0 <= i <= |ids| == |this.ids|
        invariant forall j | 0 <= j < i && j < |ids| - 1 :: ids[j] == this.ids[j]
        invariant i == |ids| > 0 ==> |Last(ids)| == |Last(this.ids)| && ParseNat(Last(ids)) == lastNodeId + 1
      {
        if i < |ids| - 1 {
          if ids[i] != this.ids[i] {
            assert Init(ids)[i] != Init(this.ids)[i];
            return false;
          }
        } else {
          if |ids[i]| != |this.ids[i]| { return false; }
          if ParseNat(ids[i]) != lastNodeId + 1 { return false; }
        }
        i := i + 1;
      }
      return true;
    }

    method AddOne()
      modifies this`lastNodeId
      ensures View() == old(View()).(last := old(View()).last + 1)
    {
      lastNodeId := lastNodeId + 1;
    }

    method Show() returns (result: string)
      requires Ranged(View())
      ensures result == Render(View())
    {
      result := pattern;
      if firstNodeId == -1 { return; }
      var i := 0;
      while i < |ids|
        invariant 0 <= i <= |ids|
        invariant result == Fill(pattern, ids[..if i < |ids| then i else |ids| - 1])
      {
        if i < |ids| - 1 {
          FillSnoc(pattern, ids[..i], ids[i]);
          assert ids[..i] + [ids[i]] == ids[..i + 1];
          result := ReplaceFirst(result, ids[i]);
        }
        i := i + 1;
      }
      var last := Last(ids);
      if firstNodeId != lastNodeId {
        last := "[" + Padded(firstNodeId, |Last(ids)|) + "-" + Padded(lastNodeId, |Last(ids)|) + "]";
      }
      FillSnoc(pattern, Init(ids), last);
      result := ReplaceFirst(result, last);
    }
  }

  lemma {:induction false} FillSnoc(pattern: string, ids: seq<string>, x: string)
    ensures Fill(pattern, ids + [x]) == ReplaceFirst(Fill(pattern, ids), x)
    decreases |ids|
  {
    if ids == [] {
      assert ([] + [x])[1..] == [];
    } else {
      FillSnoc(ReplaceFirst(pattern, ids[0]), ids[1..], x);
      assert (ids + [x])[1..] == ids[1..] + [x];
    }
  }

  /** The loop over the matches of a name. */
  method SplitName(name: string) returns (pattern: string, ids: seq<string>)
    ensures Parsed(pattern, ids) == ParseName(name) && AllRuns(ids)
  {
    pattern, ids := "", [];
    var rest := name;
    NothingBefore(ParseName(name));
    while rest != ""
      invariant ParseName(name) == After(pattern, ids, ParseName(rest))
      decreases |rest|
    {
      var k := Span(rest, 0, NotDigit);
      var e := Span(rest, k, IsDigit);
      NextMatch(pattern, ids, rest, k, e);
      if k > 0 { pattern := pattern + rest[..k]; }
      if e > k {
        pattern := pattern + HOLE;
        ids := ids + [rest[k..e]];
      }
      rest := rest[e..];
    }
    assert pattern + "" == pattern && ids + [] == ids;
    RunsOfName(name, ids);
  }

  lemma RunsOfName(name: string, ids: seq<string>)
    requires ids == ParseName(name).ids
    ensures AllRuns(ids)
  {
    assert forall i | 0 <= i < |ids| :: ids[i] in ParseName(name).ids;
  }

  lemma GroupsNext(names: seq<string>, n: nat)
    requires n < |names|
    ensures GroupsOf(names[..n + 1]) == AddName(GroupsOf(names[..n]), names[n])
  {
    assert Init(names[..n + 1]) == names[..n] && Last(names[..n + 1]) == names[n];
  }

  /** What is found in all when `pattern` and `ids` are found before the rest. */
  function After(pattern: string, ids: seq<string>, rest: Parsed): Parsed {
    Parsed(pattern + rest.pattern, ids + rest.ids)
  }

  lemma NothingBefore(p: Parsed)
    ensures After("", [], p) == p
  {
    assert "" + p.pattern == p.pattern && [] + p.ids == p.ids;
  }

  lemma NextMatch(pattern: string, ids: seq<string>, s: string, k: nat, e: nat)
    requires s != "" && k == Span(s, 0, NotDigit) && e == Span(s, k, IsDigit)
    ensures e > 0
    ensures var pattern' := if k > 0 then pattern + s[..k] else pattern;
            After(pattern, ids, ParseName(s)) ==
            if e > k then After(pattern' + HOLE, ids + [s[k..e]], ParseName(s[e..]))
            else After(pattern', ids, ParseName(s[e..]))
  {
    var rest := ParseName(s[e..]);
    assert k == 0 ==> pattern + s[..k] == pattern;
    Associates(pattern, s[..k] + HOLE, rest.pattern);
    Associates(pattern, s[..k], HOLE);
    Associates(pattern, s[..k], rest.pattern);
    Associates(ids, [s[k..e]], rest.ids);
  }

  /** `foldNodeset`: sorts its argument in place and prints the groups of consecutive names. */
  method FoldNodeset(nodeNames: array<string>) returns (text: string)
    modifies nodeNames
    ensures nodeNames[..] == SortNames(old(nodeNames[..]))
    ensures text == FoldNames(old(nodeNames[..]))
  {
    ghost var given := nodeNames[..];
    SortInPlace(nodeNames);
    var all: seq<ConsecutiveNodes> := GroupNames(nodeNames[..]);
    GroupsRanged(nodeNames[..]);
    text := ShowAll(all, GroupsOf(nodeNames[..]));
  }

  /** JavaScript's `sort` on the array object. */
  method SortInPlace(a: array<string>)
    modifies a
    ensures a[..] == SortNames(old(a[..]))
  {
    var sorted := SortNames(a[..]);
    assert |sorted| == |multiset(sorted)| == |multiset(a[..])| == a.Length;
    forall i | 0 <= i < a.Length { a[i] := sorted[i]; }
    assert a[..] == sorted;
  }

  /** The objects show these groups, and no other object is the last one. */
  ghost predicate Shows(all: seq<ConsecutiveNodes>, groups: seq<Group>)
    reads all
  {
    && |all| == |groups|
    && (forall i | 0 <= i < |all| :: all[i].View() == groups[i])
    && (forall i | 0 <= i < |all| - 1 :: all[i] != Last(all))
  }

  method GroupNames(names: seq<string>) returns (all: seq<ConsecutiveNodes>)
    ensures fresh(all) && Shows(all, GroupsOf(names))
  {
    hide ParseName, AddParsed;
    all := [];
    for n := 0 to |names|
      invariant fresh(all) && Shows(all, GroupsOf(names[..n]))
    {
      GroupsNext(names, n);
      var pattern, ids := SplitName(names[n]);
      all := PlaceName(all, GroupsOf(names[..n]), pattern, ids);
    }
    assert names[..|names|] == names;
  }

  /** A name moves the last object on, or gets an object of its own. */
  method PlaceName(all: seq<ConsecutiveNodes>, ghost groups: seq<Group>, pattern: string, ids: seq<string>)
    returns (all': seq<ConsecutiveNodes>)
    requires Shows(all, groups) && AllRuns(ids)
    modifies all
    ensures Shows(all', AddParsed(groups, Parsed(pattern, ids)))
    ensures all' == all || (|all'| == |all| + 1 && all'[..|all|] == all && fresh(Last(all')))
  {
    var next := false;
    if all != [] { next := Last(all).Follows(pattern, ids); }
    if next {
      Last(all).AddOne();
      all' := all;
    } else {
      var group := new ConsecutiveNodes(pattern, ids);
      all' := all + [group];
    }
  }

  method ShowAll(all: seq<ConsecutiveNodes>, ghost groups: seq<Group>) returns (text: string)
    requires Shows(all, groups) && AllRanged(groups)
    ensures text == RenderAll(groups)
  {
    text := "";
    var i := |all|;
    assert groups[i..] == [];
    while i > 0
      invariant 0 <= i <= |all|
      invariant text == RenderAll(groups[i..])
    {
      i := i - 1;
      var shown := all[i].Show();
      assert groups[i..][0] == groups[i] && groups[i..][1..] == groups[i + 1..];
      text := if i + 1 == |all| then shown else shown + "," + text;
    }
    assert groups[0..] == groups;
  }

  /** `expandNodeset`: the names of every match, in order. */
  method ExpandNodeset(nodeset: string) returns (result: seq<string>)
    ensures result == Expand(nodeset)
  {
    result := [];
    var rest := nodeset;
    while rest != ""
      invariant Expand(nodeset) == result + Expand(rest)
      decreases |rest|
    {
      if !WordChar(rest[0]) {
        rest := rest[1..];
      } else {
        var names, length := TakeMatch(rest);
        Associates(result, names, Expand(rest[length..]));
        result := result + names;
        rest := rest[length..];
      }
    }
    assert result + [] == result;
  }

  /** The names of one match: a range when brackets follow the prefix, otherwise the prefix itself. */
  method TakeMatch(s: string) returns (names: seq<string>, length: nat)
    requires s != "" && WordChar(s[0])
    ensures (names, length) == MatchAt(s)
  {
    var k := Span(s, 0, WordChar);
    var prefix, range := s[..k], RangeAt(s[k..]);
    if range.None? { return [prefix], k; }
    var (a, b) := range.value;
    names := PushRange(prefix, ParseNat(a), ParseNat(b), |a|);
    length := k + |a| + |b| + 3;
  }

  method PushRange(prefix: string, first: nat, last: nat, digits: nat) returns (names: seq<string>)
    ensures names == NamesFrom(prefix, first, last, digits)
  {
    names := [];
    var index := first;
    while index <= last
      invariant first <= index && (index <= last + 1 || index == first) && |names| == index - first
      invariant forall i | 0 <= i < |names| :: names[i] == prefix + Padded(first + i, digits)
    {
      names := names + [prefix + Padded(index, digits)];
      index := index + 1;
    }
  }
}
