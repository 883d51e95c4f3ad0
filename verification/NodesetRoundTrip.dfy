/**
 When expanding a folded list of node names gives the sorted names back: always, except that names
 merged into one group must end in a digit run with something before it.
 */
module NodesetRoundTrip {
  import opened Seqs
  import opened Decimal
  import opened Text
  import opened Nodeset

  /** A nonempty name over `[A-Za-z0-9_-]`. */
  predicate WordName(name: string) { name != "" && AllWord(name) }

  predicate AllWord(s: string) { forall i | 0 <= i < |s| :: WordChar(s[i]) }

  predicate HasDigit(name: string) { exists i | 0 <= i < |name| :: IsDigit(name[i]) }

  predicate NoHole(s: string) { '%' !in s }

  // ---- Patterns ---------------------------------------------------------------------------------

  lemma {:induction false} ReplaceAt(pre: string, post: string, r: string)
    requires NoHole(pre)
    ensures ReplaceFirst(pre + HOLE + post, r) == pre + r + post
  {
    var s := pre + HOLE + post;
    if pre == "" {
      assert s == HOLE + post && s[..2] == HOLE && s[2..] == post;
      assert "" + r + post == r + post;
    } else {
      assert s[0] == pre[0] != '%';
      assert s[..2][0] != HOLE[0];
      assert s[1..] == pre[1..] + HOLE + post;
      ReplaceAt(pre[1..], post, r);
      assert pre + r + post == [pre[0]] + (pre[1..] + r + post);
    }
  }

  lemma FillOne(pre: string, post: string, id: string, more: seq<string>)
    requires NoHole(pre)
    ensures Fill(pre + HOLE + post, [id] + more) == Fill(pre + id + post, more)
  {
    ReplaceAt(pre, post, id);
    assert ([id] + more)[1..] == more;
  }

  /** One match at the front of a name: characters that are no digits, then a digit run. */
  ghost predicate Front(a: string, b: string, rest: string) {
    && !HasDigit(a) && AllDigits(b) && a + b != "" && (b == "" ==> rest == "") && (rest != "" ==> !IsDigit(rest[0]))
  }

  lemma FrontOf(name: string) returns (a: string, b: string, rest: string)
    requires name != ""
    ensures name == a + b + rest && Front(a, b, rest) && |rest| < |name|
  {
    var k := Span(name, 0, NotDigit);
    var e := Span(name, k, IsDigit);
    a, b, rest := name[..k], name[k..e], name[e..];
    NoDigitsTo(name, k);
    DigitsTo(name, k, e);
    assert a + b == name[..e];
  }

  lemma NoDigitsTo(name: string, k: nat)
    requires k <= |name| && forall i | 0 <= i < k :: NotDigit(name[i])
    ensures !HasDigit(name[..k])
  {
    assert forall i | 0 <= i < k :: name[..k][i] == name[i];
  }

  lemma DigitsTo(name: string, k: nat, e: nat)
    requires k <= e <= |name| && forall i | k <= i < e :: IsDigit(name[i])
    ensures AllDigits(name[k..e])
  {
    assert forall i | 0 <= i < e - k :: name[k..e][i] == name[k + i];
  }

  lemma ParseFront(a: string, b: string, rest: string)
    requires Front(a, b, rest)
    ensures b != "" ==> ParseName(a + b + rest) == Parsed(a + HOLE + ParseName(rest).pattern, [b] + ParseName(rest).ids)
    ensures b == "" ==> ParseName(a + b + rest) == Parsed(a, []) && a + b + rest == a
  {
    var name := a + b + rest;
    var k, e := |a|, |a| + |b|;
    assert forall i | 0 <= i < k :: name[i] == a[i];
    assert forall i | k <= i < e :: name[i] == b[i - k];
    SpanIs(name, 0, k, NotDigit);
    SpanIs(name, k, e, IsDigit);
    assert name[..k] == a && name[k..e] == b && name[e..] == rest;
  }

  lemma Regroup(a: string, b: string, c: string, d: string, e: string)
    ensures a + (b + c + d) + e == (a + b) + c + (d + e)
    ensures a + (b + c + d) + e == (a + b + c) + d + e
  {
  }

  lemma RegroupTail(a: string, b: string, c: string, d: string, e: string)
    ensures a + b + (c + d + e) == (a + b + c) + d + e
  {
  }

  lemma FillFront(pre: string, a: string, b: string, p: string, post: string, ids: seq<string>, more: seq<string>)
    requires NoHole(pre) && NoHole(a)
    ensures Fill(pre + (a + HOLE + p) + post, ([b] + ids) + more) == Fill((pre + a + b) + p + post, ids + more)
  {
    FillOne(pre + a, p + post, b, ids + more);
    Regroup(pre, a, HOLE, p, post);
    Regroup(pre, a, b, p, post);
    assert ([b] + ids) + more == [b] + (ids + more);
  }

  /** A parsed name filled with its own runs is the name again, inside any context. */
  lemma {:induction false} FillParse(pre: string, name: string, post: string, more: seq<string>)
    requires NoHole(pre) && NoHole(name)
    ensures Fill(pre + ParseName(name).pattern + post, ParseName(name).ids + more) == Fill(pre + name + post, more)
    decreases |name|
  {
    if name == "" {
      assert ParseName(name).ids + more == more;
    } else {
      var a, b, rest := FrontOf(name);
      ParseFront(a, b, rest);
      if b == "" {
        assert [] + more == more;
      } else {
        var p := ParseName(rest);
        FillFront(pre, a, b, p.pattern, post, p.ids, more);
        FillParse(pre + a + b, rest, post, more);
        Regroup(pre, a, b, rest, post);
      }
    }
  }

  lemma FillName(name: string)
    requires NoHole(name)
    ensures Fill(ParseName(name).pattern, ParseName(name).ids) == name
  {
    FillParse("", name, "", []);
    assert "" + ParseName(name).pattern + "" == ParseName(name).pattern && "" + name + "" == name;
    assert ParseName(name).ids + [] == ParseName(name).ids;
  }

  // ---- The last digit run of a name ----------------------------------------------------------------

  /** `name` is `base`, then its last digit run `d`, then a tail without digits. */
  ghost predicate CutAs(name: string, base: string, d: string, tail: string) {
    && name == base + d + tail && d != "" && AllDigits(d) && !HasDigit(tail)
    && (base != "" ==> !IsDigit(Last(base)))
  }

  lemma {:induction false} CutName(name: string) returns (base: string, d: string, tail: string)
    requires HasDigit(name)
    ensures CutAs(name, base, d, tail)
  {
    if IsDigit(Last(name)) {
      base, d := CutRun(name);
      tail := "";
      assert base + d + tail == name;
    } else {
      var i :| 0 <= i < |name| && IsDigit(name[i]);
      assert Init(name)[i] == name[i];
      var t;
      base, d, t := CutName(Init(name));
      tail := t + [Last(name)];
      assert base + d + tail == name;
    }
  }

  lemma {:induction false} CutRun(name: string) returns (base: string, d: string)
    requires name != "" && IsDigit(Last(name))
    ensures CutAs(name, base, d, "")
  {
    if |name| == 1 || !IsDigit(Last(Init(name))) {
      base, d := Init(name), [Last(name)];
    } else {
      var run;
      base, run := CutRun(Init(name));
      d := run + [Last(name)];
    }
    assert base + d + "" == name;
  }

  lemma ParseFree(name: string)
    requires !HasDigit(name)
    ensures ParseName(name) == Parsed(name, [])
  {
    if name != "" {
      assert name + "" + "" == name;
      ParseFront(name, "", "");
    }
  }

  lemma FrontCut(a: string, b: string, rest: string, d: string, tail: string)
    requires Front(a, b, rest) && HasDigit(a + b + rest)
    requires CutAs(a + b + rest + d + tail, a + b + rest, d, tail)
    ensures b != "" && rest != "" && Front(a, b, rest + d + tail) && CutAs(rest + d + tail, rest, d, tail)
  {
    assert rest != "";
    assert Last(a + b + rest) == Last(rest);
    assert (rest + d + tail)[0] == rest[0];
  }

  /** Parsing the parts around the last run. */
  lemma {:induction false} ParseCut(base: string, d: string, tail: string)
    requires CutAs(base + d + tail, base, d, tail)
    ensures ParseName(base + d + tail)
         == Parsed(ParseName(base).pattern + HOLE + tail, ParseName(base).ids + [d])
    decreases |base|
  {
    if !HasDigit(base) {
      ParseFree(base);
      ParseFree(tail);
      ParseFront(base, d, tail);
      assert [d] + [] == [d] && [] + [d] == [d];
    } else {
      var a, b, rest := FrontOf(base);
      FrontCut(a, b, rest, d, tail);
      var p := ParseName(rest);
      ParseCut(rest, d, tail);
      ParseFront(a, b, rest);
      ParseFront(a, b, rest + d + tail);
      RegroupTail(a, b, rest, d, tail);
      RegroupTail(a, HOLE, p.pattern, HOLE, tail);
      assert [b] + (p.ids + [d]) == ([b] + p.ids) + [d];
    }
  }

  // ---- What a group stands for ---------------------------------------------------------------------

  /** The name that opened the group. */
  function Head(g: Group): string { Fill(g.pattern, g.ids) }

  ghost predicate Sound(g: Group) {
    && WordName(Head(g)) && ParseName(Head(g)) == Parsed(g.pattern, g.ids)
    && g.first == OpenGroup(ParseName(Head(g))).first && g.first <= g.last
  }

  /** The name with this pattern whose last run reads `n`. */
  function Member(pattern: string, ids: seq<string>, n: int): string
    requires ids != [] && n >= 0
  {
    Fill(pattern, Init(ids) + [Padded(n, |Last(ids)|)])
  }

  /** All names of the group, in order; a group without digits repeats its only name. */
  function Members(g: Group): seq<string> {
    if g.first > g.last || (g.ids != [] && g.first < 0) then []
    else MembersFrom(g.pattern, g.ids, g.first, g.last - g.first + 1)
  }

  function MembersFrom(pattern: string, ids: seq<string>, first: int, count: nat): seq<string>
    requires ids != [] ==> first >= 0
  {
    seq(count, i requires 0 <= i => if ids == [] then pattern else Member(pattern, ids, first + i))
  }

  lemma MembersFromNext(pattern: string, ids: seq<string>, first: int, count: nat)
    requires ids != [] ==> first >= 0
    ensures MembersFrom(pattern, ids, first, count + 1)
         == MembersFrom(pattern, ids, first, count)
            + [if ids == [] then pattern else Member(pattern, ids, first + count)]
  {
  }

  ghost predicate AllSound(groups: seq<Group>) { forall i | 0 <= i < |groups| :: Sound(groups[i]) }

  function AllMembers(groups: seq<Group>): seq<string> { Flatten(MapSeq(Members, groups)) }

  lemma AllMembersSnoc(groups: seq<Group>, g: Group)
    ensures AllMembers(groups + [g]) == AllMembers(groups) + Members(g)
  {
    assert MapSeq(Members, groups + [g]) == MapSeq(Members, groups) + [Members(g)];
    FlattenConcat(MapSeq(Members, groups), [Members(g)]);
    assert [Members(g)][1..] == [] && Members(g) + [] == Members(g);
  }

  lemma AllMembersFirst(groups: seq<Group>)
    requires groups != []
    ensures AllMembers(groups) == Members(groups[0]) + AllMembers(groups[1..])
  {
    assert MapSeq(Members, groups)[1..] == MapSeq(Members, groups[1..]);
  }

  lemma WordsHaveNoHole(name: string)
    requires AllWord(name)
    ensures NoHole(name)
  {
  }

  /** The name with this pattern and runs whose last run has this value and width. */
  lemma NamedBy(g: Group, name: string)
    requires WordName(name) && g.ids != []
    requires var p := ParseName(name);
             p.pattern == g.pattern && |p.ids| == |g.ids|
             && Init(p.ids) == Init(g.ids) && |Last(p.ids)| == |Last(g.ids)|
    ensures Member(g.pattern, g.ids, ParseNat(Last(ParseName(name).ids))) == name
  {
    var p := ParseName(name);
    WordsHaveNoHole(name);
    FillName(name);
    LastRun(p);
    assert p.ids == Init(p.ids) + [Last(p.ids)];
  }

  lemma LastRun(p: Parsed)
    requires p.ids != [] && forall id | id in p.ids :: id != "" && AllDigits(id)
    ensures AllDigits(Last(p.ids)) && Padded(ParseNat(Last(p.ids)), |Last(p.ids)|) == Last(p.ids)
  {
    assert Last(p.ids) in p.ids;
    PadRestores(Last(p.ids));
  }

  lemma OpenedGroup(name: string)
    requires WordName(name)
    ensures var g := OpenGroup(ParseName(name)); Sound(g) && Head(g) == name && Members(g) == [name]
  {
    var g := OpenGroup(ParseName(name));
    WordsHaveNoHole(name);
    FillName(name);
    hide ParseName, Members, Member, MembersFrom, WordName;
    if g.ids != [] { NamedBy(g, name); }
    OnlyMember(g);
  }

  lemma OnlyMember(g: Group)
    requires g.first == g.last && (g.ids != [] ==> g.first >= 0)
    ensures Members(g) == [if g.ids == [] then g.pattern else Member(g.pattern, g.ids, g.first)]
  {
    hide Member;
  }

  lemma GrownGroup(g: Group, name: string)
    requires Sound(g) && WordName(name) && IsNext(g, ParseName(name))
    ensures var g' := g.(last := g.last + 1); Sound(g') && Members(g') == Members(g) + [name]
  {
    GrownMembers(g, name);
    hide Members, IsNext, WordName;
  }

  lemma GrownMembers(g: Group, name: string)
    requires g.first <= g.last && (g.ids != [] ==> g.first >= 0) && WordName(name) && IsNext(g, ParseName(name))
    ensures Members(g.(last := g.last + 1)) == Members(g) + [name]
  {
    NextNamed(g, name);
    hide Member, IsNext, WordName, ParseName;
    MoreMembers(g);
  }

  lemma MoreMembers(g: Group)
    requires g.first <= g.last && (g.ids != [] ==> g.first >= 0)
    ensures Members(g.(last := g.last + 1))
            == Members(g) + [if g.ids == [] then g.pattern else Member(g.pattern, g.ids, g.last + 1)]
  {
    hide Member, MembersFrom;
    MembersFromNext(g.pattern, g.ids, g.first, g.last - g.first + 1);
  }

  lemma NextNamed(g: Group, name: string)
    requires WordName(name) && IsNext(g, ParseName(name)) && (g.ids != [] ==> g.last + 1 >= 0)
    ensures name == if g.ids == [] then g.pattern else Member(g.pattern, g.ids, g.last + 1)
  {
    if g.ids == [] {
      WordsHaveNoHole(name);
      FillName(name);
    } else {
      NamedBy(g, name);
      hide Member, ParseNat, ParseName;
    }
  }

  lemma JoinsLast(groups: seq<Group>, g: Group, name: string)
    requires AllSound(groups) && Sound(g) && WordName(name) && IsNext(g, ParseName(name))
    ensures var groups' := groups + [g.(last := g.last + 1)];
            AllSound(groups') && AllMembers(groups') == AllMembers(groups + [g]) + [name]
  {
    GrownGroup(g, name);
    AllMembersSnoc(groups, g);
    AllMembersSnoc(groups, g.(last := g.last + 1));
    Associates(AllMembers(groups), Members(g), [name]);
  }

  lemma OpensLast(groups: seq<Group>, name: string)
    requires AllSound(groups) && WordName(name)
    ensures var groups' := groups + [OpenGroup(ParseName(name))];
            AllSound(groups') && AllMembers(groups') == AllMembers(groups) + [name]
  {
    OpenedGroup(name);
    AllMembersSnoc(groups, OpenGroup(ParseName(name)));
  }

  predicate AllWordNames(names: seq<string>) { forall i | 0 <= i < |names| :: WordName(names[i]) }

  lemma SoundParts(groups: seq<Group>)
    requires AllSound(groups) && groups != []
    ensures AllSound(Init(groups)) && Sound(Last(groups)) && groups == Init(groups) + [Last(groups)]
  {
  }

  lemma AddedName(groups: seq<Group>, name: string)
    requires AllSound(groups) && WordName(name)
    ensures AllSound(AddName(groups, name)) && AllMembers(AddName(groups, name)) == AllMembers(groups) + [name]
  {
    hide Sound, IsNext, ParseName;
    if groups != [] && IsNext(Last(groups), ParseName(name)) {
      SoundParts(groups);
      JoinsLast(Init(groups), Last(groups), name);
    } else {
      OpensLast(groups, name);
    }
  }

  /** The groups stand for exactly the names they were made from, in order. */
  lemma {:induction false} GroupsStandForNames(names: seq<string>)
    requires AllWordNames(names)
    ensures AllSound(GroupsOf(names)) && AllMembers(GroupsOf(names)) == names
  {
    hide Sound, AddName;
    if names != [] {
      WordNamesParts(names);
      GroupsStandForNames(Init(names));
      AddedName(GroupsOf(Init(names)), Last(names));
      assert names == Init(names) + [Last(names)];
    }
  }

  lemma WordNamesParts(names: seq<string>)
    requires AllWordNames(names) && names != []
    ensures AllWordNames(Init(names)) && WordName(Last(names))
  {
  }

  /** No group could have taken the first name of the next one. */
  ghost predicate Maximal(groups: seq<Group>) {
    forall i | 0 < i < |groups| :: !Joins(groups[i - 1], groups[i])
  }

  ghost predicate Joins(g: Group, h: Group) {
    (forall id | id in h.ids :: AllDigits(id)) && IsNext(g, Parsed(h.pattern, h.ids))
  }

  /** Adjacent groups are maximally merged. */
  lemma {:induction false} GroupsMaximal(names: seq<string>)
    ensures Maximal(GroupsOf(names))
  {
    if names != [] {
      GroupsMaximal(Init(names));
      var groups, groups' := GroupsOf(Init(names)), GroupsOf(names);
      forall i | 0 < i < |groups'| ensures !Joins(groups'[i - 1], groups'[i]) {
        if i < |groups| {
          assert !Joins(groups[i - 1], groups[i]);
          assert groups'[i - 1] == groups[i - 1];
        }
      }
    }
  }

  // ---- Reading a printed group ------------------------------------------------------------------------

  /** What follows a printed group: the end, or a comma and more. */
  predicate Ends(rest: string) { rest == "" || rest[0] == ',' }

  lemma ExpandWord(name: string, rest: string)
    requires WordName(name) && (rest != "" ==> !WordChar(rest[0])) && RangeAt(rest).None?
    ensures Expand(name + rest) == [name] + Expand(rest)
  {
    var s := name + rest;
    WordRun(name, rest);
    assert s[..|name|] == name && s[|name|..] == rest;
    assert MatchAt(s) == ([name], |name|);
    ExpandMatch(s, [name], |name|);
  }

  lemma RangeReads(a: string, b: string, rest: string)
    requires a != "" && b != "" && AllDigits(a) && AllDigits(b)
    ensures RangeAt("[" + a + "-" + b + "]" + rest) == Some((a, b))
  {
    var s := "[" + a + "-" + b + "]" + rest;
    var k, e := 1 + |a|, 2 + |a| + |b|;
    assert forall i | 1 <= i < k :: s[i] == a[i - 1];
    assert forall i | k < i < e :: s[i] == b[i - k - 1];
    assert s[k] == '-' && s[e] == ']';
    SpanIs(s, 1, k, IsDigit);
    SpanIs(s, k + 1, e, IsDigit);
    assert s[1..k] == a && s[k + 1..e] == b;
  }

  lemma ThreeParts(x: string, y: string, z: string)
    ensures (x + (y + z))[..|x|] == x && (x + (y + z))[|x|..] == y + z && (x + (y + z))[|x| + |y|..] == z
  {
  }

  lemma ExpandRange(base: string, a: string, b: string, rest: string)
    requires WordName(base) && a != "" && b != "" && AllDigits(a) && AllDigits(b)
    ensures Expand(base + ("[" + a + "-" + b + "]" + rest))
         == NamesFrom(base, ParseNat(a), ParseNat(b), |a|) + Expand(rest)
  {
    var range := "[" + a + "-" + b + "]";
    RangeReads(a, b, rest);
    ExpandBracket(base, range, a, b, rest);
  }

  lemma ExpandBracket(base: string, range: string, a: string, b: string, rest: string)
    requires WordName(base) && AllDigits(a) && AllDigits(b) && range != "" && range[0] == '['
    requires |range| == |a| + |b| + 3 && RangeAt(range + rest) == Some((a, b))
    ensures Expand(base + (range + rest)) == NamesFrom(base, ParseNat(a), ParseNat(b), |a|) + Expand(rest)
  {
    var s := base + (range + rest);
    ThreeParts(base, range, rest);
    WordRun(base, range + rest);
    MatchIs(s, |base|, a, b);
    ExpandMatch(s, NamesFrom(base, ParseNat(a), ParseNat(b), |a|), |base| + |range|);
  }

  lemma WordRun(name: string, rest: string)
    requires WordName(name) && (rest != "" ==> !WordChar(rest[0]))
    ensures WordChar((name + rest)[0]) && Span(name + rest, 0, WordChar) == |name|
  {
    var s := name + rest;
    assert forall i | 0 <= i < |name| :: s[i] == name[i];
    assert rest != "" ==> s[|name|] == rest[0];
    SpanIs(s, 0, |name|, WordChar);
  }

  lemma MatchIs(s: string, k: nat, a: string, b: string)
    requires s != "" && WordChar(s[0]) && Span(s, 0, WordChar) == k && RangeAt(s[k..]) == Some((a, b))
    ensures MatchAt(s) == (NamesFrom(s[..k], ParseNat(a), ParseNat(b), |a|), k + |a| + |b| + 3)
  {
  }

  lemma ExpandMatch(s: string, names: seq<string>, n: nat)
    requires s != "" && WordChar(s[0]) && MatchAt(s) == (names, n)
    ensures n <= |s| && Expand(s) == names + Expand(s[n..])
  {
  }

  /** Without a prefix the brackets are skipped and the range is read as one name. */
  lemma ExpandBareRange(a: string, b: string, rest: string)
    requires a != "" && b != "" && AllDigits(a) && AllDigits(b)
    ensures Expand("[" + a + "-" + b + "]" + rest) == [a + "-" + b] + Expand("]" + rest)
  {
    var s, inner := "[" + a + "-" + b + "]" + rest, (a + "-" + b) + ("]" + rest);
    assert s[0] == '[' && s[1..] == inner;
    ExpandWord(a + "-" + b, "]" + rest);
  }

  /** A name whose last digit run is at its end and not at its start. */
  predicate Foldable(name: string) { name != "" && IsDigit(Last(name)) && !AllDigits(name) }

  lemma FoldableCut(name: string, base: string, d: string, tail: string)
    requires CutAs(name, base, d, tail)
    ensures Foldable(name) <==> base != "" && tail == ""
  {
    if tail == "" {
      assert Last(name) == Last(d);
      if base != "" { assert name[|base| - 1] == Last(base); }
    } else {
      assert Last(name) == Last(tail);
    }
  }

  lemma HeadDigits(g: Group)
    requires Sound(g)
    ensures g.ids != [] <==> HasDigit(Head(g))
    ensures g.ids == [] ==> Head(g) == g.pattern && g.first == -1
  {
    if !HasDigit(Head(g)) {
      ParseFree(Head(g));
    } else {
      var base, d, tail := CutName(Head(g));
      ParseCut(base, d, tail);
    }
  }

  /** A group with digits, taken apart around the last run of its first name. */
  ghost predicate CutsGroup(g: Group, base: string, d: string, tail: string) {
    && CutAs(Head(g), base, d, tail) && AllWord(base) && AllWord(d) && AllWord(tail)
    && g.pattern == ParseName(base).pattern + HOLE + tail && g.ids == ParseName(base).ids + [d]
    && g.first == ParseNat(d)
  }

  lemma CutGroup(g: Group) returns (base: string, d: string, tail: string)
    requires Sound(g) && g.ids != []
    ensures CutsGroup(g, base, d, tail)
  {
    HeadDigits(g);
    base, d, tail := CutName(Head(g));
    ParseCut(base, d, tail);
    WordParts(base, d, tail);
  }

  lemma WordParts(a: string, b: string, c: string)
    requires AllWord(a + b + c)
    ensures AllWord(a) && AllWord(b) && AllWord(c)
  {
    var s := a + b + c;
    assert forall i | 0 <= i < |a| :: a[i] == s[i];
    assert forall i | 0 <= i < |b| :: b[i] == s[|a| + i];
    assert forall i | 0 <= i < |c| :: c[i] == s[|a| + |b| + i];
  }

  lemma FillFromStart(name: string, post: string, more: seq<string>)
    requires NoHole(name)
    ensures Fill(ParseName(name).pattern + post, ParseName(name).ids + more) == Fill(name + post, more)
  {
    FillParse("", name, post, more);
    assert "" + ParseName(name).pattern == ParseName(name).pattern && "" + name == name;
  }

  /** Whatever is printed for the last run stands between base and tail. */
  lemma FillCut(g: Group, base: string, d: string, tail: string, x: string)
    requires CutsGroup(g, base, d, tail)
    ensures Fill(g.pattern, Init(g.ids) + [x]) == base + x + tail
  {
    WordsHaveNoHole(base);
    FillFromStart(base, HOLE + tail, [x]);
    PatternParts(ParseName(base).pattern, tail);
    PatternParts(base, tail);
    FillOne(base, tail, x, []);
    assert [x] + [] == [x];
  }

  lemma PatternParts(a: string, b: string)
    ensures a + (HOLE + b) == a + HOLE + b
  {
  }

  // ---- Good and bad groups -------------------------------------------------------------------------------

  /** A group of one name, or of names a range can be printed for. */
  ghost predicate Good(g: Group) { g.first == g.last || Foldable(Head(g)) }

  lemma RenderSingle(g: Group)
    requires Sound(g) && Ranged(g) && (g.ids == [] || g.first == g.last)
    ensures Render(g) == Head(g)
  {
    HeadDigits(g);
    if g.ids != [] { assert g.ids == Init(g.ids) + [Last(g.ids)]; }
  }

  lemma RangeParts(base: string, a: string, b: string, tail: string, rest: string)
    ensures base + ("[" + a + "-" + b + "]") + tail + rest == base + ("[" + a + "-" + b + "]" + (tail + rest))
  {
  }

  /** A single name, or a group without digits, reads back as one name. */
  lemma SingleExpands(g: Group, rest: string)
    requires Sound(g) && Ranged(g) && Ends(rest) && (g.ids == [] || g.first == g.last)
    ensures Expand(Render(g) + rest) == [Head(g)] + Expand(rest)
  {
    RenderSingle(g);
    ExpandWord(Head(g), rest);
  }

  /** How the bounds of a printed range read back. */
  lemma BoundsRead(g: Group, base: string, d: string, tail: string)
    requires Sound(g) && CutsGroup(g, base, d, tail) && 0 <= g.first
    ensures Last(g.ids) == d && Padded(g.first, |d|) == d
    ensures ParseNat(d) == g.first && AllDigits(Padded(g.last, |d|)) && ParseNat(Padded(g.last, |d|)) == g.last
    ensures Padded(g.last, |d|) != ""
  {
    PadRestores(d);
    PaddedReads(g.last, |d|);
  }

  /** A range after a nonempty base expands to the numbers after the base, whatever the tail is. */
  lemma RangeExpands(g: Group, base: string, d: string, tail: string, rest: string)
    requires Sound(g) && Ranged(g) && CutsGroup(g, base, d, tail) && g.first < g.last && base != ""
    ensures Expand(Render(g) + rest) == NamesFrom(base, g.first, g.last, |d|) + Expand(tail + rest)
  {
    BoundsRead(g, base, d, tail);
    FillCut(g, base, d, tail, RangeText(g));
    RangeParts(base, d, Padded(g.last, |d|), tail, rest);
    ExpandRange(base, d, Padded(g.last, |d|), tail + rest);
  }

  lemma FoldableMember(g: Group, base: string, d: string, n: nat)
    requires CutsGroup(g, base, d, "")
    ensures Member(g.pattern, g.ids, n) == base + Padded(n, |d|)
  {
    assert Last(g.ids) == d;
    FillCut(g, base, d, "", Padded(n, |d|));
    assert base + Padded(n, |d|) + "" == base + Padded(n, |d|);
  }

  lemma FoldableMembers(g: Group, base: string, d: string)
    requires Sound(g) && CutsGroup(g, base, d, "") && 0 <= g.first
    ensures Members(g) == NamesFrom(base, g.first, g.last, |d|)
  {
    var names := NamesFrom(base, g.first, g.last, |d|);
    forall i | 0 <= i < |names| ensures Members(g)[i] == names[i] { FoldableMember(g, base, d, g.first + i); }
  }

  lemma GoodExpands(g: Group, rest: string)
    requires Sound(g) && Ranged(g) && Good(g) && Ends(rest)
    ensures Expand(Render(g) + rest) == Members(g) + Expand(rest)
  {
    HeadDigits(g);
    if g.first == g.last {
      SingleExpands(g, rest);
      OneMember(g);
    } else {
      FoldableHasDigit(Head(g));
      var base, d, tail := CutGroup(g);
      FoldableCut(Head(g), base, d, tail);
      RangeExpands(g, base, d, tail, rest);
      FoldableMembers(g, base, d);
      assert "" + rest == rest;
    }
  }

  lemma FoldableHasDigit(name: string)
    requires Foldable(name)
    ensures HasDigit(name)
  {
    assert IsDigit(name[|name| - 1]);
  }

  /** The group's first name is its head. */
  lemma OneMember(g: Group)
    requires Sound(g)
    ensures Members(g) != [] && Members(g)[0] == Head(g)
    ensures g.first == g.last ==> Members(g) == [Head(g)]
  {
    HeadDigits(g);
    if g.ids != [] {
      NamedBy(g, Head(g));
    }
  }

  /** What a printed group reads back first: without digits its name, otherwise a text with a digit. */
  lemma FirstExpanded(g: Group, rest: string)
    requires Sound(g) && Ranged(g) && Ends(rest)
    ensures var e := Expand(Render(g) + rest);
            && e != [] && (g.ids == [] ==> e[0] == Head(g)) && (g.ids != [] ==> HasDigit(e[0]))
            && (g.ids != [] && !Good(g) ==> e[0] != Head(g))
  {
    HeadDigits(g);
    if g.ids == [] || g.first == g.last {
      SingleExpands(g, rest);
    } else {
      RangeFirst(g, rest);
    }
  }

  lemma RangeFirst(g: Group, rest: string)
    requires Sound(g) && Ranged(g) && Ends(rest) && g.ids != [] && g.first < g.last
    ensures var e := Expand(Render(g) + rest); e != [] && HasDigit(e[0]) && (!Good(g) ==> e[0] != Head(g))
  {
    var base, d, tail := CutGroup(g);
    if base != "" {
      BasedFirst(g, base, d, tail, rest);
    } else {
      BareFirst(g, d, tail, rest);
    }
  }

  lemma BasedFirst(g: Group, base: string, d: string, tail: string, rest: string)
    requires Sound(g) && Ranged(g) && CutsGroup(g, base, d, tail) && g.first < g.last && base != "" && Ends(rest)
    ensures var e := Expand(Render(g) + rest); e != [] && HasDigit(e[0]) && (!Good(g) ==> e[0] != Head(g))
  {
    BoundsRead(g, base, d, tail);
    FoldableCut(Head(g), base, d, tail);
    RangeExpands(g, base, d, tail, rest);
    NumbersFirst(base, d, tail, g.first, g.last);
    hide Expand, Render, Foldable, HasDigit, NamesFrom, Padded, ParseName, ParseNat, Sound, Ranged;
  }

  lemma NumbersFirst(base: string, d: string, tail: string, first: nat, last: nat)
    requires first < last && d != "" && AllDigits(d) && Padded(first, |d|) == d
    ensures var names := NamesFrom(base, first, last, |d|);
            names != [] && names[0] == base + d && HasDigit(base + d) && (tail != "" ==> base + d != base + d + tail)
  {
    hide Padded, AllDigits;
    assert (base + d)[|base|] == d[0];
    assert IsDigit(d[0]) by { FirstDigit(d); }
  }

  lemma FirstDigit(d: string)
    requires d != "" && AllDigits(d)
    ensures IsDigit(d[0])
  {
  }

  lemma BareFirst(g: Group, d: string, tail: string, rest: string)
    requires Sound(g) && Ranged(g) && CutsGroup(g, "", d, tail) && g.first < g.last
    ensures var e := Expand(Render(g) + rest);
            e != [] && HasDigit(e[0]) && e[0] != Head(g)
  {
    var b := Padded(g.last, |d|);
    BoundsRead(g, "", d, tail);
    FillCut(g, "", d, tail, RangeText(g));
    RangeParts("", d, b, tail, rest);
    ExpandBareRange(d, b, tail + rest);
    NoBase("[" + d + "-" + b + "]" + (tail + rest));
    NoBase(d);
    BareDiffers(d, b, tail);
  }

  lemma NoBase(s: string)
    ensures "" + s == s
  {
  }

  lemma BareDiffers(d: string, b: string, tail: string)
    requires d != "" && b != "" && AllDigits(d) && AllDigits(b) && !HasDigit(tail)
    ensures HasDigit(d + "-" + b) && d + "-" + b != d + tail
  {
    var first := d + "-" + b;
    assert first[0] == d[0] && Last(first) == Last(b);
    if tail != "" { assert Last(d + tail) == Last(tail); }
  }

  // ---- The whole list ----------------------------------------------------------------------------------------

  ghost predicate AllGood(groups: seq<Group>) { forall i | 0 <= i < |groups| :: Good(groups[i]) }

  /** The text after the first group reads as the rest of the groups. */
  lemma ExpandRest(groups: seq<Group>) returns (rest: string)
    requires AllRanged(groups) && groups != []
    ensures RenderAll(groups) == Render(groups[0]) + rest && Ends(rest)
    ensures Expand(rest) == Expand(RenderAll(groups[1..]))
  {
    if |groups| == 1 {
      rest := "";
      assert Render(groups[0]) + "" == Render(groups[0]);
    } else {
      rest := "," + RenderAll(groups[1..]);
      assert rest[1..] == RenderAll(groups[1..]);
      assert RenderAll(groups) == Render(groups[0]) + rest;
    }
  }

  /** A repeated name without digits is printed once, and what follows cannot stand in for it. */
  lemma RepeatLost(groups: seq<Group>)
    requires AllSound(groups) && AllRanged(groups) && Maximal(groups) && groups != []
    requires groups[0].ids == [] && !Good(groups[0])
    ensures Expand(RenderAll(groups)) != AllMembers(groups)
  {
    var g := groups[0];
    var rest := ExpandRest(groups);
    AllMembersFirst(groups);
    HeadDigits(g);
    SingleExpands(g, rest);
    assert Members(g)[1] == g.pattern;
    assert AllMembers(groups)[1] == Head(g);
    if |groups| > 1 {
      var h := groups[1];
      var after := ExpandRest(groups[1..]);
      HeadDigits(h);
      FirstExpanded(h, after);
      assert !Joins(groups[1 - 1], groups[1]);
      assert Expand(RenderAll(groups))[1] == Expand(RenderAll(groups[1..]))[0];
    }
  }

  lemma MaximalTail(groups: seq<Group>)
    requires Maximal(groups) && groups != []
    ensures Maximal(groups[1..])
  {
    forall i | 0 < i < |groups[1..]| ensures !Joins(groups[1..][i - 1], groups[1..][i]) {
      assert !Joins(groups[(i + 1) - 1], groups[i + 1]);
    }
  }

  lemma {:induction false} ExpandsExactly(groups: seq<Group>)
    requires AllSound(groups) && AllRanged(groups) && Maximal(groups)
    ensures Expand(RenderAll(groups)) == AllMembers(groups) <==> AllGood(groups)
  {
    if groups != [] {
      var g := groups[0];
      var rest := ExpandRest(groups);
      AllMembersFirst(groups);
      if !Good(g) {
        if g.ids == [] {
          RepeatLost(groups);
        } else {
          FirstExpanded(g, rest);
          OneMember(g);
        }
      } else {
        GoodExpands(g, rest);
        MaximalTail(groups);
        ExpandsExactly(groups[1..]);
        SamePrefix(Members(g), Expand(rest), AllMembers(groups[1..]));
        assert AllGood(groups) <==> AllGood(groups[1..]);
      }
    }
  }

  lemma SamePrefix<T>(a: seq<T>, b: seq<T>, c: seq<T>)
    ensures a + b == a + c <==> b == c
  {
    assert (a + b)[|a|..] == b && (a + c)[|a|..] == c;
  }

  // ---- What the caller can check --------------------------------------------------------------------------

  /** `b` is the name right after `a`, or `a` again when it has no digit. */
  predicate Consecutive(a: string, b: string) { IsNext(OpenGroup(ParseName(a)), ParseName(b)) }

  /** Wherever neighbours of the list are merged, their last run ends them and does not start them. */
  predicate MergesWell(names: seq<string>) {
    forall i | 0 < i < |names| :: PairMergesWell(names[i - 1], names[i])
  }

  predicate PairMergesWell(a: string, b: string) { Consecutive(a, b) ==> Foldable(a) }

  /** `name` is the group's last name so far. */
  ghost predicate Tracks(g: Group, name: string) {
    var p := ParseName(name);
    && p.pattern == g.pattern && |p.ids| == |g.ids|
    && (p.ids != [] ==> Init(p.ids) == Init(g.ids) && |Last(p.ids)| == |Last(g.ids)| && ParseNat(Last(p.ids)) == g.last)
  }

  lemma TracksFoldable(g: Group, name: string)
    requires Sound(g) && WordName(name) && Tracks(g, name)
    ensures Foldable(Head(g)) <==> Foldable(name)
  {
    HeadDigits(g);
    if g.ids == [] {
      WordsHaveNoHole(name);
      FillName(name);
    } else {
      NamedBy(g, name);
      var base, d, tail := CutGroup(g);
      assert Last(g.ids) == d;
      PaddedReads(g.last, |d|);
      FillCut(g, base, d, tail, Padded(g.last, |d|));
      FoldableCut(Head(g), base, d, tail);
      FoldableCut(name, base, Padded(g.last, |d|), tail);
    }
  }

  lemma AddedTracks(groups: seq<Group>, name: string)
    requires WordName(name)
    ensures Tracks(Last(AddName(groups, name)), name)
  {
  }

  lemma GoodSnoc(groups: seq<Group>, g: Group)
    ensures AllGood(groups + [g]) <==> AllGood(groups) && Good(g)
  {
    assert AllGood(groups + [g]) ==> Good((groups + [g])[|groups|]);
    assert forall i | 0 <= i < |groups| :: (groups + [g])[i] == groups[i];
  }

  lemma AddedGood(groups: seq<Group>, before: string, name: string)
    requires groups != [] && Sound(Last(groups)) && WordName(before) && WordName(name) && Tracks(Last(groups), before)
    ensures AllGood(AddName(groups, name)) <==> AllGood(groups) && PairMergesWell(before, name)
  {
    var g, p := Last(groups), ParseName(name);
    TracksNext(g, before, name);
    assert g.first <= g.last;
    OpenIsGood(p);
    hide Sound, Tracks, IsNext, ParseName, OpenGroup, Foldable, AllGood;
    assert groups == Init(groups) + [g];
    if IsNext(g, p) {
      TracksFoldable(g, before);
      GoodSnoc(Init(groups), g);
      GoodSnoc(Init(groups), g.(last := g.last + 1));
    } else {
      GoodSnoc(groups, OpenGroup(p));
    }
  }

  lemma TracksNext(g: Group, before: string, name: string)
    requires Tracks(g, before)
    ensures IsNext(g, ParseName(name)) <==> Consecutive(before, name)
  {
    hide ParseName;
  }

  lemma OpenIsGood(p: Parsed)
    requires forall id | id in p.ids :: AllDigits(id)
    ensures Good(OpenGroup(p))
  {
  }

  lemma MergesWellSnoc(names: seq<string>, name: string)
    requires names != []
    ensures MergesWell(names + [name])
       <==> MergesWell(names) && PairMergesWell(Last(names), name)
  {
    var all := names + [name];
    if MergesWell(all) {
      assert PairMergesWell(all[|names| - 1], all[|names|]);
      forall i | 0 < i < |names| ensures PairMergesWell(names[i - 1], names[i]) {
        assert PairMergesWell(all[i - 1], all[i]);
      }
    }
  }

  lemma GroupsTrack(names: seq<string>)
    requires AllWordNames(names) && names != []
    ensures GroupsOf(names) != [] && Tracks(Last(GroupsOf(names)), Last(names))
  {
    AddedTracks(GroupsOf(Init(names)), Last(names));
  }

  lemma OneGroup(name: string)
    ensures AllGood(AddName([], name))
  {
  }

  lemma GroupsGoodNext(before: seq<string>, name: string)
    requires AllWordNames(before) && before != [] && WordName(name)
    ensures GroupsOf(before + [name]) == AddName(GroupsOf(before), name)
    ensures AllGood(GroupsOf(before + [name])) <==> AllGood(GroupsOf(before)) && PairMergesWell(Last(before), name)
  {
    assert Init(before + [name]) == before;
    GroupsStandForNames(before);
    GroupsTrack(before);
    AddedGood(GroupsOf(before), Last(before), name);
  }

  /** The groups are good exactly when the neighbours merge well. */
  lemma {:induction false} GroupsGood(names: seq<string>)
    requires AllWordNames(names)
    ensures AllGood(GroupsOf(names)) <==> MergesWell(names)
  {
    if |names| == 1 {
      OneGroup(names[0]);
    } else if |names| > 1 {
      var before, name := Init(names), Last(names);
      assert names == before + [name];
      GroupsGood(before);
      GroupsGoodNext(before, name);
      MergesWellSnoc(before, name);
    }
  }

  lemma SortedWordNames(names: seq<string>)
    requires AllWordNames(names)
    ensures AllWordNames(SortNames(names))
  {
    var s := SortNames(names);
    forall i | 0 <= i < |s| ensures WordName(s[i]) {
      assert s[i] in multiset(s) && s[i] in multiset(names);
    }
  }

  lemma ExpandFoldWords(names: seq<string>)
    requires AllWordNames(names)
    ensures Expand(FoldNames(names)) == SortNames(names) <==> MergesWell(SortNames(names))
  {
    var s := SortNames(names);
    SortedWordNames(names);
    GroupsStandForNames(s);
    GroupsRanged(s);
    GroupsMaximal(s);
    ExpandsExactly(GroupsOf(s));
    GroupsGood(s);
  }

  // ---- Other names ------------------------------------------------------------------------------------------

  /** The names of one match are never empty and hold word characters only. */
  lemma MatchGivesWords(s: string)
    requires s != "" && WordChar(s[0])
    ensures AllWordNames(MatchAt(s).0)
  {
    var k := Span(s, 0, WordChar);
    assert AllWord(s[..k]) && k > 0;
    var range := RangeAt(s[k..]);
    if range.Some? { RangeGivesWords(s[..k], ParseNat(range.value.0), ParseNat(range.value.1), |range.value.0|); }
  }

  lemma RangeGivesWords(prefix: string, first: nat, last: nat, width: nat)
    requires WordName(prefix)
    ensures AllWordNames(NamesFrom(prefix, first, last, width))
  {
    var names := NamesFrom(prefix, first, last, width);
    hide WordName, Padded;
    forall i | 0 <= i < |names| ensures WordName(names[i]) {
      assert names[i] == prefix + Padded(first + i, width);
      PaddedWord(prefix, first + i, width);
    }
  }

  lemma PaddedWord(prefix: string, n: nat, width: nat)
    requires WordName(prefix)
    ensures WordName(prefix + Padded(n, width))
  {
    PaddedReads(n, width);
    hide NatToString, PadStart;
    var digits := Padded(n, width);
    forall i | 0 <= i < |prefix + digits| ensures WordChar((prefix + digits)[i]) {
      if i >= |prefix| { assert IsDigit(digits[i - |prefix|]); }
    }
  }

  /** So expanding any text at all gives such names. */
  lemma {:induction false} ExpandGivesWords(s: string)
    ensures AllWordNames(Expand(s))
    decreases |s|
  {
    if s != "" && !WordChar(s[0]) {
      ExpandGivesWords(s[1..]);
    } else if s != "" {
      MatchGivesWords(s);
      ExpandGivesWords(s[MatchAt(s).1..]);
    }
  }

  /** A list has the same kinds of names sorted or not. */
  lemma SortedBack(names: seq<string>)
    requires AllWordNames(SortNames(names))
    ensures AllWordNames(names)
  {
    forall i | 0 <= i < |names| ensures WordName(names[i]) {
      assert names[i] in multiset(names) && names[i] in multiset(SortNames(names));
    }
  }

  /**
   For every list of names: expanding the folded text gives the sorted names back, digit for digit,
   exactly when all are nonempty names over word characters and every pair of neighbours that was
   merged is a pair a range can be printed for.
   */
  lemma ExpandFold(names: seq<string>)
    ensures Expand(FoldNames(names)) == SortNames(names)
            <==> AllWordNames(names) && MergesWell(SortNames(names))
  {
    if AllWordNames(names) {
      ExpandFoldWords(names);
    } else {
      ExpandGivesWords(FoldNames(names));
      if Expand(FoldNames(names)) == SortNames(names) { SortedBack(names); }
    }
  }

  // ---- Names of a cluster ------------------------------------------------------------------------------------

  /** No digit at all, or a digit run at the end with something before it. */
  predicate Regular(name: string) { !HasDigit(name) || Foldable(name) }

  ghost predicate FreeNamesOnce(names: seq<string>) {
    forall x | x in names && !HasDigit(x) :: multiset(names)[x] == 1
  }

  lemma ConsecutiveFree(a: string, b: string)
    requires !HasDigit(a)
    ensures Consecutive(a, b) <==> a == b
  {
    ParseFree(a);
    if HasDigit(b) {
      var base, d, tail := CutName(b);
      ParseCut(base, d, tail);
    } else {
      ParseFree(b);
    }
  }

  lemma NeighboursTwice(s: seq<string>, i: nat)
    requires 0 < i < |s| && s[i - 1] == s[i]
    ensures multiset(s)[s[i]] >= 2
  {
    assert s == s[..i - 1] + [s[i], s[i]] + s[i + 1..];
  }

  lemma ConsecutiveFreeDistinct(s: seq<string>, i: nat)
    requires 0 < i < |s| && !HasDigit(s[i - 1]) ==> multiset(s)[s[i - 1]] == 1
    ensures 0 < i < |s| && Consecutive(s[i - 1], s[i]) ==> HasDigit(s[i - 1])
  {
    if 0 < i < |s| && !HasDigit(s[i - 1]) {
      ConsecutiveFree(s[i - 1], s[i]);
      if s[i - 1] == s[i] { NeighboursTwice(s, i); }
    }
  }

  lemma {:induction false} LexTransitive(a: string, b: string, c: string)
    requires LexLe(a, b) && LexLe(b, c)
    ensures LexLe(a, c)
  {
    if a != "" && a[0] == b[0] == c[0] { LexTransitive(a[1..], b[1..], c[1..]); }
  }

  lemma {:induction false} SortedLe(s: seq<string>, j: nat)
    requires SortedNames(s) && j < |s|
    ensures LexLe(s[0], s[j])
    decreases j
  {
    if j == 0 {
      LexTotal(s[0], s[0]);
    } else {
      SortedLe(s, j - 1);
      assert LexLe(s[j - 1], s[j]);
      LexTransitive(s[0], s[j - 1], s[j]);
    }
  }

  /** In a sorted list equal names are neighbours. */
  lemma {:induction false} TwiceMeansNeighbours(s: seq<string>, x: string) returns (k: nat)
    requires SortedNames(s) && multiset(s)[x] >= 2
    ensures 0 < k < |s| && s[k - 1] == s[k] == x
  {
    assert s == [s[0]] + s[1..];
    forall i | 0 < i < |s[1..]| ensures LexLe(s[1..][i - 1], s[1..][i]) {
      assert LexLe(s[i + 1 - 1], s[i + 1]);
    }
    if s[0] == x {
      assert x in multiset(s[1..]);
      var j :| 0 <= j < |s[1..]| && s[1..][j] == x;
      SortedLe(s[1..], j);
      assert LexLe(s[1 - 1], s[1]);
      LexTotal(s[0], s[1]);
      k := 1;
    } else {
      k := TwiceMeansNeighbours(s[1..], x);
      k := k + 1;
    }
  }

  /**
   For regular names the round trip holds exactly when all are nonempty names over word characters
   and no name without digits is given twice.
   */
  lemma ExpandFoldRegular(names: seq<string>)
    requires forall i | 0 <= i < |names| :: Regular(names[i])
    ensures Expand(FoldNames(names)) == SortNames(names) <==> AllWordNames(names) && FreeNamesOnce(names)
  {
    ExpandFold(names);
    if AllWordNames(names) { RegularMergesWell(names); }
  }

  lemma RegularMergesWell(names: seq<string>)
    requires forall i | 0 <= i < |names| :: Regular(names[i])
    ensures MergesWell(SortNames(names)) <==> FreeNamesOnce(names)
  {
    var s := SortNames(names);
    assert forall x :: x in s <==> x in multiset(s);
    assert forall x :: x in names <==> x in multiset(names);
    if FreeNamesOnce(names) {
      forall i | 0 < i < |s| ensures PairMergesWell(s[i - 1], s[i]) {
        assert s[i - 1] in s && Regular(s[i - 1]);
        ConsecutiveFreeDistinct(s, i);
      }
    } else {
      var x :| x in names && !HasDigit(x) && multiset(names)[x] != 1;
      SortNamesSorted(names);
      var k := TwiceMeansNeighbours(s, x);
      ConsecutiveFree(s[k - 1], s[k]);
      assert !PairMergesWell(s[k - 1], s[k]) by { if Foldable(x) { FoldableHasDigit(x); } }
    }
  }

  /** Names of one base and tail that differ in their last run, by one and at the same width, are merged. */
  lemma MergedRuns(base: string, d: string, e: string, tail: string)
    requires CutAs(base + d + tail, base, d, tail) && CutAs(base + e + tail, base, e, tail)
    requires |d| == |e| && ParseNat(e) == ParseNat(d) + 1
    ensures Consecutive(base + d + tail, base + e + tail)
  {
    ParseCut(base, d, tail);
    ParseCut(base, e, tail);
    var ids := ParseName(base).ids;
    assert Last(ids + [d]) == d && Last(ids + [e]) == e && Init(ids + [d]) == ids == Init(ids + [e]);
  }

  /**
   The failing families: a text after the last digit run (gpu4x, gpu5x), or nothing before it (04, 05).
   Such neighbours are merged and never read back.
   */
  lemma NotReadBack(base: string, d: string, e: string, tail: string)
    requires CutAs(base + d + tail, base, d, tail) && CutAs(base + e + tail, base, e, tail)
    requires |d| == |e| && ParseNat(e) == ParseNat(d) + 1
    ensures PairMergesWell(base + d + tail, base + e + tail) <==> base != "" && tail == ""
  {
    MergedRuns(base, d, e, tail);
    FoldableCut(base + d + tail, base, d, tail);
  }
}
