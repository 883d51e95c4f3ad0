/**
 Folding node names into a nodeset and expanding it back (Nodeset.ts), as functions: names are cut
 into a pattern and digit runs, consecutive names are merged, ranges are printed and read.
 */
module Nodeset {
  import opened Seqs
  import opened Decimal
  import opened Text

  // ---- Names ------------------------------------------------------------------------------

  /** A name with every digit run replaced by `%s`, and the runs. */
  datatype Parsed = Parsed(pattern: string, ids: seq<string>)

  const HOLE: string := "%s"

  predicate NotDigit(c: char) { !IsDigit(c) }

  /** The matches of `(\D*)(\d*)` over a name, put together. */
  function ParseName(name: string): (p: Parsed)
    ensures forall id | id in p.ids :: id != "" && AllDigits(id)
    decreases |name|
  {
    if name == "" then Parsed("", [])
    else
      var k := Span(name, 0, NotDigit);
      var e := Span(name, k, IsDigit);
      var rest := ParseName(name[e..]);
      if e == k then Parsed(name[..k] + rest.pattern, rest.ids)
      else Parsed(name[..k] + HOLE + rest.pattern, [name[k..e]] + rest.ids)
  }

  /** JavaScript's `s.replace('%s', r)`: only the first occurrence. */
  function ReplaceFirst(s: string, r: string): string {
    if |s| < 2 then s
    else if s[..2] == HOLE then r + s[2..]
    else [s[0]] + ReplaceFirst(s[1..], r)
  }

  function Fill(pattern: string, ids: seq<string>): string
    decreases |ids|
  {
    if ids == [] then pattern else Fill(ReplaceFirst(pattern, ids[0]), ids[1..])
  }

  // ---- Groups of consecutive names ----------------------------------------------------------

  /** `ConsecutiveNodes`: the pattern and runs of its first name, and the range of its last run. */
  datatype Group = Group(pattern: string, ids: seq<string>, first: int, last: int)

  function OpenGroup(p: Parsed): Group
    requires forall id | id in p.ids :: AllDigits(id)
  {
    if p.ids == [] then Group(p.pattern, p.ids, -1, -1)
    else Group(p.pattern, p.ids, ParseNat(Last(p.ids)), ParseNat(Last(p.ids)))
  }

  predicate IsNext(g: Group, p: Parsed)
    requires forall id | id in p.ids :: AllDigits(id)
  {
    && p.pattern == g.pattern && |p.ids| == |g.ids|
    && (p.ids != [] ==> Init(p.ids) == Init(g.ids)
                        && |Last(p.ids)| == |Last(g.ids)| && ParseNat(Last(p.ids)) == g.last + 1)
  }

  /** A name joins the last group or opens a new one. */
  function AddParsed(groups: seq<Group>, p: Parsed): seq<Group>
    requires forall id | id in p.ids :: AllDigits(id)
  {
    if groups != [] && IsNext(Last(groups), p) then
      Init(groups) + [Last(groups).(last := Last(groups).last + 1)]
    else groups + [OpenGroup(p)]
  }

  function AddName(groups: seq<Group>, name: string): seq<Group> { AddParsed(groups, ParseName(name)) }

  /** The groups of a sorted list. */
  function GroupsOf(names: seq<string>): seq<Group> {
    if names == [] then [] else AddName(GroupsOf(Init(names)), Last(names))
  }

  function Padded(n: int, width: nat): string
    requires n >= 0
  {
    PadStart(NatToString(n), width)
  }

  function RangeText(g: Group): string
    requires g.ids != [] && 0 <= g.first <= g.last
  {
    "[" + Padded(g.first, |Last(g.ids)|) + "-" + Padded(g.last, |Last(g.ids)|) + "]"
  }

  /** A group without digits prints its pattern, a single name its last run, more names a range. */
  function Render(g: Group): string
    requires Ranged(g)
  {
    if g.first == -1 then g.pattern
    else Fill(g.pattern, Init(g.ids) + [if g.first == g.last then Last(g.ids) else RangeText(g)])
  }

  predicate Ranged(g: Group) { g.first == -1 || (g.ids != [] && 0 <= g.first <= g.last) }

  predicate AllRanged(groups: seq<Group>) { forall i | 0 <= i < |groups| :: Ranged(groups[i]) }

  lemma {:induction false} GroupsRanged(names: seq<string>)
    ensures AllRanged(GroupsOf(names))
    ensures |GroupsOf(names)| <= |names| && (names != [] ==> GroupsOf(names) != [])
  {
    if names != [] {
      hide ParseName;
      GroupsRanged(Init(names));
      AddedRanged(GroupsOf(Init(names)), ParseName(Last(names)));
    }
  }

  lemma AddedRanged(groups: seq<Group>, p: Parsed)
    requires AllRanged(groups) && forall id | id in p.ids :: AllDigits(id)
    ensures AllRanged(AddParsed(groups, p)) && 0 < |AddParsed(groups, p)| <= |groups| + 1
  {
  }

  /** The groups printed and joined with commas. */
  function RenderAll(groups: seq<Group>): string
    requires AllRanged(groups)
  {
    if groups == [] then ""
    else if |groups| == 1 then Render(groups[0])
    else Render(groups[0]) + "," + RenderAll(groups[1..])
  }

  // ---- Sorting ------------------------------------------------------------------------------

  /** Lexicographic order on character codes. */
  predicate LexLe(a: string, b: string) {
    a == "" || (b != "" && (a[0] < b[0] || (a[0] == b[0] && LexLe(a[1..], b[1..]))))
  }

  ghost predicate SortedNames(s: seq<string>) { forall i | 0 < i < |s| :: LexLe(s[i - 1], s[i]) }

  lemma {:induction false} LexTotal(a: string, b: string)
    ensures LexLe(a, b) || LexLe(b, a)
    ensures LexLe(a, b) && LexLe(b, a) ==> a == b
  {
    if a != "" && b != "" && a[0] == b[0] {
      LexTotal(a[1..], b[1..]);
      assert a == [a[0]] + a[1..] && b == [b[0]] + b[1..];
    }
  }

  function InsertName(s: seq<string>, x: string): (r: seq<string>)
    ensures multiset(r) == multiset(s) + multiset{x}
  {
    if s == [] then [x]
    else if LexLe(x, s[0]) then [x] + s
    else
      assert s == [s[0]] + s[1..];
      [s[0]] + InsertName(s[1..], x)
  }

  lemma {:induction false} InsertSorted(s: seq<string>, x: string)
    requires SortedNames(s)
    ensures SortedNames(InsertName(s, x))
    ensures InsertName(s, x)[0] == x || (s != [] && InsertName(s, x)[0] == s[0])
  {
    if s != [] && !LexLe(x, s[0]) {
      LexTotal(x, s[0]);
      var rest := s[1..];
      assert forall i | 0 < i < |rest| :: rest[i - 1] == s[i] && rest[i] == s[i + 1];
      InsertSorted(rest, x);
      assert rest != [] ==> LexLe(s[1 - 1], s[1]) && rest[0] == s[1];
      SortedCons(s[0], InsertName(rest, x));
    }
  }

  lemma SortedCons(x: string, s: seq<string>)
    requires SortedNames(s) && s != [] && LexLe(x, s[0])
    ensures SortedNames([x] + s)
  {
    var t := [x] + s;
    forall i | 0 < i < |t| ensures LexLe(t[i - 1], t[i]) {
      if i > 1 { assert LexLe(s[i - 1 - 1], s[i - 1]); }
    }
  }

  /** `nodeNames.sort()`. */
  function SortNames(names: seq<string>): (s: seq<string>)
    ensures multiset(s) == multiset(names)
  {
    if names == [] then []
    else
      assert names == [names[0]] + names[1..];
      InsertName(SortNames(names[1..]), names[0])
  }

  lemma {:induction false} SortNamesSorted(names: seq<string>)
    ensures SortedNames(SortNames(names))
  {
    if names != [] {
      SortNamesSorted(names[1..]);
      InsertSorted(SortNames(names[1..]), names[0]);
    }
  }

  function FoldNames(names: seq<string>): string {
    var groups := GroupsOf(SortNames(names));
    GroupsRanged(SortNames(names));
    RenderAll(groups)
  }

  // ---- Expanding ----------------------------------------------------------------------------

  /** Characters of `[A-Za-z0-9_-]`. */
  predicate WordChar(c: char) {
    IsDigit(c) || 'a' <= c <= 'z' || 'A' <= c <= 'Z' || c == '_' || c == '-'
  }

  /** A range `[<digits>-<digits>]` at the start of `s`: its bounds as printed. */
  function RangeAt(s: string): (r: Option<(string, string)>)
    ensures r.Some? ==> AllDigits(r.value.0) && AllDigits(r.value.1) && |r.value.0| > 0 && |r.value.1| > 0
    ensures r.Some? ==> |s| >= |r.value.0| + |r.value.1| + 3
  {
    if s == "" || s[0] != '[' then None
    else
      var a := Span(s, 1, IsDigit);
      if a == 1 || a == |s| || s[a] != '-' then None
      else
        var b := Span(s, a + 1, IsDigit);
        if b == a + 1 || b == |s| || s[b] != ']' then None else Some((s[1..a], s[a + 1..b]))
  }

  /** Names `prefix<first>` to `prefix<last>`, at least `width` digits wide. */
  function NamesFrom(prefix: string, first: nat, last: nat, width: nat): seq<string> {
    if first > last then [] else seq(last - first + 1, i requires 0 <= i => prefix + Padded(first + i, width))
  }

  /**
   One match of the nodeset pattern at the start of `s`: the names it stands for and its length. The
   prefix takes a whole run of word characters, so the alternative for a single number after it can
   never match.
   */
  function MatchAt(s: string): (r: (seq<string>, nat))
    requires s != "" && WordChar(s[0])
    ensures 0 < r.1 <= |s|
  {
    var k := Span(s, 0, WordChar);
    match RangeAt(s[k..])
    case None => ([s[..k]], k)
    case Some((a, b)) => (NamesFrom(s[..k], ParseNat(a), ParseNat(b), |a|), k + |a| + |b| + 3)
  }

  /** The names of all matches, in order. */
  function Expand(s: string): seq<string>
    decreases |s|
  {
    if s == "" then []
    else if !WordChar(s[0]) then Expand(s[1..])
    else MatchAt(s).0 + Expand(s[MatchAt(s).1..])
  }
}
