/**
 The three readers of Slurm's generic resource lists, on the agent and in the browser, and the lists
 they read: `name[:type]:count[(annotation)]` entries separated by commas.
 */
module Gres {
  import opened Seqs
  import opened Decimal
  import opened Text

  // ---- The lists ----------------------------------------------------------------------------

  datatype Resource = Resource(name: string, model: Option<string>, count: nat, annotation: Option<string>)

  predicate Plain(c: char) { c != ',' && c != ':' && c != '(' && c != ')' && c != '=' && c != '/' }

  predicate PlainText(s: string) { forall i | 0 <= i < |s| :: Plain(s[i]) }

  /** An annotation holds no parenthesis. */
  predicate AnnotationText(s: string) { '(' !in s && ')' !in s }

  predicate Printable(r: Resource) {
    && PlainText(r.name) && (r.model.Some? ==> PlainText(r.model.value))
    && (r.annotation.Some? ==> AnnotationText(r.annotation.value))
  }

  predicate AllPrintable(list: seq<Resource>) { forall i | 0 <= i < |list| :: Printable(list[i]) }

  function Core(r: Resource): string {
    if r.model.Some? then r.name + ":" + (r.model.value + ":" + NatToString(r.count))
    else r.name + ":" + NatToString(r.count)
  }

  function Note(r: Resource): string {
    if r.annotation.Some? then "(" + (r.annotation.value + ")") else ""
  }

  function Print(r: Resource): string { Core(r) + Note(r) }

  /** Texts joined with commas. */
  function Joined(texts: seq<string>): string {
    if texts == [] then ""
    else if |texts| == 1 then texts[0]
    else texts[0] + "," + Joined(texts[1..])
  }

  function PrintList(list: seq<Resource>): string {
    Joined(MapSeq(Print, list))
  }

  /** GPUs of one entry, and of a list. */
  function GpusOf(r: Resource): nat { if r.name == "gpu" then r.count else 0 }

  function Sum(counts: seq<nat>): nat { if counts == [] then 0 else counts[0] + Sum(counts[1..]) }

  function GpuTotal(list: seq<Resource>): nat { Sum(MapSeq(GpusOf, list)) }

  function Plus(a: Option<int>, b: Option<int>): Option<int> {
    if a.None? || b.None? then None else Some(a.value + b.value)
  }

  // ---- The agent --------------------------------------------------------------------------------

  /** One piece of the comma-separated list, as `node_gres_extract_gpus` reads it. */
  function AgentPiece(piece: string): Option<int> {
    if piece == "" then Some(0)
    else
      var parts := SplitOn(SplitOn(piece, '(')[0], ':');
      if parts[0] == "gpu" then PyInt(Last(parts)) else Some(0)
  }

  // ---- The browser's job view ---------------------------------------------------------------------

  /** JavaScript's `s.replace('=', ':')`. */
  function ReplaceEquals(s: string): string {
    if s == "" then "" else if s[0] == '=' then ":" + s[1..] else [s[0]] + ReplaceEquals(s[1..])
  }

  function RequestPiece(piece: string): Option<int> {
    var items := SplitOn(ReplaceEquals(SplitOn(piece, '(')[0]), ':');
    if items[0] != "gpu" && items[0] != "gres/gpu" then Some(0)
    else if |items| == 2 then JsInt(items[1])
    else if |items| > 2 then JsInt(items[2])
    else None
  }

  // ---- Readers of comma-separated pieces --------------------------------------------------------

  datatype Reader = Agent | JobView

  function ReadPiece(reader: Reader, piece: string): Option<int> {
    if reader == Agent then AgentPiece(piece) else RequestPiece(piece)
  }

  /** Sum over the pieces of a list; one that cannot be read spoils the sum. */
  function SumOver(reader: Reader, pieces: seq<string>): Option<int> {
    if pieces == [] then Some(0) else Plus(ReadPiece(reader, pieces[0]), SumOver(reader, pieces[1..]))
  }

  function GpusRead(reader: Reader, gres: string): Option<int> { SumOver(reader, SplitOn(gres, ',')) }

  // ---- The browser's node view ----------------------------------------------------------------------

  predicate NotParen(c: char) { c != '(' && c != ')' }

  /** The comma at `i` separates entries: the next parenthesis after it does not close one. */
  predicate Separates(s: string, i: nat)
    requires i < |s|
  {
    s[i] == ',' && var k := Span(s, i + 1, NotParen); k == |s| || s[k] != ')'
  }

  /** `split` on commas outside annotations. */
  function SplitEntries(s: string): (parts: seq<string>)
    ensures parts != []
  {
    if s == "" then [""]
    else if Separates(s, 0) then [""] + SplitEntries(s[1..])
    else
      var rest := SplitEntries(s[1..]);
      [[s[0]] + rest[0]] + rest[1..]
  }

  /** The annotation at the end of `s` begins here. */
  predicate NoteAt(s: string, i: nat)
    requires i < |s|
  {
    s[i] == '(' && Last(s) == ')' && i < |s| - 1 && ')' !in s[i + 1..|s| - 1]
  }

  /** `replace` of a closing annotation by nothing: the leftmost match is taken out. */
  function StripNote(s: string): string {
    if s == "" then ""
    else if NoteAt(s, 0) then ""
    else [s[0]] + StripNote(s[1..])
  }

  datatype NodeGpu = NodeGpu(model: string, count: Option<int>)

  /** `gpu:count` or `gpu:model:count`; anything else is no GPU. */
  function MatchGpu(entry: string): Option<NodeGpu> {
    var parts := SplitOn(StripNote(entry), ':');
    if parts[0] != "gpu" then None
    else if |parts| == 2 then Some(NodeGpu("unknown", JsInt(SplitOn(parts[1], '(')[0])))
    else if |parts| == 3 then Some(NodeGpu(OrElse(parts[1], "unknown"), JsInt(SplitOn(parts[2], '(')[0])))
    else None
  }

  function MatchAll(entries: seq<string>): seq<NodeGpu> {
    if entries == [] then []
    else
      var m := MatchGpu(entries[0]);
      (if m.Some? then [m.value] else []) + MatchAll(entries[1..])
  }

  function NodeGpus(gres: string): seq<NodeGpu> {
    if gres == "" then [] else MatchAll(SplitEntries(gres))
  }

  /** A GPU entry as the node view shows it. */
  function ShownEntry(r: Resource): seq<NodeGpu> {
    if r.name != "gpu" then []
    else [NodeGpu(if r.model.Some? then OrElse(r.model.value, "unknown") else "unknown", Some(r.count))]
  }

  function Shown(list: seq<Resource>): seq<NodeGpu> {
    if list == [] then [] else ShownEntry(list[0]) + Shown(list[1..])
  }

  function CountOf(gpus: seq<NodeGpu>): Option<int> {
    if gpus == [] then Some(0) else Plus(gpus[0].count, CountOf(gpus[1..]))
  }

  // ---- Reading one printed entry ----------------------------------------------------------------------

  lemma PlainAbsent(s: string)
    requires PlainText(s)
    ensures ',' !in s && ':' !in s && '(' !in s && ')' !in s && '=' !in s
  {
  }

  lemma DigitsPlain(n: nat)
    ensures PlainText(NatToString(n)) && PyInt(NatToString(n)) == Some(n) && JsInt(NatToString(n)) == Some(n)
  {
    var s := NatToString(n);
    ParsePrinted(n);
    NatPrinted(n);
    forall i | 0 <= i < |s| ensures Plain(s[i]) { assert IsDigit(s[i]); }
  }

  /** The colon-separated parts of an entry without its annotation. */
  function Parts(r: Resource): seq<string> {
    (if r.model.Some? then [r.name, r.model.value] else [r.name]) + [NatToString(r.count)]
  }

  lemma CoreParts(r: Resource)
    requires Printable(r)
    ensures SplitOn(Core(r), ':') == Parts(r)
  {
    var digits := NatToString(r.count);
    DigitsPlain(r.count);
    PlainAbsent(digits);
    PlainAbsent(r.name);
    SplitAbsent(digits, ':');
    if r.model.Some? {
      PlainAbsent(r.model.value);
      SplitAtFirst(r.model.value, ':', digits);
      SplitAtFirst(r.name, ':', r.model.value + ":" + digits);
      assert r.name + ":" + (r.model.value + ":" + digits) == r.name + [':'] + (r.model.value + [':'] + digits);
    } else {
      SplitAtFirst(r.name, ':', digits);
    }
  }

  /** An entry without its annotation holds no comma, parenthesis or equals sign. */
  predicate Bare(s: string) { forall i | 0 <= i < |s| :: Plain(s[i]) || s[i] == ':' }

  lemma CoreBare(r: Resource)
    requires Printable(r)
    ensures Bare(Core(r)) && Core(r) != ""
  {
    DigitsPlain(r.count);
  }

  lemma BareAbsent(s: string)
    requires Bare(s)
    ensures ',' !in s && '(' !in s && ')' !in s && '=' !in s
  {
  }

  lemma {:induction false} ReplaceNothing(s: string)
    requires '=' !in s
    ensures ReplaceEquals(s) == s
  {
    if s != "" {
      assert s == [s[0]] + s[1..];
      ReplaceNothing(s[1..]);
    }
  }

  lemma FirstPieceCore(r: Resource, rest: string)
    requires Printable(r) && (rest == "" || rest[0] == '(')
    ensures SplitOn(Core(r) + rest, '(')[0] == Core(r)
  {
    CoreBare(r);
    BareAbsent(Core(r));
    if rest == "" {
      assert Core(r) + rest == Core(r);
      SplitAbsent(Core(r), '(');
    } else {
      assert Core(r) + rest == Core(r) + ['('] + rest[1..];
      SplitAtFirst(Core(r), '(', rest[1..]);
    }
  }

  lemma AgentFirst(r: Resource, rest: string)
    requires Printable(r) && (rest == "" || rest[0] == '(')
    ensures AgentPiece(Core(r) + rest) == Some(GpusOf(r))
  {
    FirstPieceCore(r, rest);
    CoreParts(r);
    CoreBare(r);
    DigitsPlain(r.count);
  }

  lemma RequestFirst(r: Resource, rest: string)
    requires Printable(r) && (rest == "" || rest[0] == '(')
    ensures RequestPiece(Core(r) + rest) == Some(GpusOf(r))
  {
    hide SplitOn, ReplaceEquals, JsInt, PyInt, NatToString, Core;
    FirstPieceCore(r, rest);
    CoreParts(r);
    CoreBare(r);
    BareAbsent(Core(r));
    ReplaceNothing(Core(r));
    DigitsPlain(r.count);
    assert !PlainText("gres/gpu") by { assert !Plain("gres/gpu"[4]); }
  }

  lemma {:induction false} FirstPartStarts(s: string)
    requires s != "" && s[0] != ':'
    ensures SplitOn(s, ':')[0] != "" && SplitOn(s, ':')[0][0] == s[0]
  {
  }

  lemma ReplaceKeepsFirst(s: string)
    requires s != "" && s[0] != '='
    ensures ReplaceEquals(s) != "" && ReplaceEquals(s)[0] == s[0]
  {
  }

  /** The first piece of an entry counts it; a piece from inside an annotation counts nothing. */
  lemma FirstPiece(reader: Reader, r: Resource, rest: string)
    requires Printable(r) && (rest == "" || rest[0] == '(')
    ensures ReadPiece(reader, Core(r) + rest) == Some(GpusOf(r))
  {
    if reader == Agent { AgentFirst(r, rest); } else { RequestFirst(r, rest); }
  }

  lemma LaterPiece(reader: Reader, s: string)
    requires s != "" && IsDigit(s[0]) && '(' !in s
    ensures ReadPiece(reader, s) == Some(0)
  {
    SplitAbsent(s, '(');
    ReplaceKeepsFirst(s);
    FirstPartStarts(s);
    FirstPartStarts(ReplaceEquals(s));
  }

  // ---- Reading a printed list by commas -----------------------------------------------------------------

  lemma SumFirst(reader: Reader, x: string, rest: seq<string>)
    ensures SumOver(reader, [x] + rest) == Plus(ReadPiece(reader, x), SumOver(reader, rest))
  {
    assert ([x] + rest)[1..] == rest;
  }

  lemma PlusAssociates(a: Option<int>, b: Option<int>, c: Option<int>)
    ensures Plus(a, Plus(b, c)) == Plus(Plus(a, b), c) && Plus(Some(0), a) == a
  {
  }

  lemma {:induction false} SumConcat(reader: Reader, a: seq<string>, b: seq<string>)
    ensures SumOver(reader, a + b) == Plus(SumOver(reader, a), SumOver(reader, b))
  {
    hide ReadPiece;
    if a == [] {
      assert a + b == b;
      PlusAssociates(SumOver(reader, b), Some(0), Some(0));
    } else {
      SumConcat(reader, a[1..], b);
      SumFirst(reader, a[0], a[1..] + b);
      assert a + b == [a[0]] + (a[1..] + b);
      PlusAssociates(ReadPiece(reader, a[0]), SumOver(reader, a[1..]), SumOver(reader, b));
    }
  }

  lemma SplitAround(a: string, b: string)
    ensures SplitOn(a + "," + b, ',') == SplitOn(a, ',') + SplitOn(b, ',')
  {
    var tail := "," + b;
    assert tail[1..] == b;
    SplitConcat(a, tail, ',');
    assert a + "," + b == a + tail;
    GlueEmpty(SplitOn(a, ','), SplitOn(b, ','));
  }

  lemma GlueEmpty(a: seq<string>, b: seq<string>)
    requires a != [] && b != []
    ensures Glue(a, [""] + b) == a + b
  {
    assert Last(a) + "" == Last(a);
    assert ([""] + b)[1..] == b;
  }

  /** A text without commas is read as one piece. */
  lemma OnePiece(reader: Reader, s: string)
    requires ',' !in s
    ensures GpusRead(reader, s) == ReadPiece(reader, s)
  {
    SplitAbsent(s, ',');
    SumFirst(reader, s, []);
    assert [s] + [] == [s];
  }

  lemma PieceThenRest(reader: Reader, a: string, b: string)
    requires ',' !in a
    ensures GpusRead(reader, a + [','] + b) == Plus(ReadPiece(reader, a), GpusRead(reader, b))
  {
    SplitAtFirst(a, ',', b);
    SumFirst(reader, a, SplitOn(b, ','));
  }

  /** What is read of an annotation besides its beginning: the pieces after its commas. */
  function InnerPieces(r: Resource): seq<string> {
    if r.annotation.None? then [] else SplitOn(r.annotation.value + ")", ',')[1..]
  }

  /** An entry is read as its own count plus whatever the inner pieces of its annotation read as. */
  lemma EntryReads(reader: Reader, r: Resource)
    requires Printable(r)
    ensures GpusRead(reader, Print(r)) == Plus(Some(GpusOf(r)), SumOver(reader, InnerPieces(r)))
  {
    hide AgentPiece, RequestPiece;
    CoreBare(r);
    BareAbsent(Core(r));
    if ',' !in Note(r) {
      OnePiece(reader, Print(r));
      FirstPiece(reader, r, Note(r));
      if r.annotation.Some? { SplitAbsent(r.annotation.value + ")", ','); }
    } else {
      var text := r.annotation.value;
      assert ',' in text;
      var a, b := CutAtFirst(text, ',');
      NoteParts(Core(r), text, a, b);
      PieceThenRest(reader, Core(r) + ("(" + a), b + ")");
      FirstPiece(reader, r, "(" + a);
      SplitAtFirst(a, ',', b + ")");
      assert text + ")" == a + [','] + (b + ")");
    }
  }

  lemma NoteParts(core: string, text: string, a: string, b: string)
    requires text == a + [','] + b
    ensures core + ("(" + (text + ")")) == (core + ("(" + a)) + [','] + (b + ")")
  {
  }

  lemma NoEntries(reader: Reader)
    ensures GpusRead(reader, "") == Some(0)
  {
    assert SplitOn("", ',') == [""] && SplitOn("", '(') == [""] && SplitOn("", ':') == [""];
    assert SumOver(reader, [""][1..]) == Some(0);
  }

  lemma TwoParts(reader: Reader, a: string, b: string)
    ensures GpusRead(reader, a + "," + b) == Plus(GpusRead(reader, a), GpusRead(reader, b))
  {
    SplitAround(a, b);
    SumConcat(reader, SplitOn(a, ','), SplitOn(b, ','));
  }

  /** A count that splits at every comma. */
  ghost predicate Additive(read: string -> Option<int>) {
    read("") == Some(0) && forall a: string, b: string :: read(a + "," + b) == Plus(read(a), read(b))
  }

  function PlusAll(values: seq<Option<int>>): Option<int> {
    if values == [] then Some(0) else Plus(values[0], PlusAll(values[1..]))
  }

  lemma {:induction false} AdditiveSums(read: string -> Option<int>, texts: seq<string>, values: seq<Option<int>>)
    requires Additive(read) && |texts| == |values|
    requires forall i | 0 <= i < |texts| :: read(texts[i]) == values[i]
    ensures read(Joined(texts)) == PlusAll(values)
    decreases |texts|
  {
    if texts != [] { AdditiveSums(read, texts[1..], values[1..]); }
  }

  function ReadBy(reader: Reader): string -> Option<int> { (s: string) => GpusRead(reader, s) }

  /** What a reader takes out of the annotations of a list. */
  function InnerSum(reader: Reader, list: seq<Resource>): Option<int> {
    if list == [] then Some(0) else Plus(SumOver(reader, InnerPieces(list[0])), InnerSum(reader, list[1..]))
  }

  function EntryValue(reader: Reader): Resource -> Option<int> {
    (r: Resource) => Plus(Some(GpusOf(r)), SumOver(reader, InnerPieces(r)))
  }

  lemma {:induction false} ValuesAdd(reader: Reader, list: seq<Resource>)
    ensures PlusAll(MapSeq(EntryValue(reader), list)) == Plus(Some(GpuTotal(list)), InnerSum(reader, list))
  {
    hide SumOver, InnerPieces, GpusOf;
    if list != [] {
      ValuesAdd(reader, list[1..]);
      assert MapSeq(EntryValue(reader), list)[1..] == MapSeq(EntryValue(reader), list[1..]);
      assert MapSeq(GpusOf, list)[1..] == MapSeq(GpusOf, list[1..]);
    }
  }

  /** A printed list is read as its GPUs plus whatever is read out of its annotations. */
  lemma ListReads(reader: Reader, list: seq<Resource>)
    requires AllPrintable(list)
    ensures GpusRead(reader, PrintList(list)) == Plus(Some(GpuTotal(list)), InnerSum(reader, list))
  {
    var read, texts, values := ReadBy(reader), MapSeq(Print, list), MapSeq(EntryValue(reader), list);
    ReaderIsAdditive(reader);
    forall i | 0 <= i < |texts| ensures read(texts[i]) == values[i] { EntryReads(reader, list[i]); }
    AdditiveSums(read, texts, values);
    ValuesAdd(reader, list);
  }

  /** So it is counted right exactly if the pieces after the commas inside annotations add up to no GPU. */
  lemma ListCounts(reader: Reader, list: seq<Resource>)
    requires AllPrintable(list)
    ensures GpusRead(reader, PrintList(list)) == Some(GpuTotal(list)) <==> InnerSum(reader, list) == Some(0)
  {
    hide GpusRead, InnerSum, GpuTotal, PrintList, AllPrintable;
    ListReads(reader, list);
    PlusZero(GpuTotal(list), InnerSum(reader, list));
  }

  lemma PlusZero(a: int, b: Option<int>)
    ensures Plus(Some(a), b) == Some(a) <==> b == Some(0)
  {
  }

  // ---- Annotations as Slurm prints them -----------------------------------------------------------------------

  /** In the annotations of the list every comma goes on with a number, as in `IDX:0,2-3`. */
  ghost predicate NumbersOnly(list: seq<Resource>) {
    forall i | 0 <= i < |list| && list[i].annotation.Some? :: CommasThenDigits(list[i].annotation.value)
  }

  predicate CommasThenDigits(s: string) { forall i | 0 <= i < |s| :: CommaThenDigit(s, i) }

  predicate CommaThenDigit(s: string, i: nat)
    requires i < |s|
  {
    s[i] == ',' ==> i + 1 < |s| && IsDigit(s[i + 1])
  }

  lemma {:induction false} NumbersReadNothing(reader: Reader, pieces: seq<string>)
    requires forall i | 0 <= i < |pieces| :: pieces[i] != "" && IsDigit(pieces[i][0]) && '(' !in pieces[i]
    ensures SumOver(reader, pieces) == Some(0)
  {
    if pieces != [] {
      LaterPiece(reader, pieces[0]);
      NumbersReadNothing(reader, pieces[1..]);
    }
  }

  /** Every piece after a comma begins with what follows that comma. */
  lemma {:induction false} PiecesBegin(s: string)
    requires CommasThenDigits(s) && '(' !in s
    ensures var pieces := SplitOn(s, ',');
            && (forall i | 1 <= i < |pieces| :: pieces[i] != "" && IsDigit(pieces[i][0]) && '(' !in pieces[i])
            && (s != "" && s[0] != ',' ==> pieces[0] != "" && pieces[0][0] == s[0]) && '(' !in pieces[0]
  {
    if s != "" {
      var rest := SplitOn(s[1..], ',');
      assert CommaThenDigit(s, 0);
      forall i | 0 <= i < |s[1..]| ensures CommaThenDigit(s[1..], i) { assert CommaThenDigit(s, i + 1); }
      PiecesBegin(s[1..]);
      if s[0] == ',' { assert s[1..][0] == s[1]; }
    }
  }

  lemma NumbersInEntry(reader: Reader, text: string)
    requires AnnotationText(text) && CommasThenDigits(text)
    ensures SumOver(reader, SplitOn(text + ")", ',')[1..]) == Some(0)
  {
    var s := text + ")";
    forall i | 0 <= i < |s| ensures CommaThenDigit(s, i) { if i < |text| { assert CommaThenDigit(text, i); } }
    PiecesBegin(s);
    NumbersReadNothing(reader, SplitOn(s, ',')[1..]);
  }

  /** Such annotations are harmless. */
  lemma {:induction false} NumbersHarmless(reader: Reader, list: seq<Resource>)
    requires AllPrintable(list) && NumbersOnly(list)
    ensures InnerSum(reader, list) == Some(0)
  {
    if list != [] {
      assert Printable(list[0]);
      if list[0].annotation.Some? { NumbersInEntry(reader, list[0].annotation.value); }
      assert forall i | 0 <= i < |list[1..]| :: list[1..][i] == list[i + 1];
      NumbersHarmless(reader, list[1..]);
    }
  }

  /** The input that fails: the agent stops at a GPU named inside an annotation, the job view counts it. */
  lemma NamedInAnnotation()
    ensures var r := Resource("gpu", None, 2, Some("x,gpu:1"));
            GpusRead(Agent, Print(r)) == None && GpusRead(JobView, Print(r)) == Some(3)
  {
    var r := Resource("gpu", None, 2, Some("x,gpu:1"));
    assert PlainText("gpu") && AnnotationText("x,gpu:1");
    EntryReads(Agent, r);
    EntryReads(JobView, r);
    InnerOfExample(r);
    GpuPiece();
    hide GpusRead, InnerPieces, ReadPiece, Print;
    SumFirst(Agent, "gpu:1)", []);
    SumFirst(JobView, "gpu:1)", []);
  }

  lemma InnerOfExample(r: Resource)
    requires r.annotation == Some("x,gpu:1")
    ensures InnerPieces(r) == ["gpu:1)"] + []
  {
    SplitAtFirst("x", ',', "gpu:1)");
    assert "x" + [','] + "gpu:1)" == "x,gpu:1" + ")";
    SplitAbsent("gpu:1)", ',');
  }

  lemma GpuPiece()
    ensures ReadPiece(Agent, "gpu:1)") == None && ReadPiece(JobView, "gpu:1)") == Some(1)
  {
    hide SplitOn, ReplaceEquals, JsInt, PyInt;
    var piece := "gpu:1)";
    SplitAbsent(piece, '(');
    SplitAtFirst("gpu", ':', "1)");
    assert "gpu" + [':'] + "1)" == piece;
    SplitAbsent("1)", ':');
    assert SplitOn(piece, ':') == ["gpu", "1)"];
    ReplaceNothing(piece);
    OneThenParen();
  }

  lemma OneThenParen()
    ensures PyInt("1)") == None && JsInt("1)") == Some(1)
  {
    var s := "1)";
    assert TrimStart(s) == s && Last(s) == ')' && TrimEnd(s) == s && !IsDigit(s[1]);
    assert Span(s, 1, IsDigit) == 1 && s[..1] == "1";
    assert ParseNat("1") == 1;
  }

  lemma ReaderIsAdditive(reader: Reader)
    ensures Additive(ReadBy(reader))
  {
    var read := ReadBy(reader);
    NoEntries(reader);
    forall a: string, b: string ensures read(a + "," + b) == Plus(read(a), read(b)) { TwoParts(reader, a, b); }
  }

  // ---- Reading a printed list entry by entry ----------------------------------------------------------------

  /** Every comma inside is closed off by a parenthesis. */
  ghost predicate InnerCommas(s: string) {
    forall i | 0 <= i < |s| && s[i] == ',' :: ClosedOff(s, i)
  }

  predicate ClosedOff(s: string, i: nat)
    requires i < |s|
  {
    var k := Span(s, i + 1, NotParen); k < |s| && s[k] == ')'
  }

  lemma {:induction false} SpanShift(a: string, s: string, i: nat, p: char -> bool)
    requires i <= |s|
    ensures Span(a + s, |a| + i, p) == |a| + Span(s, i, p)
    decreases |s| - i
  {
    if i < |s| {
      assert (a + s)[|a| + i] == s[i];
      if p(s[i]) { SpanShift(a, s, i + 1, p); }
    }
  }

  lemma {:induction false} SpanStops(s: string, rest: string, i: nat, p: char -> bool)
    requires i <= |s| && Span(s, i, p) < |s|
    ensures Span(s + rest, i, p) == Span(s, i, p)
    decreases |s| - i
  {
    if p(s[i]) { SpanStops(s, rest, i + 1, p); }
  }

  lemma InnerTail(s: string)
    requires s != "" && InnerCommas(s)
    ensures InnerCommas(s[1..])
  {
    hide Span, NotParen;
    var t := s[1..];
    assert s == [s[0]] + t;
    forall i | 0 <= i < |t| && t[i] == ',' ensures ClosedOff(t, i) {
      assert ClosedOff(s, i + 1);
      SpanShift([s[0]], t, i + 1, NotParen);
    }
  }

  /** An entry is split off whole: its inner commas do not separate, the comma after it does. */
  lemma {:induction false} EntrySplitsOff(q: string, rest: string)
    requires InnerCommas(q) && (rest == "" || Separates(rest, 0))
    ensures SplitEntries(q + rest) == if rest == "" then [q] else [q] + SplitEntries(rest[1..])
  {
    if q == "" {
      assert q + rest == rest;
    } else {
      var s := q + rest;
      InnerTail(q);
      EntrySplitsOff(q[1..], rest);
      assert s[1..] == q[1..] + rest;
      if q[0] == ',' {
        assert ClosedOff(q, 0);
        SpanStops(q, rest, 1, NotParen);
      }
      assert !Separates(s, 0);
      assert [q[0]] + q[1..] == q;
    }
  }

  lemma NoteInner(text: string)
    requires AnnotationText(text)
    ensures InnerCommas("(" + (text + ")"))
  {
    var s := "(" + (text + ")");
    assert forall j | 0 < j < |s| - 1 :: s[j] == text[j - 1] && text[j - 1] in text;
    forall i | 0 <= i < |s| && s[i] == ',' ensures ClosedOff(s, i) { SpanIs(s, i + 1, |s| - 1, NotParen); }
  }

  lemma InnerAfter(a: string, s: string)
    requires ',' !in a && InnerCommas(s)
    ensures InnerCommas(a + s)
  {
    var t := a + s;
    assert forall j | 0 <= j < |a| :: t[j] == a[j] && a[j] in a;
    forall i | 0 <= i < |t| && t[i] == ',' ensures ClosedOff(t, i) {
      assert t[i] == s[i - |a|];
      assert ClosedOff(s, i - |a|);
      SpanShift(a, s, i - |a| + 1, NotParen);
    }
  }

  lemma PrintInner(r: Resource)
    requires Printable(r)
    ensures InnerCommas(Print(r))
  {
    CoreBare(r);
    BareAbsent(Core(r));
    if r.annotation.Some? { NoteInner(r.annotation.value); }
    InnerAfter(Core(r), Note(r));
  }

  /** The first parenthesis of a text, if any, opens. */
  predicate OpensFirst(s: string) { var k := Span(s, 0, NotParen); k == |s| || s[k] == '(' }

  lemma OpensAfter(a: string, rest: string)
    requires '(' !in a && ')' !in a && OpensFirst(rest)
    ensures OpensFirst(a + rest)
  {
    SpanShift(a, rest, 0, NotParen);
    SpanThrough(a, rest, 0);
  }

  lemma {:induction false} SpanThrough(a: string, rest: string, i: nat)
    requires '(' !in a && ')' !in a && i <= |a|
    ensures Span(a + rest, i, NotParen) == Span(a + rest, |a|, NotParen)
    decreases |a| - i
  {
    if i < |a| {
      assert a[i] in a && (a + rest)[i] == a[i];
      SpanThrough(a, rest, i + 1);
    }
  }

  lemma NoteOpens(r: Resource, rest: string)
    requires OpensFirst(rest)
    ensures OpensFirst(Note(r) + rest)
  {
    if r.annotation.Some? {
      assert (Note(r) + rest)[0] == '(';
    } else {
      assert "" + rest == rest;
    }
  }

  lemma EntryOpens(r: Resource, rest: string)
    requires Printable(r) && OpensFirst(rest)
    ensures OpensFirst(Print(r) + rest)
  {
    CoreBare(r);
    BareAbsent(Core(r));
    NoteOpens(r, rest);
    OpensAfter(Core(r), Note(r) + rest);
    assert Core(r) + (Note(r) + rest) == Print(r) + rest;
  }

  /** A printed entry, whatever opening text follows after a comma. */
  ghost predicate Entry(text: string) {
    && InnerCommas(text) && OpensFirst(text)
    && forall rest: string :: OpensFirst(rest) ==> OpensFirst(text + "," + rest)
  }

  lemma PrintIsEntry(r: Resource)
    requires Printable(r)
    ensures Entry(Print(r))
  {
    PrintInner(r);
    EntryOpens(r, "");
    assert Print(r) + "" == Print(r);
    forall rest: string | OpensFirst(rest) ensures OpensFirst(Print(r) + "," + rest) {
      OpensAfter(",", rest);
      EntryOpens(r, "," + rest);
      assert Print(r) + ("," + rest) == Print(r) + "," + rest;
    }
  }

  ghost predicate AllEntries(texts: seq<string>) { forall i | 0 <= i < |texts| :: Entry(texts[i]) }

  lemma {:induction false} JoinedOpens(texts: seq<string>)
    requires AllEntries(texts)
    ensures OpensFirst(Joined(texts))
  {
    if texts != [] {
      assert AllEntries(texts[1..]);
      JoinedOpens(texts[1..]);
      assert Entry(texts[0]);
    }
  }

  lemma CommaSeparates(rest: string)
    requires OpensFirst(rest)
    ensures Separates("," + rest, 0)
  {
    SpanShift(",", rest, 0, NotParen);
  }

  lemma LastEntrySplits(text: string)
    requires Entry(text)
    ensures SplitEntries(text) == [text]
  {
    EntrySplitsOff(text, "");
    assert text + "" == text;
  }

  lemma NextEntrySplits(text: string, rest: string)
    requires Entry(text) && OpensFirst(rest)
    ensures SplitEntries(text + "," + rest) == [text] + SplitEntries(rest)
  {
    CommaSeparates(rest);
    EntrySplitsOff(text, "," + rest);
    assert text + ("," + rest) == text + "," + rest && ("," + rest)[1..] == rest;
  }

  /** Joined entries are split back into the entries. */
  lemma {:induction false} JoinedSplits(texts: seq<string>)
    requires AllEntries(texts) && texts != []
    ensures SplitEntries(Joined(texts)) == texts
  {
    assert Entry(texts[0]);
    if |texts| == 1 {
      LastEntrySplits(texts[0]);
    } else {
      assert AllEntries(texts[1..]);
      JoinedOpens(texts[1..]);
      NextEntrySplits(texts[0], Joined(texts[1..]));
      JoinedSplits(texts[1..]);
      assert [texts[0]] + texts[1..] == texts;
    }
  }

  lemma {:induction false} StripAfter(core: string, note: string)
    requires '(' !in core && (note == "" || NoteAt(note, 0))
    ensures StripNote(core + note) == core
  {
    if core == "" {
      assert "" + note == note;
    } else {
      var s := core + note;
      assert core[0] in core && s[0] == core[0] && s[1..] == core[1..] + note;
      StripAfter(core[1..], note);
    }
  }

  lemma StripPrinted(r: Resource)
    requires Printable(r)
    ensures StripNote(Print(r)) == Core(r)
  {
    CoreBare(r);
    BareAbsent(Core(r));
    if r.annotation.Some? {
      var note := Note(r);
      assert note[1..|note| - 1] == r.annotation.value;
    }
    StripAfter(Core(r), Note(r));
  }

  /** One printed entry in the node view. */
  lemma EntryMatches(r: Resource)
    requires Printable(r)
    ensures (if MatchGpu(Print(r)).Some? then [MatchGpu(Print(r)).value] else []) == ShownEntry(r)
  {
    StripPrinted(r);
    CoreParts(r);
    DigitsPlain(r.count);
    PlainAbsent(NatToString(r.count));
    SplitAbsent(NatToString(r.count), '(');
  }

  lemma {:induction false} ListMatches(list: seq<Resource>)
    requires AllPrintable(list)
    ensures MatchAll(MapSeq(Print, list)) == Shown(list)
  {
    if list != [] {
      ListMatches(list[1..]);
      EntryMatches(list[0]);
      assert MapSeq(Print, list)[1..] == MapSeq(Print, list[1..]);
    }
  }

  lemma EntryFirst(r: Resource, rest: seq<NodeGpu>)
    ensures CountOf(ShownEntry(r) + rest) == Plus(Some(GpusOf(r)), CountOf(rest))
  {
    if r.name == "gpu" {
      assert (ShownEntry(r) + rest)[1..] == rest;
    } else {
      assert ShownEntry(r) + rest == rest;
    }
  }

  lemma {:induction false} ShownCounts(list: seq<Resource>)
    ensures CountOf(Shown(list)) == Some(GpuTotal(list))
  {
    if list != [] {
      ShownCounts(list[1..]);
      EntryFirst(list[0], Shown(list[1..]));
      assert MapSeq(GpusOf, list)[1..] == MapSeq(GpusOf, list[1..]);
    }
  }

  /** The node view splits a printed list at its entries and lists the GPU entries, whatever is in annotations. */
  lemma NodeViewShows(list: seq<Resource>)
    requires AllPrintable(list)
    ensures NodeGpus(PrintList(list)) == Shown(list) && CountOf(NodeGpus(PrintList(list))) == Some(GpuTotal(list))
  {
    ListMatches(list);
    ShownCounts(list);
    if list != [] {
      var texts := MapSeq(Print, list);
      forall i | 0 <= i < |texts| ensures Entry(texts[i]) { PrintIsEntry(list[i]); }
      JoinedSplits(texts);
      CoreBare(list[0]);
      assert texts[0] == Print(list[0]);
    }
  }

  /**
   On every printed list the node view lists the GPU entries with their models in order, and each of
   the other two readers counts the same GPUs exactly if it reads none out of the annotations; with
   annotations as Slurm prints them both do.
   */
  lemma ReadersAgree(list: seq<Resource>)
    requires AllPrintable(list)
    ensures NodeGpus(PrintList(list)) == Shown(list) && CountOf(NodeGpus(PrintList(list))) == Some(GpuTotal(list))
    ensures forall reader ::
              GpusRead(reader, PrintList(list)) == CountOf(NodeGpus(PrintList(list)))
              <==> InnerSum(reader, list) == Some(0)
    ensures NumbersOnly(list) ==> GpusRead(Agent, PrintList(list)) == Some(GpuTotal(list))
                                  && GpusRead(JobView, PrintList(list)) == Some(GpuTotal(list))
  {
    NodeViewShows(list);
    forall reader
      ensures GpusRead(reader, PrintList(list)) == Some(GpuTotal(list)) <==> InnerSum(reader, list) == Some(0)
    {
      ListCounts(reader, list);
    }
    if NumbersOnly(list) {
      NumbersHarmless(Agent, list);
      NumbersHarmless(JobView, list);
    }
  }
}
