/**
 Log frames on the wire: JSON text as `json.dumps(..., separators=(",", ":"), ensure_ascii=False)`
 writes it (section 7 of RFC 8259), and its size against the limit of the gateway hop.
 */
module Wire {
  import opened Seqs
  import opened Decimal
  import opened Utf8
  import opened JobFiles
  import opened LiveSession
  import opened Text

  const MAX_MESSAGE_SIZE: nat := 0x100000

  // ---- JSON strings -----------------------------------------------------------------------

  const QUOTE: char := '\"'
  const BACKSLASH: char := '\\'

  function HexDigit(n: nat): char
    requires n < 16
  {
    "0123456789abcdef"[n]
  }

  function HexValue(c: char): Option<nat> {
    if '0' <= c <= '9' then Some(c as nat - '0' as nat)
    else if 'a' <= c <= 'f' then Some(c as nat - 'a' as nat + 10)
    else if 'A' <= c <= 'F' then Some(c as nat - 'A' as nat + 10)
    else None
  }

  /** The letter of a two-character escape, for the characters that have one. */
  function ShortEscape(c: char): Option<char> {
    if c == QUOTE || c == BACKSLASH then Some(c)
    else if c == '\n' then Some('n')
    else if c == '\r' then Some('r')
    else if c == '\t' then Some('t')
    else if c == '\U{8}' then Some('b')
    else if c == '\U{C}' then Some('f')
    else None
  }

  function EscapeChar(c: char): string {
    if ShortEscape(c).Some? then [BACKSLASH, ShortEscape(c).value]
    else if c < ' ' then [BACKSLASH, 'u', '0', '0', HexDigit(c as nat / 16), HexDigit(c as nat % 16)]
    else [c]
  }

  function Escape(t: string): string {
    if t == "" then "" else EscapeChar(t[0]) + Escape(t[1..])
  }

  function JsonString(t: string): string { [QUOTE] + Escape(t) + [QUOTE] }

  /** The character a letter after a backslash stands for. */
  function ShortUnescape(c: char): Option<char> {
    if c == QUOTE || c == BACKSLASH || c == '/' then Some(c)
    else if c == 'n' then Some('\n')
    else if c == 'r' then Some('\r')
    else if c == 't' then Some('\t')
    else if c == 'b' then Some('\U{8}')
    else if c == 'f' then Some('\U{C}')
    else None
  }

  /** A `\uXXXX` escape outside the surrogate range. */
  function UnicodeEscape(s: string): Option<char>
    requires |s| == 4
  {
    var a, b, c, d := HexValue(s[0]), HexValue(s[1]), HexValue(s[2]), HexValue(s[3]);
    if a.None? || b.None? || c.None? || d.None? then None
    else
      var n := ((a.value * 16 + b.value) * 16 + c.value) * 16 + d.value;
      if 0xD800 <= n < 0xE000 || n >= 0x10000 then None else Some(n as char)
  }

  /** Reads a string body up to its closing quote: the text, and what follows the quote. */
  function ReadString(s: string): Option<(string, string)> {
    if s == "" || s[0] < ' ' then None
    else if s[0] == QUOTE then Some(("", s[1..]))
    else if s[0] != BACKSLASH then Prefixed(s[0], ReadString(s[1..]))
    else if |s| >= 2 && ShortUnescape(s[1]).Some? then Prefixed(ShortUnescape(s[1]).value, ReadString(s[2..]))
    else if |s| >= 6 && s[1] == 'u' && UnicodeEscape(s[2..6]).Some? then
      Prefixed(UnicodeEscape(s[2..6]).value, ReadString(s[6..]))
    else None
  }

  function Prefixed(c: char, r: Option<(string, string)>): Option<(string, string)> {
    match r
    case None => None
    case Some((text, rest)) => Some(([c] + text, rest))
  }

  lemma UnicodeEscapeReads(c: char)
    requires c < ' '
    ensures UnicodeEscape(['0', '0', HexDigit(c as nat / 16), HexDigit(c as nat % 16)]) == Some(c)
  {
    var n := c as nat;
    assert HexValue(HexDigit(n / 16)) == Some(n / 16) && HexValue(HexDigit(n % 16)) == Some(n % 16);
    assert n == n / 16 * 16 + n % 16;
  }

  lemma EscapeCharReads(c: char, s: string)
    ensures ReadString(EscapeChar(c) + s) == Prefixed(c, ReadString(s))
  {
    var e := EscapeChar(c);
    assert (e + s)[|e|..] == s;
    if ShortEscape(c).None? && c < ' ' {
      UnicodeEscapeReads(c);
      assert (e + s)[2..6] == ['0', '0', HexDigit(c as nat / 16), HexDigit(c as nat % 16)];
    }
  }

  /** A printed string reads back as itself, whatever follows it. */
  lemma JsonStringReads(t: string, rest: string)
    ensures ReadString(JsonString(t)[1..] + rest) == Some((t, rest))
  {
    assert JsonString(t)[1..] + rest == Escape(t) + ([QUOTE] + rest);
    BodyReads(t, rest);
  }

  lemma {:induction false} BodyReads(t: string, rest: string)
    ensures ReadString(Escape(t) + ([QUOTE] + rest)) == Some((t, rest))
  {
    var tail := [QUOTE] + rest;
    if t == "" {
      assert "" + tail == tail && tail[1..] == rest;
    } else {
      var body := Escape(t[1..]);
      BodyReads(t[1..], rest);
      EscapeCharReads(t[0], body + tail);
      Associates(EscapeChar(t[0]), body, tail);
      assert t == [t[0]] + t[1..];
    }
  }

  // ---- Sizes in bytes -----------------------------------------------------------------------

  lemma {:induction false} EncodeTextConcat(a: string, b: string)
    ensures EncodeText(a + b) == EncodeText(a) + EncodeText(b)
  {
    if a == "" {
      assert a + b == b;
    } else {
      EncodeTextConcat(a[1..], b);
      assert (a + b)[1..] == a[1..] + b;
      Associates(Encode(a[0]), EncodeText(a[1..]), EncodeText(b));
    }
  }

  predicate Ascii(t: string) { forall i | 0 <= i < |t| :: t[i] < '\U{80}' }

  lemma {:induction false} AsciiSize(t: string)
    requires Ascii(t)
    ensures |EncodeText(t)| == |t|
  {
    if t != "" { AsciiSize(t[1..]); }
  }

  /** Escaping takes at most six bytes for each byte of UTF-8. */
  lemma EscapeCharSize(c: char)
    ensures |EncodeText(EscapeChar(c))| <= 6
  {
    var e := EscapeChar(c);
    if ShortEscape(c).Some? || c < ' ' {
      assert forall n | 0 <= n < 16 :: HexDigit(n) < '\U{80}';
      AsciiSize(e);
    } else {
      assert e[1..] == "";
    }
  }

  lemma {:induction false} EscapeSize(t: string)
    ensures |EncodeText(Escape(t))| <= 6 * |t|
  {
    if t != "" {
      EscapeSize(t[1..]);
      EscapeCharSize(t[0]);
      EncodeTextConcat(EscapeChar(t[0]), Escape(t[1..]));
    }
  }

  lemma {:induction false} TextFitsBytes(t: string)
    ensures |t| <= |EncodeText(t)|
  {
    if t != "" { TextFitsBytes(t[1..]); }
  }

  /** Decoding with replacement and escaping again: at most six bytes for each byte read. */
  lemma EscapedBytes(s: Bytes)
    ensures |EncodeText(Escape(Decode(s)))| <= 6 * |s|
  {
    EveryByteShows(s);
    EscapeSize(Decode(s));
  }

  function ControlBytes(n: nat): Bytes { if n == 0 then [] else [1] + ControlBytes(n - 1) }

  /** The factor six is reached: a control character takes one byte in the file and six in the frame. */
  lemma {:induction false} ControlBytesTakeSix(n: nat)
    ensures |ControlBytes(n)| == n && |EncodeText(Escape(Decode(ControlBytes(n))))| == 6 * n
  {
    if n > 0 {
      var rest := Decode(ControlBytes(n - 1));
      ControlBytesTakeSix(n - 1);
      DecodeControl(ControlBytes(n - 1));
      EscapeControl(rest);
    }
  }

  lemma DecodeControl(s: Bytes)
    ensures Decode([1] + s) == ['\U{1}'] + Decode(s)
  {
    assert ([1] + s)[1..] == s;
  }

  lemma EscapeControl(t: string)
    ensures |EncodeText(Escape(['\U{1}'] + t))| == 6 + |EncodeText(Escape(t))|
  {
    var e := EscapeChar('\U{1}');
    assert (['\U{1}'] + t)[1..] == t;
    AsciiSize(e);
    EncodeTextConcat(e, Escape(t));
  }

  // ---- The frame ------------------------------------------------------------------------------

  function StreamName(stream: Stream): string { if stream == Stdout then "stdout" else "stderr" }

  function JsonBool(b: bool): string { if b then "true" else "false" }

  function NumberField(key: string, n: nat): string { ",\"" + key + "\":" + NatToString(n) }

  /** A frame without a file behind it has no size. */
  function SizeFields(c: LogChunk): string {
    if c.size.None? then "" else NumberField("size", c.size.value) + ",\"rotated\":" + JsonBool(c.rotated)
  }

  /** The fields that follow the chunk. */
  function Trailer(c: LogChunk, merged: bool): string {
    NumberField("offset", c.offset) + NumberField("next_offset", c.nextOffset) + SizeFields(c) + Ending(c, merged)
  }

  function Ending(c: LogChunk, merged: bool): string {
    ",\"waiting\":" + JsonBool(c.waiting) + (if merged then ",\"merged\":true}" else "}")
  }

  function Header(stream: Stream): string { "{\"type\":\"log\",\"stream\":\"" + StreamName(stream) + "\"" }

  function TextField(key: string, t: string): string { ",\"" + key + "\":" + JsonString(t) }

  function RenderLog(stream: Stream, c: LogChunk, merged: bool): string {
    Header(stream) + TextField("path", c.path) + TextField("chunk", c.text) + Trailer(c, merged)
  }

  // ---- Reading a frame back -----------------------------------------------------------------------

  /** What follows `,"key":`, if the text begins so. */
  function Field(s: string, key: string): Option<string> {
    var lead := ",\"" + key + "\":";
    if lead <= s then Some(s[|lead|..]) else None
  }

  function ReadText(s: string, key: string): Option<(string, string)> {
    match Field(s, key)
    case None => None
    case Some(r) => if r != "" && r[0] == QUOTE then ReadString(r[1..]) else None
  }

  function ReadNumber(s: string, key: string): Option<(nat, string)> {
    match Field(s, key)
    case None => None
    case Some(r) =>
      var k := Span(r, 0, IsDigit);
      if k == 0 then None else Some((ParseNat(r[..k]), r[k..]))
  }

  function ReadBool(s: string, key: string): Option<(bool, string)> {
    match Field(s, key)
    case None => None
    case Some(r) =>
      if "true" <= r then Some((true, r[4..])) else if "false" <= r then Some((false, r[5..])) else None
  }

  lemma FieldReads(key: string, value: string)
    ensures Field(",\"" + key + "\":" + value, key) == Some(value)
  {
  }

  lemma TextReads(key: string, t: string, rest: string)
    ensures ReadText(TextField(key, t) + rest, key) == Some((t, rest))
  {
    FieldReads(key, JsonString(t) + rest);
    assert TextField(key, t) + rest == ",\"" + key + "\":" + (JsonString(t) + rest);
    assert (JsonString(t) + rest)[1..] == JsonString(t)[1..] + rest;
    JsonStringReads(t, rest);
  }

  lemma NumberReads(key: string, n: nat, rest: string)
    requires rest != "" ==> !IsDigit(rest[0])
    ensures ReadNumber(NumberField(key, n) + rest, key) == Some((n, rest))
  {
    var digits := NatToString(n);
    FieldReads(key, digits + rest);
    assert NumberField(key, n) + rest == ",\"" + key + "\":" + (digits + rest);
    ParsePrinted(n);
    assert forall j | 0 <= j < |digits| :: (digits + rest)[j] == digits[j];
    SpanIs(digits + rest, 0, |digits|, IsDigit);
  }

  lemma BoolReads(key: string, b: bool, rest: string)
    ensures ReadBool(",\"" + key + "\":" + JsonBool(b) + rest, key) == Some((b, rest))
  {
    FieldReads(key, JsonBool(b) + rest);
    assert ",\"" + key + "\":" + JsonBool(b) + rest == ",\"" + key + "\":" + (JsonBool(b) + rest);
    assert !b ==> (JsonBool(b) + rest)[0] == 'f';
  }

  /** The size and the rotation flag, absent when there is no file; and what follows. */
  function ReadSize(s: string): Option<(Option<nat>, bool, string)> {
    match ReadNumber(s, "size")
    case None => Some((None, false, s))
    case Some((n, r)) =>
      match ReadBool(r, "rotated")
      case None => None
      case Some((rotated, rest)) => Some((Some(n), rotated, rest))
  }

  /** Whether the file is waited for, and whether the stream is merged, at the end of the frame. */
  function ReadEnding(s: string): Option<(bool, bool)> {
    match ReadBool(s, "waiting")
    case None => None
    case Some((waiting, r)) =>
      if r == ",\"merged\":true}" then Some((waiting, true)) else if r == "}" then Some((waiting, false)) else None
  }

  /** The fields behind the chunk: offset, next offset, size, rotated, waiting, merged. */
  function ReadTrailer(s: string): Option<(nat, nat, Option<nat>, bool, bool, bool)> {
    match ReadNumber(s, "offset")
    case None => None
    case Some((offset, r)) =>
      match ReadNumber(r, "next_offset")
      case None => None
      case Some((next, r')) =>
        match ReadSize(r')
        case None => None
        case Some((size, rotated, r'')) =>
          match ReadEnding(r'')
          case None => None
          case Some((waiting, merged)) => Some((offset, next, size, rotated, waiting, merged))
  }

  /** A log message as the page reads it: the stream's name, the chunk, and whether it is merged. */
  function ReadLog(s: string): Option<(string, LogChunk, bool)> {
    var opening := "{\"type\":\"log\"";
    if !(opening <= s) then None
    else
      match ReadText(s[|opening|..], "stream")
      case None => None
      case Some((stream, r)) =>
        match ReadText(r, "path")
        case None => None
        case Some((path, r')) =>
          match ReadText(r', "chunk")
          case None => None
          case Some((text, r'')) =>
            match ReadTrailer(r'')
            case None => None
            case Some((offset, next, size, rotated, waiting, merged)) =>
              Some((stream, LogChunk(path, text, offset, next, size, rotated, waiting), merged))
  }

  lemma EndingReads(c: LogChunk, merged: bool)
    ensures ReadEnding(Ending(c, merged)) == Some((c.waiting, merged))
  {
    BoolReads("waiting", c.waiting, if merged then ",\"merged\":true}" else "}");
    hide ReadBool, JsonBool;
    assert ",\"waiting\":" == ",\"" + "waiting" + "\":";
  }

  lemma SizeReads(c: LogChunk, merged: bool)
    requires c.size.None? ==> !c.rotated
    ensures ReadSize(SizeFields(c) + Ending(c, merged)) == Some((c.size, c.rotated, Ending(c, merged)))
  {
    if c.size.None? { NoSizeReads(c, merged); } else { OwnSizeReads(c, Ending(c, merged)); }
  }

  lemma NoSizeReads(c: LogChunk, merged: bool)
    requires c.size.None? && !c.rotated
    ensures ReadSize(SizeFields(c) + Ending(c, merged)) == Some((c.size, c.rotated, Ending(c, merged)))
  {
    var rest := Ending(c, merged);
    assert SizeFields(c) + rest == rest;
    EndingBegins(c, merged);
    hide Ending;
    assert Field(rest, "size").None? by { assert ",\"size\":"[2] == 's'; }
  }

  lemma EndingBegins(c: LogChunk, merged: bool)
    ensures |Ending(c, merged)| > 2 && Ending(c, merged)[0] == ',' && Ending(c, merged)[2] == 'w'
  {
    assert Ending(c, merged)[..11] == ",\"waiting\":";
  }

  lemma OwnSizeReads(c: LogChunk, rest: string)
    requires c.size.Some?
    ensures ReadSize(SizeFields(c) + rest) == Some((c.size, c.rotated, rest))
  {
    hide ReadNumber, ReadBool, NumberField, JsonBool;
    var number, lead := NumberField("size", c.size.value), ",\"rotated\":";
    var flag := lead + JsonBool(c.rotated) + rest;
    assert flag[0] == lead[0] == ',' && lead == ",\"" + "rotated" + "\":";
    NumberReads("size", c.size.value, flag);
    BoolReads("rotated", c.rotated, rest);
    FourParts(number, ",\"rotated\":", JsonBool(c.rotated), rest);
  }

  lemma FourParts(a: string, b: string, c: string, d: string)
    ensures a + b + c + d == a + (b + c + d)
  {
  }

  lemma CommaFirst(c: LogChunk, merged: bool)
    ensures var rest := SizeFields(c) + Ending(c, merged); rest != "" && rest[0] == ','
  {
    assert c.size.Some? ==> SizeFields(c)[0] == ',';
  }

  lemma TrailerReads(c: LogChunk, merged: bool)
    requires c.size.None? ==> !c.rotated
    ensures ReadTrailer(Trailer(c, merged)) == Some((c.offset, c.nextOffset, c.size, c.rotated, c.waiting, merged))
  {
    var end := SizeFields(c) + Ending(c, merged);
    var next := NumberField("next_offset", c.nextOffset) + end;
    assert Trailer(c, merged) == NumberField("offset", c.offset) + next;
    assert next[0] == ',';
    CommaFirst(c, merged);
    NumberReads("offset", c.offset, next);
    NumberReads("next_offset", c.nextOffset, end);
    SizeReads(c, merged);
    EndingReads(c, merged);
    hide ReadNumber, ReadSize, ReadEnding, NumberField, SizeFields, Ending;
  }

  lemma FiveParts(a: string, b: string, c: string, d: string, e: string)
    ensures a + b + c + d + e == a + (b + (c + (d + e)))
    ensures (a + (b + (c + (d + e))))[|a|..] == b + (c + (d + e))
  {
  }

  /** Every frame reads back, field by field, as what was sent; a chunk without a file is never marked rotated. */
  lemma LogFrameReads(stream: Stream, c: LogChunk, merged: bool)
    requires c.size.None? ==> !c.rotated
    ensures ReadLog(RenderLog(stream, c, merged)) == Some((StreamName(stream), c, merged))
  {
    var opening, trailer := "{\"type\":\"log\"", Trailer(c, merged);
    var name := TextField("stream", StreamName(stream));
    var path, text := TextField("path", c.path), TextField("chunk", c.text);
    HeaderIs(stream);
    FiveParts(opening, name, path, text, trailer);
    TextReads("stream", StreamName(stream), path + (text + trailer));
    TextReads("path", c.path, text + trailer);
    TextReads("chunk", c.text, trailer);
    TrailerReads(c, merged);
    hide TextField, Trailer, ReadText, ReadTrailer, Header, StreamName;
  }

  lemma HeaderIs(stream: Stream)
    ensures Header(stream) == "{\"type\":\"log\"" + TextField("stream", StreamName(stream))
  {
    var t := StreamName(stream);
    hide JsonString;
    PlainString(t);
    assert TextField("stream", t) == ",\"stream\":" + ([QUOTE] + t + [QUOTE]);
  }

  lemma PlainString(t: string)
    requires t == "stdout" || t == "stderr"
    ensures JsonString(t) == [QUOTE] + t + [QUOTE]
  {
    EscapePlain(t);
  }

  lemma {:induction false} EscapePlain(t: string)
    requires forall i | 0 <= i < |t| :: 'a' <= t[i] <= 'z'
    ensures Escape(t) == t
  {
    if t != "" {
      EscapePlain(t[1..]);
      assert t == [t[0]] + t[1..];
    }
  }

  const MAX_PATH: nat := 4096
  const MAX_SIZE: nat := 10_000_000_000_000_000_000

  function Pow10(k: nat): nat { if k == 0 then 1 else 10 * Pow10(k - 1) }

  lemma {:induction false} DigitCount(n: nat, k: nat)
    requires k > 0 && n < Pow10(k)
    ensures |NatToString(n)| <= k
  {
    if n >= 10 { DigitCount(n / 10, k - 1); }
  }

  lemma SizeDigits(n: nat)
    requires n < MAX_SIZE
    ensures |NatToString(n)| <= 19
  {
    assert Pow10(19) == MAX_SIZE by {
      assert Pow10(5) == 100_000;
      assert Pow10(10) == 100_000 * Pow10(5);
      assert Pow10(15) == 100_000 * Pow10(10);
    }
    DigitCount(n, 19);
  }

  lemma NumberFieldSize(key: string, n: nat)
    requires Ascii(key) && n < MAX_SIZE
    ensures Ascii(NumberField(key, n)) && |NumberField(key, n)| <= |key| + 23
  {
    SizeDigits(n);
    var digits := NatToString(n);
    assert forall i | 0 <= i < |digits| :: IsDigit(digits[i]);
  }

  lemma AsciiConcat(a: string, b: string)
    requires Ascii(a) && Ascii(b)
    ensures Ascii(a + b)
  {
  }

  lemma SizeFieldsSize(c: LogChunk)
    requires c.size.Some? ==> c.size.value < MAX_SIZE
    ensures Ascii(SizeFields(c)) && |SizeFields(c)| <= 50
  {
    if c.size.Some? {
      NumberFieldSize("size", c.size.value);
      AsciiConcat(NumberField("size", c.size.value), ",\"rotated\":");
      AsciiConcat(NumberField("size", c.size.value) + ",\"rotated\":", JsonBool(c.rotated));
    }
  }

  lemma TrailerSize(c: LogChunk, merged: bool)
    requires c.offset < MAX_SIZE && c.nextOffset < MAX_SIZE && (c.size.Some? ==> c.size.value < MAX_SIZE)
    ensures Ascii(Trailer(c, merged)) && |Trailer(c, merged)| <= 200
  {
    var o, n := NumberField("offset", c.offset), NumberField("next_offset", c.nextOffset);
    var s, e := SizeFields(c), Ending(c, merged);
    NumberFieldSize("offset", c.offset);
    NumberFieldSize("next_offset", c.nextOffset);
    SizeFieldsSize(c);
    AsciiConcat(o, n);
    AsciiConcat(o + n, s);
    AsciiConcat(o + n + s, e);
  }

  lemma TextFieldSize(key: string, t: string)
    requires Ascii(key)
    ensures |EncodeText(TextField(key, t))| <= |key| + 6 + 6 * |t|
  {
    hide Escape, EncodeText;
    var lead := ",\"" + key + "\":" + [QUOTE];
    EscapeSize(t);
    AsciiSize(lead);
    AsciiSize([QUOTE]);
    EncodeTextConcat(lead, Escape(t));
    EncodeTextConcat(lead + Escape(t), [QUOTE]);
    assert TextField(key, t) == lead + Escape(t) + [QUOTE];
  }

  lemma HeaderSize(stream: Stream)
    ensures |EncodeText(Header(stream))| <= 40
  {
    AsciiSize(Header(stream));
  }

  /** A frame takes six bytes per character of its texts and at most 300 bytes besides. */
  lemma FrameSize(stream: Stream, c: LogChunk, merged: bool)
    requires c.offset < MAX_SIZE && c.nextOffset < MAX_SIZE && (c.size.Some? ==> c.size.value < MAX_SIZE)
    ensures |EncodeText(RenderLog(stream, c, merged))| <= 6 * |c.path| + 6 * |c.text| + 300
  {
    TrailerSize(c, merged);
    AsciiSize(Trailer(c, merged));
    HeaderSize(stream);
    TextFieldSize("path", c.path);
    TextFieldSize("chunk", c.text);
    SizeOfFour(Header(stream), TextField("path", c.path), TextField("chunk", c.text), Trailer(c, merged));
  }

  lemma SizeOfFour(a: string, b: string, c: string, d: string)
    ensures |EncodeText(a + b + c + d)| == |EncodeText(a)| + |EncodeText(b)| + |EncodeText(c)| + |EncodeText(d)|
  {
    EncodeTextConcat(a, b);
    EncodeTextConcat(a + b, c);
    EncodeTextConcat(a + b + c, d);
  }

  /**
   Every log frame a push sends fits the gateway's message limit: a chunk is at most LOG_LIMIT bytes
   and a path at most MAX_PATH bytes.
   */
  lemma LogFramesFit(fs: FileSystem, job: JobData, st: StreamState)
    requires |EncodeText(job.stdoutExpanded)| <= MAX_PATH && |EncodeText(job.stderrExpanded)| <= MAX_PATH
    requires st.offset < MAX_SIZE && forall path | path in fs.files :: |fs.files[path]| < MAX_SIZE
    ensures forall f | f in PushStream(fs, job, st).frames && f.LogFrame? ::
              |EncodeText(RenderLog(f.stream, f.chunk, f.merged))| <= MAX_MESSAGE_SIZE
  {
    hide RenderLog, EncodeText, Decode;
    TextFitsBytes(job.stdoutExpanded);
    TextFitsBytes(job.stderrExpanded);
    var p := PushStream(fs, job, st);
    if p.frames != [] && p.frames[0].LogFrame? {
      var f := p.frames[0];
      ChunkBounds(fs, job, st);
      FrameSize(f.stream, f.chunk, f.merged);
    }
  }

  /** Every log frame of a push reads back as what was pushed. */
  lemma PushedFramesRead(fs: FileSystem, job: JobData, st: StreamState)
    ensures forall f | f in PushStream(fs, job, st).frames && f.LogFrame? ::
              ReadLog(RenderLog(f.stream, f.chunk, f.merged)) == Some((StreamName(f.stream), f.chunk, f.merged))
  {
    hide ReadLog, RenderLog, StreamName, Decode;
    var p := PushStream(fs, job, st);
    if p.frames != [] && p.frames[0].LogFrame? {
      LogFrameReads(p.frames[0].stream, p.frames[0].chunk, p.frames[0].merged);
    }
  }

  /** What a pushed frame can hold at most. */
  lemma ChunkBounds(fs: FileSystem, job: JobData, st: StreamState)
    requires st.offset < MAX_SIZE && forall path | path in fs.files :: |fs.files[path]| < MAX_SIZE
    requires var p := PushStream(fs, job, st); p.frames != [] && p.frames[0].LogFrame?
    ensures var c := PushStream(fs, job, st).frames[0].chunk;
            && |c.text| <= LOG_LIMIT && (c.path == "" || c.path == job.stdoutExpanded || c.path == job.stderrExpanded)
            && c.offset < MAX_SIZE && c.nextOffset < MAX_SIZE && (c.size.Some? ==> c.size.value < MAX_SIZE)
  {
    var path := LogPath(job, st.name);
    if path in fs.files {
      var file := fs.files[path];
      var from := if st.offset > |file| then 0 else st.offset;
      EveryByteShows(file[from..Min(from + LOG_LIMIT, |file|)]);
    }
  }
}
