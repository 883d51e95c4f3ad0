/**
 `bytes.decode("utf-8", errors="replace")` as the agent calls it on every log chunk: UTF-8 of
 section 3 of RFC 3629, where each maximal ill-formed prefix becomes one U+FFFD.
 */
module Utf8 {
  import opened Seqs

  type Byte = b: int | 0 <= b < 256
  type Bytes = seq<Byte>

  const NEWLINE: Byte := 0x0A
  const REPLACEMENT: char := '\U{FFFD}'

  /** How many bytes the sequence opened by `lead` has; 0 when no sequence opens with it. */
  function Need(lead: Byte): nat {
    if lead < 0x80 then 1
    else if 0xC2 <= lead <= 0xDF then 2
    else if 0xE0 <= lead <= 0xEF then 3
    else if 0xF0 <= lead <= 0xF4 then 4
    else 0
  }

  /** May `b` stand `k` places after `lead`? Overlong forms and surrogates are shut out at place 1. */
  predicate Follows(lead: Byte, k: nat, b: Byte) {
    if k == 1 && lead == 0xE0 then 0xA0 <= b <= 0xBF
    else if k == 1 && lead == 0xED then 0x80 <= b <= 0x9F
    else if k == 1 && lead == 0xF0 then 0x90 <= b <= 0xBF
    else if k == 1 && lead == 0xF4 then 0x80 <= b <= 0x8F
    else 0x80 <= b <= 0xBF
  }

  /** Extends the first `k` bytes of `s`, already well formed, as far as they stay well formed. */
  function Extend(s: Bytes, k: nat): (n: nat)
    requires 1 <= k <= |s| && k <= Need(s[0])
    ensures k <= n <= |s| && n <= Need(s[0])
    ensures forall i | k <= i < n :: Follows(s[0], i, s[i])
    ensures n < Need(s[0]) && n < |s| ==> !Follows(s[0], n, s[n])
    decreases Need(s[0]) - k
  {
    if k < Need(s[0]) && k < |s| && Follows(s[0], k, s[k]) then Extend(s, k + 1) else k
  }

  /** Length of the first decoding unit: a whole sequence, or a maximal ill-formed prefix. */
  function Extent(s: Bytes): (n: nat)
    requires s != []
    ensures 1 <= n <= |s|
  {
    if Need(s[0]) <= 1 then 1 else Extend(s, 1)
  }

  function Unit(s: Bytes): (c: char)
    requires s != []
    ensures c == '\n' <==> s[0] == NEWLINE
  {
    if Extent(s) < Need(s[0]) || Need(s[0]) == 0 then REPLACEMENT else Scalar(s)
  }

  function Scalar(s: Bytes): (c: char)
    requires s != [] && Need(s[0]) > 0 && Extent(s) == Need(s[0])
    ensures c == '\n' <==> s[0] == NEWLINE
  {
    match Need(s[0])
    case 1 => s[0] as char
    case 2 => (Bits(s, 0, 0xC0) * 0x40 + Bits(s, 1, 0x80)) as char
    case 3 => (Bits(s, 0, 0xE0) * 0x1000 + Bits(s, 1, 0x80) * 0x40 + Bits(s, 2, 0x80)) as char
    case _ => (Bits(s, 0, 0xF0) * 0x40000 + Bits(s, 1, 0x80) * 0x1000 + Bits(s, 2, 0x80) * 0x40
               + Bits(s, 3, 0x80)) as char
  }

  /** The payload of byte `i` once its marker bits are taken off. */
  function Bits(s: Bytes, i: nat, marker: int): int
    requires i < |s|
  {
    s[i] as int - marker
  }

  function Decode(s: Bytes): string {
    if s == [] then "" else [Unit(s)] + Decode(s[Extent(s)..])
  }

  /** The bytes after the last finished unit: an incomplete sequence waiting for more, or nothing. */
  function Pending(s: Bytes): (p: Bytes)
    ensures p != [] ==> 1 <= |p| < Need(p[0]) && Extent(p) == |p|
  {
    if s == [] then []
    else if Extent(s) < |s| then Pending(s[Extent(s)..])
    else if |s| < Need(s[0]) then s
    else []
  }

  /** The boundary between `a` and `b` falls inside one encoded character. */
  predicate Straddles(a: Bytes, b: Bytes) {
    var p := Pending(a);
    p != [] && b != [] && Follows(p[0], |p|, b[0])
  }

  lemma ExtendIs(s: Bytes, k: nat, n: nat)
    requires 1 <= k <= n <= |s| && n <= Need(s[0])
    requires forall i | k <= i < n :: Follows(s[0], i, s[i])
    requires n < Need(s[0]) && n < |s| ==> !Follows(s[0], n, s[n])
    ensures Extend(s, k) == n
  {
  }

  lemma ExtentOfConcat(a: Bytes, b: Bytes)
    requires a != []
    requires Extent(a) < |a| || !Straddles(a, b)
    ensures Extent(a + b) == Extent(a) && Unit(a + b) == Unit(a)
  {
    var s := a + b;
    if Need(a[0]) > 1 {
      var n := Extent(a);
      assert forall i | 0 <= i < |a| :: s[i] == a[i];
      assert n == |a| < |s| ==> Pending(a) == (if n < Need(a[0]) then a else []) && s[n] == b[0];
      ExtendIs(s, 1, n);
    }
  }

  /** Stray continuation bytes decode to one replacement character each. */
  lemma {:induction false} DecodeStrays(b: Bytes, j: nat)
    requires j <= |b| && forall i | 0 <= i < j :: 0x80 <= b[i] <= 0xBF
    ensures |Decode(b)| == j + |Decode(b[j..])|
  {
    if j > 0 {
      DecodeStrays(b[1..], j - 1);
      assert b[1..][j - 1..] == b[j..];
    } else {
      assert b[0..] == b;
    }
  }

  /** Decoding chunk by chunk is decoding the whole, exactly when no character straddles the cut. */
  lemma DecodeConcat(a: Bytes, b: Bytes)
    ensures Decode(a + b) == Decode(a) + Decode(b) <==> !Straddles(a, b)
    ensures |Decode(a + b)| <= |Decode(a)| + |Decode(b)|
    ensures Straddles(a, b) ==> |Decode(a + b)| < |Decode(a)| + |Decode(b)|
  {
    if Straddles(a, b) {
      DecodeStraddled(a, b);
    } else {
      DecodeClean(a, b);
    }
  }

  /** One decoding step commutes with appending, unless the first unit is the one cut in two. */
  lemma DecodeStep(a: Bytes, b: Bytes)
    requires a != [] && (Extent(a) < |a| || !Straddles(a, b))
    ensures Decode(a + b) == [Unit(a)] + Decode(a[Extent(a)..] + b)
    ensures Decode(a) == [Unit(a)] + Decode(a[Extent(a)..])
    ensures Straddles(a[Extent(a)..], b) <==> Straddles(a, b) && Extent(a) < |a|
  {
    ExtentOfConcat(a, b);
    assert (a + b)[Extent(a)..] == a[Extent(a)..] + b;
  }

  lemma DecodedTogether(a: Bytes, b: Bytes, first: string, rest: string)
    requires Decode(a) == first + rest && Decode(a + b) == first + (rest + Decode(b))
    ensures Decode(a + b) == Decode(a) + Decode(b)
  {
    hide Decode;
    Associates(first, rest, Decode(b));
  }

  lemma {:induction false} DecodeClean(a: Bytes, b: Bytes)
    requires !Straddles(a, b)
    ensures Decode(a + b) == Decode(a) + Decode(b)
    decreases |a|
  {
    assert Decode([]) == "";
    hide Straddles, Extent, Unit, Decode;
    if a == [] {
      assert a + b == b;
    } else {
      var rest := a[Extent(a)..];
      DecodeStep(a, b);
      DecodeClean(rest, b);
      DecodedTogether(a, b, [Unit(a)], Decode(rest));
    }
  }

  lemma {:induction false} DecodeStraddled(a: Bytes, b: Bytes)
    requires Straddles(a, b)
    ensures |Decode(a + b)| < |Decode(a)| + |Decode(b)|
    decreases |a|
  {
    if Extent(a) < |a| {
      DecodeStep(a, b);
      DecodeStraddled(a[Extent(a)..], b);
    } else {
      DecodeCut(a, b);
    }
  }

  lemma ExtendReaches(s: Bytes, k: nat, m: nat)
    requires 1 <= k <= m <= |s| && m <= Need(s[0])
    requires forall i | k <= i < m :: Follows(s[0], i, s[i])
    ensures Extend(s, k) >= m
  {
  }

  /** A unit cut in two continues over the cut. */
  lemma CutUnit(a: Bytes, b: Bytes)
    requires a != [] && Extent(a) == |a| && Straddles(a, b)
    ensures |a| < Extent(a + b)
    ensures forall i | 0 <= i < Extent(a + b) - |a| :: 0x80 <= b[i] <= 0xBF
  {
    var s := a + b;
    assert Pending(a) == a;
    assert forall i | 0 <= i < |a| :: s[i] == a[i];
    assert s[|a|] == b[0];
    ExtendReaches(s, 1, |a| + 1);
    assert forall i | 0 <= i < Extent(s) - |a| :: b[i] == s[|a| + i] && Follows(s[0], |a| + i, s[|a| + i]);
  }

  lemma DecodeCut(a: Bytes, b: Bytes)
    requires a != [] && Extent(a) == |a| && Straddles(a, b)
    ensures |Decode(a + b)| < |Decode(a)| + |Decode(b)|
  {
    CutUnit(a, b);
    var s := a + b;
    var j := Extent(s) - |a|;
    DecodeFirst(a);
    DecodeFirst(s);
    assert s[Extent(s)..] == b[j..] && a[|a|..] == [] && Decode([]) == "";
    hide Extent, Unit, Straddles, Decode, Follows, Need;
    DecodeStrays(b, j);
  }

  lemma DecodeFirst(s: Bytes)
    requires s != []
    ensures |Decode(s)| == 1 + |Decode(s[Extent(s)..])|
  {
  }

  // ---- Newlines -------------------------------------------------------------------------

  lemma {:induction false} PendingAfterNewline(a: Bytes)
    ensures Pending(a + [NEWLINE]) == []
    decreases |a|
  {
    var s := a + [NEWLINE];
    if a == [] {
      assert Extent(s) == |s|;
    } else {
      ExtentOfConcat(a, [NEWLINE]);
      PendingAfterNewline(a[Extent(a)..]);
      assert s[Extent(s)..] == a[Extent(a)..] + [NEWLINE];
    }
  }

  lemma {:induction false} DecodeKeepsNewlines(s: Bytes)
    ensures '\n' in Decode(s) <==> NEWLINE in s
    decreases |s|
  {
    if s != [] {
      var n := Extent(s);
      DecodeKeepsNewlines(s[n..]);
      assert s == s[..n] + s[n..];
      assert forall i | 1 <= i < n :: Follows(s[0], i, s[i]);
    }
  }

  /** A text ends with a line break exactly if its bytes do. */
  lemma {:induction false} DecodedEnd(s: Bytes)
    requires s != []
    ensures Decode(s) != "" && (Last(Decode(s)) == '\n' <==> Last(s) == NEWLINE)
    decreases |s|
  {
    var n := Extent(s);
    if n < |s| {
      DecodedEnd(s[n..]);
      hide Extent, Unit;
    } else {
      OneUnitEnd(s);
      assert Decode(s) == [Unit(s)] + Decode(s[n..]) == [Unit(s)];
    }
  }

  lemma OneUnitEnd(s: Bytes)
    requires s != [] && Extent(s) == |s|
    ensures Last(s) == NEWLINE <==> s[0] == NEWLINE
  {
    assert |s| > 1 ==> Follows(s[0], |s| - 1, s[|s| - 1]);
  }

  /** No malformed sequence ever swallows a newline: decoding happens line by line. */
  lemma DecodeAtNewline(a: Bytes, b: Bytes)
    ensures Decode(a + [NEWLINE] + b) == Decode(a) + "\n" + Decode(b)
  {
    PendingAfterNewline(a);
    DecodeConcat(a + [NEWLINE], b);
    DecodeConcat(a, [NEWLINE]);
    assert Decode([NEWLINE]) == "\n" + Decode([NEWLINE][1..]);
    assert Decode([NEWLINE]) == "\n";
  }

  lemma DecodeAfterNewline(a: Bytes, b: Bytes)
    requires a != [] && Last(a) == NEWLINE
    ensures Decode(a + b) == Decode(a) + Decode(b)
  {
    assert a == Init(a) + [NEWLINE];
    PendingAfterNewline(Init(a));
    DecodeConcat(a, b);
  }

  /** Splitting the decoded text into lines is decoding each line of the bytes. */
  lemma {:induction false} SplitDecode(s: Bytes)
    ensures SplitOn(Decode(s), '\n') == MapSeq(Decode, SplitOn(s, NEWLINE))
    decreases |s|
  {
    if NEWLINE !in s {
      SplitDecodeOneLine(s);
    } else {
      var a, b := CutAtFirst(s, NEWLINE);
      SplitDecode(b);
      SplitDecodeAt(a, b);
    }
  }

  lemma SplitDecodeOneLine(s: Bytes)
    requires NEWLINE !in s
    ensures SplitOn(Decode(s), '\n') == MapSeq(Decode, SplitOn(s, NEWLINE))
  {
    DecodeKeepsNewlines(s);
    SplitAbsent(s, NEWLINE);
    SplitAbsent(Decode(s), '\n');
  }

  lemma SplitDecodeAt(a: Bytes, b: Bytes)
    requires NEWLINE !in a
    requires SplitOn(Decode(b), '\n') == MapSeq(Decode, SplitOn(b, NEWLINE))
    ensures SplitOn(Decode(a + [NEWLINE] + b), '\n') == MapSeq(Decode, SplitOn(a + [NEWLINE] + b, NEWLINE))
  {
    DecodeAtNewline(a, b);
    DecodeKeepsNewlines(a);
    SplitAtFirst(a, NEWLINE, b);
    SplitAtFirst(Decode(a), '\n', Decode(b));
  }

  lemma NewlineCount(s: Bytes)
    ensures Count(Decode(s), '\n') == Count(s, NEWLINE)
  {
    SplitDecode(s);
    SplitLength(s, NEWLINE);
    SplitLength(Decode(s), '\n');
  }

  // ---- Well-formed text -----------------------------------------------------------------

  /** UTF-8 of one character, section 3 of RFC 3629. */
  function Encode(c: char): (b: Bytes)
    ensures 1 <= |b| <= 4
  {
    var n := c as int;
    if n < 0x80 then [n]
    else if n < 0x800 then [0xC0 + n / 0x40, 0x80 + n % 0x40]
    else if n < 0x10000 then [0xE0 + n / 0x1000, 0x80 + n / 0x40 % 0x40, 0x80 + n % 0x40]
    else [0xF0 + n / 0x40000, 0x80 + n / 0x1000 % 0x40, 0x80 + n / 0x40 % 0x40, 0x80 + n % 0x40]
  }

  function EncodeText(t: string): Bytes {
    if t == "" then [] else Encode(t[0]) + EncodeText(t[1..])
  }

  lemma DecodeEncoded(c: char, rest: Bytes)
    ensures Extent(Encode(c) + rest) == |Encode(c)| == Need(Encode(c)[0])
    ensures Unit(Encode(c) + rest) == c
  {
    EncodeOpens(c);
    EncodeExtent(c, rest);
    ScalarOfEncoding(c, Encode(c) + rest);
  }

  lemma ThreeParts(n: nat)
    ensures n == n / 0x1000 * 0x1000 + n / 0x40 % 0x40 * 0x40 + n % 0x40
  {
  }

  lemma FourParts(n: nat)
    ensures n == n / 0x40000 * 0x40000 + n / 0x1000 % 0x40 * 0x1000 + n / 0x40 % 0x40 * 0x40 + n % 0x40
  {
    var a := n / 0x40;
    var b := a / 0x40;
    var c := b / 0x40;
    assert b == n / 0x1000;
    assert c == n / 0x40000;
  }

  lemma ScalarOfEncoding(c: char, s: Bytes)
    requires s != [] && Need(s[0]) > 0 && Extent(s) == Need(s[0]) == |Encode(c)|
    requires forall i | 0 <= i < |Encode(c)| :: s[i] == Encode(c)[i]
    ensures Scalar(s) == c
  {
    hide Extent, Follows;
    var n, e := c as int, Encode(c);
    if n < 0x80 {
      assert s[0] == e[0];
    } else if n < 0x800 {
      assert s[0] == e[0] && s[1] == e[1];
    } else if n < 0x10000 {
      assert s[0] == e[0] && s[1] == e[1] && s[2] == e[2];
      ThreeParts(n);
    } else {
      assert s[0] == e[0] && s[1] == e[1] && s[2] == e[2] && s[3] == e[3];
      FourParts(n);
    }
  }

  predicate Opens(e: Bytes) {
    e != [] && Need(e[0]) == |e| && forall i | 1 <= i < |e| :: Follows(e[0], i, e[i])
  }

  lemma ShortOpens(c: char)
    requires c as int < 0x800
    ensures Opens(Encode(c))
  {
  }

  lemma ThreeOpens(c: char)
    requires 0x800 <= c as int < 0x10000
    ensures Opens(Encode(c))
  {
  }

  lemma FourOpens(c: char)
    requires 0x10000 <= c as int
    ensures Opens(Encode(c))
  {
  }

  lemma EncodeOpens(c: char)
    ensures Opens(Encode(c))
  {
    if c as int < 0x800 { ShortOpens(c); } else if c as int < 0x10000 { ThreeOpens(c); } else { FourOpens(c); }
  }

  lemma EncodeExtent(c: char, rest: Bytes)
    requires Opens(Encode(c))
    ensures Extent(Encode(c) + rest) == |Encode(c)|
  {
    var e := Encode(c);
    var s := e + rest;
    assert forall i | 0 <= i < |e| :: s[i] == e[i];
    assert forall i | 1 <= i < |e| :: Follows(s[0], i, s[i]);
  }

  /** Replacement decoding is the identity on well-formed text, and such text never straddles a cut. */
  lemma {:induction false} RoundTrip(t: string)
    ensures Decode(EncodeText(t)) == t
    ensures Pending(EncodeText(t)) == []
  {
    if t != "" {
      var rest := EncodeText(t[1..]);
      RoundTrip(t[1..]);
      DecodeEncoded(t[0], rest);
      assert (Encode(t[0]) + rest)[|Encode(t[0])|..] == rest;
    }
  }

  // ---- What decoding without a replacement means --------------------------------------------------

  lemma TwoEncode(a: Byte, b: Byte)
    requires 0xC2 <= a <= 0xDF && 0x80 <= b <= 0xBF
    ensures Encode(((a - 0xC0) * 0x40 + (b - 0x80)) as char) == [a, b]
  {
    var n := (a - 0xC0) * 0x40 + (b - 0x80);
    assert n / 0x40 == a - 0xC0 && n % 0x40 == b - 0x80;
  }

  lemma ThreeEncode(a: Byte, b: Byte, c: Byte)
    requires 0xE0 <= a <= 0xEF && Follows(a, 1, b) && Follows(a, 2, c)
    ensures var n := (a - 0xE0) * 0x1000 + (b - 0x80) * 0x40 + (c - 0x80);
            0x800 <= n < 0xD800 || 0xE000 <= n < 0x10000
    ensures Encode(((a - 0xE0) * 0x1000 + (b - 0x80) * 0x40 + (c - 0x80)) as char) == [a, b, c]
  {
    var n := (a - 0xE0) * 0x1000 + (b - 0x80) * 0x40 + (c - 0x80);
    assert n / 0x1000 == a - 0xE0 && n / 0x40 == (a - 0xE0) * 0x40 + (b - 0x80);
    assert n / 0x40 % 0x40 == b - 0x80 && n % 0x40 == c - 0x80;
  }

  lemma FourEncode(a: Byte, b: Byte, c: Byte, d: Byte)
    requires 0xF0 <= a <= 0xF4 && Follows(a, 1, b) && Follows(a, 2, c) && Follows(a, 3, d)
    ensures var n := (a - 0xF0) * 0x40000 + (b - 0x80) * 0x1000 + (c - 0x80) * 0x40 + (d - 0x80);
            0x10000 <= n < 0x110000
    ensures Encode(((a - 0xF0) * 0x40000 + (b - 0x80) * 0x1000 + (c - 0x80) * 0x40 + (d - 0x80)) as char)
            == [a, b, c, d]
  {
    var n := (a - 0xF0) * 0x40000 + (b - 0x80) * 0x1000 + (c - 0x80) * 0x40 + (d - 0x80);
    var m := (a - 0xF0) * 0x1000 + (b - 0x80) * 0x40 + (c - 0x80);
    assert n / 0x40 == m && n % 0x40 == d - 0x80;
    assert m % 0x40 == c - 0x80 && n / 0x1000 == (a - 0xF0) * 0x40 + (b - 0x80);
    assert n / 0x1000 % 0x40 == b - 0x80 && n / 0x40000 == a - 0xF0;
  }

  /** A unit that is not replaced is the encoding of its character. */
  lemma UnitEncodes(s: Bytes)
    requires s != [] && Unit(s) != REPLACEMENT
    ensures Encode(Unit(s)) == s[..Extent(s)]
  {
    var n := Need(s[0]);
    assert Extent(s) == n && Unit(s) == Scalar(s);
    assert forall i | 1 <= i < n :: Follows(s[0], i, s[i]);
    hide Extent, Unit;
    if n == 2 {
      assert Follows(s[0], 1, s[1]);
      hide Encode;
      TwoEncode(s[0], s[1]);
    } else if n == 3 {
      assert Follows(s[0], 1, s[1]) && Follows(s[0], 2, s[2]);
      hide Encode;
      ThreeEncode(s[0], s[1], s[2]);
    } else if n == 4 {
      assert Follows(s[0], 1, s[1]) && Follows(s[0], 2, s[2]) && Follows(s[0], 3, s[3]);
      hide Encode;
      FourEncode(s[0], s[1], s[2], s[3]);
    }
  }

  /** Text that shows no replacement character was well formed: its encoding is the bytes it was read from. */
  lemma {:induction false} UnreplacedIsExact(s: Bytes)
    requires REPLACEMENT !in Decode(s)
    ensures EncodeText(Decode(s)) == s
    decreases |s|
  {
    hide Decode, EncodeText, Unit, Extent, Encode;
    if s == [] {
      NothingDecoded();
    } else {
      var n := Extent(s);
      UnreplacedStep(s);
      UnreplacedIsExact(s[n..]);
      UnitEncodes(s);
      assert s == s[..n] + s[n..];
    }
  }

  lemma NothingDecoded()
    ensures Decode([]) == "" && EncodeText("") == []
  {
  }

  lemma UnreplacedStep(s: Bytes)
    requires s != [] && REPLACEMENT !in Decode(s)
    ensures REPLACEMENT !in Decode(s[Extent(s)..]) && Unit(s) != REPLACEMENT
    ensures EncodeText(Decode(s)) == Encode(Unit(s)) + EncodeText(Decode(s[Extent(s)..]))
  {
    var rest := s[Extent(s)..];
    assert Decode(s) == [Unit(s)] + Decode(rest);
    hide Unit, Extent, Encode;
    assert Decode(s)[0] == Unit(s) && Decode(s)[1..] == Decode(rest);
    assert forall c | c in Decode(rest) :: c in Decode(s);
  }

  // ---- Reassembly -----------------------------------------------------------------------

  function DecodeChunks(chunks: seq<Bytes>): string {
    if chunks == [] then "" else DecodeChunks(Init(chunks)) + Decode(Last(chunks))
  }

  /** No chunk begins inside a character that the chunks before it left unfinished. */
  predicate CutsBetweenCharacters(chunks: seq<Bytes>) {
    forall i | 0 <= i < |chunks| :: !Straddles(Flatten(chunks[..i]), chunks[i])
  }

  lemma CutsStep(before: seq<Bytes>, z: Bytes)
    ensures CutsBetweenCharacters(before + [z])
       <==> CutsBetweenCharacters(before) && !Straddles(Flatten(before), z)
  {
    var chunks := before + [z];
    assert forall i | 0 <= i < |before| :: chunks[..i] == before[..i] && chunks[i] == before[i];
    assert chunks[..|before|] == before && chunks[|before|] == z;
  }

  lemma {:induction false} Reassembly(chunks: seq<Bytes>)
    ensures DecodeChunks(chunks) == Decode(Flatten(chunks)) <==> CutsBetweenCharacters(chunks)
    ensures |Decode(Flatten(chunks))| <= |DecodeChunks(chunks)|
    ensures !CutsBetweenCharacters(chunks) ==> |Decode(Flatten(chunks))| < |DecodeChunks(chunks)|
  {
    if chunks != [] {
      var before, z := Init(chunks), Last(chunks);
      Reassembly(before);
      DecodeConcat(Flatten(before), z);
      CutsStep(before, z);
      FlattenConcat(before, [z]);
      assert chunks == before + [z];
      assert Flatten([z]) == z;
    }
  }

  lemma {:induction false} EveryByteShows(s: Bytes)
    ensures s != [] ==> Decode(s) != ""
    ensures |Decode(s)| <= |s|
    decreases |s|
  {
    if s != [] { EveryByteShows(s[Extent(s)..]); }
  }

  /** A euro sign read one byte short shows two replacement characters instead of one sign. */
  lemma StraddledEuro()
    ensures DecodeChunks([[0xE2, 0x82], [0xAC]]) == [REPLACEMENT, REPLACEMENT]
    ensures Decode(Flatten([[0xE2, 0x82], [0xAC]])) == "\U{20AC}"
  {
    DecodeEncoded('\U{20AC}', []);
    var euro: Bytes := [0xE2, 0x82, 0xAC];
    assert Encode('\U{20AC}') + [] == euro;
    assert euro[3..] == [];
    var a: Bytes, b: Bytes := [0xE2, 0x82], [0xAC];
    assert Flatten([a, b]) == a + (b + Flatten([a, b][2..])) == euro;
    assert Extent(a) == 2 && a[2..] == [];
    assert Decode(a) == [REPLACEMENT] + Decode(a[2..]);
    assert b[1..] == [];
    assert Decode(b) == [REPLACEMENT] + Decode(b[1..]);
    assert Init([a, b]) == [a] && Init([a]) == [];
    assert DecodeChunks([a]) == DecodeChunks([]) + Decode(a);
  }
}
