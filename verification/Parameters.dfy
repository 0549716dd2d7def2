/** Base64 (section 4 of RFC 4648) and the size arithmetic around it in the dispatcher's request parameters. */
module Parameters {
  import opened Wrappers
  import opened Bytes

  // ------------------------------------------------------------------------- base64

  /** A digit of the alphabet. */
  function Symbol(n: nat): char
    requires n < 64
  {
    if n < 26 then ('A' as int + n) as char
    else if n < 52 then ('a' as int + n - 26) as char
    else if n < 62 then ('0' as int + n - 52) as char
    else if n == 62 then '+'
    else '/'
  }

  function Value(c: char): (n: Option<nat>)
    ensures n.Some? ==> n.value < 64
  {
    if 'A' <= c <= 'Z' then Some(c as nat - 65)
    else if 'a' <= c <= 'z' then Some(c as nat - 97 + 26)
    else if '0' <= c <= '9' then Some(c as nat - 48 + 52)
    else if c == '+' then Some(62)
    else if c == '/' then Some(63)
    else None
  }

  /** The four symbols of three bytes. */
  function Group(a: byte, b: byte, c: byte): (s: string)
    ensures |s| == 4
  {
    [Symbol(a / 4), Symbol(a % 4 * 16 + b / 16), Symbol(b % 16 * 4 + c / 64), Symbol(c % 64)]
  }

  /** Three bytes to four symbols; one or two bytes at the end are padded. */
  function Encode(b: seq<byte>): string {
    if b == [] then ""
    else if |b| == 1 then [Symbol(b[0] / 4), Symbol(b[0] % 4 * 16), '=', '=']
    else if |b| == 2 then [Symbol(b[0] / 4), Symbol(b[0] % 4 * 16 + b[1] / 16), Symbol(b[1] % 16 * 4), '=']
    else Group(b[0], b[1], b[2]) + Encode(b[3..])
  }

  /** The bytes of a last group, whose unused bits must be zero. */
  function DecodePadded(s: string): Option<seq<byte>>
    requires |s| == 4 && s[3] == '='
  {
    var x :- Value(s[0]);
    var y :- Value(s[1]);
    if s[2] == '=' then
      if y % 16 != 0 then None else Some([x * 4 + y / 16])
    else
      var z :- Value(s[2]);
      if z % 4 != 0 then None else Some([x * 4 + y / 16, y % 16 * 16 + z / 4])
  }

  function DecodeGroup(s: string): Option<seq<byte>>
    requires |s| == 4
  {
    var x :- Value(s[0]);
    var y :- Value(s[1]);
    var z :- Value(s[2]);
    var w :- Value(s[3]);
    Some([x * 4 + y / 16, y % 16 * 16 + z / 4, z % 4 * 64 + w])
  }

  /** A strict decoder: padding required, and nothing in the bits it covers. */
  function Decode(s: string): Option<seq<byte>> {
    if s == "" then Some([])
    else if |s| < 4 then None
    else if |s| == 4 && s[3] == '=' then DecodePadded(s)
    else
      var group :- DecodeGroup(s[..4]);
      var rest :- Decode(s[4..]);
      Some(group + rest)
  }

  lemma SymbolValue(n: nat)
    requires n < 64
    ensures Value(Symbol(n)) == Some(n) && Symbol(n) != '='
  {}

  lemma ValueSymbol(c: char)
    requires Value(c).Some?
    ensures Symbol(Value(c).value) == c && c != '='
  {}

  lemma SixBits(a: byte, b: byte)
    ensures var y := a % 4 * 16 + b / 16; y < 64 && a / 4 * 4 + y / 16 == a && y % 16 == b / 16
  {}

  lemma FourBits(b: byte, c: byte)
    ensures var z := b % 16 * 4 + c / 64; z < 64 && b / 16 * 16 + z / 4 == b && z % 4 == c / 64
  {}

  lemma PaddedOne(s: string, a: byte)
    requires |s| == 4 && s[2] == '=' && s[3] == '='
    requires Value(s[0]) == Some(a / 4) && Value(s[1]) == Some(a % 4 * 16)
    ensures DecodePadded(s) == Some([a])
  {
    SixBits(a, 0);
  }

  lemma PaddedTwo(s: string, a: byte, b: byte)
    requires |s| == 4 && s[2] != '=' && s[3] == '='
    requires Value(s[0]) == Some(a / 4) && Value(s[1]) == Some(a % 4 * 16 + b / 16) && Value(s[2]) == Some(b % 16 * 4)
    ensures DecodePadded(s) == Some([a, b])
  {
    SixBits(a, b);
    FourBits(b, 0);
  }

  lemma GroupOfThree(s: string, a: byte, b: byte, c: byte)
    requires |s| == 4
    requires Value(s[0]) == Some(a / 4) && Value(s[1]) == Some(a % 4 * 16 + b / 16)
    requires Value(s[2]) == Some(b % 16 * 4 + c / 64) && Value(s[3]) == Some(c % 64)
    ensures DecodeGroup(s) == Some([a, b, c])
  {
    SixBits(a, b);
    FourBits(b, c);
  }

  lemma ShortReadsBack(b: seq<byte>)
    requires |b| == 1 || |b| == 2
    ensures Decode(Encode(b)) == Some(b)
  {
    var s := Encode(b);
    SymbolValue(b[0] / 4);
    if |b| == 1 {
      SymbolValue(b[0] % 4 * 16);
      PaddedOne(s, b[0]);
      assert b == [b[0]];
    } else {
      SymbolValue(b[0] % 4 * 16 + b[1] / 16);
      SymbolValue(b[1] % 16 * 4);
      PaddedTwo(s, b[0], b[1]);
      assert b == [b[0], b[1]];
    }
  }

  lemma GroupReadsBack(a: byte, b: byte, c: byte)
    ensures Group(a, b, c)[3] != '=' && DecodeGroup(Group(a, b, c)) == Some([a, b, c])
  {
    SymbolValue(a / 4);
    SymbolValue(a % 4 * 16 + b / 16);
    SymbolValue(b % 16 * 4 + c / 64);
    SymbolValue(c % 64);
    GroupOfThree(Group(a, b, c), a, b, c);
  }

  lemma DecodeFirstGroup(head: string, tail: string)
    requires |head| == 4 && head[3] != '=' && DecodeGroup(head).Some? && Decode(tail).Some?
    ensures Decode(head + tail) == Some(DecodeGroup(head).value + Decode(tail).value)
  {
    var s := head + tail;
    assert s[..4] == head && s[4..] == tail;
  }

  lemma GroupAndRest(b: seq<byte>, head: string, tail: string)
    requires |b| >= 3 && |head| == 4 && head[3] != '='
    requires DecodeGroup(head) == Some([b[0], b[1], b[2]]) && Decode(tail) == Some(b[3..])
    ensures Decode(head + tail) == Some(b)
  {
    DecodeFirstGroup(head, tail);
    assert b == [b[0], b[1], b[2]] + b[3..];
  }

  lemma LongReadsBack(b: seq<byte>)
    requires |b| >= 3 && Decode(Encode(b[3..])) == Some(b[3..])
    ensures Decode(Encode(b)) == Some(b)
  {
    GroupReadsBack(b[0], b[1], b[2]);
    GroupAndRest(b, Group(b[0], b[1], b[2]), Encode(b[3..]));
  }

  /** Whatever is encoded is decoded to itself. */
  lemma {:induction false} EncodedReadsBack(b: seq<byte>)
    ensures Decode(Encode(b)) == Some(b)
  {
    if |b| == 1 || |b| == 2 {
      ShortReadsBack(b);
    } else if b != [] {
      EncodedReadsBack(b[3..]);
      LongReadsBack(b);
    }
  }

  lemma PaddedIsCanonical(s: string)
    requires |s| == 4 && s[3] == '=' && DecodePadded(s).Some?
    ensures Encode(DecodePadded(s).value) == s
  {
    ValueSymbol(s[0]);
    ValueSymbol(s[1]);
    var b := DecodePadded(s).value;
    var x, y := Value(s[0]).value, Value(s[1]).value;
    assert b[0] / 4 == x;
    if s[2] == '=' {
      assert b[0] % 4 * 16 == y;
    } else {
      ValueSymbol(s[2]);
      var z := Value(s[2]).value;
      assert b[0] % 4 * 16 + b[1] / 16 == y && b[1] % 16 * 4 == z;
    }
  }

  lemma GroupIsCanonical(s: string)
    requires |s| == 4 && DecodeGroup(s).Some?
    ensures |DecodeGroup(s).value| == 3 && Encode(DecodeGroup(s).value) == s
  {
    ValueSymbol(s[0]);
    ValueSymbol(s[1]);
    ValueSymbol(s[2]);
    ValueSymbol(s[3]);
    var b := DecodeGroup(s).value;
    var x, y, z, w := Value(s[0]).value, Value(s[1]).value, Value(s[2]).value, Value(s[3]).value;
    assert b[0] / 4 == x && b[0] % 4 * 16 + b[1] / 16 == y && b[1] % 16 * 4 + b[2] / 64 == z && b[2] % 64 == w;
    assert Encode(b[3..]) == "";
  }

  /** There is one text for every content: whatever is decoded is what encoding gives. */
  lemma {:induction false} DecodedIsCanonical(s: string)
    requires Decode(s).Some?
    ensures Encode(Decode(s).value) == s
  {
    if s == "" {
    } else if |s| == 4 && s[3] == '=' {
      PaddedIsCanonical(s);
    } else {
      GroupIsCanonical(s[..4]);
      DecodedIsCanonical(s[4..]);
      var group, rest := DecodeGroup(s[..4]).value, Decode(s[4..]).value;
      var b := group + rest;
      assert b[3..] == rest && Encode(group[3..]) == "";
      assert Encode(b) == Encode(group) + Encode(rest);
      assert s == s[..4] + s[4..];
    }
  }

  // What base64 is, told by the alphabet as it is printed and by the bits.

  const ALPHABET: string := "ABCDEFGHIJKLMNOPQRSTUVWXYZ" + "abcdefghijklmnopqrstuvwxyz" + "0123456789+/"

  /** The character stands for these six bits. */
  predicate StandsFor(c: char, bits: int) {
    0 <= bits < 64 && ALPHABET[bits] == c
  }

  ghost predicate SpellsOne(s: string, a: byte)
    requires |s| == 4
  {
    && s[2] == '=' && s[3] == '='
    && exists p, q :: StandsFor(s[0], p) && StandsFor(s[1], q) && p * 262144 + q * 4096 == a * 65536
  }

  ghost predicate SpellsTwo(s: string, a: byte, b: byte)
    requires |s| == 4
  {
    && s[3] == '='
    && exists p, q, r ::
         && StandsFor(s[0], p) && StandsFor(s[1], q) && StandsFor(s[2], r)
         && p * 262144 + q * 4096 + r * 64 == a * 65536 + b * 256
  }

  ghost predicate SpellsThree(s: string, a: byte, b: byte, c: byte)
    requires |s| == 4
  {
    exists p, q, r, t ::
      && StandsFor(s[0], p) && StandsFor(s[1], q) && StandsFor(s[2], r) && StandsFor(s[3], t)
      && p * 262144 + q * 4096 + r * 64 + t == a * 65536 + b * 256 + c
  }

  /** The text stands for these bytes: 24 bits in four characters, and zero bits and '=' to fill up the last four. */
  ghost predicate Spells(s: string, b: seq<byte>) {
    if b == [] then s == ""
    else if |b| == 1 then |s| == 4 && SpellsOne(s, b[0])
    else if |b| == 2 then |s| == 4 && SpellsTwo(s, b[0], b[1])
    else |s| >= 4 && SpellsThree(s[..4], b[0], b[1], b[2]) && Spells(s[4..], b[3..])
  }

  lemma SymbolIsListed(n: nat)
    requires n < 64
    ensures ALPHABET[n] == Symbol(n)
  {
    if n < 26 {
      assert "ABCDEFGHIJKLMNOPQRSTUVWXYZ"[n] == Symbol(n);
    } else if n < 52 {
      assert "abcdefghijklmnopqrstuvwxyz"[n - 26] == Symbol(n);
    } else {
      assert "0123456789+/"[n - 52] == Symbol(n);
    }
  }

  lemma SymbolStandsFor(c: char, bits: int)
    ensures StandsFor(c, bits) <==> 0 <= bits < 64 && c == Symbol(bits)
  {
    if 0 <= bits < 64 {
      SymbolIsListed(bits);
    }
  }

  lemma SameDigits(p: int, q: int, r: int, t: int, x: int, y: int, z: int, w: int)
    requires 0 <= p < 64 && 0 <= q < 64 && 0 <= r < 64 && 0 <= t < 64
    requires 0 <= x < 64 && 0 <= y < 64 && 0 <= z < 64 && 0 <= w < 64
    requires p * 262144 + q * 4096 + r * 64 + t == x * 262144 + y * 4096 + z * 64 + w
    ensures p == x && q == y && r == z && t == w
  {
    assert p == x;
    assert q == y;
  }

  /** The 24 bits of three bytes, six by six. */
  lemma SixBitsOf24(a: byte, b: byte, c: byte)
    ensures var p, q, r, t := a / 4, a % 4 * 16 + b / 16, b % 16 * 4 + c / 64, c % 64;
            && p < 64 && q < 64 && r < 64
            && p * 262144 + q * 4096 + r * 64 + t == a * 65536 + b * 256 + c
  {
    assert a == a / 4 * 4 + a % 4 && b == b / 16 * 16 + b % 16 && c == c / 64 * 64 + c % 64;
  }

  lemma OneSpells(s: string, a: byte, p: int, q: int)
    requires |s| == 4 && 0 <= p < 64 && 0 <= q < 64 && p * 262144 + q * 4096 == a * 65536
    ensures SpellsOne(s, a) <==> s == [Symbol(p), Symbol(q), '=', '=']
  {
    SymbolStandsFor(s[0], p);
    SymbolStandsFor(s[1], q);
    if SpellsOne(s, a) {
      var x, y :| StandsFor(s[0], x) && StandsFor(s[1], y) && x * 262144 + y * 4096 == a * 65536;
      SameDigits(x, y, 0, 0, p, q, 0, 0);
    }
  }

  lemma TwoSpell(s: string, a: byte, b: byte, p: int, q: int, r: int)
    requires |s| == 4 && 0 <= p < 64 && 0 <= q < 64 && 0 <= r < 64
    requires p * 262144 + q * 4096 + r * 64 == a * 65536 + b * 256
    ensures SpellsTwo(s, a, b) <==> s == [Symbol(p), Symbol(q), Symbol(r), '=']
  {
    SymbolStandsFor(s[0], p);
    SymbolStandsFor(s[1], q);
    SymbolStandsFor(s[2], r);
    if SpellsTwo(s, a, b) {
      var x, y, z :|
        && StandsFor(s[0], x) && StandsFor(s[1], y) && StandsFor(s[2], z)
        && x * 262144 + y * 4096 + z * 64 == a * 65536 + b * 256;
      SameDigits(x, y, z, 0, p, q, r, 0);
    }
  }

  lemma ThreeSpell(s: string, a: byte, b: byte, c: byte, p: int, q: int, r: int, t: int)
    requires |s| == 4 && 0 <= p < 64 && 0 <= q < 64 && 0 <= r < 64 && 0 <= t < 64
    requires p * 262144 + q * 4096 + r * 64 + t == a * 65536 + b * 256 + c
    ensures SpellsThree(s, a, b, c) <==> s == [Symbol(p), Symbol(q), Symbol(r), Symbol(t)]
  {
    SymbolStandsFor(s[0], p);
    SymbolStandsFor(s[1], q);
    SymbolStandsFor(s[2], r);
    SymbolStandsFor(s[3], t);
    if SpellsThree(s, a, b, c) {
      var x, y, z, w :|
        && StandsFor(s[0], x) && StandsFor(s[1], y) && StandsFor(s[2], z) && StandsFor(s[3], w)
        && x * 262144 + y * 4096 + z * 64 + w == a * 65536 + b * 256 + c;
      SameDigits(x, y, z, w, p, q, r, t);
    }
  }

  lemma PaddedSpells(s: string, b: seq<byte>)
    requires |s| == 4 && 1 <= |b| <= 2
    ensures Spells(s, b) <==> s == Encode(b)
  {
    if |b| == 1 {
      SixBitsOf24(b[0], 0, 0);
      OneSpells(s, b[0], b[0] / 4, b[0] % 4 * 16);
    } else {
      SixBitsOf24(b[0], b[1], 0);
      TwoSpell(s, b[0], b[1], b[0] / 4, b[0] % 4 * 16 + b[1] / 16, b[1] % 16 * 4);
    }
  }

  lemma GroupSpells(s: string, a: byte, b: byte, c: byte)
    requires |s| == 4
    ensures SpellsThree(s, a, b, c) <==> s == Group(a, b, c)
  {
    SixBitsOf24(a, b, c);
    ThreeSpell(s, a, b, c, a / 4, a % 4 * 16 + b / 16, b % 16 * 4 + c / 64, c % 64);
  }

  lemma {:induction false} EncodedSpells(s: string, b: seq<byte>)
    ensures Spells(s, b) <==> s == Encode(b)
  {
    if |s| == 4 && 1 <= |b| <= 2 {
      PaddedSpells(s, b);
    } else if |b| >= 3 && |s| >= 4 {
      GroupSpells(s[..4], b[0], b[1], b[2]);
      EncodedSpells(s[4..], b[3..]);
      assert s == s[..4] + s[4..];
      assert Encode(b)[..4] == Group(b[0], b[1], b[2]) && Encode(b)[4..] == Encode(b[3..]);
    }
  }

  /** The decoder reads a text as some bytes exactly if it stands for them. */
  lemma DecodesExactly(s: string, b: seq<byte>)
    ensures Decode(s) == Some(b) <==> Spells(s, b)
  {
    EncodedSpells(s, b);
    EncodedReadsBack(b);
    if Decode(s) == Some(b) {
      DecodedIsCanonical(s);
    }
  }

  lemma {:induction false} EncodedLength(b: seq<byte>)
    ensures |Encode(b)| == (|b| + 2) / 3 * 4
  {
    if |b| >= 3 {
      EncodedLength(b[3..]);
      assert (|b| + 2) / 3 == (|b| - 3 + 2) / 3 + 1;
    }
  }

  lemma {:induction false} EncodedIsAscii(b: seq<byte>)
    ensures forall i | 0 <= i < |Encode(b)| :: Encode(b)[i] as int < 0x80
  {
    if |b| >= 3 {
      EncodedIsAscii(b[3..]);
    }
  }

  // ------------------------------------------------------------------ content to write

  const MAX_WRITE_BYTES: nat := 1024 * 1024
  const MAX_ENCODED: nat := MAX_WRITE_BYTES * 4 / 3 + 8

  datatype ParameterError =
    | MissingWriteContent
    | InvalidWriteContent
    | WriteTooLarge(size: nat)
    | InvalidTerminalParameters

  /** The content of a write, from the text that carries it. */
  function RemoteWriteContent(text: Option<string>): Result<seq<byte>, ParameterError> {
    if text.None? then Err(MissingWriteContent)
    else if |Utf8(text.value)| > MAX_ENCODED then Err(WriteTooLarge(|Utf8(text.value)|))
    else
      match Decode(text.value)
      case None => Err(InvalidWriteContent)
      case Some(content) => if |content| > MAX_WRITE_BYTES then Err(WriteTooLarge(|content|)) else Ok(content)
  }

  /**
   * A text is accepted exactly if it is the encoding of at most 1 MiB: the check of the text's length, which
   * comes first and divides before rounding up, never turns such a text away.
   */
  lemma WriteAcceptedExactly(text: string, content: seq<byte>)
    ensures RemoteWriteContent(Some(text)) == Ok(content) <==> text == Encode(content) && |content| <= 1_048_576
  {
    EncodedReadsBack(content);
    EncodedLength(content);
    EncodedIsAscii(content);
    AsciiLength(Encode(content));
    if Decode(text).Some? {
      DecodedIsCanonical(text);
    }
    if |content| <= MAX_WRITE_BYTES {
      assert (|content| + 2) / 3 * 4 <= MAX_ENCODED;
    }
  }

  /** Why a content is refused: its text or what it stands for is too large, or it stands for nothing. */
  lemma WriteRefusedExactly(text: string, size: nat)
    ensures RemoteWriteContent(Some(text)) == Err(InvalidWriteContent) <==> |Utf8(text)| <= 1_398_109 && Decode(text).None?
    ensures RemoteWriteContent(Some(text)) == Err(WriteTooLarge(size))
       <==> || (|Utf8(text)| > 1_398_109 && size == |Utf8(text)|)
            || (&& |Utf8(text)| <= 1_398_109 && Decode(text).Some?
                && size == |Decode(text).value| && size > 1_048_576)
  {
    assert MAX_ENCODED == 1_398_109;
  }

  // ------------------------------------------------------------------ terminal parameters

  /** A parameter value, as far as it matters here. */
  datatype Json = Text(text: string) | Number(number: u64) | Items(items: seq<Json>) | OtherJson

  const RESERVED: nat := 16 * 1024
  const DEFAULT_OUTPUT: u64 := 256 * 1024
  const DEFAULT_TIMEOUT: u64 := 30_000
  const ALLOWED := {"argv", "timeout_ms", "max_output_bytes", "columns", "rows", "workspace_id"}

  datatype TerminalSpec = TerminalSpec(
    argv: seq<string>,
    cwd: string,
    timeoutMs: u64,
    maxOutputBytes: u64,
    columns: u64,
    rows: u64
  )

  /** How much output may be asked for, so that it fits the dispatcher's limit once it is encoded and wrapped. */
  function JsonSafeLimit(limit: u64): u64 {
    SaturatingMul(SaturatingSub(limit, RESERVED), 3) / 4
  }

  /** A number that may be left out; `None` if it is there but is not a number. */
  function NumberOr(parameters: map<string, Json>, key: string, default: u64): Option<u64> {
    if key !in parameters then Some(default)
    else if parameters[key].Number? then Some(parameters[key].number)
    else None
  }

  function AllTexts(items: seq<Json>): Option<seq<string>> {
    if items == [] then Some([])
    else if !items[0].Text? then None
    else
      var rest :- AllTexts(items[1..]);
      Some([items[0].text] + rest)
  }

  function RemoteTerminalSpec(parameters: map<string, Json>, target: string, limit: u64): Option<TerminalSpec> {
    if exists k :: k in parameters && k !in ALLOWED then None
    else if "argv" !in parameters || !parameters["argv"].Items? then None
    else
      var argv :- AllTexts(parameters["argv"].items);
      if argv == [] then None
      else
        var timeout :- NumberOr(parameters, "timeout_ms", DEFAULT_TIMEOUT);
        if JsonSafeLimit(limit) == 0 then None
        else
          var asked :- NumberOr(parameters, "max_output_bytes", DEFAULT_OUTPUT);
          var columns :- NumberOr(parameters, "columns", 120);
          var rows :- NumberOr(parameters, "rows", 40);
          if columns > 0xFFFF || rows > 0xFFFF then None
          else Some(TerminalSpec(argv, target, timeout, Min(asked, JsonSafeLimit(limit)), columns, rows))
  }

  lemma {:induction false} EncodedFits(n: nat, limit: u64)
    requires n <= JsonSafeLimit(limit) && limit > RESERVED
    ensures (n + 2) / 3 * 4 + 16_382 <= limit
  {
    var room: int := limit - RESERVED;
    assert n <= room * 3 / 4;
    assert (n + 2) / 3 * 4 <= room + 2;
  }

  /**
   * Any output a terminal is allowed to give back leaves room, in base64, for 16,382 bytes of JSON around it
   * (16,381 were reserved for), for every limit, those where the arithmetic saturates included.
   */
  lemma PermittedOutputFits(parameters: map<string, Json>, target: string, limit: u64, output: seq<byte>)
    requires RemoteTerminalSpec(parameters, target, limit).Some?
    requires |output| <= RemoteTerminalSpec(parameters, target, limit).value.maxOutputBytes
    ensures |Encode(output)| + 16_382 <= limit
  {
    EncodedLength(output);
    EncodedFits(|output|, limit);
  }

  /** And not for one byte more: at this limit one byte may be given back, which takes four. */
  lemma RoomIsTight(output: seq<byte>)
    requires |output| == 1
    ensures JsonSafeLimit(16_386) == 1 && |Encode(output)| + 16_383 > 16_386
  {}

  /** A terminal gets what was asked for, or the defaults, and of output no more than what is safe. */
  lemma TerminalGetsWhatItAskedFor(parameters: map<string, Json>, target: string, limit: u64)
    requires RemoteTerminalSpec(parameters, target, limit).Some?
    ensures var spec := RemoteTerminalSpec(parameters, target, limit).value;
            var asked := if "max_output_bytes" in parameters then parameters["max_output_bytes"].number else 262_144;
            var safe := if limit < 16_384 then 0
                        else if (limit - 16_384) * 3 > 0xFFFF_FFFF_FFFF_FFFF then 0x3FFF_FFFF_FFFF_FFFF
                        else (limit - 16_384) * 3 / 4;
            && spec.cwd == target && spec.argv != [] && |spec.argv| == |parameters["argv"].items|
            && (forall i | 0 <= i < |spec.argv| :: parameters["argv"].items[i] == Text(spec.argv[i]))
            && spec.maxOutputBytes == (if asked < safe then asked else safe)
            && Number(spec.timeoutMs) == (if "timeout_ms" in parameters then parameters["timeout_ms"] else Number(30_000))
            && Number(spec.columns) == (if "columns" in parameters then parameters["columns"] else Number(120))
            && Number(spec.rows) == (if "rows" in parameters then parameters["rows"] else Number(40))
  {
    AllTextsInOrder(parameters["argv"].items);
  }

  lemma {:induction false} AllTextsInOrder(items: seq<Json>)
    requires AllTexts(items).Some?
    ensures |AllTexts(items).value| == |items|
    ensures forall i | 0 <= i < |items| :: items[i] == Text(AllTexts(items).value[i])
  {
    if items != [] {
      AllTextsInOrder(items[1..]);
    }
  }

  /** Which requests get a terminal at all. */
  lemma TerminalSpecExactly(parameters: map<string, Json>, target: string, limit: u64)
    ensures RemoteTerminalSpec(parameters, target, limit).Some?
       <==> && parameters.Keys <= {"argv", "timeout_ms", "max_output_bytes", "columns", "rows", "workspace_id"}
            && "argv" in parameters && parameters["argv"].Items? && parameters["argv"].items != []
            && (forall i | i in parameters["argv"].items :: i.Text?)
            && (forall k | k in parameters && k != "argv" && k != "workspace_id" :: parameters[k].Number?)
            && ("columns" in parameters ==> parameters["columns"].number < 0x1_0000)
            && ("rows" in parameters ==> parameters["rows"].number < 0x1_0000)
            && limit >= 16_386
  {
    if "argv" in parameters && parameters["argv"].Items? {
      AllTextsExactly(parameters["argv"].items);
    }
    assert JsonSafeLimit(limit) == 0 <==> limit < RESERVED + 2;
  }

  lemma {:induction false} AllTextsExactly(items: seq<Json>)
    ensures AllTexts(items).Some? <==> forall i | i in items :: i.Text?
    ensures AllTexts(items).Some? ==> |AllTexts(items).value| == |items|
  {
    if items != [] {
      AllTextsExactly(items[1..]);
      assert items == [items[0]] + items[1..];
    }
  }
}
