/** The paging cursor: a decimal sequence behind a fixed prefix, in unpadded URL-safe base64 (sections 3.2 and 5 of
    RFC 4648). Decoding is as lenient as the library it calls.
 */
module SelectionCursor {
  import opened Domain

  type Byte = b: int | 0 <= b < 256

  const PREFIX: seq<Byte> := Ascii("selection-decisions-v2:")

  function Ascii(s: string): (r: seq<Byte>)
    requires forall i :: 0 <= i < |s| ==> s[i] as int < 128
    ensures |r| == |s| && forall i :: 0 <= i < |s| ==> r[i] == s[i] as int
    decreases |s|
  {
    if s == "" then []
    else
      var b: Byte := s[0] as int;
      [b] + Ascii(s[1..])
  }

  // ---------------------------------------------------------------- alphabet

  function Symbol(v: nat): char
    requires v < 64
  {
    if v < 26 then (v + 'A' as int) as char
    else if v < 52 then (v - 26 + 'a' as int) as char
    else if v < 62 then (v - 52 + '0' as int) as char
    else if v == 62 then '-' else '_'
  }

  /** The value of a symbol; both the URL-safe and the standard last two symbols are read. */
  function Value(c: char): (v: Option<nat>)
    ensures v.Some? ==> v.value < 64
  {
    if 'A' <= c <= 'Z' then Some(c as int - 'A' as int)
    else if 'a' <= c <= 'z' then Some(c as int - 'a' as int + 26)
    else if '0' <= c <= '9' then Some(c as int - '0' as int + 52)
    else if c == '-' || c == '+' then Some(62)
    else if c == '_' || c == '/' then Some(63)
    else None
  }

  lemma SymbolHasValue(v: nat)
    requires v < 64
    ensures Value(Symbol(v)) == Some(v) && Symbol(v) != '=' && Symbol(v) as int < 128
  {
  }

  // ---------------------------------------------------------------- base64

  /** Unpadded base64 of a byte string. */
  function Base64(b: seq<Byte>): string
    decreases |b|
  {
    if |b| == 0 then ""
    else if |b| == 1 then [Symbol(b[0] / 4), Symbol(b[0] % 4 * 16)]
    else if |b| == 2 then [Symbol(b[0] / 4), Symbol(b[0] % 4 * 16 + b[1] / 16), Symbol(b[1] % 16 * 4)]
    else Quad(b[0], b[1], b[2]) + Base64(b[3..])
  }

  function Quad(x: Byte, y: Byte, z: Byte): string {
    [Symbol(x / 4), Symbol(x % 4 * 16 + y / 16), Symbol(y % 16 * 4 + z / 64), Symbol(z % 64)]
  }

  /** How many padding characters complete a text of this length. */
  function Padding(length: nat): string {
    seq((4 - length % 4) % 4, i => '=')
  }

  /** The lenient decoder, character by character: `quad` symbols of the current group are read, `left` holds the bits
      not yet used, `pads` counts padding seen in this group. Unknown characters are skipped. */
  function Decode64(s: string, quad: nat, left: nat, pads: nat, out: seq<Byte>): Option<seq<Byte>>
    requires quad < 4 && (quad == 0 ==> left == 0) && (quad == 1 ==> left < 64) && (quad == 2 ==> left < 16)
             && (quad == 3 ==> left < 4)
    decreases |s|
  {
    if s == "" then (if quad == 0 then Some(out) else None)
    else if s[0] == '=' then
      if quad >= 2 && quad + pads + 1 >= 4 then Some(out)
      else Decode64(s[1..], quad, left, if quad >= 2 then pads + 1 else pads, out)
    else
      match Value(s[0])
      case None => Decode64(s[1..], quad, left, pads, out)
      case Some(v) =>
        if quad == 0 then Decode64(s[1..], 1, v, 0, out)
        else if quad == 1 then Decode64(s[1..], 2, v % 16, 0, out + [left * 4 + v / 16])
        else if quad == 2 then Decode64(s[1..], 3, v % 4, 0, out + [left * 16 + v / 4])
        else Decode64(s[1..], 0, 0, 0, out + [left * 64 + v])
  }

  lemma StepSymbol(s: string, v: nat, quad: nat, left: nat, out: seq<Byte>)
    requires v < 64 && quad < 4 && (quad == 0 ==> left == 0) && (quad == 1 ==> left < 64) && (quad == 2 ==> left < 16)
             && (quad == 3 ==> left < 4)
    ensures Decode64([Symbol(v)] + s, quad, left, 0, out)
            == if quad == 0 then Decode64(s, 1, v, 0, out)
               else if quad == 1 then Decode64(s, 2, v % 16, 0, out + [left * 4 + v / 16])
               else if quad == 2 then Decode64(s, 3, v % 4, 0, out + [left * 16 + v / 4])
               else Decode64(s, 0, 0, 0, out + [left * 64 + v])
  {
    SymbolHasValue(v);
    var whole := [Symbol(v)] + s;
    assert whole[0] == Symbol(v) && whole[1..] == s;
  }

  lemma SplitByte(x: Byte)
    ensures x / 4 < 64 && x % 4 * 16 < 64 && x / 4 * 4 + (x % 4 * 16) / 16 == x
    ensures x / 16 < 16 && (x / 16 + 0) % 16 == x / 16
  {
  }

  lemma FirstTwo(x: Byte, y: Byte)
    ensures var w := x % 4 * 16 + y / 16; w < 64 && x / 4 * 4 + w / 16 == x && w % 16 == y / 16
  {
  }

  lemma LastTwo(y: Byte, z: Byte)
    ensures var w := y % 16 * 4 + z / 64;
            w < 64 && y / 16 * 16 + w / 4 == y && w % 4 == z / 64 && z / 64 * 64 + z % 64 == z
  {
  }

  lemma FirstPair(a: nat, b: nat, s: string, out: seq<Byte>)
    requires a < 64 && b < 64
    ensures Decode64([Symbol(a), Symbol(b)] + s, 0, 0, 0, out) == Decode64(s, 2, b % 16, 0, out + [a * 4 + b / 16])
  {
    assert [Symbol(a), Symbol(b)] + s == [Symbol(a)] + ([Symbol(b)] + s);
    StepSymbol([Symbol(b)] + s, a, 0, 0, out);
    StepSymbol(s, b, 1, a, out);
  }

  lemma SecondPair(c: nat, d: nat, left: nat, s: string, out: seq<Byte>)
    requires c < 64 && d < 64 && left < 16
    ensures Decode64([Symbol(c), Symbol(d)] + s, 2, left, 0, out)
            == Decode64(s, 0, 0, 0, out + [left * 16 + c / 4] + [c % 4 * 64 + d])
  {
    assert [Symbol(c), Symbol(d)] + s == [Symbol(c)] + ([Symbol(d)] + s);
    StepSymbol([Symbol(d)] + s, c, 2, left, out);
    StepSymbol(s, d, 3, c % 4, out + [left * 16 + c / 4]);
  }

  /** Four symbols give back three bytes. */
  lemma DecodeQuad(x: Byte, y: Byte, z: Byte, s: string, out: seq<Byte>)
    ensures Decode64(Quad(x, y, z) + s, 0, 0, 0, out) == Decode64(s, 0, 0, 0, out + [x, y, z])
  {
    var a, b, c, d := x / 4, x % 4 * 16 + y / 16, y % 16 * 4 + z / 64, z % 64;
    FirstTwo(x, y);
    LastTwo(y, z);
    assert Quad(x, y, z) + s == [Symbol(a), Symbol(b)] + ([Symbol(c), Symbol(d)] + s);
    FirstPair(a, b, [Symbol(c), Symbol(d)] + s, out);
    SecondPair(c, d, y / 16, s, out + [x]);
    assert out + [x] + [y] + [z] == out + [x, y, z];
  }

  lemma DecodeOne(x: Byte, out: seq<Byte>)
    ensures Decode64([Symbol(x / 4), Symbol(x % 4 * 16)] + "==", 0, 0, 0, out) == Some(out + [x])
  {
    SplitByte(x);
    FirstPair(x / 4, x % 4 * 16, "==", out);
    assert "=="[1..] == "=";
  }

  lemma DecodeTwo(x: Byte, y: Byte, out: seq<Byte>)
    ensures Decode64([Symbol(x / 4), Symbol(x % 4 * 16 + y / 16), Symbol(y % 16 * 4)] + "=", 0, 0, 0, out)
            == Some(out + [x, y])
  {
    FirstTwo(x, y);
    LastTwo(y, 0);
    var b, c := x % 4 * 16 + y / 16, y % 16 * 4;
    assert [Symbol(x / 4), Symbol(b), Symbol(c)] + "=" == [Symbol(x / 4), Symbol(b)] + ([Symbol(c)] + "=");
    FirstPair(x / 4, b, [Symbol(c)] + "=", out);
    StepSymbol("=", c, 2, y / 16, out + [x]);
    assert out + [x] + [y] == out + [x, y];
  }

  lemma PaddingOf(length: nat)
    ensures length % 4 == 0 ==> Padding(length) == ""
    ensures length % 4 == 2 ==> Padding(length) == "=="
    ensures length % 4 == 3 ==> Padding(length) == "="
  {
  }

  lemma PaddingRepeats(length: nat)
    ensures Padding(length + 4) == Padding(length)
  {
  }

  lemma DecodeLonger(x: Byte, y: Byte, z: Byte, rest: seq<Byte>, text: string, out: seq<Byte>)
    requires Decode64(text + Padding(|text|), 0, 0, 0, out + [x, y, z]) == Some(out + [x, y, z] + rest)
    ensures Decode64(Quad(x, y, z) + text + Padding(|text| + 4), 0, 0, 0, out) == Some(out + [x, y, z] + rest)
  {
    PaddingRepeats(|text|);
    assert Quad(x, y, z) + text + Padding(|text|) == Quad(x, y, z) + (text + Padding(|text|));
    DecodeQuad(x, y, z, text + Padding(|text|), out);
  }

  lemma DecodeShort(b: seq<Byte>, out: seq<Byte>)
    requires |b| <= 2
    ensures Decode64(Base64(b) + Padding(|Base64(b)|), 0, 0, 0, out) == Some(out + b)
  {
    PaddingOf(|Base64(b)|);
    if |b| == 0 {
      assert out + b == out && Base64(b) + Padding(0) == "";
    } else if |b| == 1 {
      DecodeOne(b[0], out);
      assert b == [b[0]];
    } else {
      DecodeTwo(b[0], b[1], out);
      assert b == [b[0], b[1]];
    }
  }

  lemma Base64Front(b: seq<Byte>)
    requires |b| > 2
    ensures Base64(b) == Quad(b[0], b[1], b[2]) + Base64(b[3..]) && |Base64(b)| == |Base64(b[3..])| + 4
  {
  }

  /** Base64 with its padding restored decodes to the bytes it came from. */
  lemma {:induction false} DecodeUndoesBase64(b: seq<Byte>, out: seq<Byte>)
    ensures Decode64(Base64(b) + Padding(|Base64(b)|), 0, 0, 0, out) == Some(out + b)
    decreases |b|
  {
    if |b| <= 2 {
      DecodeShort(b, out);
    } else {
      var rest := b[3..];
      DecodeUndoesBase64(rest, out + [b[0], b[1], b[2]]);
      Base64Front(b);
      DecodeLonger(b[0], b[1], b[2], rest, Base64(rest), out);
      assert out + [b[0], b[1], b[2]] + rest == out + b;
    }
  }

  // ---------------------------------------------------------------- integers

  predicate IsSpace(b: Byte) {
    b == 32 || 9 <= b <= 13
  }

  predicate IsDigit(b: Byte) {
    48 <= b <= 57
  }

  function Trim(s: seq<Byte>): seq<Byte>
    decreases |s|
  {
    if s == [] then []
    else if IsSpace(s[0]) then Trim(s[1..])
    else if IsSpace(s[|s| - 1]) then Trim(s[..|s| - 1])
    else s
  }

  /** Digits with single underscores between them. */
  function ReadDigits(s: seq<Byte>): Option<nat>
    decreases |s|
  {
    if s == [] || !IsDigit(s[|s| - 1]) then None
    else
      var d := s[|s| - 1] - 48;
      var init := s[..|s| - 1];
      if init == [] then Some(d)
      else
        match ReadDigits(if init[|init| - 1] == 95 then init[..|init| - 1] else init)
        case None => None
        case Some(n) => Some(10 * n + d)
  }

  function Signed(negative: bool, digits: Option<nat>): Option<int> {
    match digits
    case None => None
    case Some(n) =>
      var k: int := if negative then -(n as int) else n as int;
      Some(k)
  }

  /** Integer text: surrounding space, an optional sign, digits. */
  function ReadInteger(s: seq<Byte>): Option<int> {
    var t := Trim(s);
    if t == [] then None
    else if t[0] == 45 || t[0] == 43 then Signed(t[0] == 45, ReadDigits(t[1..]))
    else Signed(false, ReadDigits(t))
  }

  function Decimal(n: nat): (r: seq<Byte>)
    ensures r != [] && forall i :: 0 <= i < |r| ==> IsDigit(r[i])
  {
    if n < 10 then [48 + n] else Decimal(n / 10) + [48 + n % 10]
  }

  lemma {:induction false} ReadDecimal(n: nat)
    ensures ReadDigits(Decimal(n)) == Some(n)
  {
    if n >= 10 {
      ReadDecimal(n / 10);
      var s := Decimal(n);
      assert s[..|s| - 1] == Decimal(n / 10);
      assert s[|s| - 1] == 48 + n % 10;
    }
  }

  lemma TextReadsBack(n: nat)
    ensures ReadInteger(Decimal(n)) == Some(n)
  {
    ReadDecimal(n);
    assert IsDigit(Decimal(n)[0]) && IsDigit(Decimal(n)[|Decimal(n)| - 1]);
  }

  // ---------------------------------------------------------------- cursors

  function Encode(sequence: nat): string {
    Base64(PREFIX + Decimal(sequence))
  }

  predicate StartsWithPrefix(payload: seq<Byte>) {
    |payload| >= |PREFIX| && payload[..|PREFIX|] == PREFIX
  }

  /** An absent cursor decodes to no bound; a malformed one, or one below 1, is refused. */
  datatype Decoded = Start | Before(sequence: nat) | InvalidCursor

  function Decode(cursor: Option<string>): Decoded {
    match cursor
    case None => Start
    case Some(text) =>
      if exists c :: c in text && c as int >= 128 then InvalidCursor
      else
        match Decode64(text + Padding(|text|), 0, 0, 0, [])
        case None => InvalidCursor
        case Some(payload) => ReadPayload(payload)
  }

  lemma {:induction false} Base64IsAscii(b: seq<Byte>)
    ensures forall c :: c in Base64(b) ==> c as int < 128
    decreases |b|
  {
    if |b| > 2 { Base64IsAscii(b[3..]); }
  }

  /** The sequence a decoded payload names. */
  function ReadPayload(payload: seq<Byte>): Decoded {
    if !StartsWithPrefix(payload) then InvalidCursor else ReadSequence(payload[|PREFIX|..])
  }

  function ReadSequence(tail: seq<Byte>): Decoded {
    match ReadInteger(tail)
    case None => InvalidCursor
    case Some(n) => if n < 1 then InvalidCursor else Before(n)
  }

  lemma DecodeOfBase64(payload: seq<Byte>)
    ensures Decode(Some(Base64(payload))) == ReadPayload(payload)
  {
    Base64IsAscii(payload);
    DecodeUndoesBase64(payload, []);
    assert [] + payload == payload;
  }

  lemma PayloadSplits(prefix: seq<Byte>, tail: seq<Byte>)
    ensures (prefix + tail)[..|prefix|] == prefix && (prefix + tail)[|prefix|..] == tail && |prefix + tail| >= |prefix|
  {
  }

  lemma DecodePayload(tail: seq<Byte>)
    ensures Decode(Some(Base64(PREFIX + tail))) == ReadSequence(tail)
  {
    DecodeOfBase64(PREFIX + tail);
    PayloadSplits(PREFIX, tail);
  }

  /** Decoding an encoded cursor gives back the sequence, for every sequence from 1 on. */
  lemma DecodeUndoesEncode(sequence: nat)
    ensures Decode(Some(Encode(sequence))) == if sequence >= 1 then Before(sequence) else InvalidCursor
  {
    TextReadsBack(sequence);
    DecodePayload(Decimal(sequence));
  }

  /** Different byte strings have different base64. */
  lemma Base64IsInjective(a: seq<Byte>, b: seq<Byte>)
    requires Base64(a) == Base64(b)
    ensures a == b
  {
    DecodeUndoesBase64(a, []);
    DecodeUndoesBase64(b, []);
    assert [] + a == a && [] + b == b;
  }

  lemma AliasReadsSame(sequence: nat)
    requires sequence >= 1
    ensures ReadSequence([48] + Decimal(sequence)) == Before(sequence)
  {
    var digits := [48] + Decimal(sequence);
    ZeroInFront(Decimal(sequence));
    ReadDecimal(sequence);
    assert IsDigit(digits[0]) && IsDigit(digits[|digits| - 1]);
  }

  /** Decoding is not injective: a zero in front of the digits is another cursor for the same sequence. */
  lemma LeadingZeroAlias(sequence: nat)
    requires sequence >= 1
    ensures var alias := Base64(PREFIX + ([48] + Decimal(sequence)));
            alias != Encode(sequence) && Decode(Some(alias)) == Before(sequence)
  {
    var digits := [48] + Decimal(sequence);
    AliasReadsSame(sequence);
    DecodePayload(digits);
    if Base64(PREFIX + digits) == Encode(sequence) { Base64IsInjective(PREFIX + digits, PREFIX + Decimal(sequence)); }
  }

  lemma {:induction false} ZeroInFront(s: seq<Byte>)
    requires s != [] && forall i :: 0 <= i < |s| ==> IsDigit(s[i])
    ensures ReadDigits(s).Some? && ReadDigits([48] + s) == ReadDigits(s)
    decreases |s|
  {
    var longer := [48] + s;
    assert longer[..|longer| - 1] == [48] + s[..|s| - 1];
    if |s| > 1 {
      ZeroInFront(s[..|s| - 1]);
      assert longer[..|longer| - 1][|longer| - 2] == s[|s| - 2] && IsDigit(s[|s| - 2]);
    } else {
      assert ReadDigits([48]) == Some(0);
      assert longer[..1] == [48];
    }
  }

  // ---------------------------------------------------------------- canonical cursors

  predicate UrlSafe(c: char) {
    'A' <= c <= 'Z' || 'a' <= c <= 'z' || '0' <= c <= '9' || c == '-' || c == '_'
  }

  function Index(c: char): (v: nat)
    requires UrlSafe(c)
    ensures v < 64 && Symbol(v) == c && Value(c) == Some(v)
  {
    if 'A' <= c <= 'Z' then c as int - 'A' as int
    else if 'a' <= c <= 'z' then c as int - 'a' as int + 26
    else if '0' <= c <= '9' then c as int - '0' as int + 52
    else if c == '-' then 62 else 63
  }

  /** URL-safe symbols only, of a length that base64 can have, with no unused bit set in the last symbol. */
  predicate Tight(text: string) {
    && (forall c :: c in text ==> UrlSafe(c))
    && |text| % 4 != 1
    && (|text| % 4 == 2 ==> Index(text[|text| - 1]) % 16 == 0)
    && (|text| % 4 == 3 ==> Index(text[|text| - 1]) % 4 == 0)
  }

  /** The bytes of a tight text, four symbols at a time. */
  function Bytes(text: string): seq<Byte>
    requires Tight(text)
    decreases |text|
  {
    if |text| == 0 then []
    else
      var a, b := Index(text[0]), Index(text[1]);
      if |text| == 2 then [First(a, b)]
      else
        var c := Index(text[2]);
        if |text| == 3 then [First(a, b), Second(b, c)]
        else TightTail(text); [First(a, b), Second(b, c), Third(c, Index(text[3]))] + Bytes(text[4..])
  }

  function First(a: nat, b: nat): Byte
    requires a < 64 && b < 64
  {
    a * 4 + b / 16
  }

  function Second(b: nat, c: nat): Byte
    requires b < 64 && c < 64
  {
    b % 16 * 16 + c / 4
  }

  function Third(c: nat, d: nat): Byte
    requires c < 64 && d < 64
  {
    c % 4 * 64 + d
  }

  lemma TightTail(text: string)
    requires Tight(text) && |text| >= 4
    ensures Tight(text[4..])
  {
    var tail := text[4..];
    assert forall c :: c in tail ==> c in text;
    assert tail != [] ==> tail[|tail| - 1] == text[|text| - 1];
  }

  lemma JoinFour(a: nat, b: nat, c: nat, d: nat)
    requires a < 64 && b < 64 && c < 64 && d < 64
    ensures Quad(First(a, b), Second(b, c), Third(c, d)) == [Symbol(a), Symbol(b), Symbol(c), Symbol(d)]
  {
    var x, y, z := First(a, b), Second(b, c), Third(c, d);
    assert x / 4 == a && x % 4 * 16 + y / 16 == b;
    assert y % 16 * 4 + z / 64 == c && z % 64 == d;
  }

  lemma JoinTwo(a: nat, b: nat)
    requires a < 64 && b < 64 && b % 16 == 0
    ensures Base64([First(a, b)]) == [Symbol(a), Symbol(b)]
  {
    var x := First(a, b);
    assert x / 4 == a && x % 4 * 16 == b;
  }

  lemma JoinThree(a: nat, b: nat, c: nat)
    requires a < 64 && b < 64 && c < 64 && c % 4 == 0
    ensures Base64([First(a, b), Second(b, c)]) == [Symbol(a), Symbol(b), Symbol(c)]
  {
    var x, y := First(a, b), Second(b, c);
    assert x / 4 == a && x % 4 * 16 + y / 16 == b;
    assert y % 16 * 4 == c;
  }

  lemma JoinShort(text: string)
    requires Tight(text) && |text| < 4
    ensures Base64(Bytes(text)) == text
  {
    if |text| == 2 {
      TwoReencode(text, Index(text[0]), Index(text[1]));
    } else if |text| == 3 {
      ThreeReencode(text, Index(text[0]), Index(text[1]), Index(text[2]));
    }
  }

  lemma TwoReencode(text: string, a: nat, b: nat)
    requires Tight(text) && |text| == 2 && a == Index(text[0]) && b == Index(text[1])
    ensures Base64(Bytes(text)) == text
  {
    TwoSymbols(text);
    JoinTwo(a, b);
  }

  lemma ThreeReencode(text: string, a: nat, b: nat, c: nat)
    requires Tight(text) && |text| == 3 && a == Index(text[0]) && b == Index(text[1]) && c == Index(text[2])
    ensures Base64(Bytes(text)) == text
  {
    ThreeSymbols(text);
    JoinThree(a, b, c);
  }

  lemma TwoSymbols(text: string)
    requires Tight(text) && |text| == 2
    ensures Bytes(text) == [First(Index(text[0]), Index(text[1]))] && Index(text[1]) % 16 == 0
    ensures text == [Symbol(Index(text[0])), Symbol(Index(text[1]))]
  {
  }

  lemma ThreeSymbols(text: string)
    requires Tight(text) && |text| == 3
    ensures Bytes(text) == [First(Index(text[0]), Index(text[1])), Second(Index(text[1]), Index(text[2]))]
            && Index(text[2]) % 4 == 0
    ensures text == [Symbol(Index(text[0])), Symbol(Index(text[1])), Symbol(Index(text[2]))]
  {
    ThreeBytes(text, Index(text[0]), Index(text[1]), Index(text[2]));
  }

  lemma ThreeBytes(text: string, a: nat, b: nat, c: nat)
    requires Tight(text) && |text| == 3 && a == Index(text[0]) && b == Index(text[1]) && c == Index(text[2])
    ensures Bytes(text) == [First(a, b), Second(b, c)]
  {
  }

  lemma FourSymbols(text: string)
    requires Tight(text) && |text| >= 4
    ensures Tight(text[4..])
    ensures Bytes(text) == [First(Index(text[0]), Index(text[1])), Second(Index(text[1]), Index(text[2])),
                            Third(Index(text[2]), Index(text[3]))] + Bytes(text[4..])
    ensures text == [Symbol(Index(text[0])), Symbol(Index(text[1])), Symbol(Index(text[2])), Symbol(Index(text[3]))]
                    + text[4..]
  {
    FourBytes(text, Index(text[0]), Index(text[1]), Index(text[2]), Index(text[3]));
    assert text == [text[0], text[1], text[2], text[3]] + text[4..];
  }

  lemma FourBytes(text: string, a: nat, b: nat, c: nat, d: nat)
    requires Tight(text) && |text| >= 4
    requires a == Index(text[0]) && b == Index(text[1]) && c == Index(text[2]) && d == Index(text[3])
    ensures Tight(text[4..]) && Bytes(text) == [First(a, b), Second(b, c), Third(c, d)] + Bytes(text[4..])
  {
    TightTail(text);
  }

  lemma LeadingQuad(x: Byte, y: Byte, z: Byte, rest: seq<Byte>)
    ensures Base64([x, y, z] + rest) == Quad(x, y, z) + Base64(rest)
  {
    assert ([x, y, z] + rest)[3..] == rest;
  }

  /** Encoding the bytes of a tight text gives the text back. */
  lemma {:induction false} TightReencodes(text: string)
    requires Tight(text)
    ensures Base64(Bytes(text)) == text
    decreases |text|
  {
    if |text| < 4 {
      JoinShort(text);
    } else {
      FourSymbols(text);
      TightReencodes(text[4..]);
      var a, b, c, d := Index(text[0]), Index(text[1]), Index(text[2]), Index(text[3]);
      JoinFour(a, b, c, d);
      LeadingQuad(First(a, b), Second(b, c), Third(c, d), Bytes(text[4..]));
    }
  }

  lemma SymbolIsSafe(v: nat)
    requires v < 64
    ensures UrlSafe(Symbol(v)) && Index(Symbol(v)) == v
  {
  }

  lemma {:induction false} Base64IsTight(b: seq<Byte>)
    ensures Tight(Base64(b))
    decreases |b|
  {
    if |b| == 1 {
      SymbolIsSafe(b[0] / 4);
      SymbolIsSafe(b[0] % 4 * 16);
    } else if |b| == 2 {
      SymbolIsSafe(b[0] / 4);
      SymbolIsSafe(b[0] % 4 * 16 + b[1] / 16);
      SymbolIsSafe(b[1] % 16 * 4);
    } else if |b| > 2 {
      QuadIsSafe(b[0], b[1], b[2]);
      Base64IsTight(b[3..]);
      Base64Front(b);
      FrontStaysTight(Quad(b[0], b[1], b[2]), Base64(b[3..]));
    }
  }

  lemma QuadIsSafe(x: Byte, y: Byte, z: Byte)
    ensures forall c :: c in Quad(x, y, z) ==> UrlSafe(c)
  {
    FirstTwo(x, y);
    LastTwo(y, z);
    SymbolIsSafe(x / 4);
    SymbolIsSafe(x % 4 * 16 + y / 16);
    SymbolIsSafe(y % 16 * 4 + z / 64);
    SymbolIsSafe(z % 64);
  }

  lemma FrontStaysTight(front: string, text: string)
    requires |front| == 4 && (forall c :: c in front ==> UrlSafe(c)) && Tight(text)
    ensures Tight(front + text)
  {
    assert text != [] ==> (front + text)[|front + text| - 1] == text[|text| - 1];
  }

  lemma BytesOfBase64(b: seq<Byte>)
    ensures Tight(Base64(b)) && Bytes(Base64(b)) == b
  {
    Base64IsTight(b);
    TightReencodes(Base64(b));
    Base64IsInjective(Bytes(Base64(b)), b);
  }

  /** Digits without a zero in front. */
  predicate PlainNumber(s: seq<Byte>) {
    s != [] && (forall i :: 0 <= i < |s| ==> IsDigit(s[i])) && s[0] != 48
  }

  /** Of the texts that decode, the ones written the one way the encoder writes them: tight base64, and behind the
      prefix nothing but digits, the first of them not zero. */
  predicate Canonical(text: string) {
    Tight(text) && |Bytes(text)| >= |PREFIX| && PlainNumber(Bytes(text)[|PREFIX|..])
  }

  lemma {:induction false} PlainNumberIsDecimal(s: seq<Byte>, n: nat)
    requires PlainNumber(s) && ReadDigits(s) == Some(n)
    ensures s == Decimal(n) && n >= 1
    decreases |s|
  {
    var init, d := s[..|s| - 1], s[|s| - 1] - 48;
    if |s| > 1 {
      assert IsDigit(init[|init| - 1]) && init[0] == s[0];
      PlainNumberIsDecimal(init, ReadDigits(init).value);
      assert s == init + [s[|s| - 1]];
    } else {
      assert s == [s[0]];
    }
  }

  lemma {:induction false} DecimalIsPlain(n: nat)
    requires n >= 1
    ensures PlainNumber(Decimal(n))
  {
    if n >= 10 { DecimalIsPlain(n / 10); }
  }

  lemma PlainNumberReads(s: seq<Byte>)
    requires PlainNumber(s)
    ensures ReadInteger(s) == Signed(false, ReadDigits(s))
  {
    assert IsDigit(s[0]) && IsDigit(s[|s| - 1]);
  }

  /** A text decodes to a sequence and is canonical if and only if it is the encoding of that sequence. */
  lemma CanonicalExactly(text: string, n: nat)
    ensures Decode(Some(text)) == Before(n) && Canonical(text) <==> n >= 1 && text == Encode(n)
  {
    if Decode(Some(text)) == Before(n) && Canonical(text) {
      CanonicalIsEncoded(text, n);
    }
    if n >= 1 && text == Encode(n) {
      DecodeUndoesEncode(n);
      EncodedIsCanonical(n);
    }
  }

  lemma CanonicalIsEncoded(text: string, n: nat)
    requires Decode(Some(text)) == Before(n) && Canonical(text)
    ensures n >= 1 && text == Encode(n)
  {
    TightReencodes(text);
    DecodeOfBase64(Bytes(text));
    PayloadIsPlain(Bytes(text), n);
  }

  lemma PayloadIsPlain(payload: seq<Byte>, n: nat)
    requires ReadPayload(payload) == Before(n) && |payload| >= |PREFIX| && PlainNumber(payload[|PREFIX|..])
    ensures n >= 1 && payload == PREFIX + Decimal(n)
  {
    TailIsPlain(payload[|PREFIX|..], n);
    Joined(payload, PREFIX, payload[|PREFIX|..]);
  }

  lemma Joined(payload: seq<Byte>, prefix: seq<Byte>, tail: seq<Byte>)
    requires |payload| >= |prefix| && payload[..|prefix|] == prefix && payload[|prefix|..] == tail
    ensures payload == prefix + tail
  {
  }

  lemma TailIsPlain(tail: seq<Byte>, n: nat)
    requires PlainNumber(tail) && ReadSequence(tail) == Before(n)
    ensures tail == Decimal(n) && n >= 1
  {
    PlainNumberReads(tail);
    PlainNumberIsDecimal(tail, n);
  }

  lemma EncodedIsCanonical(n: nat)
    requires n >= 1
    ensures Canonical(Encode(n))
  {
    BytesOfBase64(PREFIX + Decimal(n));
    PayloadSplits(PREFIX, Decimal(n));
    DecimalIsPlain(n);
  }
}
