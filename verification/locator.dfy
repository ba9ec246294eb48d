/** Locators in object metadata: unpadded base64url (RFC 4648, sections 3.2 and 5) on bytes. */
module LocatorCodec {

  datatype Decoded = Ok(bytes: seq<byte>) | Invalid

  newtype byte = x: int | 0 <= x < 256

  /** The value of one character of the alphabet. */
  type sextet = n: int | 0 <= n < 64

  function Digit(n: sextet): (c: char)
    ensures IsDigit(c) && Value(c) == n
  {
    if n < 26 then 'A' + n as char
    else if n < 52 then 'a' + (n - 26) as char
    else if n < 62 then '0' + (n - 52) as char
    else if n == 62 then '-'
    else '_'
  }

  /** The digits are those of the URL-safe alphabet (RFC 4648, section 5): three runs of consecutive
      characters, and two signs. */
  lemma DigitsInOrder(n: sextet)
    ensures Digit(0) == 'A' && Digit(25) == 'Z' && Digit(26) == 'a' && Digit(51) == 'z'
    ensures Digit(52) == '0' && Digit(61) == '9' && Digit(62) == '-' && Digit(63) == '_'
    ensures n != 25 && n != 51 && n < 61 ==> Digit(n + 1) as int == Digit(n) as int + 1
  {
  }

  predicate IsDigit(c: char) {
    'A' <= c <= 'Z' || 'a' <= c <= 'z' || '0' <= c <= '9' || c == '-' || c == '_'
  }

  function Value(c: char): sextet
    requires IsDigit(c)
  {
    if 'A' <= c <= 'Z' then (c - 'A') as int
    else if 'a' <= c <= 'z' then (c - 'a') as int + 26
    else if '0' <= c <= '9' then (c - '0') as int + 52
    else if c == '-' then 62
    else 63
  }

  // ------------------------------------------------------------------- encoding

  /** The four sextets of three bytes. */
  function Sextets(a: byte, b: byte, c: byte): (sextet, sextet, sextet, sextet) {
    var x, y, z := a as int, b as int, c as int;
    (x / 4, (x % 4) * 16 + y / 16, (y % 16) * 4 + z / 64, z % 64)
  }

  /** The four sextets spell the same 24-bit number as the three bytes. */
  lemma SameNumber(a: byte, b: byte, c: byte)
    ensures var s := Sextets(a, b, c);
      262144 * s.0 + 4096 * s.1 + 64 * s.2 + s.3 == 65536 * (a as int) + 256 * (b as int) + (c as int)
  {
  }

  /** Standard encoding, padded to a multiple of four. */
  function Encode(bytes: seq<byte>): seq<char> {
    if bytes == [] then []
    else if |bytes| == 1 then
      var s := Sextets(bytes[0], 0, 0);
      [Digit(s.0), Digit(s.1), '=', '=']
    else if |bytes| == 2 then
      var s := Sextets(bytes[0], bytes[1], 0);
      [Digit(s.0), Digit(s.1), Digit(s.2), '=']
    else
      var s := Sextets(bytes[0], bytes[1], bytes[2]);
      [Digit(s.0), Digit(s.1), Digit(s.2), Digit(s.3)] + Encode(bytes[3..])
  }

  function StripPadding(s: seq<char>): seq<char> {
    if s != [] && s[|s| - 1] == '=' then StripPadding(s[..|s| - 1]) else s
  }

  /** `b64url`. */
  function B64Url(bytes: seq<byte>): seq<char> {
    StripPadding(Encode(bytes))
  }

  // ------------------------------------------------------------------- decoding

  function Bytes3(w: sextet, x: sextet, y: sextet, z: sextet): (byte, byte, byte) {
    ((w * 4 + x / 16) as byte, ((x % 16) * 16 + y / 4) as byte, ((y % 4) * 64 + z) as byte)
  }

  /** Groups of four; padding may only end the last one, and one digit alone is no byte. */
  function Decode(s: seq<char>): Decoded {
    if s == [] then Ok([])
    else if |s| < 4 || !IsDigit(s[0]) || !IsDigit(s[1]) then Invalid
    else if s[2..] == ['=', '='] then Ok([Bytes3(Value(s[0]), Value(s[1]), 0, 0).0])
    else if !IsDigit(s[2]) then Invalid
    else if s[3..] == ['='] then
      var r := Bytes3(Value(s[0]), Value(s[1]), Value(s[2]), 0);
      Ok([r.0, r.1])
    else if !IsDigit(s[3]) then Invalid
    else
      match Decode(s[4..])
      case Invalid => Invalid
      case Ok(rest) =>
        var r := Bytes3(Value(s[0]), Value(s[1]), Value(s[2]), Value(s[3]));
        Ok([r.0, r.1, r.2] + rest)
  }

  const LIMIT: nat := 2048

  function Padding(n: nat): (p: seq<char>) {
    seq((4 - n % 4) % 4, i => '=')
  }

  /** `decode_b64url`, up to the UTF-8 decoding of its result. */
  function DecodeB64Url(value: seq<char>): Decoded {
    if value == [] || |value| > LIMIT || exists i :: 0 <= i < |value| && !IsDigit(value[i]) then Invalid
    else Decode(value + Padding(|value|))
  }

  // ------------------------------------------------------------------ round trip

  lemma SextetsBack(a: byte, b: byte, c: byte)
    ensures var s := Sextets(a, b, c); Bytes3(s.0, s.1, s.2, s.3) == (a, b, c)
  {
    var x, y, z := a as int, b as int, c as int;
    assert ((x % 4) * 16 + y / 16) / 16 == x % 4 && ((x % 4) * 16 + y / 16) % 16 == y / 16;
    assert ((y % 16) * 4 + z / 64) / 4 == y % 16 && ((y % 16) * 4 + z / 64) % 4 == z / 64;
  }

  lemma {:induction false} EncodeDecodes(bytes: seq<byte>)
    ensures Decode(Encode(bytes)) == Ok(bytes)
    decreases |bytes|
  {
    if |bytes| == 1 {
      SextetsBack(bytes[0], 0, 0);
    } else if |bytes| == 2 {
      SextetsBack(bytes[0], bytes[1], 0);
    } else if |bytes| > 2 {
      EncodeDecodes(bytes[3..]);
      GroupDecodes(bytes);
    }
  }

  lemma GroupDecodes(bytes: seq<byte>)
    requires |bytes| > 2 && Decode(Encode(bytes[3..])) == Ok(bytes[3..])
    ensures Decode(Encode(bytes)) == Ok(bytes)
  {
    hide Encode, Decode, Digit, IsDigit, Value, Sextets, Bytes3;
    var q := Sextets(bytes[0], bytes[1], bytes[2]);
    SextetsBack(bytes[0], bytes[1], bytes[2]);
    EncodeGroup(bytes);
    DecodeGroup(Digit(q.0), Digit(q.1), Digit(q.2), Digit(q.3), Encode(bytes[3..]));
    assert bytes == [bytes[0], bytes[1], bytes[2]] + bytes[3..];
  }

  lemma EncodeGroup(bytes: seq<byte>)
    requires |bytes| > 2
    ensures var q := Sextets(bytes[0], bytes[1], bytes[2]);
      Encode(bytes) == [Digit(q.0), Digit(q.1), Digit(q.2), Digit(q.3)] + Encode(bytes[3..])
  {
    hide Sextets, Digit;
  }

  lemma DecodeGroup(c0: char, c1: char, c2: char, c3: char, rest: seq<char>)
    requires IsDigit(c0) && IsDigit(c1) && IsDigit(c2) && IsDigit(c3) && Decode(rest).Ok?
    ensures var r := Bytes3(Value(c0), Value(c1), Value(c2), Value(c3));
      Decode([c0, c1, c2, c3] + rest) == Ok([r.0, r.1, r.2] + Decode(rest).bytes)
  {
    hide Bytes3, Value;
    var s := [c0, c1, c2, c3] + rest;
    assert s[4..] == rest;
    assert s[2..][0] != '=' && s[3..][0] != '=';
  }

  /** How many characters the unpadded encoding has. */
  function Length(n: nat): nat { (4 * n + 2) / 3 }

  predicate AllDigits(s: seq<char>) {
    forall i :: 0 <= i < |s| ==> IsDigit(s[i])
  }

  /** The encoding is its digits, then exactly the padding that the decoder puts back. */
  lemma {:induction false} EncodeShape(bytes: seq<byte>) returns (body: seq<char>)
    ensures Encode(bytes) == body + Padding(|body|) && AllDigits(body) && |body| == Length(|bytes|)
    decreases |bytes|
  {
    if |bytes| == 0 {
      body := [];
    } else if |bytes| < 3 {
      body := ShortShape(bytes);
    } else {
      hide Encode, IsDigit;
      FirstFour(bytes);
      var rest := EncodeShape(bytes[3..]);
      body := Joined(Encode(bytes)[..4], rest, Encode(bytes[3..]));
    }
  }

  lemma Joined(four: seq<char>, rest: seq<char>, tail: seq<char>) returns (body: seq<char>)
    requires |four| == 4 && AllDigits(four) && AllDigits(rest) && tail == rest + Padding(|rest|)
    ensures body == four + rest && AllDigits(body) && four + tail == body + Padding(|body|)
  {
    body := four + rest;
    hide IsDigit;
    assert Padding(|body|) == Padding(|rest|);
    assert four + (rest + Padding(|rest|)) == (four + rest) + Padding(|rest|);
  }

  lemma FirstFour(bytes: seq<byte>)
    requires |bytes| >= 3
    ensures |Encode(bytes)| >= 4 && AllDigits(Encode(bytes)[..4])
    ensures Encode(bytes) == Encode(bytes)[..4] + Encode(bytes[3..])
  {
  }

  lemma ShortShape(bytes: seq<byte>) returns (body: seq<char>)
    requires 1 <= |bytes| <= 2
    ensures Encode(bytes) == body + Padding(|body|) && AllDigits(body) && |body| == Length(|bytes|)
  {
    var s := Encode(bytes);
    body := s[..|bytes| + 1];
    assert Padding(2) == ['=', '='] && Padding(3) == ['='];
  }

  lemma {:induction false} StripOnly(body: seq<char>, k: nat)
    requires AllDigits(body)
    ensures StripPadding(body + seq(k, i => '=')) == body
  {
    var s := body + seq(k, i => '=');
    if k > 0 {
      assert s[..|s| - 1] == body + seq(k - 1, i => '=');
      StripOnly(body, k - 1);
    } else {
      assert s == body;
    }
  }

  /** The unpadded form: only digits, of known length, and padding it again restores the encoding. */
  lemma Unpadded(bytes: seq<byte>)
    ensures AllDigits(B64Url(bytes)) && |B64Url(bytes)| == Length(|bytes|)
    ensures B64Url(bytes) + Padding(|B64Url(bytes)|) == Encode(bytes)
  {
    var body := EncodeShape(bytes);
    StripOnly(body, |Padding(|body|)|);
  }

  /** Round trip: decoding an encoded locator gives back the locator exactly for those of 1 to 1536
      bytes, which are those whose encoding is not empty and stays within 2048 characters. */
  lemma RoundTrip(bytes: seq<byte>)
    ensures DecodeB64Url(B64Url(bytes)) == Ok(bytes) <==> 1 <= |bytes| <= 1536
    ensures 1 <= |bytes| <= 1536 <==> 1 <= |B64Url(bytes)| <= LIMIT
  {
    Unpadded(bytes);
    EncodeDecodes(bytes);
  }

  /** Different locators never share an encoding. */
  lemma B64UrlInjective(a: seq<byte>, b: seq<byte>)
    requires B64Url(a) == B64Url(b)
    ensures a == b
  {
    Unpadded(a);
    Unpadded(b);
    EncodeDecodes(a);
    EncodeDecodes(b);
  }

  /** Whatever decodes has the length of a whole number of bytes: a text one character longer than a
      multiple of four is refused, and a decoded locator has three bytes for four characters. */
  lemma {:induction false} DecodedLength(s: seq<char>)
    requires Decode(s).Ok?
    ensures |s| % 4 == 0 && |s| / 4 * 3 - 2 <= |Decode(s).bytes| <= |s| / 4 * 3
    decreases |s|
  {
    if s != [] && s[2..] != ['=', '='] && s[3..] != ['='] {
      DecodeMore(s);
      hide Decode;
      DecodedLength(s[4..]);
    }
  }

  lemma DecodeMore(s: seq<char>)
    requires Decode(s).Ok? && s != [] && s[2..] != ['=', '='] && s[3..] != ['=']
    ensures |s| >= 4 && Decode(s[4..]).Ok? && |Decode(s).bytes| == |Decode(s[4..]).bytes| + 3
  {
    hide Bytes3, Value;
  }

  lemma LoneDigitRefused(value: seq<char>)
    requires |value| % 4 == 1
    ensures DecodeB64Url(value) == Invalid
  {
    if |value| <= LIMIT && AllDigits(value) {
      assert Padding(|value|) == ['=', '=', '='];
      LoneDigit(value);
    }
  }

  lemma {:induction false} LoneDigit(value: seq<char>)
    requires |value| % 4 == 1 && AllDigits(value)
    ensures Decode(value + ['=', '=', '=']) == Invalid
    decreases |value|
  {
    var s := value + ['=', '=', '='];
    if |value| > 4 {
      assert s[4..] == value[4..] + ['=', '=', '='];
      LoneDigit(value[4..]);
      assert s[2] == value[2] && s[3] == value[3];
    } else {
      assert s[1] == '=';
    }
  }
}
