/** The opaque pagination cursor: timestamp, colon, UUIDv7, in unpadded base64url (section 5 of RFC 4648). */
module CursorCodec {
  import opened Common

  type Byte = b: int | 0 <= b < 256

  type Sextet = v: int | 0 <= v < 64

  // ----- base64url -----

  function Digit(v: Sextet): char {
    if v < 26 then 'A' + v as char
    else if v < 52 then 'a' + (v - 26) as char
    else if v < 62 then '0' + (v - 52) as char
    else if v == 62 then '-' else '_'
  }

  /** Node also reads the standard alphabet's last two digits; every other character is skipped. */
  function DigitValue(c: char): Option<Sextet> {
    if 'A' <= c <= 'Z' then Some((c - 'A') as int)
    else if 'a' <= c <= 'z' then Some((c - 'a') as int + 26)
    else if '0' <= c <= '9' then Some((c - '0') as int + 52)
    else if c == '-' || c == '+' then Some(62)
    else if c == '_' || c == '/' then Some(63)
    else None
  }

  function Sextets(bytes: seq<Byte>): seq<Sextet> {
    if |bytes| == 0 then []
    else if |bytes| == 1 then [bytes[0] / 4, bytes[0] % 4 * 16]
    else if |bytes| == 2 then [bytes[0] / 4, bytes[0] % 4 * 16 + bytes[1] / 16, bytes[1] % 16 * 4]
    else
      [bytes[0] / 4, bytes[0] % 4 * 16 + bytes[1] / 16, bytes[1] % 16 * 4 + bytes[2] / 64, bytes[2] % 64]
      + Sextets(bytes[3..])
  }

  function Byte0(a: int, b: int): Byte
    requires 0 <= a < 64 && 0 <= b < 64
  {
    a * 4 + b / 16
  }

  function Byte1(b: int, c: int): Byte
    requires 0 <= b < 64 && 0 <= c < 64
  {
    b % 16 * 16 + c / 4
  }

  function Byte2(c: int, d: int): Byte
    requires 0 <= c < 64 && 0 <= d < 64
  {
    c % 4 * 64 + d
  }

  /** The inverse grouping; a lone trailing digit carries no byte. */
  function Bytes(v: seq<Sextet>): seq<Byte> {
    if |v| < 2 then []
    else if |v| == 2 then [Byte0(v[0], v[1])]
    else if |v| == 3 then [Byte0(v[0], v[1]), Byte1(v[1], v[2])]
    else [Byte0(v[0], v[1]), Byte1(v[1], v[2]), Byte2(v[2], v[3])] + Bytes(v[4..])
  }

  function ToBase64Url(bytes: seq<Byte>): string {
    var v := Sextets(bytes);
    seq(|v|, i requires 0 <= i < |v| => Digit(v[i]))
  }

  function Values(text: string): seq<Sextet> {
    if text == "" then []
    else
      var rest := Values(text[1..]);
      match DigitValue(text[0])
      case Some(v) => [v] + rest
      case None => rest
  }

  function FromBase64Url(text: string): seq<Byte> {
    Bytes(Values(text))
  }

  /** The alphabet of section 5 of RFC 4648. */
  lemma DigitsAre(v: Sextet)
    ensures v < 26 ==> Digit(v) == "ABCDEFGHIJKLMNOPQRSTUVWXYZ"[v]
    ensures 26 <= v < 52 ==> Digit(v) == "abcdefghijklmnopqrstuvwxyz"[v - 26]
    ensures 52 <= v ==> Digit(v) == "0123456789-_"[v - 52]
  {
  }

  /** Reading takes that alphabet, and the last two digits of section 4 besides. */
  lemma DigitsRead(c: char, v: Sextet)
    ensures DigitValue(c) == Some(v) <==> c == Digit(v) || (c == '+' && v == 62) || (c == '/' && v == 63)
  {
  }

  /** Bytes read as one number to the base 256, and digits to the base 64. */
  ghost function NumberOfBytes(bytes: seq<Byte>, acc: int): int {
    if bytes == [] then acc else NumberOfBytes(bytes[1..], acc * 256 + bytes[0])
  }

  ghost function NumberOfDigits(v: seq<Sextet>, acc: int): int {
    if v == [] then acc else NumberOfDigits(v[1..], acc * 64 + v[0])
  }

  lemma FourDigits(v: seq<Sextet>, acc: int)
    requires |v| >= 4
    ensures NumberOfDigits(v, acc)
            == NumberOfDigits(v[4..], acc * 0x1000000 + v[0] as int * 0x40000 + v[1] as int * 0x1000
                                      + v[2] as int * 0x40 + v[3])
  {
    assert NumberOfDigits(v[1..], acc * 64 + v[0]) == NumberOfDigits(v[1..][1..], (acc * 64 + v[0]) * 64 + v[1]);
    assert v[1..][1..] == v[2..] && v[2..][1..] == v[3..] && v[3..][1..] == v[4..];
    var two := (acc * 64 + v[0]) * 64 + v[1];
    assert NumberOfDigits(v[2..], two) == NumberOfDigits(v[3..], two * 64 + v[2]);
  }

  lemma ThreeBytes(b: seq<Byte>, acc: int)
    requires |b| >= 3
    ensures NumberOfBytes(b, acc)
            == NumberOfBytes(b[3..], acc * 0x1000000 + b[0] as int * 0x10000 + b[1] as int * 0x100 + b[2])
  {
    assert b[1..][1..] == b[2..] && b[2..][1..] == b[3..];
    assert NumberOfBytes(b[1..], acc * 256 + b[0]) == NumberOfBytes(b[2..], (acc * 256 + b[0]) * 256 + b[1]);
  }

  lemma GroupNumber(x: Byte, y: Byte, z: Byte)
    ensures (x / 4) * 0x40000 + (x % 4 * 16 + y / 16) * 0x1000 + (y % 16 * 4 + z / 64) * 0x40 + z % 64
            == x * 0x10000 + y * 0x100 + z
  {
  }

  /** The zero bits that fill up the last digit, as a factor. */
  ghost function Padding(n: nat): int {
    if n % 3 == 1 then 16 else if n % 3 == 2 then 4 else 1
  }

  /** The digits spell the bytes' bits in order, filled up with zero bits to a whole last digit. */
  lemma {:induction false} DigitsSpellTheBytes(bytes: seq<Byte>, acc: int)
    ensures |Sextets(bytes)| == |bytes| / 3 * 4 + if |bytes| % 3 == 0 then 0 else |bytes| % 3 + 1
    ensures NumberOfDigits(Sextets(bytes), acc) == NumberOfBytes(bytes, acc) * Padding(|bytes|)
    decreases |bytes|
  {
    if 0 < |bytes| < 3 {
      LastDigits(bytes, acc);
    } else if |bytes| >= 3 {
      var x: int, y: int, z: int := bytes[0], bytes[1], bytes[2];
      assert Sextets(bytes)[4..] == Sextets(bytes[3..]);
      GroupNumber(bytes[0], bytes[1], bytes[2]);
      FourDigits(Sextets(bytes), acc);
      ThreeBytes(bytes, acc);
      DigitsSpellTheBytes(bytes[3..], acc * 0x1000000 + x * 0x10000 + y * 0x100 + z);
    }
  }

  lemma LastDigits(bytes: seq<Byte>, acc: int)
    requires 0 < |bytes| < 3
    ensures NumberOfDigits(Sextets(bytes), acc) == NumberOfBytes(bytes, acc) * Padding(|bytes|)
  {
    var v := Sextets(bytes);
    var one := acc * 64 + v[0];
    assert NumberOfDigits(v[1..], one) == NumberOfDigits(v[1..][1..], one * 64 + v[1]);
    assert v[1..][1..] == v[2..];
    if |bytes| == 1 {
      GroupNumber(bytes[0], 0, 0);
    } else {
      GroupNumber(bytes[0], bytes[1], 0);
      assert NumberOfDigits(v[2..], one * 64 + v[1]) == (one * 64 + v[1]) * 64 + v[2];
      assert NumberOfBytes(bytes[1..], acc * 256 + bytes[0]) == (acc * 256 + bytes[0]) * 256 + bytes[1];
    }
  }

  /** Three bytes in four digits, and back. */
  lemma GroupInverts(x: Byte, y: Byte, z: Byte)
    ensures Byte0(x / 4, x % 4 * 16 + y / 16) == x
    ensures Byte1(x % 4 * 16 + y / 16, y % 16 * 4 + z / 64) == y
    ensures Byte2(y % 16 * 4 + z / 64, z % 64) == z
  {
  }

  lemma {:induction false} SextetsInvert(bytes: seq<Byte>)
    ensures Bytes(Sextets(bytes)) == bytes
    decreases |bytes|
  {
    if |bytes| == 1 {
      GroupInverts(bytes[0], 0, 0);
    } else if |bytes| == 2 {
      GroupInverts(bytes[0], bytes[1], 0);
    } else if |bytes| >= 3 {
      SextetsInvert(bytes[3..]);
      assert Sextets(bytes)[4..] == Sextets(bytes[3..]);
      FourInvert(Sextets(bytes), bytes);
    }
  }

  lemma FourInvert(v: seq<Sextet>, bytes: seq<Byte>)
    requires |bytes| >= 3 && |v| >= 4 && Bytes(v[4..]) == bytes[3..]
    requires v[0] == bytes[0] / 4 && v[1] == bytes[0] % 4 * 16 + bytes[1] / 16
    requires v[2] == bytes[1] % 16 * 4 + bytes[2] / 64 && v[3] == bytes[2] % 64
    ensures Bytes(v) == bytes
  {
    GroupInverts(bytes[0], bytes[1], bytes[2]);
    assert bytes == [bytes[0], bytes[1], bytes[2]] + bytes[3..];
  }

  lemma {:induction false} ValuesInvert(v: seq<Sextet>, text: string)
    requires |text| == |v| && forall i :: 0 <= i < |v| ==> text[i] == Digit(v[i])
    ensures Values(text) == v
  {
    if v != [] {
      ValuesInvert(v[1..], text[1..]);
      assert DigitValue(text[0]) == Some(v[0]);
    }
  }

  /** Encoding loses nothing. */
  lemma Base64UrlRoundTrip(bytes: seq<Byte>)
    ensures FromBase64Url(ToBase64Url(bytes)) == bytes
  {
    ValuesInvert(Sextets(bytes), ToBase64Url(bytes));
    SextetsInvert(bytes);
  }

  // ----- text -----

  predicate Ascii(text: string) {
    forall i :: 0 <= i < |text| ==> text[i] < 128 as char
  }

  function Utf8(text: string): (bytes: seq<Byte>)
    requires Ascii(text)
    ensures |bytes| == |text| && forall i :: 0 <= i < |text| ==> bytes[i] == text[i] as int
  {
    seq(|text|, i requires 0 <= i < |text| => text[i] as int)
  }

  /** Bytes beyond ASCII become one character beyond ASCII, which no accepted cursor contains. */
  function Text(bytes: seq<Byte>): (text: string)
    ensures |text| == |bytes|
    ensures forall i :: 0 <= i < |bytes| ==> text[i] == if bytes[i] < 128 then bytes[i] as char else '\U{FFFD}'
  {
    seq(|bytes|, i requires 0 <= i < |bytes| => if bytes[i] < 128 then bytes[i] as char else '\U{FFFD}')
  }

  lemma TextInverts(text: string)
    requires Ascii(text)
    ensures Text(Utf8(text)) == text
  {
  }

  // ----- the two parts of a cursor -----

  /** Date printing and parsing, as toISOString and the Date constructor give them. */
  datatype DateText = DateText(show: Time -> string, parse: string -> Option<Time>)

  ghost predicate Lawful(d: DateText) {
    forall t :: d.parse(d.show(t)) == Some(t) && d.show(t) != "" && Ascii(d.show(t))
  }

  predicate IsHex(c: char) {
    '0' <= c <= '9' || 'a' <= c <= 'f' || 'A' <= c <= 'F'
  }

  predicate IsUuidV7(id: string) {
    && |id| == 36
    && (forall i :: 0 <= i < 36 ==> if i in {8, 13, 18, 23} then id[i] == '-' else IsHex(id[i]))
    && id[14] == '7' && id[19] in {'8', '9', 'a', 'b', 'A', 'B'}
  }

  ghost predicate HexFrom(id: string, a: nat, b: nat)
    requires a <= b <= |id|
  {
    forall i :: a <= i < b ==> id[i] in "0123456789abcdefABCDEF"
  }

  lemma HexFromIs(id: string, a: nat, b: nat)
    requires a <= b <= |id|
    ensures HexFrom(id, a, b) <==> forall i :: a <= i < b ==> IsHex(id[i])
  {
    forall c: char ensures IsHex(c) <==> c in "0123456789abcdefABCDEF" {
    }
  }

  /** Five groups of hexadecimal digits, the third beginning with the version and the fourth with the variant. */
  lemma UuidV7Is(id: string)
    ensures IsUuidV7(id)
            <==> && |id| == 36
                 && HexFrom(id, 0, 8) && id[8] == '-' && HexFrom(id, 9, 13) && id[13] == '-'
                 && id[14] == '7' && HexFrom(id, 15, 18) && id[18] == '-'
                 && id[19] in "89abAB" && HexFrom(id, 20, 23) && id[23] == '-' && HexFrom(id, 24, 36)
  {
    if |id| == 36 {
      HexFromIs(id, 0, 8);
      HexFromIs(id, 9, 13);
      HexFromIs(id, 15, 18);
      HexFromIs(id, 20, 23);
      HexFromIs(id, 24, 36);
    }
  }

  lemma UuidIsPlain(id: string)
    requires IsUuidV7(id)
    ensures Ascii(id) && ':' !in id
  {
    forall i | 0 <= i < |id| ensures id[i] < 128 as char && id[i] != ':' {
      assert if i in {8, 13, 18, 23} then id[i] == '-' else IsHex(id[i]);
    }
  }

  function LastIndexOf(text: string, c: char): (r: int)
    ensures -1 <= r < |text|
    ensures r >= 0 ==> text[r] == c
    ensures forall i :: r < i < |text| ==> text[i] != c
  {
    if text == "" then -1
    else if text[|text| - 1] == c then |text| - 1
    else LastIndexOf(text[..|text| - 1], c)
  }

  // ----- the codec -----

  datatype Decoded = Decoded(sortValue: Time, id: string)

  datatype Malformed = MalformedCursor

  function EncodeCursor(d: DateText, sortValue: Time, id: string): string
    requires Ascii(d.show(sortValue)) && Ascii(id)
  {
    ToBase64Url(Utf8(d.show(sortValue) + ":" + id))
  }

  function DecodeText(d: DateText, text: string): Result<Decoded, Malformed> {
    var boundary := LastIndexOf(text, ':');
    if boundary <= 0 then Err(MalformedCursor)
    else
      var timestamp, id := text[..boundary], text[boundary + 1..];
      var at := d.parse(timestamp);
      if at.None? || d.show(at.value) != timestamp then Err(MalformedCursor)
      else if !IsUuidV7(id) then Err(MalformedCursor)
      else Ok(Decoded(at.value, id))
  }

  function DecodeCursor(d: DateText, raw: string): Result<Decoded, Malformed> {
    DecodeText(d, Text(FromBase64Url(raw)))
  }

  lemma {:induction false} LastIndexUnique(text: string, c: char, r: nat)
    requires r < |text| && text[r] == c && forall i :: r < i < |text| ==> text[i] != c
    ensures LastIndexOf(text, c) == r
  {
    if r < |text| - 1 {
      var init := text[..|text| - 1];
      assert init[r] == c && forall i :: r < i < |init| ==> init[i] == text[i];
      LastIndexUnique(init, c, r);
    }
  }

  /** The split falls on the last colon, so the colons inside the timestamp do no harm. */
  lemma SplitIsAtLastColon(text: string, timestamp: string, id: string)
    requires text == timestamp + ":" + id && ':' !in id
    ensures LastIndexOf(text, ':') == |timestamp|
    ensures text[..|timestamp|] == timestamp && text[|timestamp| + 1..] == id
  {
    var n := |timestamp|;
    assert text[n] == ':';
    forall i | n < i < |text| ensures text[i] != ':' {
      assert text[i] == id[i - n - 1];
    }
    LastIndexUnique(text, ':', n);
  }

  /** Decoding an encoded cursor gives back the timestamp and the id. */
  lemma CursorRoundTrip(d: DateText, sortValue: Time, id: string)
    requires Lawful(d) && IsUuidV7(id)
    ensures Ascii(id) && Ascii(d.show(sortValue))
    ensures DecodeCursor(d, EncodeCursor(d, sortValue, id)) == Ok(Decoded(sortValue, id))
  {
    UuidIsPlain(id);
    var timestamp := d.show(sortValue);
    var text := timestamp + ":" + id;
    Base64UrlRoundTrip(Utf8(text));
    TextInverts(text);
    SplitIsAtLastColon(text, timestamp, id);
  }

  /** Whatever string is accepted, its decoded text is exactly a timestamp, a colon and a UUIDv7. */
  lemma AcceptedCursorsAreExact(d: DateText, raw: string)
    requires DecodeCursor(d, raw).Ok?
    ensures var c := DecodeCursor(d, raw).value;
            Text(FromBase64Url(raw)) == d.show(c.sortValue) + ":" + c.id && IsUuidV7(c.id)
  {
    var text := Text(FromBase64Url(raw));
    var boundary := LastIndexOf(text, ':');
    assert text == text[..boundary] + [text[boundary]] + text[boundary + 1..];
  }

  /** A cursor is accepted as a position exactly when its text is that position, printed. */
  lemma AcceptsExactlyWhen(d: DateText, raw: string, sortValue: Time, id: string)
    requires Lawful(d)
    ensures DecodeCursor(d, raw) == Ok(Decoded(sortValue, id))
            <==> Text(FromBase64Url(raw)) == d.show(sortValue) + ":" + id && IsUuidV7(id)
  {
    if DecodeCursor(d, raw) == Ok(Decoded(sortValue, id)) {
      AcceptedCursorsAreExact(d, raw);
    }
    if Text(FromBase64Url(raw)) == d.show(sortValue) + ":" + id && IsUuidV7(id) {
      UuidIsPlain(id);
      SplitIsAtLastColon(Text(FromBase64Url(raw)), d.show(sortValue), id);
    }
  }

  /** Different rows never share a cursor. */
  lemma CursorsAreDistinct(d: DateText, t: Time, id: string, t': Time, id': string)
    requires Lawful(d) && IsUuidV7(id) && IsUuidV7(id')
    ensures Ascii(id) && Ascii(id') && Ascii(d.show(t)) && Ascii(d.show(t'))
    ensures EncodeCursor(d, t, id) == EncodeCursor(d, t', id') <==> t == t' && id == id'
  {
    CursorRoundTrip(d, t, id);
    CursorRoundTrip(d, t', id');
  }
}
