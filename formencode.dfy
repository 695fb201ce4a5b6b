/** The application/x-www-form-urlencoded byte serializer (section 5.2 of the
    WHATWG URL Standard, as the `url` crate's `byte_serialize` implements it)
    applied to the UTF-8 bytes of a string: how the client id and the secret
    become the Basic credentials of the token request
    (src/core/authorize.rs:23-24). */
module FormEncoding {
  import opened Wrappers

  newtype byte = x: int | 0 <= x < 256

  // ------------------------------------------------------------------ UTF-8

  /** The UTF-8 bytes of one Unicode scalar value. */
  function Utf8Char(c: char): (r: seq<byte>)
    ensures 1 <= |r| <= 4
    ensures (c as int < 0x80) <==> |r| == 1
    ensures |r| == 1 ==> r[0] as int == c as int
    ensures |r| > 1 ==> forall i :: 0 <= i < |r| ==> r[i] >= 0x80
  {
    var cp := c as int;
    if cp < 0x80 then [cp as byte]
    else if cp < 0x800 then [(0xC0 + cp / 64) as byte, (0x80 + cp % 64) as byte]
    else if cp < 0x1_0000 then
      [(0xE0 + cp / 4096) as byte, (0x80 + (cp / 64) % 64) as byte, (0x80 + cp % 64) as byte]
    else
      [(0xF0 + cp / 262144) as byte, (0x80 + (cp / 4096) % 64) as byte,
       (0x80 + (cp / 64) % 64) as byte, (0x80 + cp % 64) as byte]
  }

  /** `str::as_bytes`: the UTF-8 encoding of a string. */
  function Utf8(s: string): seq<byte> {
    if s == [] then [] else Utf8Char(s[0]) + Utf8(s[1..])
  }

  predicate IsAscii(s: string) {
    forall i :: 0 <= i < |s| ==> s[i] as int < 0x80
  }

  /** An ASCII string's bytes are its characters' codes, one byte each. */
  lemma {:induction false} Utf8OfAscii(s: string)
    requires IsAscii(s)
    ensures |Utf8(s)| == |s|
    ensures forall i :: 0 <= i < |s| ==> Utf8(s)[i] as int == s[i] as int
  {
    if s != [] {
      Utf8OfAscii(s[1..]);
      var u := Utf8(s);
      assert u == [s[0] as int as byte] + Utf8(s[1..]);
      forall i | 0 <= i < |s| ensures u[i] as int == s[i] as int {
        if i > 0 { assert u[i] == Utf8(s[1..])[i - 1] && s[i] == s[1..][i - 1]; }
      }
    }
  }

  // ----------------------------------------------------------- serializer

  /** The bytes the serializer writes as themselves: ASCII alphanumerics and `*-._`. */
  predicate IsUnreserved(b: byte) {
    ('0' as int <= b as int <= '9' as int) || ('A' as int <= b as int <= 'Z' as int) ||
    ('a' as int <= b as int <= 'z' as int) ||
    b as int == '*' as int || b as int == '-' as int || b as int == '.' as int || b as int == '_' as int
  }

  predicate IsUnreservedChar(c: char) {
    ('0' <= c <= '9') || ('A' <= c <= 'Z') || ('a' <= c <= 'z') ||
    c == '*' || c == '-' || c == '.' || c == '_'
  }

  predicate IsUpperHex(c: char) {
    ('0' <= c <= '9') || ('A' <= c <= 'F')
  }

  /** The characters a serialized string can hold. */
  predicate IsOutputChar(c: char) {
    IsUnreservedChar(c) || c == '+' || c == '%' || IsUpperHex(c)
  }

  function HexDigit(n: int): (c: char)
    requires 0 <= n < 16
    ensures IsUpperHex(c)
  {
    "0123456789ABCDEF"[n]
  }

  function HexValue(c: char): (n: int)
    requires IsUpperHex(c)
    ensures 0 <= n < 16
  {
    if '0' <= c <= '9' then c as int - '0' as int else c as int - 'A' as int + 10
  }

  lemma HexRoundTrip(n: int)
    requires 0 <= n < 16
    ensures HexValue(HexDigit(n)) == n
  {
  }

  /** How one byte is written: itself when unreserved, `+` for a space,
      otherwise `%` and two upper-case hex digits. */
  function EncodeByte(b: byte): (r: string)
    ensures IsUnreserved(b) ==> r == [b as int as char]
    ensures !IsUnreserved(b) && b == 0x20 ==> r == "+"
    ensures !IsUnreserved(b) && b != 0x20 ==>
      r == ['%', HexDigit(b as int / 16), HexDigit(b as int % 16)]
  {
    if IsUnreserved(b) then [b as int as char]
    else if b == 0x20 then "+"
    else ['%', HexDigit(b as int / 16), HexDigit(b as int % 16)]
  }

  /** `byte_serialize(bytes).collect::<String>()`. */
  function FormEncode(bs: seq<byte>): string {
    if bs == [] then "" else EncodeByte(bs[0]) + FormEncode(bs[1..])
  }

  /** The serialization of a string: of its UTF-8 bytes. */
  function FormEncodeString(s: string): string {
    FormEncode(Utf8(s))
  }

  // -------------------------------------------------------------- decoder

  /** The strict inverse: unreserved characters stand for themselves, `+`
      for a space, `%` with two upper-case hex digits for that byte; any
      other text is not a serializer output. */
  function FormDecode(s: string): Option<seq<byte>> {
    if s == [] then Some([])
    else if s[0] == '%' then
      if |s| >= 3 && IsUpperHex(s[1]) && IsUpperHex(s[2]) then
        var b := (HexValue(s[1]) * 16 + HexValue(s[2])) as byte;
        if IsUnreserved(b) || b == 0x20 then None
        else match FormDecode(s[3..])
          case Some(rest) => Some([b] + rest)
          case None => None
      else None
    else if s[0] == '+' then
      match FormDecode(s[1..])
      case Some(rest) => Some([0x20 as byte] + rest)
      case None => None
    else if IsUnreservedChar(s[0]) then
      match FormDecode(s[1..])
      case Some(rest) => Some([s[0] as int as byte] + rest)
      case None => None
    else None
  }

  /** Decoding undoes the serializer: no two byte strings serialize alike. */
  lemma {:induction false} DecodeEncode(bs: seq<byte>)
    ensures FormDecode(FormEncode(bs)) == Some(bs)
  {
    if bs != [] {
      var b := bs[0];
      var e := EncodeByte(b);
      var rest := FormEncode(bs[1..]);
      var s := e + rest;
      assert FormEncode(bs) == s;
      DecodeEncode(bs[1..]);
      assert s[|e|..] == rest;
      if IsUnreserved(b) {
        assert s[0] == b as int as char && s[1..] == rest;
      } else if b == 0x20 {
        assert s[0] == '+' && s[1..] == rest;
      } else {
        HexRoundTrip(b as int / 16);
        HexRoundTrip(b as int % 16);
        assert s[0] == '%' && s[1] == HexDigit(b as int / 16) && s[2] == HexDigit(b as int % 16);
        assert s[3..] == rest;
      }
      assert [b] + bs[1..] == bs;
    }
  }

  lemma HexDigitOfValue(c: char)
    requires IsUpperHex(c)
    ensures HexDigit(HexValue(c)) == c
  {
    var digits := "0123456789ABCDEF";
    if '0' <= c <= '9' {
      assert digits[..10] == "0123456789";
      assert digits[HexValue(c)] == "0123456789"[c as int - '0' as int];
    } else {
      assert digits[10..] == "ABCDEF";
      assert digits[HexValue(c)] == "ABCDEF"[c as int - 'A' as int];
    }
  }

  /** Two upper-case hex digits name a byte whose escape is those two digits. */
  lemma HexPair(h: char, l: char)
    requires IsUpperHex(h) && IsUpperHex(l)
    ensures var n := HexValue(h) * 16 + HexValue(l);
      0 <= n < 256 && HexDigit(n / 16) == h && HexDigit(n % 16) == l
  {
    HexDigitOfValue(h);
    HexDigitOfValue(l);
  }

  /** Anything the decoder accepts is exactly the serialization of what it
      decodes to: the serializer's outputs are the decoder's inputs. */
  lemma {:induction false} EncodeDecode(s: string, bs: seq<byte>)
    requires FormDecode(s) == Some(bs)
    ensures FormEncode(bs) == s
  {
    if s != [] {
      var k := if s[0] == '%' then 3 else 1;
      var rest := FormDecode(s[k..]).value;
      EncodeDecode(s[k..], rest);
      assert bs[1..] == rest;
      assert EncodeByte(bs[0]) == s[..k] by {
        if s[0] == '%' {
          HexPair(s[1], s[2]);
        }
      }
      assert s == s[..k] + s[k..];
    }
  }

  // ------------------------------------------------------ output alphabet

  predicate AllOutputChars(s: string) {
    forall i :: 0 <= i < |s| ==> IsOutputChar(s[i])
  }

  /** The serializer writes only unreserved characters, `+`, `%` and
      upper-case hex digits. */
  lemma {:induction false} EncodeAlphabet(bs: seq<byte>)
    ensures AllOutputChars(FormEncode(bs))
  {
    if bs != [] {
      EncodeAlphabet(bs[1..]);
      var e, rest := EncodeByte(bs[0]), FormEncode(bs[1..]);
      assert AllOutputChars(e);
      var s := e + rest;
      forall i | 0 <= i < |s| ensures IsOutputChar(s[i]) {
        if i < |e| { assert s[i] == e[i]; } else { assert s[i] == rest[i - |e|]; }
      }
    }
  }

  predicate AllUnreserved(s: string) {
    forall i :: 0 <= i < |s| ==> IsUnreservedChar(s[i])
  }

  /** A string of ASCII alphanumerics and `*-._` is left exactly as it is. */
  lemma {:induction false} EncodeUnreservedIdentity(s: string)
    requires AllUnreserved(s)
    ensures FormEncodeString(s) == s
  {
    if s != [] {
      assert AllUnreserved(s[1..]) by {
        forall i | 0 <= i < |s[1..]| ensures IsUnreservedChar(s[1..][i]) {
          assert s[1..][i] == s[i + 1];
        }
      }
      EncodeUnreservedIdentity(s[1..]);
      var u := Utf8Char(s[0]);
      assert u == [s[0] as int as byte];
      assert Utf8(s) == u + Utf8(s[1..]);
      assert FormEncode(Utf8(s)) == EncodeByte(u[0]) + FormEncode(Utf8(s[1..])) by {
        assert (u + Utf8(s[1..]))[0] == u[0];
        assert (u + Utf8(s[1..]))[1..] == Utf8(s[1..]);
      }
      assert IsUnreserved(u[0]);
      assert [s[0]] + s[1..] == s;
    }
  }

  /** A run of bytes that all need escaping triples in length. */
  lemma {:induction false} EscapedLength(bs: seq<byte>)
    requires forall i :: 0 <= i < |bs| ==> !IsUnreserved(bs[i]) && bs[i] != 0x20
    ensures |FormEncode(bs)| == 3 * |bs|
  {
    if bs != [] {
      EscapedLength(bs[1..]);
    }
  }

  /** Characters outside ASCII never survive literally: every byte of their
      UTF-8 form is percent-encoded, so the character takes three output
      characters per byte. */
  lemma NonAsciiIsEscaped(c: char)
    requires c as int >= 0x80
    ensures var u := Utf8Char(c);
      (forall i :: 0 <= i < |u| ==> !IsUnreserved(u[i]) && u[i] != 0x20) &&
      |FormEncode(u)| == 3 * |u| && FormEncode(u)[0] == '%'
  {
    EscapedLength(Utf8Char(c));
  }
}
