/**
 * ECMAScript `encodeURIComponent`: the unreserved characters of section 2.3
 * of RFC 2396 (letters, digits and - _ . ! ~ * ' ( )) stay as they are; every
 * other character is written as the %XX escapes (section 2.1 of RFC 3986) of
 * its UTF-8 bytes, with upper-case hexadecimal digits. A Dafny `char` is a
 * Unicode scalar value, so the lone-surrogate case in which the JavaScript
 * function throws cannot arise.
 */
module Uri {

  /** The characters `encodeURIComponent` leaves unescaped. */
  predicate IsUnreserved(c: char) {
    ('A' <= c <= 'Z') || ('a' <= c <= 'z') || ('0' <= c <= '9') ||
    c == '-' || c == '_' || c == '.' || c == '!' || c == '~' || c == '*' || c == '\'' || c == '(' || c == ')'
  }

  /** The characters that may appear in an encoded text: unreserved ones and '%'. */
  predicate IsEncodedChar(c: char) {
    IsUnreserved(c) || c == '%'
  }

  /** Every character of `s` may appear in an encoded text. */
  predicate AllEncoded(s: string) {
    forall i :: 0 <= i < |s| ==> IsEncodedChar(s[i])
  }

  lemma AllEncodedAppend(a: string, b: string)
    requires AllEncoded(a) && AllEncoded(b)
    ensures AllEncoded(a + b)
  {
    forall i | 0 <= i < |a + b| ensures IsEncodedChar((a + b)[i]) {
      if i >= |a| {
        assert (a + b)[i] == b[i - |a|];
      }
    }
  }

  predicate IsByte(b: int) {
    0 <= b < 256
  }

  /** The UTF-8 encoding of one Unicode scalar value. */
  function Utf8(c: char): (bytes: seq<int>)
    ensures 1 <= |bytes| <= 4
    ensures forall i :: 0 <= i < |bytes| ==> IsByte(bytes[i])
    ensures (c as int < 0x80) <==> |bytes| == 1
    ensures |bytes| == 1 ==> bytes[0] == c as int
  {
    var cp := c as int;
    if cp < 0x80 then [cp]
    else if cp < 0x800 then [0xC0 + cp / 64, 0x80 + cp % 64]
    else if cp < 0x1_0000 then [0xE0 + cp / 4096, 0x80 + (cp / 64) % 64, 0x80 + cp % 64]
    else [0xF0 + cp / 262144, 0x80 + (cp / 4096) % 64, 0x80 + (cp / 64) % 64, 0x80 + cp % 64]
  }

  /** An upper-case hexadecimal digit. */
  function HexDigit(d: int): (c: char)
    requires 0 <= d < 16
    ensures IsUnreserved(c)
  {
    "0123456789ABCDEF"[d]
  }

  /** The escapes `%XX` of a list of bytes. */
  function PercentEncode(bytes: seq<int>): (r: string)
    requires forall i :: 0 <= i < |bytes| ==> IsByte(bytes[i])
    ensures |r| == 3 * |bytes|
    ensures AllEncoded(r)
    ensures bytes != [] ==> r[0] == '%'
  {
    if bytes == [] then ""
    else
      assert IsByte(bytes[0]);
      ['%', HexDigit(bytes[0] / 16), HexDigit(bytes[0] % 16)] + PercentEncode(bytes[1..])
  }

  /** One character as `encodeURIComponent` writes it. */
  function EncodeChar(c: char): (r: string)
    ensures AllEncoded(r)
    ensures 1 <= |r| <= 12
    ensures IsUnreserved(c) <==> r == [c]
  {
    if IsUnreserved(c) then [c] else PercentEncode(Utf8(c))
  }

  /**
   * `encodeURIComponent(s)`. The encoded text holds only unreserved
   * characters and '%': no '/', '?', '#', '&' or space survives.
   */
  function EncodeUriComponent(s: string): (r: string)
    ensures AllEncoded(r)
  {
    if s == [] then ""
    else
      var head, tail := EncodeChar(s[0]), EncodeUriComponent(s[1..]);
      AllEncodedAppend(head, tail);
      head + tail
  }

  /** Each character becomes one to twelve characters. */
  lemma {:induction false} EncodeLength(s: string)
    ensures |s| <= |EncodeUriComponent(s)| <= 12 * |s|
  {
    if s != [] {
      EncodeLength(s[1..]);
    }
  }

  /** A text of unreserved characters only is left as it is. */
  lemma {:induction false} UnreservedUnchanged(s: string)
    requires forall i :: 0 <= i < |s| ==> IsUnreserved(s[i])
    ensures EncodeUriComponent(s) == s
  {
    if s != [] {
      UnreservedUnchanged(s[1..]);
      assert [s[0]] + s[1..] == s;
    }
  }

  /** Encoding works character by character, so it distributes over concatenation. */
  lemma {:induction false} EncodeAppend(a: string, b: string)
    ensures EncodeUriComponent(a + b) == EncodeUriComponent(a) + EncodeUriComponent(b)
  {
    if a == [] {
      assert a + b == b;
    } else {
      assert (a + b)[1..] == a[1..] + b;
      EncodeAppend(a[1..], b);
    }
  }
}
