/** JavaScript's `encodeURIComponent`, which the client uses to build Discord's
    authorize URL, and its inverse `decodeURIComponent` as a reference: a
    character outside the unreserved set becomes the `%XX` escapes (upper-case
    hex) of its UTF-8 bytes. Dafny's `char` is a Unicode scalar value, so the
    lone surrogates on which the JavaScript function throws do not arise. */
module UriEncoding {
  import opened Types

  /** The characters `encodeURIComponent` leaves alone. */
  predicate Unreserved(c: char)
  {
    ('A' <= c <= 'Z') || ('a' <= c <= 'z') || ('0' <= c <= '9')
    || c == '-' || c == '_' || c == '.' || c == '!' || c == '~' || c == '*' || c == '\'' || c == '(' || c == ')'
  }

  predicate IsByte(b: int)
  {
    0 <= b < 256
  }

  predicate AllBytes(bs: seq<int>)
  {
    forall i :: 0 <= i < |bs| ==> IsByte(bs[i])
  }

  /** The UTF-8 encoding of one scalar value. */
  function Utf8(c: char): (bs: seq<int>)
    ensures 1 <= |bs| <= 4 && AllBytes(bs)
    ensures |bs| == 1 <==> (c as int) < 0x80
  {
    var n := c as int;
    if n < 0x80 then [n]
    else if n < 0x800 then [0xC0 + n / 64, 0x80 + n % 64]
    else if n < 0x10000 then [0xE0 + n / 64 / 64, 0x80 + n / 64 % 64, 0x80 + n % 64]
    else [0xF0 + n / 64 / 64 / 64, 0x80 + n / 64 / 64 % 64, 0x80 + n / 64 % 64, 0x80 + n % 64]
  }

  /** An upper-case hexadecimal digit. */
  function HexDigit(n: int): (c: char)
    requires 0 <= n < 16
    ensures ('0' <= c <= '9') || ('A' <= c <= 'F')
  {
    if n < 10 then ('0' as int + n) as char else ('A' as int + n - 10) as char
  }

  /** The value of a hexadecimal digit of either case. */
  function HexValue(c: char): (r: Option<int>)
    ensures r.Some? ==> 0 <= r.value < 16
  {
    if '0' <= c <= '9' then Some(c as int - '0' as int)
    else if 'A' <= c <= 'F' then Some(c as int - 'A' as int + 10)
    else if 'a' <= c <= 'f' then Some(c as int - 'a' as int + 10)
    else None
  }

  function PercentBytes(bs: seq<int>): (s: string)
    requires AllBytes(bs)
    ensures |s| == 3 * |bs|
    ensures forall i :: 0 <= i < |s| ==> Unreserved(s[i]) || s[i] == '%'
  {
    if bs == [] then [] else ['%', HexDigit(bs[0] / 16), HexDigit(bs[0] % 16)] + PercentBytes(bs[1..])
  }

  function EncodeChar(c: char): (s: string)
    ensures forall i :: 0 <= i < |s| ==> Unreserved(s[i]) || s[i] == '%'
  {
    if Unreserved(c) then [c] else PercentBytes(Utf8(c))
  }

  /** `encodeURIComponent(s)`. */
  function EncodeUriComponent(s: string): (r: string)
    ensures forall i :: 0 <= i < |r| ==> Unreserved(r[i]) || r[i] == '%'
  {
    if s == [] then [] else EncodeChar(s[0]) + EncodeUriComponent(s[1..])
  }

  // ---------------------------------------------------------------------------
  // The inverse

  function Prepend<T>(x: seq<T>, r: Option<seq<T>>): Option<seq<T>>
  {
    if r.Some? then Some(x + r.value) else None
  }

  /** Undo the `%XX` escapes; a literal character stands for its own UTF-8 bytes. */
  function PercentDecode(s: string): (r: Option<seq<int>>)
    ensures r.Some? ==> AllBytes(r.value)
  {
    if s == [] then Some([])
    else if s[0] != '%' then Prepend(Utf8(s[0]), PercentDecode(s[1..]))
    else if |s| < 3 || HexValue(s[1]).None? || HexValue(s[2]).None? then None
    else Prepend([16 * HexValue(s[1]).value + HexValue(s[2]).value], PercentDecode(s[3..]))
  }

  predicate Continuation(b: int)
  {
    0x80 <= b < 0xC0
  }

  /** A scalar value, or None for a surrogate or a value beyond U+10FFFF. */
  function Scalar(v: int): Option<char>
  {
    if 0 <= v < 0xD800 || 0xE000 <= v < 0x110000 then Some(v as char) else None
  }

  function PrependChar(c: Option<char>, rest: Option<string>): Option<string>
  {
    if c.Some? && rest.Some? then Some([c.value] + rest.value) else None
  }

  /** Strict UTF-8 decoding: no overlong forms, no surrogates. */
  function Utf8Decode(bs: seq<int>): Option<string>
  {
    if bs == [] then Some([])
    else
      var b0 := bs[0];
      if 0 <= b0 < 0x80 then PrependChar(Some(b0 as char), Utf8Decode(bs[1..]))
      else if 0xC0 <= b0 < 0xE0 && |bs| >= 2 && Continuation(bs[1]) then
        var v := (b0 - 0xC0) * 64 + (bs[1] - 0x80);
        if v < 0x80 then None else PrependChar(Scalar(v), Utf8Decode(bs[2..]))
      else if 0xE0 <= b0 < 0xF0 && |bs| >= 3 && Continuation(bs[1]) && Continuation(bs[2]) then
        var v := (b0 - 0xE0) * 4096 + (bs[1] - 0x80) * 64 + (bs[2] - 0x80);
        if v < 0x800 then None else PrependChar(Scalar(v), Utf8Decode(bs[3..]))
      else if 0xF0 <= b0 < 0xF8 && |bs| >= 4 && Continuation(bs[1]) && Continuation(bs[2]) && Continuation(bs[3]) then
        var v := (b0 - 0xF0) * 262144 + (bs[1] - 0x80) * 4096 + (bs[2] - 0x80) * 64 + (bs[3] - 0x80);
        if v < 0x10000 then None else PrependChar(Scalar(v), Utf8Decode(bs[4..]))
      else None
  }

  /** `decodeURIComponent(s)`, None where it throws. */
  function DecodeUriComponent(s: string): Option<string>
  {
    var bytes := PercentDecode(s);
    if bytes.None? then None else Utf8Decode(bytes.value)
  }

  // ---------------------------------------------------------------------------
  // Round trip

  /** The UTF-8 bytes of a whole string. */
  function Utf8Of(s: string): (bs: seq<int>)
    ensures AllBytes(bs)
  {
    if s == [] then [] else Utf8(s[0]) + Utf8Of(s[1..])
  }

  lemma {:induction false} HexRoundTrip(n: int)
    requires 0 <= n < 16
    ensures HexValue(HexDigit(n)) == Some(n)
  {
  }

  /** One `%XX` escape decodes to its byte. */
  lemma {:induction false} PercentEscape(b: int, tail: string)
    requires IsByte(b)
    ensures PercentDecode(['%', HexDigit(b / 16), HexDigit(b % 16)] + tail) == Prepend([b], PercentDecode(tail))
  {
    var s := ['%', HexDigit(b / 16), HexDigit(b % 16)] + tail;
    HexRoundTrip(b / 16);
    HexRoundTrip(b % 16);
    assert s[3..] == tail;
    assert 16 * (b / 16) + b % 16 == b;
  }

  lemma {:induction false} PrependTwice<T>(x: seq<T>, y: seq<T>, r: Option<seq<T>>)
    ensures Prepend(x, Prepend(y, r)) == Prepend(x + y, r)
  {
    if r.Some? {
      assert x + (y + r.value) == (x + y) + r.value;
    }
  }

  lemma {:induction false} PercentBytesDecode(bs: seq<int>, rest: string)
    requires AllBytes(bs)
    ensures PercentDecode(PercentBytes(bs) + rest) == Prepend(bs, PercentDecode(rest))
  {
    if bs == [] {
      assert PercentBytes(bs) + rest == rest;
      if PercentDecode(rest).Some? {
        assert bs + PercentDecode(rest).value == PercentDecode(rest).value;
      }
    } else {
      var b := bs[0];
      var escape := ['%', HexDigit(b / 16), HexDigit(b % 16)];
      var tail := PercentBytes(bs[1..]) + rest;
      assert PercentBytes(bs) == escape + PercentBytes(bs[1..]);
      assert PercentBytes(bs) + rest == escape + tail;
      PercentEscape(b, tail);
      PercentBytesDecode(bs[1..], rest);
      PrependTwice([b], bs[1..], PercentDecode(rest));
      assert [b] + bs[1..] == bs;
    }
  }

  lemma {:induction false} EncodeCharDecode(c: char, rest: string)
    ensures PercentDecode(EncodeChar(c) + rest) == Prepend(Utf8(c), PercentDecode(rest))
  {
    if Unreserved(c) {
      assert (EncodeChar(c) + rest)[1..] == rest;
    } else {
      PercentBytesDecode(Utf8(c), rest);
    }
  }

  lemma {:induction false} EncodeThenPercentDecode(s: string)
    ensures PercentDecode(EncodeUriComponent(s)) == Some(Utf8Of(s))
  {
    if s != [] {
      EncodeThenPercentDecode(s[1..]);
      EncodeCharDecode(s[0], EncodeUriComponent(s[1..]));
    }
  }

  lemma Utf8DecodeTwo(c: char, rest: seq<int>)
    requires 0x80 <= c as int < 0x800
    ensures Utf8Decode(Utf8(c) + rest) == PrependChar(Some(c), Utf8Decode(rest))
  {
    var n := c as int;
    var bs := Utf8(c) + rest;
    var a, m := n % 64, n / 64;
    assert n == 64 * m + a;
    assert bs[0] == 0xC0 + m && bs[1] == 0x80 + a;
    assert bs[2..] == rest;
  }

  lemma Utf8DecodeThree(c: char, rest: seq<int>)
    requires 0x800 <= c as int < 0x10000
    ensures Utf8Decode(Utf8(c) + rest) == PrependChar(Some(c), Utf8Decode(rest))
  {
    var n := c as int;
    var bs := Utf8(c) + rest;
    var a, m := n % 64, n / 64;
    var b, k := m % 64, m / 64;
    assert n == 64 * m + a && m == 64 * k + b;
    assert n == 4096 * k + 64 * b + a;
    assert bs[0] == 0xE0 + k && bs[1] == 0x80 + b && bs[2] == 0x80 + a;
    assert bs[3..] == rest;
  }

  lemma Utf8DecodeFour(c: char, rest: seq<int>)
    requires 0x10000 <= c as int
    ensures Utf8Decode(Utf8(c) + rest) == PrependChar(Some(c), Utf8Decode(rest))
  {
    var n := c as int;
    var bs := Utf8(c) + rest;
    var a, m := n % 64, n / 64;
    var b, k := m % 64, m / 64;
    var d, j := k % 64, k / 64;
    assert n == 64 * m + a && m == 64 * k + b && k == 64 * j + d;
    assert n == 262144 * j + 4096 * d + 64 * b + a;
    assert bs[0] == 0xF0 + j && bs[1] == 0x80 + d && bs[2] == 0x80 + b && bs[3] == 0x80 + a;
    assert bs[4..] == rest;
  }

  lemma {:induction false} Utf8DecodeChar(c: char, rest: seq<int>)
    ensures Utf8Decode(Utf8(c) + rest) == PrependChar(Some(c), Utf8Decode(rest))
  {
    var n := c as int;
    if n < 0x80 {
      assert (Utf8(c) + rest)[1..] == rest;
    } else if n < 0x800 {
      Utf8DecodeTwo(c, rest);
    } else if n < 0x10000 {
      Utf8DecodeThree(c, rest);
    } else {
      Utf8DecodeFour(c, rest);
    }
  }

  lemma {:induction false} Utf8RoundTrip(s: string)
    ensures Utf8Decode(Utf8Of(s)) == Some(s)
  {
    if s != [] {
      assert Utf8Of(s) == Utf8(s[0]) + Utf8Of(s[1..]);
      Utf8RoundTrip(s[1..]);
      Utf8DecodeChar(s[0], Utf8Of(s[1..]));
      assert [s[0]] + s[1..] == s;
    }
  }

  /** `decodeURIComponent(encodeURIComponent(s)) == s` for every string. */
  lemma {:induction false} DecodeEncode(s: string)
    ensures DecodeUriComponent(EncodeUriComponent(s)) == Some(s)
  {
    EncodeThenPercentDecode(s);
    Utf8RoundTrip(s);
  }

  /** Encoding distributes over concatenation. */
  lemma {:induction false} EncodeAppend(a: string, b: string)
    ensures EncodeUriComponent(a + b) == EncodeUriComponent(a) + EncodeUriComponent(b)
  {
    if a == [] {
      assert a + b == b;
    } else {
      var ab := a + b;
      assert ab[0] == a[0] && ab[1..] == a[1..] + b;
      calc {
        EncodeUriComponent(ab);
        EncodeChar(a[0]) + EncodeUriComponent(a[1..] + b);
        { EncodeAppend(a[1..], b); }
        EncodeChar(a[0]) + (EncodeUriComponent(a[1..]) + EncodeUriComponent(b));
        (EncodeChar(a[0]) + EncodeUriComponent(a[1..])) + EncodeUriComponent(b);
      }
    }
  }

  /** A string of unreserved characters is its own encoding. */
  lemma {:induction false} EncodeUnreserved(s: string)
    requires forall i :: 0 <= i < |s| ==> Unreserved(s[i])
    ensures EncodeUriComponent(s) == s
  {
    if s != [] {
      EncodeUnreserved(s[1..]);
    }
  }
}
