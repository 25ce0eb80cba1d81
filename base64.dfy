/** The base64 transport encoding behind the browser's `btoa` and `atob`.
    Encoding is section 4 of RFC 4648 (the standard alphabet, with '='
    padding); decoding is the WHATWG Infra Standard's "forgiving-base64
    decode", which `atob` uses: ASCII whitespace is removed, one or two
    trailing '=' are dropped when the length is a multiple of four, a
    length of 1 modulo 4 or a character outside the alphabet is a failure,
    and leftover bits of an unpadded tail are discarded. */
module Base64 {
  import opened Types

  type Sextet = x: int | 0 <= x < 64

  /** The alphabet of RFC 4648 section 4, table 1. */
  function AlphabetChar(v: Sextet): (c: char)
  {
    if v < 26 then ('A' as int + v) as char
    else if v < 52 then ('a' as int + (v - 26)) as char
    else if v < 62 then ('0' as int + (v - 52)) as char
    else if v == 62 then '+'
    else '/'
  }

  predicate IsAlphabetChar(c: char)
  {
    ('A' <= c <= 'Z') || ('a' <= c <= 'z') || ('0' <= c <= '9') || c == '+' || c == '/'
  }

  /** The value of an alphabet character; the inverse of AlphabetChar. */
  function AlphabetValue(c: char): (v: Sextet)
    requires IsAlphabetChar(c)
    ensures AlphabetChar(v) == c
  {
    if 'A' <= c <= 'Z' then c as int - 'A' as int
    else if 'a' <= c <= 'z' then c as int - 'a' as int + 26
    else if '0' <= c <= '9' then c as int - '0' as int + 52
    else if c == '+' then 62
    else 63
  }

  lemma AlphabetRoundTrip(v: Sextet)
    ensures IsAlphabetChar(AlphabetChar(v))
    ensures AlphabetValue(AlphabetChar(v)) == v
  {
  }

  /** The four 6-bit groups of three bytes, most significant bits first. */
  function EncodeGroup(b0: Byte, b1: Byte, b2: Byte): (g: seq<Sextet>)
    ensures |g| == 4
  {
    [b0 / 4, (b0 % 4) * 16 + b1 / 16, (b1 % 16) * 4 + b2 / 64, b2 % 64]
  }

  /** The 6-bit groups of a byte string; a trailing group of one or two
      bytes is filled with zero bits and yields two or three sextets. */
  function Sextets(bytes: seq<Byte>): (xs: seq<Sextet>)
    ensures |xs| == 4 * (|bytes| / 3) + (if |bytes| % 3 == 0 then 0 else |bytes| % 3 + 1)
    decreases |bytes|
  {
    if |bytes| == 0 then []
    else if |bytes| == 1 then EncodeGroup(bytes[0], 0, 0)[..2]
    else if |bytes| == 2 then EncodeGroup(bytes[0], bytes[1], 0)[..3]
    else EncodeGroup(bytes[0], bytes[1], bytes[2]) + Sextets(bytes[3..])
  }

  function Chars(xs: seq<Sextet>): (s: string)
    ensures |s| == |xs|
    ensures forall i :: 0 <= i < |xs| ==> s[i] == AlphabetChar(xs[i]) && IsAlphabetChar(s[i])
  {
    seq(|xs|, i requires 0 <= i < |xs| => AlphabetRoundTrip(xs[i]); AlphabetChar(xs[i]))
  }

  /** The '=' padding that completes the last 4-character quantum. */
  function Padding(n: nat): string
  {
    if n % 3 == 1 then "==" else if n % 3 == 2 then "=" else ""
  }

  /** RFC 4648 section 4 base64 encoding. */
  function Encode(bytes: seq<Byte>): (s: string)
    ensures |s| == 4 * ((|bytes| + 2) / 3)
  {
    Chars(Sextets(bytes)) + Padding(|bytes|)
  }

  /** The three bytes that four sextets stand for. */
  function DecodeGroup(x0: Sextet, x1: Sextet, x2: Sextet, x3: Sextet): (g: seq<Byte>)
    ensures |g| == 3
  {
    [x0 * 4 + x1 / 16, (x1 % 16) * 16 + x2 / 4, (x2 % 4) * 64 + x3]
  }

  /** The bytes a run of sextets stands for; a trailing run of two or three
      sextets yields one or two bytes and its leftover bits are dropped. */
  function DecodeSextets(xs: seq<Sextet>): (bytes: seq<Byte>)
    requires |xs| % 4 != 1
    decreases |xs|
  {
    if |xs| == 0 then []
    else if |xs| == 2 then DecodeGroup(xs[0], xs[1], 0, 0)[..1]
    else if |xs| == 3 then DecodeGroup(xs[0], xs[1], xs[2], 0)[..2]
    else DecodeGroup(xs[0], xs[1], xs[2], xs[3]) + DecodeSextets(xs[4..])
  }

  /** A run of `n` sextets stands for `6n / 8` whole bytes. */
  lemma {:induction false} DecodeSextetsLength(xs: seq<Sextet>)
    requires |xs| % 4 != 1
    ensures 4 * |DecodeSextets(xs)| <= 3 * |xs| < 4 * |DecodeSextets(xs)| + 4
    decreases |xs|
  {
    if |xs| >= 4 {
      DecodeSextetsLength(xs[4..]);
    }
  }

  /** ASCII whitespace as the Infra Standard defines it: TAB, LF, FF, CR and SPACE. */
  predicate IsAsciiWhitespace(c: char)
  {
    c == '\t' || c == '\n' || c == '\U{C}' || c == '\r' || c == ' '
  }

  function RemoveWhitespace(s: string): (r: string)
    ensures |r| <= |s|
    ensures forall i :: 0 <= i < |r| ==> !IsAsciiWhitespace(r[i])
  {
    if s == [] then []
    else if IsAsciiWhitespace(s[0]) then RemoveWhitespace(s[1..])
    else [s[0]] + RemoveWhitespace(s[1..])
  }

  /** Step 2 of forgiving-base64 decode: when the length is a multiple of
      four, one or two trailing '=' are removed. */
  function StripPadding(s: string): (r: string)
    ensures r <= s
  {
    if |s| % 4 == 0 && |s| >= 2 && s[|s| - 2] == '=' && s[|s| - 1] == '=' then s[..|s| - 2]
    else if |s| % 4 == 0 && |s| >= 1 && s[|s| - 1] == '=' then s[..|s| - 1]
    else s
  }

  function Values(s: string): (xs: seq<Sextet>)
    requires forall i :: 0 <= i < |s| ==> IsAlphabetChar(s[i])
    ensures |xs| == |s|
    ensures forall i :: 0 <= i < |s| ==> xs[i] == AlphabetValue(s[i])
  {
    seq(|s|, i requires 0 <= i < |s| && IsAlphabetChar(s[i]) => AlphabetValue(s[i]))
  }

  /** Forgiving-base64 decode; None is the failure that makes `atob` throw. */
  function Decode(s: string): (r: Option<seq<Byte>>)
    ensures r.Some? ==> 4 * |r.value| <= 3 * |s|
  {
    var d := StripPadding(RemoveWhitespace(s));
    if |d| % 4 == 1 then None
    else if exists i :: 0 <= i < |d| && !IsAlphabetChar(d[i]) then None
    else
      DecodeSextetsLength(Values(d));
      Some(DecodeSextets(Values(d)))
  }

  /** Decoding the sextets of a byte string gives the bytes back. */
  lemma {:induction false} SextetsRoundTrip(bytes: seq<Byte>)
    ensures |Sextets(bytes)| % 4 != 1
    ensures DecodeSextets(Sextets(bytes)) == bytes
    decreases |bytes|
  {
    SextetsLength(bytes);
    if |bytes| >= 3 {
      var g := EncodeGroup(bytes[0], bytes[1], bytes[2]);
      var rest := Sextets(bytes[3..]);
      SextetsRoundTrip(bytes[3..]);
      DecodeAfterGroup(g, rest);
      GroupRoundTrip(bytes[0], bytes[1], bytes[2]);
      assert [bytes[0], bytes[1], bytes[2]] + bytes[3..] == bytes;
    } else {
      TailRoundTrip(bytes);
    }
  }

  /** No run of sextets from the encoder leaves a single sextet over. */
  lemma SextetsLength(bytes: seq<Byte>)
    ensures |Sextets(bytes)| % 4 != 1
  {
  }

  /** A tail of one or two bytes round-trips through its two or three sextets. */
  lemma TailRoundTrip(bytes: seq<Byte>)
    requires |bytes| < 3
    ensures |Sextets(bytes)| % 4 != 1
    ensures DecodeSextets(Sextets(bytes)) == bytes
  {
    if |bytes| == 2 {
      GroupRoundTrip(bytes[0], bytes[1], 0);
    } else if |bytes| == 1 {
      GroupRoundTrip(bytes[0], 0, 0);
    }
  }

  /** A full group of four sextets decodes on its own, ahead of the rest. */
  lemma DecodeAfterGroup(g: seq<Sextet>, rest: seq<Sextet>)
    requires |g| == 4 && |rest| % 4 != 1
    ensures DecodeSextets(g + rest) == DecodeGroup(g[0], g[1], g[2], g[3]) + DecodeSextets(rest)
  {
    var xs := g + rest;
    assert xs[..4] == g && xs[4..] == rest;
  }

  /** The bit arithmetic of one 3-byte group. */
  lemma GroupRoundTrip(b0: Byte, b1: Byte, b2: Byte)
    ensures var g := EncodeGroup(b0, b1, b2); DecodeGroup(g[0], g[1], g[2], g[3]) == [b0, b1, b2]
  {
    var x1 := (b0 % 4) * 16 + b1 / 16;
    var x2 := (b1 % 16) * 4 + b2 / 64;
    assert x1 / 16 == b0 % 4 && x1 % 16 == b1 / 16;
    assert x2 / 4 == b1 % 16 && x2 % 4 == b2 / 64;
  }

  lemma {:induction false} RemoveWhitespaceKeeps(s: string)
    requires forall i :: 0 <= i < |s| ==> !IsAsciiWhitespace(s[i])
    ensures RemoveWhitespace(s) == s
  {
    if s != [] {
      RemoveWhitespaceKeeps(s[1..]);
    }
  }

  /** `atob` undoes RFC 4648 encoding: the transport-text round trip. */
  lemma EncodeDecodeRoundTrip(bytes: seq<Byte>)
    ensures Decode(Encode(bytes)) == Some(bytes)
  {
    EncodedWithoutWhitespace(bytes);
    EncodedPaddingStripped(bytes);
    SextetsRoundTrip(bytes);
    DecodeOfSextetChars(Encode(bytes), Sextets(bytes));
  }

  /** A string that is, once cleaned, the characters of a run of sextets
      decodes to the bytes of that run. */
  lemma DecodeOfSextetChars(s: string, xs: seq<Sextet>)
    requires StripPadding(RemoveWhitespace(s)) == Chars(xs)
    requires |xs| % 4 != 1
    ensures Decode(s) == Some(DecodeSextets(xs))
  {
    var d := Chars(xs);
    assert forall i :: 0 <= i < |d| ==> IsAlphabetChar(d[i]);
    assert Values(d) == xs;
  }

  /** Forgiving decode ignores ASCII whitespace anywhere in its input. */
  lemma DecodeIgnoresWhitespace(s: string)
    ensures Decode(RemoveWhitespace(s)) == Decode(s)
  {
    RemoveWhitespaceKeeps(RemoveWhitespace(s));
  }

  /** Padding is optional: the encoding without its trailing '=' decodes
      to the same bytes. */
  lemma DecodeUnpadded(bytes: seq<Byte>)
    ensures Decode(Chars(Sextets(bytes))) == Some(bytes)
  {
    var body := Chars(Sextets(bytes));
    RemoveWhitespaceKeeps(body);
    assert |body| > 0 ==> body[|body| - 1] != '=';
    SextetsRoundTrip(bytes);
    DecodeOfSextetChars(body, Sextets(bytes));
  }

  lemma EncodedWithoutWhitespace(bytes: seq<Byte>)
    ensures RemoveWhitespace(Encode(bytes)) == Encode(bytes)
  {
    var body := Chars(Sextets(bytes));
    var e := Encode(bytes);
    forall i | 0 <= i < |e| ensures !IsAsciiWhitespace(e[i]) {
      if i < |body| {
        assert e[i] == body[i];
      } else {
        assert e[i] == Padding(|bytes|)[i - |body|];
      }
    }
    RemoveWhitespaceKeeps(e);
  }

  lemma EncodedPaddingStripped(bytes: seq<Byte>)
    ensures StripPadding(Encode(bytes)) == Chars(Sextets(bytes))
  {
    var body := Chars(Sextets(bytes));
    var e := Encode(bytes);
    var r := |bytes| % 3;
    assert |e| % 4 == 0;
    if r == 1 {
      PaddingStripped(body, "==");
    } else if r == 2 {
      PaddingStripped(body, "=");
    } else {
      PaddingStripped(body, "");
    }
  }

  lemma PaddingStripped(body: string, pad: string)
    requires pad == "==" || pad == "=" || pad == ""
    requires forall i :: 0 <= i < |body| ==> IsAlphabetChar(body[i])
    requires |body + pad| % 4 == 0
    requires pad == "=" ==> |body| >= 1
    ensures StripPadding(body + pad) == body
  {
    var e := body + pad;
    if pad == "==" {
      assert e[..|e| - 2] == body;
    } else if pad == "=" {
      assert e[|e| - 2] == body[|body| - 1];
      assert e[..|e| - 1] == body;
    } else {
      assert e == body;
      if |e| >= 1 {
        assert IsAlphabetChar(e[|e| - 1]);
      }
    }
  }

  /** Nothing but alphabet characters and padding comes out of the encoder,
      and every '=' is in the last two positions. */
  lemma EncodeAlphabet(bytes: seq<Byte>)
    ensures forall i :: 0 <= i < |Encode(bytes)| ==>
      IsAlphabetChar(Encode(bytes)[i]) || (Encode(bytes)[i] == '=' && i >= |Encode(bytes)| - 2)
  {
  }
}
