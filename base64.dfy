/** The URL-safe base64 alphabet of section 5 of RFC 4648, as `urlsafe_b64encode` writes it,
    and the unpadded form section 2 of RFC 7515 calls base64url. */
module Base64 {
  import opened Strings

  /** The character for a 6-bit value: `A`-`Z`, `a`-`z`, `0`-`9`, `-`, `_`. */
  function CharOf(v: nat): (c: char)
    requires v < 64
    ensures IsAlphabet(c) && ValueOf(c) == v
  {
    if v < 26 then ('A' as int + v) as char
    else if v < 52 then ('a' as int + (v - 26)) as char
    else if v < 62 then ('0' as int + (v - 52)) as char
    else if v == 62 then '-'
    else '_'
  }

  predicate IsAlphabet(c: char)
  {
    'A' <= c <= 'Z' || 'a' <= c <= 'z' || '0' <= c <= '9' || c == '-' || c == '_'
  }

  /** The 6-bit value of an alphabet character. */
  function ValueOf(c: char): (v: nat)
    requires IsAlphabet(c)
    ensures v < 64
  {
    if 'A' <= c <= 'Z' then c as int - 'A' as int
    else if 'a' <= c <= 'z' then c as int - 'a' as int + 26
    else if '0' <= c <= '9' then c as int - '0' as int + 52
    else if c == '-' then 62
    else 63
  }

  predicate AllAlphabet(s: string)
  {
    forall i :: 0 <= i < |s| ==> IsAlphabet(s[i])
  }

  /** The characters for a group of one, two or three octets, without padding. */
  function Group(d: seq<byte>): (s: string)
    requires 1 <= |d| <= 3
    ensures |s| == |d| + 1 && AllAlphabet(s)
  {
    var c0 := CharOf(d[0] / 4);
    if |d| == 1 then [c0, CharOf((d[0] % 4) * 16)]
    else
      var c1 := CharOf((d[0] % 4) * 16 + d[1] / 16);
      if |d| == 2 then [c0, c1, CharOf((d[1] % 16) * 4)]
      else [c0, c1, CharOf((d[1] % 16) * 4 + d[2] / 64), CharOf(d[2] % 64)]
  }

  /** `urlsafe_b64encode`: groups of three octets, the last group padded with `=` to four
      characters. */
  function Padded(d: seq<byte>): (s: string)
    ensures |s| % 4 == 0
    ensures AlphabetOrPad(s)
    decreases |d|
  {
    if |d| == 0 then ""
    else if |d| == 1 then
      var g := Group(d);
      AlphabetOrPadAppend(g, "==");
      g + "=="
    else if |d| == 2 then
      var g := Group(d);
      AlphabetOrPadAppend(g, "=");
      g + "="
    else
      var g := Group(d[..3]);
      var rest := Padded(d[3..]);
      GroupAppend(g, rest);
      g + rest
  }

  /** Every character is in the alphabet or is the padding character `=`. */
  predicate AlphabetOrPad(s: string)
  {
    forall i :: 0 <= i < |s| ==> IsAlphabet(s[i]) || s[i] == '='
  }

  lemma AlphabetOrPadAppend(a: string, b: string)
    requires AlphabetOrPad(a) || AllAlphabet(a)
    requires AlphabetOrPad(b)
    ensures AlphabetOrPad(a + b)
  {
    assert forall i :: |a| <= i < |a + b| ==> (a + b)[i] == b[i - |a|];
  }

  /** A group of four characters before padded text gives padded text. */
  lemma GroupAppend(g: string, rest: string)
    requires |g| == 4 && AllAlphabet(g)
    requires |rest| % 4 == 0 && AlphabetOrPad(rest)
    ensures |g + rest| % 4 == 0 && AlphabetOrPad(g + rest)
  {
    AlphabetOrPadAppend(g, rest);
  }

  /** The same groups without padding. */
  function Unpadded(d: seq<byte>): (s: string)
    ensures AllAlphabet(s)
    ensures |s| == (4 * |d| + 2) / 3
    decreases |d|
  {
    if |d| <= 3 then (if |d| == 0 then "" else Group(d))
    else Group(d[..3]) + Unpadded(d[3..])
  }

  /** `str.strip("=")`: drops every `=` at either end. */
  function Strip(s: string): string
  {
    TrimStart(TrimEnd(s))
  }

  function TrimEnd(s: string): string
    decreases |s|
  {
    if |s| > 0 && s[|s| - 1] == '=' then TrimEnd(s[..|s| - 1]) else s
  }

  function TrimStart(s: string): string
    decreases |s|
  {
    if |s| > 0 && s[0] == '=' then TrimStart(s[1..]) else s
  }

  /** `JwsBase._encode`: the padded encoding decoded as ASCII and stripped of `=`. */
  function Encode(d: seq<byte>): string
  {
    Strip(Padded(d))
  }

  /** The padding `urlsafe_b64encode` appends after `n` octets. */
  function Pad(n: nat): (p: string)
    ensures forall i :: 0 <= i < |p| ==> p[i] == '='
  {
    if n == 1 then "==" else if n == 2 then "=" else if n <= 3 then "" else Pad(n - 3)
  }

  /** The padded encoding is the unpadded one followed by the padding only. */
  lemma {:induction false} PaddedIsUnpaddedPlusPad(d: seq<byte>)
    ensures Padded(d) == Unpadded(d) + Pad(|d|)
    decreases |d|
  {
    if |d| == 3 {
      assert d[..3] == d && d[3..] == [];
      assert Padded(d) == Group(d) + "";
    } else if |d| > 3 {
      var g := Group(d[..3]);
      PaddedIsUnpaddedPlusPad(d[3..]);
      calc {
        Padded(d);
        g + Padded(d[3..]);
        g + (Unpadded(d[3..]) + Pad(|d| - 3));
        (g + Unpadded(d[3..])) + Pad(|d|);
        Unpadded(d) + Pad(|d|);
      }
    }
  }

  lemma {:induction false} TrimEndPad(u: string, pad: string)
    requires AllAlphabet(u) && forall i :: 0 <= i < |pad| ==> pad[i] == '='
    ensures TrimEnd(u + pad) == u
    decreases |pad|
  {
    if |pad| > 0 {
      assert (u + pad)[..|u + pad| - 1] == u + pad[..|pad| - 1];
      TrimEndPad(u, pad[..|pad| - 1]);
    } else {
      assert u + pad == u;
    }
  }

  /** `_encode` gives the unpadded encoding: base64url text of the alphabet, without `=`,
      `ceil(4n/3)` characters long for `n` octets. */
  lemma EncodeIsUnpadded(d: seq<byte>)
    ensures Encode(d) == Unpadded(d)
    ensures AllAlphabet(Encode(d)) && '=' !in Encode(d)
    ensures |Encode(d)| == (4 * |d| + 2) / 3
  {
    PaddedIsUnpaddedPlusPad(d);
    TrimEndPad(Unpadded(d), Pad(|d|));
    var u := Unpadded(d);
    assert |u| > 0 ==> u[0] != '=';
  }

  /** Decoding of unpadded base64url text, the inverse the protocol's receiver applies. */
  function Decode(s: string): (d: seq<byte>)
    requires AllAlphabet(s)
    decreases |s|
  {
    if |s| < 2 then []
    else if |s| <= 4 then DecodeGroup(s)
    else DecodeGroup(s[..4]) + Decode(s[4..])
  }

  /** The octets of one group of two, three or four characters. */
  function DecodeGroup(s: string): (d: seq<byte>)
    requires AllAlphabet(s) && 2 <= |s| <= 4
    ensures |d| == |s| - 1
  {
    var v0, v1 := ValueOf(s[0]), ValueOf(s[1]);
    var b0: byte := v0 * 4 + v1 / 16;
    if |s| == 2 then [b0]
    else
      var v2 := ValueOf(s[2]);
      var b1: byte := (v1 % 16) * 16 + v2 / 4;
      if |s| == 3 then [b0, b1]
      else [b0, b1, (v2 % 4) * 64 + ValueOf(s[3])]
  }

  /** One group decodes to its octets. */
  lemma GroupRoundTrip(d: seq<byte>)
    requires 1 <= |d| <= 3
    ensures DecodeGroup(Group(d)) == d
  {
    var g := Group(d);
    assert ValueOf(g[0]) == d[0] / 4;
    assert ValueOf(g[1]) / 16 == d[0] % 4;
    if |d| >= 2 {
      assert ValueOf(g[1]) % 16 == d[1] / 16;
      assert ValueOf(g[2]) / 4 == d[1] % 16;
    }
    if |d| == 3 {
      assert ValueOf(g[2]) % 4 == d[2] / 64;
    }
  }

  /** Decoding undoes `_encode`. */
  lemma {:induction false} DecodeEncode(d: seq<byte>)
    ensures AllAlphabet(Encode(d))
    ensures Decode(Encode(d)) == d
    decreases |d|
  {
    EncodeIsUnpadded(d);
    UnpaddedRoundTrip(d);
  }

  lemma {:induction false} UnpaddedRoundTrip(d: seq<byte>)
    ensures Decode(Unpadded(d)) == d
    decreases |d|
  {
    if 1 <= |d| <= 3 {
      GroupRoundTrip(d);
    } else if |d| > 3 {
      var g := Group(d[..3]);
      var rest := Unpadded(d[3..]);
      var s := g + rest;
      assert Unpadded(d) == s;
      UnpaddedRoundTrip(d[3..]);
      GroupRoundTrip(d[..3]);
      assert s[4..] == rest && s[..4] == g;
      assert d == d[..3] + d[3..];
    }
  }

  /** The ASCII octets of text in the alphabet (`.encode("ascii")`). */
  function Ascii(s: string): (b: seq<byte>)
    requires forall i :: 0 <= i < |s| ==> s[i] as int < 128
    ensures |b| == |s| && forall i :: 0 <= i < |s| ==> b[i] == s[i] as int
  {
    seq(|s|, i requires 0 <= i < |s| => s[i] as int as byte)
  }
}
