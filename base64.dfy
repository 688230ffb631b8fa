/**
 * The standard Base64 encoding with padding, section 4 of RFC 4648,
 * as the `STANDARD` engine of the `base64` crate produces it for the
 * Basic credentials of settings.rs. `Decode` is the inverse used to show
 * that the encoding loses nothing.
 */
module Base64 {
  import opened Wrappers
  import opened Utf8

  type Sextet = n: int | 0 <= n < 64

  /** Table 1 of RFC 4648: 0-25 'A'-'Z', 26-51 'a'-'z', 52-61 '0'-'9', 62 '+', 63 '/'. */
  function Char(n: Sextet): (c: char)
    ensures IsAlphabetChar(c)
  {
    if n < 26 then ('A' as int + n) as char
    else if n < 52 then ('a' as int + (n - 26)) as char
    else if n < 62 then ('0' as int + (n - 52)) as char
    else if n == 62 then '+'
    else '/'
  }

  predicate IsAlphabetChar(c: char) {
    ('A' <= c <= 'Z') || ('a' <= c <= 'z') || ('0' <= c <= '9') || c == '+' || c == '/'
  }

  /** A character that may appear in padded standard Base64 output. */
  predicate IsEncodedChar(c: char) {
    IsAlphabetChar(c) || c == '='
  }

  /** The value of an alphabet character; None for any other character (including '='). */
  function Index(c: char): (r: Option<Sextet>)
    ensures r.Some? <==> IsAlphabetChar(c)
    ensures r.Some? ==> Char(r.value) == c
  {
    if 'A' <= c <= 'Z' then Some(c as int - 'A' as int)
    else if 'a' <= c <= 'z' then Some(c as int - 'a' as int + 26)
    else if '0' <= c <= '9' then Some(c as int - '0' as int + 52)
    else if c == '+' then Some(62)
    else if c == '/' then Some(63)
    else None
  }

  lemma IndexChar(n: Sextet)
    ensures IsAlphabetChar(Char(n))
    ensures Index(Char(n)) == Some(n)
  {
  }

  /** Three bytes become four characters: 24 bits read as four 6-bit groups, most significant first. */
  function EncodeGroup(b0: Byte, b1: Byte, b2: Byte): seq<char> {
    [Char(b0 / 4), Char((b0 % 4) * 16 + b1 / 16), Char((b1 % 16) * 4 + b2 / 64), Char(b2 % 64)]
  }

  /** The final group: one or two bytes, zero bits appended, '=' padding to four characters. */
  function EncodeTail(bs: seq<Byte>): seq<char>
    requires 1 <= |bs| <= 2
  {
    if |bs| == 1 then [Char(bs[0] / 4), Char((bs[0] % 4) * 16), '=', '=']
    else [Char(bs[0] / 4), Char((bs[0] % 4) * 16 + bs[1] / 16), Char((bs[1] % 16) * 4), '=']
  }

  function Encode(bs: seq<Byte>): (s: string)
    ensures |s| == 4 * ((|bs| + 2) / 3)
    decreases |bs|
  {
    if |bs| == 0 then ""
    else if |bs| <= 2 then EncodeTail(bs)
    else EncodeGroup(bs[0], bs[1], bs[2]) + Encode(bs[3..])
  }

  /** Every output character is from the alphabet or '=', and '=' appears only in the last two places. */
  lemma {:induction false} EncodeAlphabet(bs: seq<Byte>)
    ensures forall i :: 0 <= i < |Encode(bs)| ==> IsEncodedChar(Encode(bs)[i])
    ensures forall i :: 0 <= i < |Encode(bs)| - 2 ==> IsAlphabetChar(Encode(bs)[i])
    decreases |bs|
  {
    if |bs| > 2 {
      EncodeAlphabet(bs[3..]);
      var g, rest := EncodeGroup(bs[0], bs[1], bs[2]), Encode(bs[3..]);
      assert Encode(bs) == g + rest;
      forall i | 0 <= i < |g + rest|
        ensures IsEncodedChar((g + rest)[i])
        ensures i < |g + rest| - 2 ==> IsAlphabetChar((g + rest)[i])
      {
        if i >= 4 {
          assert (g + rest)[i] == rest[i - 4];
        }
      }
    }
  }

  /** Four alphabet characters back to three bytes. */
  function DecodeGroup(n0: Sextet, n1: Sextet, n2: Sextet, n3: Sextet): seq<Byte> {
    [n0 * 4 + n1 / 16, (n1 % 16) * 16 + n2 / 4, (n2 % 4) * 64 + n3]
  }

  /** Decodes one group of four characters; the last group may carry padding. */
  function DecodeQuad(q: string, last: bool): Option<seq<Byte>>
    requires |q| == 4
  {
    var i0, i1, i2, i3 := Index(q[0]), Index(q[1]), Index(q[2]), Index(q[3]);
    if i0.None? || i1.None? then None
    else if i2.Some? && i3.Some? then Some(DecodeGroup(i0.value, i1.value, i2.value, i3.value))
    else if last && i2.Some? && q[3] == '=' then Some(DecodeGroup(i0.value, i1.value, i2.value, 0)[..2])
    else if last && q[2] == '=' && q[3] == '=' then Some(DecodeGroup(i0.value, i1.value, 0, 0)[..1])
    else None
  }

  function Decode(s: string): (r: Option<seq<Byte>>)
    decreases |s|
  {
    if |s| == 0 then Some([])
    else if |s| < 4 then None
    else
      match DecodeQuad(s[..4], |s| == 4)
      case None => None
      case Some(head) =>
        match Decode(s[4..])
        case None => None
        case Some(tail) => Some(head + tail)
  }

  lemma GroupRoundTrip(b0: Byte, b1: Byte, b2: Byte)
    ensures DecodeGroup(b0 / 4, (b0 % 4) * 16 + b1 / 16, (b1 % 16) * 4 + b2 / 64, b2 % 64) == [b0, b1, b2]
  {
    var n1 := (b0 % 4) * 16 + b1 / 16;
    var n2 := (b1 % 16) * 4 + b2 / 64;
    assert n1 / 16 == b0 % 4 && n1 % 16 == b1 / 16;
    assert n2 / 4 == b1 % 16 && n2 % 4 == b2 / 64;
    assert (b0 / 4) * 4 + b0 % 4 == b0;
    assert (b1 / 16) * 16 + b1 % 16 == b1;
    assert (b2 / 64) * 64 + b2 % 64 == b2;
  }

  lemma DecodeOneByte(b0: Byte)
    ensures Decode(EncodeTail([b0])) == Some([b0])
  {
    var s := EncodeTail([b0]);
    IndexChar(b0 / 4);
    IndexChar((b0 % 4) * 16);
    GroupRoundTrip(b0, 0, 0);
    assert s[..4] == s && s[4..] == [];
    assert Index(s[0]) == Some(b0 / 4);
    assert Index(s[1]) == Some((b0 % 4) * 16);
    assert Index(s[2]) == None;
    assert DecodeGroup(b0 / 4, (b0 % 4) * 16, 0, 0)[..1] == [b0];
    assert DecodeQuad(s, true) == Some([b0]);
    assert Decode(s[4..]) == Some([]);
    assert [b0] + [] == [b0];
  }

  lemma DecodeTwoBytes(b0: Byte, b1: Byte)
    ensures Decode(EncodeTail([b0, b1])) == Some([b0, b1])
  {
    var s := EncodeTail([b0, b1]);
    IndexChar(b0 / 4);
    IndexChar((b0 % 4) * 16 + b1 / 16);
    IndexChar((b1 % 16) * 4);
    GroupRoundTrip(b0, b1, 0);
    assert s[..4] == s && s[4..] == [];
    assert Index(s[0]) == Some(b0 / 4);
    assert Index(s[1]) == Some((b0 % 4) * 16 + b1 / 16);
    assert Index(s[2]) == Some((b1 % 16) * 4);
    assert Index(s[3]) == None && s[3] == '=';
    assert DecodeGroup(b0 / 4, (b0 % 4) * 16 + b1 / 16, (b1 % 16) * 4, 0)[..2] == [b0, b1];
    assert DecodeQuad(s, true) == Some([b0, b1]);
    assert Decode(s[4..]) == Some([]);
    assert [b0, b1] + [] == [b0, b1];
  }

  lemma DecodeFullGroup(b0: Byte, b1: Byte, b2: Byte, last: bool)
    ensures DecodeQuad(EncodeGroup(b0, b1, b2), last) == Some([b0, b1, b2])
  {
    var n0: Sextet := b0 / 4;
    var n1: Sextet := (b0 % 4) * 16 + b1 / 16;
    var n2: Sextet := (b1 % 16) * 4 + b2 / 64;
    var n3: Sextet := b2 % 64;
    var q := EncodeGroup(b0, b1, b2);
    assert q == [Char(n0), Char(n1), Char(n2), Char(n3)];
    IndexChar(n0);
    IndexChar(n1);
    IndexChar(n2);
    IndexChar(n3);
    assert DecodeQuad(q, last) == Some(DecodeGroup(n0, n1, n2, n3));
    GroupRoundTrip(b0, b1, b2);
  }

  lemma DecodeConcat(q: string, rest: string, head: seq<Byte>, tail: seq<Byte>)
    requires |q| == 4
    requires DecodeQuad(q, rest == []) == Some(head)
    requires Decode(rest) == Some(tail)
    ensures Decode(q + rest) == Some(head + tail)
  {
    var s := q + rest;
    assert s[..4] == q;
    assert s[4..] == rest;
  }

  /** Decoding the encoding of any byte string gives the byte string back. */
  lemma {:induction false} DecodeEncode(bs: seq<Byte>)
    ensures Decode(Encode(bs)) == Some(bs)
    decreases |bs|
  {
    if |bs| == 1 {
      assert bs == [bs[0]];
      DecodeOneByte(bs[0]);
    } else if |bs| == 2 {
      assert bs == [bs[0], bs[1]];
      DecodeTwoBytes(bs[0], bs[1]);
    } else if |bs| > 2 {
      DecodeEncode(bs[3..]);
      DecodeEncodeStep(bs);
    }
  }

  lemma DecodeEncodeStep(bs: seq<Byte>)
    requires |bs| > 2
    requires Decode(Encode(bs[3..])) == Some(bs[3..])
    ensures Decode(Encode(bs)) == Some(bs)
  {
    var rest := Encode(bs[3..]);
    assert Encode(bs) == EncodeGroup(bs[0], bs[1], bs[2]) + rest;
    DecodeGroupThenRest(bs, rest);
    SplitFirstGroup(bs);
  }

  lemma SplitFirstGroup(bs: seq<Byte>)
    requires |bs| > 2
    ensures bs[..3] + bs[3..] == bs
  {
  }

  lemma DecodeGroupThenRest(bs: seq<Byte>, rest: string)
    requires |bs| > 2
    requires Decode(rest) == Some(bs[3..])
    ensures Decode(EncodeGroup(bs[0], bs[1], bs[2]) + rest) == Some(bs[..3] + bs[3..])
  {
    var g := EncodeGroup(bs[0], bs[1], bs[2]);
    DecodeFullGroup(bs[0], bs[1], bs[2], rest == []);
    assert bs[..3] == [bs[0], bs[1], bs[2]];
    DecodeConcat(g, rest, bs[..3], bs[3..]);
  }

  /** Two byte strings with the same encoding are equal. */
  lemma EncodeInjective(a: seq<Byte>, b: seq<Byte>)
    requires Encode(a) == Encode(b)
    ensures a == b
  {
    DecodeEncode(a);
    DecodeEncode(b);
  }
}
