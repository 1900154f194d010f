/** Base64 as defined in section 4 of RFC 4648: the standard alphabet
    `A-Z a-z 0-9 + /`, 24-bit groups written as four symbols, and `=`
    padding for a final group of one or two bytes. This is the encoding
    `base64.b64encode` produces; the decoder is its partner and exists to
    state the round trip. */
module Base64 {
  import opened Values

  newtype byte = x: int | 0 <= x < 256

  /** The symbol for a 6-bit value. */
  function Symbol(v: int): (c: char)
    requires 0 <= v < 64
    ensures c != '='
  {
    if v < 26 then (65 + v) as char        // 'A' .. 'Z'
    else if v < 52 then (97 + v - 26) as char  // 'a' .. 'z'
    else if v < 62 then (48 + v - 52) as char  // '0' .. '9'
    else if v == 62 then '+'
    else '/'
  }

  /** The 6-bit value of a symbol, or None for a character outside the alphabet. */
  function SymbolValue(c: char): (v: Option<int>)
    ensures v.Some? ==> 0 <= v.value < 64
  {
    if 'A' <= c <= 'Z' then Some(c as int - 65)
    else if 'a' <= c <= 'z' then Some(c as int - 97 + 26)
    else if '0' <= c <= '9' then Some(c as int - 48 + 52)
    else if c == '+' then Some(62)
    else if c == '/' then Some(63)
    else None
  }

  predicate IsSymbol(c: char) {
    SymbolValue(c).Some?
  }

  /** Symbol and SymbolValue are inverse on the 64 values. */
  lemma SymbolRoundTrip(v: int)
    requires 0 <= v < 64
    ensures SymbolValue(Symbol(v)) == Some(v)
  {
  }

  /** Number of `=` characters that close the encoding of n bytes. */
  function Padding(n: nat): nat {
    if n % 3 == 0 then 0 else 3 - n % 3
  }

  /** The four symbols of one full 24-bit group. */
  function EncodeGroup(b0: byte, b1: byte, b2: byte): (r: string)
    ensures |r| == 4 && forall i :: 0 <= i < 4 ==> IsSymbol(r[i])
  {
    SymbolRoundTrip(b0 as int / 4);
    SymbolRoundTrip(b0 as int % 4 * 16 + b1 as int / 16);
    SymbolRoundTrip(b1 as int % 16 * 4 + b2 as int / 64);
    SymbolRoundTrip(b2 as int % 64);
    [Symbol(b0 as int / 4), Symbol(b0 as int % 4 * 16 + b1 as int / 16),
     Symbol(b1 as int % 16 * 4 + b2 as int / 64), Symbol(b2 as int % 64)]
  }

  /** `base64.b64encode(data)`: full groups first, then one padded group for
      the one or two bytes left over. The result has 4 * ceil(n / 3)
      characters. */
  function Encode(data: seq<byte>): (r: string)
    ensures |r| == 4 * ((|data| + 2) / 3)
    decreases |data|
  {
    if |data| == 0 then ""
    else if |data| == 1 then
      [Symbol(data[0] as int / 4), Symbol(data[0] as int % 4 * 16), '=', '=']
    else if |data| == 2 then
      [Symbol(data[0] as int / 4), Symbol(data[0] as int % 4 * 16 + data[1] as int / 16),
       Symbol(data[1] as int % 16 * 4), '=']
    else
      EncodeGroup(data[0], data[1], data[2]) + Encode(data[3..])
  }

  /** `r` is alphabet symbols followed by exactly `pad` characters `=`. */
  predicate Shaped(r: string, pad: nat) {
    && pad <= |r|
    && (forall i :: 0 <= i < |r| - pad ==> IsSymbol(r[i]))
    && (forall i :: |r| - pad <= i < |r| ==> r[i] == '=')
  }

  /** Putting a full group in front keeps the shape. */
  lemma ShapedAfterGroup(g: string, rest: string, pad: nat)
    requires |g| == 4 && forall i :: 0 <= i < 4 ==> IsSymbol(g[i])
    requires Shaped(rest, pad)
    ensures Shaped(g + rest, pad)
  {
    var r := g + rest;
    forall i | 0 <= i < |r| - pad
      ensures IsSymbol(r[i])
    {
      if i >= 4 { assert r[i] == rest[i - 4]; }
    }
    forall i | |r| - pad <= i < |r|
      ensures r[i] == '='
    {
      assert r[i] == rest[i - 4];
    }
  }

  /** A final group of two or three symbols followed by `=` has the shape
      of padding two or one. */
  lemma PaddedShape(c0: char, c1: char, c2: char)
    requires IsSymbol(c0) && IsSymbol(c1) && (IsSymbol(c2) || c2 == '=')
    ensures Shaped([c0, c1, c2, '='], if c2 == '=' then 2 else 1)
  {
  }

  /** The encoding is alphabet symbols followed by exactly Padding(n) `=`. */
  lemma {:induction false} EncodeShape(data: seq<byte>)
    ensures Shaped(Encode(data), Padding(|data|))
    decreases |data|
  {
    if |data| == 1 {
      PaddedShape(Symbol(data[0] as int / 4), Symbol(data[0] as int % 4 * 16), '=');
    } else if |data| == 2 {
      PaddedShape(Symbol(data[0] as int / 4),
                  Symbol(data[0] as int % 4 * 16 + data[1] as int / 16), Symbol(data[1] as int % 16 * 4));
    } else if |data| >= 3 {
      EncodeShape(data[3..]);
      assert Padding(|data|) == Padding(|data[3..]|);
      ShapedAfterGroup(EncodeGroup(data[0], data[1], data[2]), Encode(data[3..]), Padding(|data|));
    }
  }

  /** Decodes one group of four characters; `last` says whether it is the
      final group, the only one that may carry padding. */
  function DecodeGroup(c0: char, c1: char, c2: char, c3: char, last: bool): Option<seq<byte>> {
    var v0, v1, v2, v3 := SymbolValue(c0), SymbolValue(c1), SymbolValue(c2), SymbolValue(c3);
    if v0.None? || v1.None? then None
    else if last && c2 == '=' && c3 == '=' then
      Some([(v0.value * 4 + v1.value / 16) as byte])
    else if v2.None? then None
    else if last && c3 == '=' then
      Some([(v0.value * 4 + v1.value / 16) as byte, (v1.value % 16 * 16 + v2.value / 4) as byte])
    else if v3.None? then None
    else
      Some([(v0.value * 4 + v1.value / 16) as byte, (v1.value % 16 * 16 + v2.value / 4) as byte,
            (v2.value % 4 * 64 + v3.value) as byte])
  }

  /** Decoding of a padded Base64 text; None when the text is not one. */
  function Decode(s: string): Option<seq<byte>>
    decreases |s|
  {
    if |s| == 0 then Some([])
    else if |s| < 4 then None
    else
      var group := DecodeGroup(s[0], s[1], s[2], s[3], |s| == 4);
      if group.None? then None
      else if |s| == 4 then group
      else
        var rest := Decode(s[4..]);
        if rest.None? then None else Some(group.value + rest.value)
  }

  /** The bit arithmetic behind a group: the 6-bit values taken from the
      bytes give the bytes back. */
  lemma SplitHigh(x0: int, x1: int)
    requires 0 <= x0 < 256 && 0 <= x1 < 256
    ensures (x0 / 4) * 4 + (x0 % 4 * 16 + x1 / 16) / 16 == x0
  {
    assert x1 / 16 < 16;
    assert (x0 % 4 * 16 + x1 / 16) / 16 == x0 % 4;
  }

  lemma SplitMiddle(x0: int, x1: int, x2: int)
    requires 0 <= x0 < 256 && 0 <= x1 < 256 && 0 <= x2 < 256
    ensures (x0 % 4 * 16 + x1 / 16) % 16 * 16 + (x1 % 16 * 4 + x2 / 64) / 4 == x1
  {
    assert x1 / 16 < 16 && x2 / 64 < 4;
    assert (x0 % 4 * 16 + x1 / 16) % 16 == x1 / 16;
    assert (x1 % 16 * 4 + x2 / 64) / 4 == x1 % 16;
  }

  lemma SplitLow(x1: int, x2: int)
    requires 0 <= x1 < 256 && 0 <= x2 < 256
    ensures (x1 % 16 * 4 + x2 / 64) % 4 * 64 + x2 % 64 == x2
  {
    assert x2 / 64 < 4;
    assert (x1 % 16 * 4 + x2 / 64) % 4 == x2 / 64;
  }

  lemma GroupRoundTrip(b0: byte, b1: byte, b2: byte, last: bool)
    ensures var g := EncodeGroup(b0, b1, b2);
            DecodeGroup(g[0], g[1], g[2], g[3], last) == Some([b0, b1, b2])
  {
    var x0, x1, x2 := b0 as int, b1 as int, b2 as int;
    SymbolRoundTrip(x0 / 4);
    SymbolRoundTrip(x0 % 4 * 16 + x1 / 16);
    SymbolRoundTrip(x1 % 16 * 4 + x2 / 64);
    SymbolRoundTrip(x2 % 64);
    SplitHigh(x0, x1);
    SplitMiddle(x0, x1, x2);
    SplitLow(x1, x2);
  }

  /** The padded group that ends the encoding of one byte decodes to it. */
  lemma PaddedGroupOfOne(b0: byte)
    ensures var x0 := b0 as int;
            DecodeGroup(Symbol(x0 / 4), Symbol(x0 % 4 * 16), '=', '=', true) == Some([b0])
  {
    var x0 := b0 as int;
    SymbolRoundTrip(x0 / 4);
    SymbolRoundTrip(x0 % 4 * 16);
    SplitHigh(x0, 0);
  }

  /** The padded group that ends the encoding of two bytes decodes to them. */
  lemma PaddedGroupOfTwo(b0: byte, b1: byte)
    ensures var x0, x1 := b0 as int, b1 as int;
            DecodeGroup(Symbol(x0 / 4), Symbol(x0 % 4 * 16 + x1 / 16), Symbol(x1 % 16 * 4), '=', true)
              == Some([b0, b1])
  {
    var x0, x1 := b0 as int, b1 as int;
    SymbolRoundTrip(x0 / 4);
    SymbolRoundTrip(x0 % 4 * 16 + x1 / 16);
    SymbolRoundTrip(x1 % 16 * 4);
    SplitHigh(x0, x1);
    SplitMiddle(x0, x1, 0);
  }

  lemma OneByteRoundTrip(data: seq<byte>)
    requires |data| == 1
    ensures Decode(Encode(data)) == Some(data)
  {
    var s := Encode(data);
    PaddedGroupOfOne(data[0]);
    assert Decode(s) == DecodeGroup(s[0], s[1], s[2], s[3], true);
    assert data == [data[0]];
  }

  lemma TwoBytesRoundTrip(data: seq<byte>)
    requires |data| == 2
    ensures Decode(Encode(data)) == Some(data)
  {
    var s := Encode(data);
    PaddedGroupOfTwo(data[0], data[1]);
    assert Decode(s) == DecodeGroup(s[0], s[1], s[2], s[3], true);
    assert data == [data[0], data[1]];
  }

  /** Decoding an encoding gives back the original bytes. */
  lemma {:induction false} DecodeEncode(data: seq<byte>)
    ensures Decode(Encode(data)) == Some(data)
    decreases |data|
  {
    if |data| == 1 {
      OneByteRoundTrip(data);
    } else if |data| == 2 {
      TwoBytesRoundTrip(data);
    } else if |data| >= 3 {
      var s := Encode(data);
      var g := EncodeGroup(data[0], data[1], data[2]);
      var rest := Encode(data[3..]);
      assert s == g + rest;
      var group := DecodeGroup(s[0], s[1], s[2], s[3], |s| == 4);
      assert group == Some(data[..3]) by {
        assert s[0] == g[0] && s[1] == g[1] && s[2] == g[2] && s[3] == g[3];
        GroupRoundTrip(data[0], data[1], data[2], |s| == 4);
        assert data[..3] == [data[0], data[1], data[2]];
      }
      if |s| > 4 {
        assert s[4..] == rest;
        DecodeEncode(data[3..]);
        assert Decode(s) == Some(data[..3] + data[3..]);
      } else {
        assert |rest| == 0 && |data[3..]| == 0;
        assert Decode(s) == group;
        assert data[..3] == data;
      }
      assert data == data[..3] + data[3..];
    }
  }

  /** The test vectors of section 10 of RFC 4648 ("", "f", "fo", "foo"). */
  lemma ShortTestVectors()
    ensures Encode([]) == ""
    ensures Encode([102]) == "Zg=="
    ensures Encode([102, 111]) == "Zm8="
    ensures Encode([102, 111, 111]) == "Zm9v"
  {
    assert Encode([102, 111, 111]) == EncodeGroup(102, 111, 111) + Encode([]);
  }

  /** The test vectors "foob" and "fooba" of section 10 of RFC 4648. */
  lemma PaddedTestVectors()
    ensures Encode([102, 111, 111, 98]) == "Zm9vYg=="
    ensures Encode([102, 111, 111, 98, 97]) == "Zm9vYmE="
  {
    assert EncodeGroup(102, 111, 111) == "Zm9v";
    assert [102, 111, 111, 98][3..] == [98];
    assert [102, 111, 111, 98, 97][3..] == [98, 97];
  }

  /** The test vector "foobar" of section 10 of RFC 4648. */
  lemma TwoGroupTestVector()
    ensures Encode([102, 111, 111, 98, 97, 114]) == "Zm9vYmFy"
  {
    assert EncodeGroup(102, 111, 111) == "Zm9v";
    assert EncodeGroup(98, 97, 114) == "YmFy";
    assert [102, 111, 111, 98, 97, 114][3..] == [98, 97, 114];
    assert Encode([98, 97, 114]) == EncodeGroup(98, 97, 114) + Encode([]);
  }
}
