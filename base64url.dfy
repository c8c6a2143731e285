/** Unpadded base64 over the URL- and filename-safe alphabet of RFC 4648,
    section 5 (Go's `base64.RawURLEncoding`), together with its decoder. */
module Base64Url {
  import opened Common

  /** The alphabet: A-Z are 0-25, a-z 26-51, 0-9 52-61, '-' 62 and '_' 63. */
  function Symbol(v: int): (c: char)
    requires 0 <= v < 64
  {
    if v < 26 then ('A' as int + v) as char
    else if v < 52 then ('a' as int + (v - 26)) as char
    else if v < 62 then ('0' as int + (v - 52)) as char
    else if v == 62 then '-'
    else '_'
  }

  predicate IsSymbol(c: char)
  {
    ('A' <= c <= 'Z') || ('a' <= c <= 'z') || ('0' <= c <= '9') || c == '-' || c == '_'
  }

  /** The 6-bit value a symbol stands for. */
  function Value(c: char): (v: int)
    requires IsSymbol(c)
    ensures 0 <= v < 64 && Symbol(v) == c
  {
    if 'A' <= c <= 'Z' then c as int - 'A' as int
    else if 'a' <= c <= 'z' then c as int - 'a' as int + 26
    else if '0' <= c <= '9' then c as int - '0' as int + 52
    else if c == '-' then 62
    else 63
  }

  lemma SymbolValue(v: int)
    requires 0 <= v < 64
    ensures IsSymbol(Symbol(v)) && Value(Symbol(v)) == v
  {
  }

  /** One group of one to three bytes as two to four symbols: the bytes'
      bits are cut into 6-bit fields, most significant first, and the last
      field is filled with zero bits. */
  function EncodeGroup(g: seq<byte>): (s: string)
    requires 1 <= |g| <= 3
    ensures |s| == |g| + 1
    ensures forall i :: 0 <= i < |s| ==> IsSymbol(s[i])
  {
    var b0 := g[0] as int;
    var b1 := if |g| > 1 then g[1] as int else 0;
    var b2 := if |g| > 2 then g[2] as int else 0;
    var f0, f1, f2, f3 := b0 / 4, (b0 % 4) * 16 + b1 / 16, (b1 % 16) * 4 + b2 / 64, b2 % 64;
    SymbolValue(f0); SymbolValue(f1); SymbolValue(f2); SymbolValue(f3);
    if |g| == 1 then [Symbol(f0), Symbol(f1)]
    else if |g| == 2 then [Symbol(f0), Symbol(f1), Symbol(f2)]
    else [Symbol(f0), Symbol(f1), Symbol(f2), Symbol(f3)]
  }

  /** Two to four symbols back to one to three bytes. Only canonical groups
      decode: the fill bits of a final group of two or three symbols must be
      zero (section 3.5 of RFC 4648), so no two groups decode alike. */
  function DecodeGroup(s: string): (r: Option<seq<byte>>)
    requires 2 <= |s| <= 4
    ensures r.Some? ==> |r.value| == |s| - 1
  {
    if !IsSymbol(s[0]) || !IsSymbol(s[1]) || (|s| > 2 && !IsSymbol(s[2])) || (|s| > 3 && !IsSymbol(s[3])) then None
    else
      var v0 := Value(s[0]);
      var v1 := Value(s[1]);
      var v2 := if |s| > 2 then Value(s[2]) else 0;
      var v3 := if |s| > 3 then Value(s[3]) else 0;
      var c0, c1, c2 := (v0 * 4 + v1 / 16) as byte, ((v1 % 16) * 16 + v2 / 4) as byte, ((v2 % 4) * 64 + v3) as byte;
      if |s| == 2 then (if v1 % 16 == 0 then Some([c0]) else None)
      else if |s| == 3 then (if v2 % 4 == 0 then Some([c0, c1]) else None)
      else Some([c0, c1, c2])
  }

  /** `RawURLEncoding.EncodeToString`: every 3 bytes become 4 symbols; a final
      1 or 2 bytes become 2 or 3 symbols, with no '=' padding. */
  function Encode(b: seq<byte>): (s: string)
    ensures |s| == (8 * |b| + 5) / 6
    ensures forall i :: 0 <= i < |s| ==> IsSymbol(s[i])
    decreases |b|
  {
    if |b| == 0 then ""
    else
      var n := if |b| < 3 then |b| else 3;
      EncodeGroup(b[..n]) + Encode(b[n..])
  }

  /** The inverse of `Encode`: `None` for a symbol outside the alphabet or a
      length that no encoding has (a remainder of one symbol). */
  function Decode(s: string): (r: Option<seq<byte>>)
    decreases |s|
  {
    if |s| == 0 then Some([])
    else if |s| == 1 then None
    else
      var n := if |s| < 4 then |s| else 4;
      match DecodeGroup(s[..n])
      case None => None
      case Some(g) =>
        match Decode(s[n..])
        case None => None
        case Some(rest) => Some(g + rest)
  }

  /** The bit arithmetic of one group: the 6-bit fields `EncodeGroup` cuts out
      of three bytes, put back together the way `DecodeGroup` does, give the
      bytes. */
  lemma GroupArithmetic(b0: int, b1: int, b2: int)
    requires 0 <= b0 < 256 && 0 <= b1 < 256 && 0 <= b2 < 256
    ensures (b0 / 4) * 4 + ((b0 % 4) * 16 + b1 / 16) / 16 == b0
    ensures (((b0 % 4) * 16 + b1 / 16) % 16) * 16 + ((b1 % 16) * 4 + b2 / 64) / 4 == b1
    ensures (((b1 % 16) * 4 + b2 / 64) % 4) * 64 + b2 % 64 == b2
  {
    assert ((b0 % 4) * 16 + b1 / 16) / 16 == b0 % 4;
    assert ((b0 % 4) * 16 + b1 / 16) % 16 == b1 / 16;
    assert ((b1 % 16) * 4 + b2 / 64) / 4 == b1 % 16;
    assert ((b1 % 16) * 4 + b2 / 64) % 4 == b2 / 64;
  }

  lemma GroupRoundTrip(g: seq<byte>)
    requires 1 <= |g| <= 3
    ensures DecodeGroup(EncodeGroup(g)) == Some(g)
  {
    var b0 := g[0] as int;
    var b1 := if |g| > 1 then g[1] as int else 0;
    var b2 := if |g| > 2 then g[2] as int else 0;
    var f0, f1, f2, f3 := b0 / 4, (b0 % 4) * 16 + b1 / 16, (b1 % 16) * 4 + b2 / 64, b2 % 64;
    GroupArithmetic(b0, b1, b2);
    SymbolValue(f0); SymbolValue(f1); SymbolValue(f2); SymbolValue(f3);
    var s := EncodeGroup(g);
    assert s[0] == Symbol(f0) && s[1] == Symbol(f1);
    assert |g| > 1 ==> s[2] == Symbol(f2);
    assert |g| > 2 ==> s[3] == Symbol(f3);
    var v2 := if |s| > 2 then Value(s[2]) else 0;
    var v3 := if |s| > 3 then Value(s[3]) else 0;
    assert Value(s[0]) == f0 && Value(s[1]) == f1;
    assert v2 == (if |g| > 1 then f2 else 0) && v3 == (if |g| > 2 then f3 else 0);
    assert |g| == 1 ==> f1 % 16 == 0;
    assert |g| == 2 ==> f2 % 4 == 0;
    var d := DecodeGroup(s);
    assert d.Some? && d.value[0] == g[0];
    assert |g| > 1 ==> d.value[1] == g[1];
    assert |g| > 2 ==> d.value[2] == g[2];
    assert d.value == g;
  }

  /** Decoding an encoding gives the bytes back: the encoded name determines
      the bytes it was made from. */
  lemma {:induction false} DecodeEncode(b: seq<byte>)
    ensures Decode(Encode(b)) == Some(b)
    decreases |b|
  {
    if |b| > 0 {
      var n := if |b| < 3 then |b| else 3;
      var s := Encode(b);
      var head := EncodeGroup(b[..n]);
      assert s == head + Encode(b[n..]);
      var m := if |s| < 4 then |s| else 4;
      assert m == n + 1;
      assert s[..m] == head && s[m..] == Encode(b[n..]);
      GroupRoundTrip(b[..n]);
      DecodeEncode(b[n..]);
      assert b == b[..n] + b[n..];
    }
  }

  /** The bit arithmetic the other way round: the three bytes `DecodeGroup`
      assembles from four 6-bit values, cut into fields the way `EncodeGroup`
      does, give the values back. */
  lemma GroupArithmeticBack(v0: int, v1: int, v2: int, v3: int)
    requires 0 <= v0 < 64 && 0 <= v1 < 64 && 0 <= v2 < 64 && 0 <= v3 < 64
    ensures (v0 * 4 + v1 / 16) / 4 == v0
    ensures ((v0 * 4 + v1 / 16) % 4) * 16 + ((v1 % 16) * 16 + v2 / 4) / 16 == v1
    ensures (((v1 % 16) * 16 + v2 / 4) % 16) * 4 + ((v2 % 4) * 64 + v3) / 64 == v2
    ensures ((v2 % 4) * 64 + v3) % 64 == v3
  {
    assert (v0 * 4 + v1 / 16) % 4 == v1 / 16;
    assert ((v1 % 16) * 16 + v2 / 4) / 16 == v1 % 16;
    assert ((v1 % 16) * 16 + v2 / 4) % 16 == v2 / 4;
    assert ((v2 % 4) * 64 + v3) / 64 == v2 % 4;
  }

  /** A group that decodes is the encoding of what it decodes to. */
  lemma GroupCanonical(s: string)
    requires 2 <= |s| <= 4 && DecodeGroup(s).Some?
    ensures 1 <= |DecodeGroup(s).value| <= 3 && EncodeGroup(DecodeGroup(s).value) == s
  {
    var v0 := Value(s[0]);
    var v1 := Value(s[1]);
    var v2 := if |s| > 2 then Value(s[2]) else 0;
    var v3 := if |s| > 3 then Value(s[3]) else 0;
    GroupArithmeticBack(v0, v1, v2, v3);
    var g := DecodeGroup(s).value;
    var b0 := v0 * 4 + v1 / 16;
    var b1 := if |s| > 2 then (v1 % 16) * 16 + v2 / 4 else 0;
    var b2 := if |s| > 3 then (v2 % 4) * 64 + v3 else 0;
    assert g[0] as int == b0;
    assert |g| > 1 ==> g[1] as int == b1;
    assert |g| > 2 ==> g[2] as int == b2;
    assert |s| == 2 ==> v1 % 16 == 0 && v2 == 0;
    assert |s| == 3 ==> v2 % 4 == 0 && v3 == 0;
    var f0, f1, f2, f3 := b0 / 4, (b0 % 4) * 16 + b1 / 16, (b1 % 16) * 4 + b2 / 64, b2 % 64;
    assert f0 == v0 && f1 == v1 && f2 == v2 && f3 == v3;
    var e := EncodeGroup(g);
    assert e[0] == Symbol(v0) == s[0];
    assert e[1] == Symbol(v1) == s[1];
    assert |s| > 2 ==> e[2] == Symbol(v2) == s[2];
    assert |s| > 3 ==> e[3] == Symbol(v3) == s[3];
  }

  /** Decoding is injective: a string that decodes is the encoding of the
      bytes it decodes to, so `Decode` and `Encode` are inverse bijections. */
  lemma {:induction false} EncodeDecode(s: string, b: seq<byte>)
    requires Decode(s) == Some(b)
    ensures Encode(b) == s
    decreases |s|
  {
    if |s| > 0 {
      var n := if |s| < 4 then |s| else 4;
      var g := DecodeGroup(s[..n]).value;
      var rest := Decode(s[n..]).value;
      assert b == g + rest;
      GroupCanonical(s[..n]);
      EncodeDecode(s[n..], rest);
      if n < 4 {
        assert s[n..] == [] && rest == [];
        assert b == g && b[..|b|] == g && b[|b|..] == [];
      } else {
        assert b[..3] == g && b[3..] == rest;
      }
      assert s == s[..n] + s[n..];
    }
  }

  /** The first group of the "fooba" vector: "foo" is "Zm9v". */
  lemma EncodeFoo()
    ensures EncodeGroup([102, 111, 111]) == "Zm9v"
  {
  }

  /** The last group of the "fooba" vector: "ba" is "YmE". */
  lemma EncodeBa()
    ensures Encode([98, 97]) == "YmE"
  {
    var t: seq<byte> := [98, 97];
    assert t[..2] == t && t[2..] == [];
    assert EncodeGroup(t) == "YmE";
  }

  /** The test vector "fooba" of section 10 of RFC 4648, without padding. */
  lemma EncodeFooba()
    ensures Encode([102, 111, 111, 98, 97]) == "Zm9vYmE"
  {
    var b: seq<byte> := [102, 111, 111, 98, 97];
    assert b[..3] == [102, 111, 111] && b[3..] == [98, 97];
    EncodeFoo();
    EncodeBa();
    assert Encode(b) == EncodeGroup(b[..3]) + Encode(b[3..]);
  }

  /** The two symbols that differ from the standard alphabet: 62 is '-' and
      63 is '_'. */
  lemma EncodeUrlSafeSymbols()
    ensures Encode([251, 255]) == "-_8"
  {
  }

  /** Five bytes (the buffer `RandomName` fills) encode to seven symbols. */
  lemma EncodeFive(b: seq<byte>)
    requires |b| == 5
    ensures |Encode(b)| == 7
  {
  }
}
