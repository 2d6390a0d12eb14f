/**
 * The unpadded URL-safe Base64 alphabet of section 5 of RFC 4648, as Go's
 * `base64.RawURLEncoding` implements it, and the big-endian reading of a byte string
 * (`big.Int.SetBytes`) used on JWK parameters.
 */
module Base64Url {
  import opened Wrappers
  import opened GoValues

  /** A 6-bit symbol value. */
  type Sextet = x: int | 0 <= x < 64

  /** The character that encodes a symbol value: A-Z, a-z, 0-9, '-', '_'. */
  function Symbol(v: Sextet): (c: char)
    ensures IsAlphabetChar(c)
  {
    if v < 26 then ('A' as int + v) as char
    else if v < 52 then ('a' as int + v - 26) as char
    else if v < 62 then ('0' as int + v - 52) as char
    else if v == 62 then '-'
    else '_'
  }

  predicate IsAlphabetChar(c: char)
  {
    'A' <= c <= 'Z' || 'a' <= c <= 'z' || '0' <= c <= '9' || c == '-' || c == '_'
  }

  /** The symbol value of a character, or None for a character outside the alphabet (including '='). */
  function SymbolValue(c: char): (r: Option<Sextet>)
    ensures r.Some? <==> IsAlphabetChar(c)
    ensures r.Some? ==> Symbol(r.value) == c
  {
    if 'A' <= c <= 'Z' then Some(c as int - 'A' as int)
    else if 'a' <= c <= 'z' then Some(c as int - 'a' as int + 26)
    else if '0' <= c <= '9' then Some(c as int - '0' as int + 52)
    else if c == '-' then Some(62)
    else if c == '_' then Some(63)
    else None
  }

  lemma SymbolValueOfSymbol(v: Sextet)
    ensures SymbolValue(Symbol(v)) == Some(v)
  {
  }

  /** The symbol values that encode a byte string: four per three bytes, two or three for a final short group. */
  function Sextets(b: seq<Byte>): (v: seq<Sextet>)
    ensures |v| == (|b| / 3) * 4 + (if |b| % 3 == 0 then 0 else |b| % 3 + 1)
    decreases |b|
  {
    if |b| == 0 then []
    else if |b| == 1 then [b[0] / 4, (b[0] % 4) * 16]
    else if |b| == 2 then [b[0] / 4, (b[0] % 4) * 16 + b[1] / 16, (b[1] % 16) * 4]
    else [b[0] / 4, (b[0] % 4) * 16 + b[1] / 16, (b[1] % 16) * 4 + b[2] / 64, b[2] % 64] + Sextets(b[3..])
  }

  /** The characters of a sequence of symbol values. */
  function Symbols(v: seq<Sextet>): (s: string)
    ensures |s| == |v|
    ensures forall i :: 0 <= i < |s| ==> s[i] == Symbol(v[i])
  {
    seq(|v|, i requires 0 <= i < |v| => Symbol(v[i]))
  }

  /** RawURLEncoding.EncodeToString: no padding, so a final group of one or two bytes gives two or three symbols. */
  function Encode(b: seq<Byte>): (s: string)
    ensures |s| == (|b| / 3) * 4 + (if |b| % 3 == 0 then 0 else |b| % 3 + 1)
    ensures forall i :: 0 <= i < |s| ==> IsAlphabetChar(s[i])
  {
    Symbols(Sextets(b))
  }

  /** The symbol values of a string, or None when some character is outside the alphabet. */
  function SymbolValues(s: string): (r: Option<seq<Sextet>>)
    ensures r.Some? <==> forall i :: 0 <= i < |s| ==> IsAlphabetChar(s[i])
    ensures r.Some? ==> |r.value| == |s|
  {
    if |s| == 0 then Some([])
    else
      match SymbolValue(s[0])
      case None => None
      case Some(v) =>
        match SymbolValues(s[1..])
        case None =>
          assert exists i :: 0 <= i < |s[1..]| && !IsAlphabetChar(s[1..][i]);
          None
        case Some(rest) =>
          assert forall i :: 0 <= i < |s| - 1 ==> s[1..][i] == s[i + 1];
          Some([v] + rest)
  }

  /** Decodes a group of two, three or four symbol values into one, two or three bytes; bits past the last byte are ignored. */
  function DecodeGroup(v: seq<Sextet>): (b: seq<Byte>)
    requires 2 <= |v| <= 4
    ensures |b| == |v| - 1
  {
    var x := (v[0] as int) * 4 + (v[1] as int) / 16;
    if |v| == 2 then [x]
    else
      var y := ((v[1] as int) % 16) * 16 + (v[2] as int) / 4;
      if |v| == 3 then [x, y]
      else [x, y, ((v[2] as int) % 4) * 64 + v[3]]
  }

  /** Decoding of symbol values: groups of four, then a final group of two or three. */
  function DecodeSextets(v: seq<Sextet>): (b: seq<Byte>)
    requires |v| % 4 != 1
    ensures |b| == (|v| / 4) * 3 + (if |v| % 4 == 0 then 0 else |v| % 4 - 1)
    decreases |v|
  {
    if |v| == 0 then []
    else if |v| < 4 then DecodeGroup(v)
    else DecodeGroup(v[..4]) + DecodeSextets(v[4..])
  }

  /** Decoding of a string that holds no line breaks; a lone final symbol or a character outside the alphabet is an error. */
  function DecodeClean(s: string): (r: Option<seq<Byte>>)
    ensures r.Some? <==> |s| % 4 != 1 && forall i :: 0 <= i < |s| ==> IsAlphabetChar(s[i])
    ensures r.Some? ==> |r.value| == (|s| / 4) * 3 + (if |s| % 4 == 0 then 0 else |s| % 4 - 1)
  {
    if |s| % 4 == 1 then None
    else
      match SymbolValues(s)
      case None => None
      case Some(v) => Some(DecodeSextets(v))
  }

  /** The input with every '\r' and '\n' removed; Go's decoder skips them wherever they appear. */
  function RemoveLineBreaks(s: string): (r: string)
    ensures |r| <= |s|
    ensures forall i :: 0 <= i < |r| ==> r[i] != '\r' && r[i] != '\n'
  {
    if |s| == 0 then ""
    else if s[0] == '\r' || s[0] == '\n' then RemoveLineBreaks(s[1..])
    else [s[0]] + RemoveLineBreaks(s[1..])
  }

  /** RawURLEncoding.DecodeString. */
  function Decode(s: string): (r: Option<seq<Byte>>)
    ensures r.Some? <==> DecodeClean(RemoveLineBreaks(s)).Some?
  {
    DecodeClean(RemoveLineBreaks(s))
  }

  lemma {:induction false} RemoveLineBreaksOfAlphabet(s: string)
    requires forall i :: 0 <= i < |s| ==> IsAlphabetChar(s[i])
    ensures RemoveLineBreaks(s) == s
    decreases |s|
  {
    if |s| > 0 {
      assert IsAlphabetChar(s[0]);
      RemoveLineBreaksOfAlphabet(s[1..]);
      assert s == [s[0]] + s[1..];
    }
  }

  lemma {:induction false} SymbolValuesOfSymbols(v: seq<Sextet>)
    ensures SymbolValues(Symbols(v)) == Some(v)
    decreases |v|
  {
    if |v| > 0 {
      SymbolValueOfSymbol(v[0]);
      assert Symbols(v)[1..] == Symbols(v[1..]);
      SymbolValuesOfSymbols(v[1..]);
      assert v == [v[0]] + v[1..];
    }
  }

  /*
   * Split4, Split16 and Split64 take apart a number built from a high part and a low part of 2,
   * 4 or 6 bits. DecodeGroupOfTriple, DecodeGroupOfPair and DecodeGroupOfSingle use them to undo
   * the bit packing of Encode's symbol values.
   */
  lemma Split4(a: int, b: int)
    requires 0 <= b < 4
    ensures (a * 4 + b) / 4 == a && (a * 4 + b) % 4 == b
  {
  }

  lemma Split16(a: int, b: int)
    requires 0 <= b < 16
    ensures (a * 16 + b) / 16 == a && (a * 16 + b) % 16 == b
  {
  }

  lemma Split64(a: int, b: int)
    requires 0 <= b < 64
    ensures (a * 64 + b) / 64 == a && (a * 64 + b) % 64 == b
  {
  }

  /** One group of three bytes survives the round trip through its four symbol values. */
  lemma DecodeGroupOfTriple(x: Byte, y: Byte, z: Byte)
    ensures DecodeGroup([x / 4, (x % 4) * 16 + y / 16, (y % 16) * 4 + z / 64, z % 64]) == [x, y, z]
  {
    Split16(x % 4, y / 16);
    Split4(y % 16, z / 64);
    assert x == (x / 4) * 4 + x % 4;
    assert y == (y / 16) * 16 + y % 16;
    assert z == (z / 64) * 64 + z % 64;
  }

  lemma DecodeGroupOfPair(x: Byte, y: Byte)
    ensures DecodeGroup([x / 4, (x % 4) * 16 + y / 16, (y % 16) * 4]) == [x, y]
  {
    Split16(x % 4, y / 16);
    Split4(y % 16, 0);
    assert x == (x / 4) * 4 + x % 4;
    assert y == (y / 16) * 16 + y % 16;
  }

  lemma DecodeGroupOfSingle(x: Byte)
    ensures DecodeGroup([x / 4, (x % 4) * 16]) == [x]
  {
    Split16(x % 4, 0);
    assert x == (x / 4) * 4 + x % 4;
  }

  lemma {:induction false} DecodeSextetsOfSextets(b: seq<Byte>)
    ensures DecodeSextets(Sextets(b)) == b
    decreases |b|
  {
    var v := Sextets(b);
    if |b| == 1 {
      DecodeGroupOfSingle(b[0]);
    } else if |b| == 2 {
      DecodeGroupOfPair(b[0], b[1]);
    } else if |b| >= 3 {
      DecodeGroupOfTriple(b[0], b[1], b[2]);
      assert v[..4] == [b[0] / 4, (b[0] % 4) * 16 + b[1] / 16, (b[1] % 16) * 4 + b[2] / 64, b[2] % 64];
      assert v[4..] == Sextets(b[3..]);
      DecodeSextetsOfSextets(b[3..]);
      assert b == [b[0], b[1], b[2]] + b[3..];
    }
  }

  /** Decoding undoes encoding: every byte string survives a round trip through the alphabet. */
  lemma DecodeEncode(b: seq<Byte>)
    ensures Decode(Encode(b)) == Some(b)
  {
    RemoveLineBreaksOfAlphabet(Encode(b));
    SymbolValuesOfSymbols(Sextets(b));
    DecodeSextetsOfSextets(b);
  }

  /** The unsigned big-endian number a byte string denotes (`big.Int.SetBytes`); the empty string denotes 0. */
  function BigEndian(b: seq<Byte>): (n: nat)
    ensures n < Pow256(|b|)
  {
    if |b| == 0 then 0 else BigEndian(b[..|b| - 1]) * 256 + b[|b| - 1]
  }

  function Pow256(k: nat): (p: nat)
    ensures p >= 1
  {
    if k == 0 then 1 else 256 * Pow256(k - 1)
  }

  /** Leading zero bytes do not change the number. */
  lemma {:induction false} BigEndianLeadingZero(b: seq<Byte>)
    ensures BigEndian([0] + b) == BigEndian(b)
    decreases |b|
  {
    if |b| > 0 {
      assert ([0] + b)[..|b|] == [0] + b[..|b| - 1];
      BigEndianLeadingZero(b[..|b| - 1]);
    }
  }

  /** The exponent almost every RSA key carries, 65537, is written "AQAB". */
  lemma CommonExponent()
    ensures Encode([1, 0, 1]) == "AQAB"
    ensures Decode("AQAB") == Some([1, 0, 1])
    ensures BigEndian([1, 0, 1]) == 65537
  {
    assert Sextets([1, 0, 1]) == [0, 16, 0, 1];
    assert Encode([1, 0, 1]) == "AQAB";
    DecodeEncode([1, 0, 1]);
    assert [1, 0, 1][..2] == [1, 0];
    assert [1, 0][..1] == [1];
  }
}
