/**
 * Base64 with the standard alphabet and `=` padding (section 4 of RFC 4648),
 * as the `base64` crate's `general_purpose::STANDARD` engine encodes and
 * decodes it: padding is always written, canonical padding is required when
 * decoding, and the unused low bits of the last symbol must be zero.
 */
module Base64 {
  import opened Common

  /** The symbol for a 6-bit value: `A`-`Z`, `a`-`z`, `0`-`9`, `+`, `/`. */
  function Symbol(i: nat): char
    requires i < 64
  {
    if i < 26 then ('A' as int + i) as char
    else if i < 52 then ('a' as int + (i - 26)) as char
    else if i < 62 then ('0' as int + (i - 52)) as char
    else if i == 62 then '+'
    else '/'
  }

  /** The 6-bit value of an alphabet symbol; `None` for any other character. */
  function SymbolValue(c: char): (r: Option<nat>)
    ensures r.Some? ==> r.value < 64 && Symbol(r.value) == c
  {
    if 'A' <= c <= 'Z' then Some(c as int - 'A' as int)
    else if 'a' <= c <= 'z' then Some(c as int - 'a' as int + 26)
    else if '0' <= c <= '9' then Some(c as int - '0' as int + 52)
    else if c == '+' then Some(62)
    else if c == '/' then Some(63)
    else None
  }

  lemma SymbolValueOf(i: nat)
    requires i < 64
    ensures SymbolValue(Symbol(i)) == Some(i) && Symbol(i) != '='
  {
  }

  lemma DivMod4(q: nat, r: nat)
    requires r < 4
    ensures (q * 4 + r) / 4 == q && (q * 4 + r) % 4 == r
  {
  }

  lemma DivMod16(q: nat, r: nat)
    requires r < 16
    ensures (q * 16 + r) / 16 == q && (q * 16 + r) % 16 == r
  {
  }

  lemma DivMod64(q: nat, r: nat)
    requires r < 64
    ensures (q * 64 + r) / 64 == q && (q * 64 + r) % 64 == r
  {
  }

  /** Three bytes as four symbols. */
  function EncodeGroup(x: u8, y: u8, z: u8): string
  {
    [Symbol(x / 4), Symbol((x % 4) * 16 + y / 16), Symbol((y % 16) * 4 + z / 64), Symbol(z % 64)]
  }

  /** Fewer than three trailing bytes: one or two `=` pad the last group. */
  function EncodeTail(b: seq<u8>): string
    requires |b| < 3
  {
    if |b| == 0 then ""
    else if |b| == 1 then [Symbol(b[0] / 4), Symbol((b[0] % 4) * 16), '=', '=']
    else [Symbol(b[0] / 4), Symbol((b[0] % 4) * 16 + b[1] / 16), Symbol((b[1] % 16) * 4), '=']
  }

  /** `Engine::encode`: every three bytes become four symbols; a short tail is padded. */
  function Encode(b: seq<u8>): string
  {
    if |b| < 3 then EncodeTail(b)
    else EncodeGroup(b[0], b[1], b[2]) + Encode(b[3..])
  }

  /** Four symbols for every started group of three bytes. */
  lemma {:induction false} EncodeLength(b: seq<u8>)
    ensures |Encode(b)| == 4 * ((|b| + 2) / 3)
  {
    if |b| >= 3 {
      EncodeLength(b[3..]);
      assert (|b| + 2) / 3 == (|b[3..]| + 2) / 3 + 1;
    } else {
      assert |EncodeTail(b)| == if |b| == 0 then 0 else 4;
    }
  }

  /** Four symbols without padding as three bytes. */
  function DecodeGroup(g: string): Option<seq<u8>>
    requires |g| == 4
  {
    match (SymbolValue(g[0]), SymbolValue(g[1]), SymbolValue(g[2]), SymbolValue(g[3]))
    case (Some(a), Some(b), Some(c), Some(d)) =>
      Some([a * 4 + b / 16, (b % 16) * 16 + c / 4, (c % 4) * 64 + d])
    case _ => None
  }

  /** The last group, which may end in one or two `=`. */
  function DecodeLastGroup(g: string): Option<seq<u8>>
    requires |g| == 4
  {
    if g[3] != '=' then DecodeGroup(g)
    else if g[2] == '=' then
      match (SymbolValue(g[0]), SymbolValue(g[1]))
      case (Some(a), Some(b)) => if b % 16 == 0 then Some([a * 4 + b / 16]) else None
      case _ => None
    else
      match (SymbolValue(g[0]), SymbolValue(g[1]), SymbolValue(g[2]))
      case (Some(a), Some(b), Some(c)) =>
        if c % 4 == 0 then Some([a * 4 + b / 16, (b % 16) * 16 + c / 4]) else None
      case _ => None
  }

  /**
   * `Engine::decode`: `None` (the crate's `DecodeError`) for a length that is
   * not a multiple of four, a character outside the alphabet, misplaced
   * padding or non-zero trailing bits.
   */
  function Decode(s: string): Option<seq<u8>>
    decreases |s|
  {
    if |s| == 0 then Some([])
    else if |s| < 4 then None
    else if |s| == 4 then DecodeLastGroup(s)
    else
      match DecodeGroup(s[..4])
      case None => None
      case Some(g) =>
        match Decode(s[4..])
        case None => None
        case Some(rest) => Some(g + rest)
  }

  lemma GroupRoundTrip(x: u8, y: u8, z: u8)
    ensures DecodeGroup(EncodeGroup(x, y, z)) == Some([x, y, z])
  {
    DivMod4(x / 4, x % 4);
    DivMod16(y / 16, y % 16);
    DivMod64(z / 64, z % 64);
    SymbolValueOf(x / 4);
    SymbolValueOf((x % 4) * 16 + y / 16);
    SymbolValueOf((y % 16) * 4 + z / 64);
    SymbolValueOf(z % 64);
  }

  lemma OneByteRoundTrip(x: u8)
    ensures Decode(Encode([x])) == Some([x])
  {
    SymbolValueOf(x / 4);
    SymbolValueOf((x % 4) * 16);
    DivMod16(x % 4, 0);
  }

  lemma TwoBytesRoundTrip(x: u8, y: u8)
    ensures Decode(Encode([x, y])) == Some([x, y])
  {
    var a, m, c := x / 4, (x % 4) * 16 + y / 16, (y % 16) * 4;
    SymbolValueOf(a);
    SymbolValueOf(m);
    SymbolValueOf(c);
    DivMod16(x % 4, y / 16);
    DivMod4(y % 16, 0);
    assert a * 4 + m / 16 == x;
    assert (m % 16) * 16 + c / 4 == y;
  }

  /** Decoding what was encoded gives the bytes back. */
  lemma {:induction false} DecodeEncode(b: seq<u8>)
    ensures Decode(Encode(b)) == Some(b)
    decreases |b|
  {
    if |b| == 1 {
      assert b == [b[0]];
      OneByteRoundTrip(b[0]);
    } else if |b| == 2 {
      assert b == [b[0], b[1]];
      TwoBytesRoundTrip(b[0], b[1]);
    } else if |b| >= 3 {
      DecodeEncode(b[3..]);
      DecodeEncodeGroup(b);
    }
  }

  /** One full group in front of a tail that already round-trips. */
  lemma DecodeEncodeGroup(b: seq<u8>)
    requires |b| >= 3 && Decode(Encode(b[3..])) == Some(b[3..])
    ensures Decode(Encode(b)) == Some(b)
  {
    FirstThree(b);
    if |b| == 3 {
      ThreeBytesRoundTrip(b[0], b[1], b[2]);
    } else {
      var g, t := EncodeGroup(b[0], b[1], b[2]), Encode(b[3..]);
      GroupRoundTrip(b[0], b[1], b[2]);
      DecodeAppend(g, t);
    }
  }

  lemma FirstThree(b: seq<u8>)
    requires |b| >= 3
    ensures [b[0], b[1], b[2]] + b[3..] == b
    ensures |b| == 3 ==> [b[0], b[1], b[2]] == b
  {
  }

  lemma ThreeBytesRoundTrip(x: u8, y: u8, z: u8)
    ensures Decode(Encode([x, y, z])) == Some([x, y, z])
  {
    var g := EncodeGroup(x, y, z);
    GroupRoundTrip(x, y, z);
    assert [x, y, z][3..] == [];
    assert Encode([x, y, z]) == g;
    SymbolValueOf(z % 64);
  }

  lemma DecodeAppend(g: string, t: string)
    requires |g| == 4 && |t| > 0 && DecodeGroup(g).Some? && Decode(t).Some?
    ensures Decode(g + t) == Some(DecodeGroup(g).value + Decode(t).value)
  {
    assert (g + t)[..4] == g;
    assert (g + t)[4..] == t;
  }

  lemma GroupCanonical(g: string, v: seq<u8>)
    requires |g| == 4 && DecodeGroup(g) == Some(v)
    ensures |v| == 3 && EncodeGroup(v[0], v[1], v[2]) == g
  {
    var a, b, c, d := SymbolValue(g[0]).value, SymbolValue(g[1]).value,
                      SymbolValue(g[2]).value, SymbolValue(g[3]).value;
    DivMod4(a, b / 16);
    DivMod16(b % 16, c / 4);
    DivMod64(c % 4, d);
    assert (v[0] % 4) * 16 + v[1] / 16 == (b / 16) * 16 + b % 16 == b;
    assert (v[1] % 16) * 4 + v[2] / 64 == (c / 4) * 4 + c % 4 == c;
    var e := EncodeGroup(v[0], v[1], v[2]);
    assert e[0] == g[0] && e[1] == g[1] && e[2] == g[2] && e[3] == g[3];
  }

  lemma OnePaddedCanonical(g: string, v: seq<u8>)
    requires |g| == 4 && g[3] == '=' && g[2] == '=' && DecodeLastGroup(g) == Some(v)
    ensures Encode(v) == g
  {
    var a, b := SymbolValue(g[0]).value, SymbolValue(g[1]).value;
    assert b % 16 == 0 && v == [a * 4 + b / 16];
    var x := v[0];
    DivMod4(a, b / 16);
    assert x / 4 == a;
    assert (x % 4) * 16 == b;
    assert Encode(v) == [Symbol(x / 4), Symbol((x % 4) * 16), '=', '='];
    assert g == [g[0], g[1], g[2], g[3]];
  }

  lemma TwoPaddedCanonical(g: string, v: seq<u8>)
    requires |g| == 4 && g[3] == '=' && g[2] != '=' && DecodeLastGroup(g) == Some(v)
    ensures Encode(v) == g
  {
    var a, b, c := SymbolValue(g[0]).value, SymbolValue(g[1]).value, SymbolValue(g[2]).value;
    assert c % 4 == 0 && v == [a * 4 + b / 16, (b % 16) * 16 + c / 4];
    var x, y := v[0], v[1];
    DivMod4(a, b / 16);
    DivMod16(b % 16, c / 4);
    assert x / 4 == a;
    assert (x % 4) * 16 + y / 16 == b;
    assert (y % 16) * 4 == c;
    assert Encode(v) == [Symbol(x / 4), Symbol((x % 4) * 16 + y / 16), Symbol((y % 16) * 4), '='];
    assert g == [g[0], g[1], g[2], g[3]];
  }

  lemma LastGroupCanonical(g: string, v: seq<u8>)
    requires |g| == 4 && DecodeLastGroup(g) == Some(v)
    ensures 1 <= |v| <= 3 && Encode(v) == g
  {
    if g[3] != '=' {
      GroupCanonical(g, v);
      assert Encode(v) == EncodeGroup(v[0], v[1], v[2]) + Encode(v[3..]);
    } else if g[2] == '=' {
      OnePaddedCanonical(g, v);
    } else {
      TwoPaddedCanonical(g, v);
    }
  }

  /** Only the canonical encoding of some bytes decodes: anything else is rejected. */
  lemma {:induction false} EncodeDecode(s: string, b: seq<u8>)
    requires Decode(s) == Some(b)
    ensures Encode(b) == s
    decreases |s|
  {
    if |s| == 4 {
      LastGroupCanonical(s, b);
    } else if |s| > 4 {
      var g := DecodeGroup(s[..4]).value;
      var rest := Decode(s[4..]).value;
      EncodeDecode(s[4..], rest);
      GroupCanonical(s[..4], g);
      assert b == g + rest;
      assert b[3..] == rest;
      assert s == s[..4] + s[4..];
    }
  }

  /** A string decodes to `b` exactly when it is the encoding of `b`. */
  lemma DecodeIff(s: string, b: seq<u8>)
    ensures Decode(s) == Some(b) <==> s == Encode(b)
  {
    if Decode(s) == Some(b) { EncodeDecode(s, b); }
    if s == Encode(b) { DecodeEncode(b); }
  }
}
