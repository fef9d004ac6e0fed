/**
 * Shared vocabulary of the model: Rust's `Option` and `Result`, the
 * fixed-width integer types the records use, and an opaque float.
 */
module Common {

  /** Rust's `Option<T>`. */
  datatype Option<T> = None | Some(value: T)
  {
    /** `Option::or`: this value when present, otherwise `other`. */
    function Or(other: Option<T>): Option<T>
    {
      if Some? then this else other
    }

    /** `Option::unwrap_or`. */
    function UnwrapOr(default: T): T
    {
      if Some? then value else default
    }
  }

  /** Rust's `anyhow::Result<T>`: a value or an error message. */
  datatype Result<T> = Ok(value: T) | Err(msg: string)

  const I64_MIN: int := -0x8000_0000_0000_0000
  const I64_MAX: int := 0x7fff_ffff_ffff_ffff
  const I32_MIN: int := -0x8000_0000
  const I32_MAX: int := 0x7fff_ffff
  const U32_MAX: int := 0xffff_ffff
  const U64_MAX: int := 0xffff_ffff_ffff_ffff

  type i64 = x: int | I64_MIN <= x <= I64_MAX
  type i32 = x: int | I32_MIN <= x <= I32_MAX
  type u32 = x: int | 0 <= x <= U32_MAX
  type u64 = x: int | 0 <= x <= U64_MAX
  type u8 = x: int | 0 <= x < 256

  /**
   * A floating-point value (`f32` or `f64`), kept opaque: the model does no
   * arithmetic on it and keeps the decimal literal it was written as.
   */
  datatype Float = Float(literal: string)

  /** A `serde_json::Value` (or a map or list of them), kept opaque as its JSON text. */
  datatype JsonValue = JsonValue(text: string)
}

/**
 * The string operations of Rust's standard library that the handlers use:
 * prefix tests, `split`, `trim`, and `str::parse` / `Display` for integers.
 */
module Text {
  import opened Common

  predicate StartsWith(s: string, prefix: string)
  {
    |prefix| <= |s| && s[..|prefix|] == prefix
  }

  /** `str::strip_prefix`. */
  function StripPrefix(s: string, prefix: string): (r: Option<string>)
    ensures r.Some? <==> StartsWith(s, prefix)
    ensures r.Some? ==> prefix + r.value == s
  {
    if StartsWith(s, prefix) then Some(s[|prefix|..]) else None
  }

  /**
   * `str::split(sep)`: the pieces between occurrences of `sep`; there is
   * always at least one piece, and consecutive separators give empty pieces.
   */
  function Split(s: string, sep: char): (r: seq<string>)
    ensures |r| >= 1
    ensures forall i :: 0 <= i < |r| ==> sep !in r[i]
    decreases |s|
  {
    if |s| == 0 then [""]
    else
      var rest := Split(s[1..], sep);
      if s[0] == sep then [""] + rest
      else [[s[0]] + rest[0]] + rest[1..]
  }

  /** `str::join(sep)`, the inverse of `Split`. */
  function Join(pieces: seq<string>, sep: char): string
    requires |pieces| >= 1
  {
    if |pieces| == 1 then pieces[0] else pieces[0] + [sep] + Join(pieces[1..], sep)
  }

  lemma {:induction false} SplitJoin(s: string, sep: char)
    ensures Join(Split(s, sep), sep) == s
    decreases |s|
  {
    if |s| > 0 {
      SplitJoin(s[1..], sep);
      var rest := Split(s[1..], sep);
      if s[0] != sep {
        if |rest| == 1 {
        } else {
          assert Join([[s[0]] + rest[0]] + rest[1..], sep)
              == [s[0]] + rest[0] + [sep] + Join(rest[1..], sep);
        }
      }
    }
  }

  /** A string without the separator is one piece. */
  lemma {:induction false} SplitWithoutSep(s: string, sep: char)
    requires sep !in s
    ensures Split(s, sep) == [s]
    decreases |s|
  {
    if |s| > 0 {
      SplitWithoutSep(s[1..], sep);
      assert [s[0]] + s[1..] == s;
    }
  }

  /** The piece before the first separator comes first; the rest is split on its own. */
  lemma {:induction false} SplitAtSep(a: string, b: string, sep: char)
    requires sep !in a
    ensures Split(a + [sep] + b, sep) == [a] + Split(b, sep)
    decreases |a|
  {
    var s := a + [sep] + b;
    if |a| == 0 {
      assert s[1..] == b;
    } else {
      assert s[1..] == a[1..] + [sep] + b;
      SplitAtSep(a[1..], b, sep);
      assert [a[0]] + a[1..] == a;
    }
  }

  /** `char::is_whitespace`: the Unicode White_Space property. */
  predicate IsWhitespace(c: char)
  {
    ('\U{0009}' <= c <= '\U{000D}') || c == ' ' || c == '\U{0085}' || c == '\U{00A0}'
    || c == '\U{1680}' || ('\U{2000}' <= c <= '\U{200A}') || c == '\U{2028}'
    || c == '\U{2029}' || c == '\U{202F}' || c == '\U{205F}' || c == '\U{3000}'
  }

  function TrimStart(s: string): (r: string)
    ensures |r| <= |s| && r == s[|s| - |r|..]
    ensures |r| > 0 ==> !IsWhitespace(r[0])
    ensures forall i :: 0 <= i < |s| - |r| ==> IsWhitespace(s[i])
  {
    if |s| > 0 && IsWhitespace(s[0]) then TrimStart(s[1..]) else s
  }

  function TrimEnd(s: string): (r: string)
    ensures |r| <= |s| && r == s[..|r|]
    ensures |r| > 0 ==> !IsWhitespace(r[|r| - 1])
    ensures forall i :: |r| <= i < |s| ==> IsWhitespace(s[i])
  {
    if |s| > 0 && IsWhitespace(s[|s| - 1]) then TrimEnd(s[..|s| - 1]) else s
  }

  /** `str::trim`: drops leading and trailing whitespace. */
  function Trim(s: string): string
  {
    TrimEnd(TrimStart(s))
  }

  predicate IsDigit(c: char)
  {
    '0' <= c <= '9'
  }

  predicate AllDigits(s: string)
  {
    forall i :: 0 <= i < |s| ==> IsDigit(s[i])
  }

  /** The number written by a string of decimal digits (most significant first). */
  function DigitsValue(s: string): nat
    requires AllDigits(s)
  {
    if |s| == 0 then 0
    else DigitsValue(s[..|s| - 1]) * 10 + (s[|s| - 1] as int - '0' as int)
  }

  /** The unsigned magnitude accepted by `str::parse`: one or more ASCII digits. */
  function Magnitude(s: string): Option<nat>
  {
    if |s| > 0 && AllDigits(s) then Some(DigitsValue(s)) else None
  }

  /** `str::parse::<u32>`: an optional `+`, digits, and no overflow. */
  function ParseU32(s: string): (r: Option<u32>)
    ensures r.Some? ==> Magnitude(if |s| > 0 && s[0] == '+' then s[1..] else s) == Some(r.value as nat)
  {
    var digits := if |s| > 0 && s[0] == '+' then s[1..] else s;
    match Magnitude(digits)
    case Some(v) => if v <= U32_MAX then Some(v) else None
    case None => None
  }

  /** `str::parse::<i64>`: an optional sign, digits, and no overflow. */
  function ParseI64(s: string): (r: Option<i64>)
  {
    if |s| > 0 && s[0] == '-' then
      match Magnitude(s[1..])
      case Some(v) => if -(v as int) >= I64_MIN then Some(-(v as int)) else None
      case None => None
    else
      var digits := if |s| > 0 && s[0] == '+' then s[1..] else s;
      match Magnitude(digits)
      case Some(v) => if v <= I64_MAX then Some(v) else None
      case None => None
  }

  /** `str::parse::<i32>`: as `ParseI64`, within the 32-bit range. */
  function ParseI32(s: string): (r: Option<i32>)
    ensures r.Some? <==> (ParseI64(s).Some? && I32_MIN <= ParseI64(s).value <= I32_MAX)
  {
    match ParseI64(s)
    case Some(v) => if I32_MIN <= v <= I32_MAX then Some(v) else None
    case None => None
  }

  /** `str::parse::<bool>`: exactly "true" or "false". */
  function ParseBool(s: string): (r: Option<bool>)
    ensures r.Some? <==> (s == "true" || s == "false")
    ensures r.Some? ==> (r.value <==> s == "true")
  {
    if s == "true" then Some(true) else if s == "false" then Some(false) else None
  }

  /** An optional `+` or `-`. */
  function DropSign(s: string): string
  {
    if |s| > 0 && (s[0] == '+' || s[0] == '-') then s[1..] else s
  }

  /** The number of leading ASCII digits. */
  function DigitRun(s: string): (n: nat)
    ensures n <= |s| && AllDigits(s[..n]) && (n < |s| ==> !IsDigit(s[n]))
  {
    if |s| > 0 && IsDigit(s[0]) then 1 + DigitRun(s[1..]) else 0
  }

  /** Digits with at most one `.`, and at least one digit. */
  predicate IsDecimalNumber(s: string)
  {
    var k := DigitRun(s);
    (k == |s| && k > 0)
    || (k < |s| && s[k] == '.' && AllDigits(s[k + 1..]) && (k > 0 || k + 1 < |s|))
  }

  /** The index of the first `e` or `E`, or the length when there is none. */
  function ExponentStart(s: string): (n: nat)
    ensures n <= |s| && (n < |s| ==> s[n] == 'e' || s[n] == 'E')
  {
    if |s| == 0 then 0 else if s[0] == 'e' || s[0] == 'E' then 0 else 1 + ExponentStart(s[1..])
  }

  predicate IsExponent(s: string)
  {
    |s| >= 2 && (s[0] == 'e' || s[0] == 'E') && |DropSign(s[1..])| > 0 && AllDigits(DropSign(s[1..]))
  }

  function Lower(s: string): string
  {
    if |s| == 0 then ""
    else [if 'A' <= s[0] <= 'Z' then (s[0] as int + 32) as char else s[0]] + Lower(s[1..])
  }

  /**
   * The literals `str::parse::<f64>` accepts: an optional sign, then `inf`,
   * `infinity` or `nan` in any case, or a decimal number with an optional
   * exponent.
   */
  predicate IsFloatLiteral(s: string)
  {
    var body := DropSign(s);
    Lower(body) in {"inf", "infinity", "nan"}
    || (var e := ExponentStart(body);
        IsDecimalNumber(body[..e]) && (e == |body| || IsExponent(body[e..])))
  }

  /** `str::parse::<f64>`, keeping the value opaque. */
  function ParseFloat(s: string): (r: Option<Float>)
    ensures r.Some? <==> IsFloatLiteral(s)
  {
    if IsFloatLiteral(s) then Some(Float(s)) else None
  }

  /** The decimal digits of a natural number, most significant first. */
  function NatDigits(n: nat): (r: string)
    ensures |r| > 0 && AllDigits(r)
    decreases n
  {
    var d := [('0' as int + n % 10) as char];
    if n < 10 then d else NatDigits(n / 10) + d
  }

  lemma {:induction false} NatDigitsValue(n: nat)
    ensures DigitsValue(NatDigits(n)) == n
    decreases n
  {
    var s := NatDigits(n);
    if n >= 10 {
      NatDigitsValue(n / 10);
      assert s[..|s| - 1] == NatDigits(n / 10);
    }
  }

  /** `Display` for a signed integer: a `-` before the digits of a negative value. */
  function FormatInt(n: int): (r: string)
    ensures |r| > 0
  {
    if n < 0 then "-" + NatDigits(-n) else NatDigits(n)
  }

  /** A formatted integer holds only digits and a leading minus sign. */
  lemma FormatIntChars(n: int, c: char)
    requires c in FormatInt(n)
    ensures IsDigit(c) || c == '-'
  {
    if n >= 0 {
      assert AllDigits(NatDigits(n));
    } else {
      var d := NatDigits(-n);
      assert AllDigits(d);
      assert FormatInt(n) == "-" + d;
      if c != '-' {
        assert c in d;
      }
    }
  }

  /** Formatting an `i64` and parsing it back gives the same number. */
  lemma ParseFormatI64(n: i64)
    ensures ParseI64(FormatInt(n)) == Some(n)
  {
    var s := FormatInt(n);
    if n < 0 {
      var m: nat := -(n as int);
      assert s[1..] == NatDigits(m);
      NatDigitsValue(m);
    } else {
      NatDigitsValue(n);
      assert s[0] != '-' && s[0] != '+' by { assert IsDigit(s[0]); }
    }
  }

  /** Formatting a `u32` and parsing it back gives the same number. */
  lemma ParseFormatU32(n: u32)
    ensures ParseU32(FormatInt(n)) == Some(n)
  {
    var s := FormatInt(n);
    NatDigitsValue(n);
    assert s[0] != '+' by { assert IsDigit(s[0]); }
  }
}

/**
 * A uniform view of one field of a request record, so that laws such as
 * "this builder writes exactly one field" can be stated over every field.
 */
module Records {
  import opened Common

  /** The value held by one record field, whatever its Rust type. */
  datatype FieldValue =
    | Flag(b: bool)
    | Int(i: int)
    | Number(x: Float)
    | Text(s: string)
    | Texts(ss: seq<string>)
    | Json(j: JsonValue)

  function FlagOf(o: Option<bool>): (r: Option<FieldValue>)
    ensures r.Some? <==> o.Some?
    ensures o.Some? ==> r.value == Flag(o.value)
  {
    match o
    case Some(v) => Some(Flag(v))
    case None => None
  }

  function U32Of(o: Option<u32>): (r: Option<FieldValue>)
    ensures r.Some? <==> o.Some?
    ensures o.Some? ==> r.value == Int(o.value)
  {
    match o
    case Some(v) => Some(Int(v))
    case None => None
  }

  function I32Of(o: Option<i32>): (r: Option<FieldValue>)
    ensures r.Some? <==> o.Some?
    ensures o.Some? ==> r.value == Int(o.value)
  {
    match o
    case Some(v) => Some(Int(v))
    case None => None
  }

  function I64Of(o: Option<i64>): (r: Option<FieldValue>)
    ensures r.Some? <==> o.Some?
    ensures o.Some? ==> r.value == Int(o.value)
  {
    match o
    case Some(v) => Some(Int(v))
    case None => None
  }

  function NumberOf(o: Option<Float>): (r: Option<FieldValue>)
    ensures r.Some? <==> o.Some?
    ensures o.Some? ==> r.value == Number(o.value)
  {
    match o
    case Some(v) => Some(Number(v))
    case None => None
  }

  function TextOf(o: Option<string>): (r: Option<FieldValue>)
    ensures r.Some? <==> o.Some?
    ensures o.Some? ==> r.value == Text(o.value)
  {
    match o
    case Some(v) => Some(Text(v))
    case None => None
  }

  function TextsOf(o: Option<seq<string>>): (r: Option<FieldValue>)
    ensures r.Some? <==> o.Some?
    ensures o.Some? ==> r.value == Texts(o.value)
  {
    match o
    case Some(v) => Some(Texts(v))
    case None => None
  }

  function JsonOf(o: Option<JsonValue>): (r: Option<FieldValue>)
    ensures r.Some? <==> o.Some?
    ensures o.Some? ==> r.value == Json(o.value)
  {
    match o
    case Some(v) => Some(Json(v))
    case None => None
  }
}
