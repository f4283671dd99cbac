/**
 * The handful of Java library operations on strings and integers that the
 * server's logic depends on: `String.isBlank`, `toUpperCase`,
 * `equalsIgnoreCase`, `String.valueOf(int/long)`, `Integer.parseInt`,
 * `Long.parseLong`, `String.split("\\|")` and the narrowing cast `(int)` of a
 * `long`. Characters are treated as ASCII (see README, "Left out").
 */
module JavaText {
  import opened Wrappers

  const MinInt: int := -0x8000_0000
  const MaxInt: int := 0x7FFF_FFFF
  const MinLong: int := -0x8000_0000_0000_0000
  const MaxLong: int := 0x7FFF_FFFF_FFFF_FFFF

  /** Java `int` and `long`. */
  type Int32 = x: int | MinInt <= x <= MaxInt
  type Int64 = x: int | MinLong <= x <= MaxLong

  // ---------------------------------------------------------------------------
  // Blank strings and case
  // ---------------------------------------------------------------------------

  /** `Character.isWhitespace` on the ASCII range. */
  predicate IsWhitespace(c: char) {
    c == ' ' || '\t' <= c <= '\r' || '\U{1C}' <= c <= '\U{1F}'
  }

  /** `String.isBlank`: empty or whitespace only. */
  predicate IsBlank(s: string) {
    forall i :: 0 <= i < |s| ==> IsWhitespace(s[i])
  }

  function UpperChar(c: char): char {
    if 'a' <= c <= 'z' then (c as int - 32) as char else c
  }

  /** `String.toUpperCase` on ASCII letters. */
  function ToUpper(s: string): (r: string)
    ensures |r| == |s|
    ensures forall i :: 0 <= i < |s| ==> r[i] == UpperChar(s[i])
  {
    if s == [] then [] else [UpperChar(s[0])] + ToUpper(s[1..])
  }

  /** `String.equalsIgnoreCase` on ASCII letters. */
  predicate EqualsIgnoreCase(a: string, b: string) {
    |a| == |b| && forall i :: 0 <= i < |a| ==> UpperChar(a[i]) == UpperChar(b[i])
  }

  /** The text Java's string concatenation produces for a possibly-null string. */
  function NullableText(s: Option<string>): string {
    match s
    case None => "null"
    case Some(t) => t
  }

  // ---------------------------------------------------------------------------
  // Decimal text
  // ---------------------------------------------------------------------------

  predicate IsDigit(c: char) { '0' <= c <= '9' }

  predicate AllDigits(s: string) {
    forall i :: 0 <= i < |s| ==> IsDigit(s[i])
  }

  function DigitChar(d: nat): (c: char)
    requires d < 10
    ensures IsDigit(c)
  {
    ('0' as int + d) as char
  }

  /** The value of a run of decimal digits, most significant first. */
  function DigitsValue(s: string): nat
    requires AllDigits(s)
  {
    if s == [] then 0 else 10 * DigitsValue(s[..|s| - 1]) + (s[|s| - 1] as int - '0' as int)
  }

  function NatToString(n: nat): string
    decreases n
  {
    if n < 10 then [DigitChar(n)] else NatToString(n / 10) + [DigitChar(n % 10)]
  }

  /** `String.valueOf(int)` and `String.valueOf(long)`: the shortest decimal text, with `-` when negative. */
  function IntToString(n: int): string {
    if n < 0 then "-" + NatToString(-n) else NatToString(n)
  }

  /**
   * `Integer.parseInt` / `Long.parseLong` with bounds `lo..hi`: an optional
   * sign followed by at least one digit, whose value lies in the bounds;
   * `None` is the NumberFormatException (also thrown for a null string).
   */
  function ParseDecimal(s: Option<string>, lo: int, hi: int): (r: Option<int>)
    ensures r.Some? ==> lo <= r.value <= hi
  {
    match s
    case None => None
    case Some(t) =>
      if |t| == 0 then None
      else
        var body := if t[0] == '-' || t[0] == '+' then t[1..] else t;
        if |body| == 0 || !AllDigits(body) then None
        else
          var v: int := if t[0] == '-' then 0 - (DigitsValue(body) as int) else DigitsValue(body);
          if lo <= v <= hi then Some(v) else None
  }

  /** `Integer.parseInt`. */
  function ParseInt(s: Option<string>): Option<Int32> {
    var r := ParseDecimal(s, MinInt, MaxInt);
    if r.Some? then Some(r.value) else None
  }

  /** `Long.parseLong`. */
  function ParseLong(s: Option<string>): Option<Int64> {
    var r := ParseDecimal(s, MinLong, MaxLong);
    if r.Some? then Some(r.value) else None
  }

  lemma {:induction false} NatToStringIsDigits(n: nat)
    ensures |NatToString(n)| >= 1
    ensures AllDigits(NatToString(n))
    ensures DigitsValue(NatToString(n)) == n
    decreases n
  {
    if n >= 10 {
      NatToStringIsDigits(n / 10);
      var s := NatToString(n / 10) + [DigitChar(n % 10)];
      assert s[..|s| - 1] == NatToString(n / 10);
    }
  }

  /** Parsing the text `String.valueOf` prints gives the number back, for every number in range. */
  lemma ParseDecimalOfIntToString(n: int, lo: int, hi: int)
    requires lo <= n <= hi
    ensures ParseDecimal(Some(IntToString(n)), lo, hi) == Some(n)
  {
    if n < 0 {
      NatToStringIsDigits(-n);
      assert IntToString(n)[1..] == NatToString(-n);
    } else {
      NatToStringIsDigits(n);
    }
  }

  lemma ParseIntOfIntToString(n: Int32)
    ensures ParseInt(Some(IntToString(n))) == Some(n)
  {
    ParseDecimalOfIntToString(n, MinInt, MaxInt);
  }

  lemma ParseLongOfIntToString(n: Int64)
    ensures ParseLong(Some(IntToString(n))) == Some(n)
  {
    ParseDecimalOfIntToString(n, MinLong, MaxLong);
  }

  /** The text of a number consists of digits and at most a minus sign. */
  lemma IntToStringChars(n: int, c: char)
    requires c != '-' && !IsDigit(c)
    ensures c !in IntToString(n)
  {
    NatToStringIsDigits(if n < 0 then -n else n);
  }

  // ---------------------------------------------------------------------------
  // split
  // ---------------------------------------------------------------------------

  /** Every piece between occurrences of `sep`, including empty ones. */
  function SplitAll(s: string, sep: char): (parts: seq<string>)
    ensures |parts| >= 1
  {
    if |s| == 0 then [""]
    else
      var rest := SplitAll(s[1..], sep);
      if s[0] == sep then [""] + rest else [[s[0]] + rest[0]] + rest[1..]
  }

  function DropTrailingEmpty(parts: seq<string>): seq<string> {
    if |parts| > 0 && parts[|parts| - 1] == "" then DropTrailingEmpty(parts[..|parts| - 1]) else parts
  }

  /**
   * `String.split` with a one-character literal pattern and no limit: the
   * whole string when the separator does not occur, otherwise the pieces with
   * trailing empty pieces removed.
   */
  function Split(s: string, sep: char): seq<string> {
    if sep !in s then [s] else DropTrailingEmpty(SplitAll(s, sep))
  }

  lemma {:induction false} SplitAllWithoutSeparator(s: string, sep: char)
    requires sep !in s
    ensures SplitAll(s, sep) == [s]
  {
    if |s| > 0 {
      SplitAllWithoutSeparator(s[1..], sep);
      assert [s[0]] + s[1..] == s;
    }
  }

  lemma {:induction false} SplitAllAfterFirstSeparator(a: string, b: string, sep: char)
    requires sep !in a
    ensures SplitAll(a + [sep] + b, sep) == [a] + SplitAll(b, sep)
  {
    if |a| == 0 {
      assert a + [sep] + b == [sep] + b;
      assert ([sep] + b)[1..] == b;
    } else {
      SplitAllAfterFirstSeparator(a[1..], b, sep);
      assert (a + [sep] + b)[1..] == a[1..] + [sep] + b;
      assert [a[0]] + a[1..] == a;
    }
  }

  /** Splitting `a + sep + b` recovers `a` and `b` when neither holds the separator and `b` is not empty. */
  lemma SplitPair(a: string, b: string, sep: char)
    requires sep !in a && sep !in b && b != ""
    ensures Split(a + [sep] + b, sep) == [a, b]
  {
    SplitAllAfterFirstSeparator(a, b, sep);
    SplitAllWithoutSeparator(b, sep);
    var s := a + [sep] + b;
    assert s[|a|] == sep;
  }

  // ---------------------------------------------------------------------------
  // Narrowing
  // ---------------------------------------------------------------------------

  /** The cast `(int)` of a `long`: keep the low 32 bits, read as two's complement. */
  function ToInt32(x: int): Int32 {
    (x - MinInt) % 0x1_0000_0000 + MinInt
  }

  /** The cast changes nothing for a value that fits in an `int`... */
  lemma ToInt32InRange(x: int)
    requires MinInt <= x <= MaxInt
    ensures ToInt32(x) == x
  {
  }

  /** ...and otherwise differs from it by a multiple of 2^32. */
  lemma ToInt32Congruent(x: int)
    ensures (ToInt32(x) - x) % 0x1_0000_0000 == 0
  {
  }
}
