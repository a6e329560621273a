/**
 * The parts of Go's `strings` and `strconv` packages the configuration loader
 * and the Basic-auth middleware rely on, over ASCII text.
 */
module Text {

  predicate HasPrefix(s: string, prefix: string)
  {
    |prefix| <= |s| && s[..|prefix|] == prefix
  }

  /** strings.TrimPrefix: `s` without `prefix` when it starts with it, else `s`. */
  function TrimPrefix(s: string, prefix: string): (r: string)
    ensures HasPrefix(s, prefix) ==> prefix + r == s
    ensures !HasPrefix(s, prefix) ==> r == s
  {
    if HasPrefix(s, prefix) then s[|prefix|..] else s
  }

  /** Trimming a non-empty prefix leaves the text as it was exactly when the prefix is absent. */
  lemma TrimPrefixUnchanged(s: string, prefix: string)
    requires prefix != ""
    ensures TrimPrefix(s, prefix) == s <==> !HasPrefix(s, prefix)
  {
    if HasPrefix(s, prefix) {
      assert |TrimPrefix(s, prefix)| < |s|;
    }
  }

  /** The number of occurrences of `c` in `s`. */
  function Count(s: string, c: char): nat
  {
    if s == [] then 0 else (if s[0] == c then 1 else 0) + Count(s[1..], c)
  }

  /** The parts joined back with `sep` between each two. */
  function Join(parts: seq<string>, sep: char): string
    requires parts != []
  {
    if |parts| == 1 then parts[0] else parts[0] + [sep] + Join(parts[1..], sep)
  }

  /** strings.Split with a one-character separator: the text around every occurrence of `sep`. */
  function Split(s: string, sep: char): (parts: seq<string>)
    ensures |parts| == Count(s, sep) + 1
    ensures forall k :: 0 <= k < |parts| ==> sep !in parts[k]
    ensures Join(parts, sep) == s
  {
    if s == [] then [""]
    else
      var rest := Split(s[1..], sep);
      if s[0] == sep then [""] + rest
      else [[s[0]] + rest[0]] + rest[1..]
  }

  /** Splitting on a separator that occurs once gives the text before and after it. */
  lemma SplitInTwo(s: string, sep: char)
    requires |Split(s, sep)| == 2
    ensures s == Split(s, sep)[0] + [sep] + Split(s, sep)[1]
    ensures sep !in Split(s, sep)[0] && sep !in Split(s, sep)[1]
  {
    var parts := Split(s, sep);
    assert Join(parts[1..], sep) == parts[1];
  }

  /** A separator-free text splits into itself alone. */
  lemma SplitNoSeparator(s: string, sep: char)
    requires sep !in s
    ensures Split(s, sep) == [s]
  {
    var parts := Split(s, sep);
    assert |parts| == Count(s, sep) + 1;
    CountAbsent(s, sep);
    assert Join(parts, sep) == parts[0];
  }

  lemma {:induction false} CountAbsent(s: string, c: char)
    requires c !in s
    ensures Count(s, c) == 0
  {
    if s != [] {
      assert c !in s[1..];
      CountAbsent(s[1..], c);
    }
  }

  // ---------------------------------------------------------------------------
  // strings.ToLower over ASCII.

  function LowerChar(c: char): (r: char)
    ensures 'A' <= c <= 'Z' ==> 'a' <= r <= 'z'
    ensures !('A' <= c <= 'Z') ==> r == c
  {
    if 'A' <= c <= 'Z' then (c as int - 'A' as int + 'a' as int) as char else c
  }

  function ToLower(s: string): (r: string)
    ensures |r| == |s|
    ensures forall k :: 0 <= k < |s| ==> r[k] == LowerChar(s[k])
  {
    if s == [] then [] else [LowerChar(s[0])] + ToLower(s[1..])
  }

  lemma ToLowerIdempotent(s: string)
    ensures ToLower(ToLower(s)) == ToLower(s)
  {
  }

  // ---------------------------------------------------------------------------
  // strconv.Atoi on a 64-bit platform.

  const MinInt64: int := -0x8000_0000_0000_0000
  const MaxInt64: int := 0x7fff_ffff_ffff_ffff

  predicate IsDigit(c: char)
  {
    '0' <= c <= '9'
  }

  predicate AllDigits(s: string)
  {
    forall k :: 0 <= k < |s| ==> IsDigit(s[k])
  }

  /** The value of a string of decimal digits, most significant first. */
  function DecimalValue(s: string): nat
    requires AllDigits(s)
  {
    if s == [] then 0 else 10 * DecimalValue(s[..|s| - 1]) + (s[|s| - 1] as int - '0' as int)
  }

  /** Atoi's pair of results: the value and whether there was no error. */
  datatype Parsed = Parsed(value: int, ok: bool)

  const MaxUint64: int := 0xffff_ffff_ffff_ffff

  /** The text after an optional leading sign. */
  function Unsigned(s: string): (u: string)
    ensures |u| <= |s|
  {
    if s != [] && (s[0] == '-' || s[0] == '+') then s[1..] else s
  }

  /** The longest run of decimal digits `s` starts with. */
  function LeadingDigits(s: string): (p: string)
    ensures |p| <= |s| && p == s[..|p|] && AllDigits(p)
    ensures |p| < |s| ==> !IsDigit(s[|p|])
    ensures AllDigits(s) ==> p == s
  {
    if s == [] || !IsDigit(s[0]) then [] else [s[0]] + LeadingDigits(s[1..])
  }

  /**
   * strconv.Atoi: an optional sign followed by decimal digits, read from the
   * left. A digit that takes the value past 2^64 - 1 stops the scan with a
   * range error, even when a non-digit follows; the result is then the 64-bit
   * bound of the sign, as it is for a digit string outside the 64-bit range.
   * A non-digit reached first is a syntax error with the value 0.
   */
  function Atoi(s: string): (r: Parsed)
    ensures r.ok ==> MinInt64 <= r.value <= MaxInt64
    ensures r.ok ==> s != "" && AllDigits(Unsigned(s)) && Unsigned(s) != ""
    ensures AllDigits(s) && s != "" && DecimalValue(s) <= MaxInt64 ==> r == Parsed(DecimalValue(s), true)
    ensures AllDigits(s) && s != "" && DecimalValue(s) > MaxInt64 ==> r == Parsed(MaxInt64, false)
    ensures s == "" || LeadingDigits(Unsigned(s)) == "" ==> r == Parsed(0, false)
    ensures s != "" && !AllDigits(Unsigned(s)) && DecimalValue(LeadingDigits(Unsigned(s))) <= MaxUint64 ==> r == Parsed(0, false)
    ensures s != "" && DecimalValue(LeadingDigits(Unsigned(s))) > MaxUint64 ==>
      r == Parsed(if s[0] == '-' then MinInt64 else MaxInt64, false)
  {
    if s == [] then Parsed(0, false)
    else
      var negative := s[0] == '-';
      var body := Unsigned(s);
      var digits := LeadingDigits(body);
      if digits == [] then Parsed(0, false)
      else if |digits| < |body| && DecimalValue(digits) <= MaxUint64 then Parsed(0, false)
      else
        assert |digits| == |body| ==> digits == body;
        var magnitude := DecimalValue(digits);
        var n: int := if negative then -(magnitude as int) else magnitude;
        if n < MinInt64 then Parsed(MinInt64, false)
        else if n > MaxInt64 then Parsed(MaxInt64, false)
        else Parsed(n, true)
  }

  /** The decimal notation of `n`, without leading zeros ("0" for zero). */
  function Decimal(n: nat): (s: string)
    ensures s != "" && AllDigits(s)
  {
    if n < 10 then [('0' as int + n) as char] else Decimal(n / 10) + [('0' as int + n % 10) as char]
  }

  lemma {:induction false} DecimalValueOfDecimal(n: nat)
    ensures DecimalValue(Decimal(n)) == n
  {
    if n >= 10 {
      DecimalValueOfDecimal(n / 10);
      var s := Decimal(n);
      assert s[..|s| - 1] == Decimal(n / 10);
    }
  }

  /** Atoi reads back the decimal notation of every number up to the 64-bit bound. */
  lemma AtoiOfDecimal(n: nat)
    requires n <= MaxInt64
    ensures Atoi(Decimal(n)) == Parsed(n, true)
  {
    DecimalValueOfDecimal(n);
  }

  /** An explicit minus sign negates the value. */
  lemma AtoiOfNegative(n: nat)
    requires n <= -MinInt64
    ensures Atoi("-" + Decimal(n)) == Parsed(-(n as int), true)
  {
    DecimalValueOfDecimal(n);
    assert Unsigned("-" + Decimal(n)) == Decimal(n);
  }

  /** A leading plus sign is accepted and leaves the value as it is. */
  lemma AtoiOfPositive(n: nat)
    requires n <= MaxInt64
    ensures Atoi("+" + Decimal(n)) == Parsed(n, true)
  {
    DecimalValueOfDecimal(n);
    assert Unsigned("+" + Decimal(n)) == Decimal(n);
  }

  /** Digits whose value passes 2^64 - 1 give the bound with a range error, whatever text follows them. */
  lemma AtoiOverflowBeforeText(d: string, t: string)
    requires AllDigits(d) && DecimalValue(d) > MaxUint64
    requires t != "" && !IsDigit(t[0])
    ensures Atoi(d + t) == Parsed(MaxInt64, false)
    ensures Atoi("-" + d + t) == Parsed(MinInt64, false)
  {
    assert d != "";
    LeadingDigitsBefore(d, t);
    assert Unsigned(d + t) == d + t;
    assert "-" + d + t == "-" + (d + t);
    assert Unsigned("-" + (d + t)) == d + t;
  }

  lemma LeadingDigitsBefore(d: string, t: string)
    requires AllDigits(d) && t != "" && !IsDigit(t[0])
    ensures LeadingDigits(d + t) == d
  {
    var s := d + t;
    var p := LeadingDigits(s);
    assert p == s[..|d|] == d;
  }

  // ---------------------------------------------------------------------------
  // strconv.ParseBool.

  datatype ParsedBool = ParsedBool(value: bool, ok: bool)

  /** The spellings Go accepts; anything else is an error with the value false. */
  function ParseBool(s: string): (r: ParsedBool)
    ensures r.ok <==> s in {"1", "t", "T", "TRUE", "true", "True", "0", "f", "F", "FALSE", "false", "False"}
    ensures r.value ==> r.ok && s in {"1", "t", "T", "TRUE", "true", "True"}
  {
    if s in {"1", "t", "T", "TRUE", "true", "True"} then ParsedBool(true, true)
    else if s in {"0", "f", "F", "FALSE", "false", "False"} then ParsedBool(false, true)
    else ParsedBool(false, false)
  }
}
