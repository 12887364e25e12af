/** The small part of PHP's value universe that the upload-progress class
    touches: the values a progress backend can hand back, the `(bool)` and
    `(int)` casts applied to them, the string form of an integer (used when an
    integer is concatenated into a string), and the loose `==` comparison that
    `in_array` performs against an integer constant. */
module PhpValues {
  import opened Wrappers

  /** A PHP value. Arrays are modelled with string keys only. */
  datatype PhpValue =
    | Null
    | Bool(b: bool)
    | Int(i: int)
    | Str(s: string)
    | Arr(entries: map<string, PhpValue>)

  /** `$a[$key]` on an array: a missing key reads as null (PHP only emits a notice). */
  function Index(entries: map<string, PhpValue>, key: string): (v: PhpValue)
    ensures key !in entries ==> v == Null
    ensures key in entries ==> v == entries[key]
  {
    if key in entries then entries[key] else Null
  }

  /** `is_array($data) && !empty($data)` for a lookup result; an absent entry is `None`. */
  predicate IsNonEmptyArray(data: Option<PhpValue>)
  {
    data.Some? && data.value.Arr? && |data.value.entries| > 0
  }

  /** The `(bool)` cast: null, false, 0, "", "0" and the empty array are false. */
  function ToBool(v: PhpValue): (r: bool)
    ensures v.Bool? ==> r == v.b
    ensures v.Int? ==> (r <==> v.i != 0)
    ensures v.Str? ==> (r <==> v.s != "" && v.s != "0")
    ensures v.Arr? ==> (r <==> |v.entries| > 0)
    ensures v.Null? ==> !r
  {
    match v
    case Null => false
    case Bool(b) => b
    case Int(i) => i != 0
    case Str(s) => s != "" && s != "0"
    case Arr(entries) => |entries| > 0
  }

  /** The `(int)` cast. A string converts through its leading integer. */
  function ToInt(v: PhpValue): (r: int)
    ensures v.Null? ==> r == 0
    ensures v.Bool? ==> (r == if v.b then 1 else 0)
    ensures v.Int? ==> r == v.i
    ensures v.Arr? ==> (r == if |v.entries| == 0 then 0 else 1)
    ensures v.Str? && AllDigits(v.s) ==> r == DigitsValue(v.s)
  {
    match v
    case Null => 0
    case Bool(b) => if b then 1 else 0
    case Int(i) => i
    case Str(s) => LeadingInt(s)
    case Arr(entries) => if |entries| == 0 then 0 else 1
  }

  // ---------------------------------------------------------------------------
  // Decimal digits

  predicate IsDigit(c: char) { '0' <= c <= '9' }

  predicate AllDigits(s: string)
  {
    forall k :: 0 <= k < |s| ==> IsDigit(s[k])
  }

  function DigitValue(c: char): (d: nat)
    requires IsDigit(c)
    ensures d < 10
  {
    (c as int) - ('0' as int)
  }

  function DigitChar(d: nat): (c: char)
    requires d < 10
    ensures IsDigit(c) && DigitValue(c) == d
  {
    (('0' as int) + d) as char
  }

  /** The value of a string of decimal digits; the empty string is 0. */
  function DigitsValue(s: string): nat
    requires AllDigits(s)
  {
    if s == [] then 0 else 10 * DigitsValue(s[..|s| - 1]) + DigitValue(s[|s| - 1])
  }

  /** The decimal digits of a natural number, without leading zeros. */
  function NatToString(n: nat): (s: string)
    ensures |s| > 0 && AllDigits(s)
    ensures |s| > 1 ==> s[0] != '0'
  {
    if n < 10 then [DigitChar(n)] else NatToString(n / 10) + [DigitChar(n % 10)]
  }

  /** PHP's string form of an integer: a minus sign for negatives, then the digits. */
  function IntToString(n: int): (s: string)
    ensures |s| > 0
    ensures n >= 0 ==> AllDigits(s)
    ensures n < 0 ==> s[0] == '-' && AllDigits(s[1..])
  {
    if n < 0 then "-" + NatToString(-n) else NatToString(n)
  }

  /** The whole string read as a decimal integer with an optional sign, if it is one. */
  function ParseInt(s: string): (r: Option<int>)
    ensures r.Some? ==> |s| > 0
  {
    if |s| > 0 && (s[0] == '-' || s[0] == '+') then
      if |s| > 1 && AllDigits(s[1..]) then
        var v: int := DigitsValue(s[1..]);
        Some(if s[0] == '-' then -v else v)
      else None
    else if |s| > 0 && AllDigits(s) then Some(DigitsValue(s))
    else None
  }

  predicate IsWhitespace(c: char)
  {
    c == ' ' || c == '\t' || c == '\n' || c == '\r' || c == '\U{0B}' || c == '\U{0C}'
  }

  function TrimLeadingWhitespace(s: string): (t: string)
    ensures |t| <= |s| && t == s[|s| - |t|..]
    ensures |t| > 0 ==> !IsWhitespace(t[0])
  {
    if |s| > 0 && IsWhitespace(s[0]) then TrimLeadingWhitespace(s[1..]) else s
  }

  /** The longest prefix of `s` made of decimal digits. */
  function DigitPrefix(s: string): (p: string)
    ensures AllDigits(p) && p <= s
    ensures |p| < |s| ==> !IsDigit(s[|p|])
  {
    if |s| > 0 && IsDigit(s[0]) then [s[0]] + DigitPrefix(s[1..]) else []
  }

  /** The integer a string converts to under `(int)`: leading whitespace, an
      optional sign, then as many digits as follow; no digits give 0. */
  function LeadingInt(s: string): (r: int)
    ensures AllDigits(s) ==> r == DigitsValue(s)
    ensures |s| > 0 && !IsWhitespace(s[0]) && s[0] != '-' && s[0] != '+' && !IsDigit(s[0]) ==> r == 0
  {
    var t := TrimLeadingWhitespace(s);
    assert AllDigits(s) ==> t == s && DigitPrefix(t) == t;
    if |t| > 0 && (t[0] == '-' || t[0] == '+') then
      var v: int := DigitsValue(DigitPrefix(t[1..]));
      if t[0] == '-' then -v else v
    else DigitsValue(DigitPrefix(t))
  }

  /** Loose `$v == $k` for an integer `$k`, the comparison `in_array` makes by
      default. A string equals `$k` when it is a decimal integer string of that value. */
  predicate LooseEqualsInt(v: PhpValue, k: int)
  {
    match v
    case Null => k == 0
    case Bool(b) => b == (k != 0)
    case Int(i) => i == k
    case Str(s) => ParseInt(s) == Some(k)
    case Arr(_) => false
  }

  // ---------------------------------------------------------------------------
  // Lemmas

  /** `is_array($data) && !empty($data)` holds exactly of a stored array that `(bool)` calls true;
      an absent entry never passes. */
  lemma IsNonEmptyArrayIsTruthyArray(v: PhpValue)
    ensures IsNonEmptyArray(Some(v)) <==> v.Arr? && ToBool(v)
    ensures !IsNonEmptyArray(None)
  {
  }

  /** Reading back the digits of `n` gives `n`. */
  lemma {:induction false} NatToStringValue(n: nat)
    ensures DigitsValue(NatToString(n)) == n
  {
    if n >= 10 {
      var s := NatToString(n);
      NatToStringValue(n / 10);
      assert s[..|s| - 1] == NatToString(n / 10);
    }
  }

  /** The digit prefix of a string of digits is the whole string. */
  lemma DigitPrefixOfDigits(s: string)
    requires AllDigits(s)
    ensures DigitPrefix(s) == s
  {
  }

  /** An integer's string form parses back to the integer, both as a whole
      decimal string and under the `(int)` cast. */
  lemma IntToStringRoundTrip(n: int)
    ensures ParseInt(IntToString(n)) == Some(n)
    ensures LeadingInt(IntToString(n)) == n
  {
    var s := IntToString(n);
    if n < 0 {
      NatToStringValue(-n);
      assert s[1..] == NatToString(-n);
      DigitPrefixOfDigits(s[1..]);
      assert ParseInt(s) == Some(n);
      assert TrimLeadingWhitespace(s) == s;
    } else {
      NatToStringValue(n);
      assert ParseInt(s) == Some(n);
      assert LeadingInt(s) == n;
    }
  }

  /** Distinct integers have distinct string forms. */
  lemma IntToStringInjective(m: int, n: int)
    requires IntToString(m) == IntToString(n)
    ensures m == n
  {
    IntToStringRoundTrip(m);
    IntToStringRoundTrip(n);
  }

  /** The `(int)` cast of an integer's string form is the integer, so an integer
      stored as a string converts like the integer itself. */
  lemma ToIntOfIntString(n: int)
    ensures ToInt(Str(IntToString(n))) == ToInt(Int(n))
  {
    IntToStringRoundTrip(n);
  }

  /** Loose equality with an integer holds for an integer exactly when the two are equal,
      and for the integer's own string form. */
  lemma LooseEqualsIntOfIntegers(i: int, k: int)
    ensures LooseEqualsInt(Int(i), k) <==> i == k
    ensures LooseEqualsInt(Str(IntToString(k)), k)
  {
    IntToStringRoundTrip(k);
  }
}
