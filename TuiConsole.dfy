/** Input charsets of the serial text console: which characters each getter
    accepts, and the contract that a getter's result only holds characters
    of its charset. */
module TuiConsoleCharsets {
  import opened Wrappers

  const TUICONSOLE_CHARSET_ALPHA := 1
  const TUICONSOLE_CHARSET_NUMERIC_INTEGER := 2
  const TUICONSOLE_CHARSET_NUMERIC_DECIMAL := 3
  const TUICONSOLE_CHARSET_ALPHA_NUMERIC := 4

  datatype Charset = Alpha | NumericInteger | NumericDecimal | AlphaNumeric

  /** The `TUICONSOLE_CHARSET_*` code of a charset. */
  function Code(cs: Charset): (n: int)
    ensures 1 <= n <= 4
  {
    match cs
    case Alpha => TUICONSOLE_CHARSET_ALPHA
    case NumericInteger => TUICONSOLE_CHARSET_NUMERIC_INTEGER
    case NumericDecimal => TUICONSOLE_CHARSET_NUMERIC_DECIMAL
    case AlphaNumeric => TUICONSOLE_CHARSET_ALPHA_NUMERIC
  }

  /** The charset a code names, if any. */
  function FromCode(n: int): (r: Option<Charset>)
    ensures r.Some? <==> 1 <= n <= 4
  {
    if n == TUICONSOLE_CHARSET_ALPHA then Some(Alpha)
    else if n == TUICONSOLE_CHARSET_NUMERIC_INTEGER then Some(NumericInteger)
    else if n == TUICONSOLE_CHARSET_NUMERIC_DECIMAL then Some(NumericDecimal)
    else if n == TUICONSOLE_CHARSET_ALPHA_NUMERIC then Some(AlphaNumeric)
    else None
  }

  /** Exactly four charsets, each with its own code. */
  lemma CodeRoundTrip(cs: Charset, n: int)
    ensures FromCode(Code(cs)) == Some(cs)
    ensures FromCode(n).Some? ==> Code(FromCode(n).value) == n
  {
  }

  /** 'a'-'z', 'A'-'Z' and ' '. */
  predicate IsAlpha(c: char)
  {
    'a' <= c <= 'z' || 'A' <= c <= 'Z' || c == ' '
  }

  /** The digits as the header lists them: '1'-'9'. */
  predicate IsDigit(c: char)
  {
    '1' <= c <= '9'
  }

  /** Whether charset `cs` accepts character `c`. */
  predicate InCharset(cs: Charset, c: char)
  {
    match cs
    case Alpha => IsAlpha(c)
    case NumericInteger => IsDigit(c) || c == '-'
    case NumericDecimal => IsDigit(c) || c == '-' || c == '.'
    case AlphaNumeric => IsAlpha(c) || IsDigit(c) || c == '-' || c == '.'
  }

  /** Every character `a` accepts, `b` accepts too. */
  predicate Within(a: Charset, b: Charset)
  {
    forall c: char :: InCharset(a, c) ==> InCharset(b, c)
  }

  /** Integer ⊂ Decimal ⊂ AlphaNumeric and Alpha ⊂ AlphaNumeric, each strictly. */
  lemma CharsetInclusions()
    ensures Within(NumericInteger, NumericDecimal) && !Within(NumericDecimal, NumericInteger)
    ensures Within(NumericDecimal, AlphaNumeric) && !Within(AlphaNumeric, NumericDecimal)
    ensures Within(Alpha, AlphaNumeric) && !Within(AlphaNumeric, Alpha)
    ensures !Within(Alpha, NumericDecimal) && !Within(NumericInteger, Alpha)
  {
    assert InCharset(NumericDecimal, '.') && !InCharset(NumericInteger, '.');
    assert InCharset(AlphaNumeric, 'a') && !InCharset(NumericDecimal, 'a');
    assert InCharset(AlphaNumeric, '-') && !InCharset(Alpha, '-');
    assert InCharset(NumericInteger, '1') && !InCharset(Alpha, '1');
  }

  /** AlphaNumeric is exactly the union of Alpha and Decimal. */
  lemma AlphaNumericIsUnion(c: char)
    ensures InCharset(AlphaNumeric, c) <==> InCharset(Alpha, c) || InCharset(NumericDecimal, c)
  {
  }

  /** As the header lists them, no charset accepts '0' or ':'. */
  lemma NoZeroNoColon(cs: Charset)
    ensures !InCharset(cs, '0') && !InCharset(cs, ':')
  {
  }

  /** The characters of `s` that `cs` accepts, in order; the others are dropped. */
  function Restrict(cs: Charset, s: string): (r: string)
    ensures |r| <= |s|
    ensures forall i :: 0 <= i < |r| ==> InCharset(cs, r[i])
    ensures forall c :: c in r <==> c in s && InCharset(cs, c)
  {
    if s == [] then []
    else if InCharset(cs, s[0]) then [s[0]] + Restrict(cs, s[1..])
    else Restrict(cs, s[1..])
  }

  /** A line already in the charset passes through unchanged; otherwise
      something is dropped. */
  lemma {:induction false} RestrictKeepsValid(cs: Charset, s: string)
    ensures Restrict(cs, s) == s <==> forall i :: 0 <= i < |s| ==> InCharset(cs, s[i])
  {
    if s != [] {
      RestrictKeepsValid(cs, s[1..]);
      if !InCharset(cs, s[0]) {
        assert |Restrict(cs, s)| < |s| by {
          assert Restrict(cs, s) == Restrict(cs, s[1..]);
        }
      } else {
        assert forall i :: 1 <= i < |s| ==> s[i] == s[1..][i - 1];
        assert (forall i :: 0 <= i < |s| ==> InCharset(cs, s[i])) <==>
               (forall i :: 0 <= i < |s[1..]| ==> InCharset(cs, s[1..][i]));
      }
    }
  }

  /** Filtering twice is filtering once. */
  lemma RestrictIdempotent(cs: Charset, s: string)
    ensures Restrict(cs, Restrict(cs, s)) == Restrict(cs, s)
  {
    RestrictKeepsValid(cs, Restrict(cs, s));
  }

  /** Filtering a line piece by piece is filtering it whole: each character
      is judged on its own. */
  lemma {:induction false} RestrictConcat(cs: Charset, a: string, b: string)
    ensures Restrict(cs, a + b) == Restrict(cs, a) + Restrict(cs, b)
    decreases |a|
  {
    if a == [] {
      assert a + b == b;
    } else {
      assert (a + b)[0] == a[0] && (a + b)[1..] == a[1..] + b;
      RestrictConcat(cs, a[1..], b);
    }
  }

  /** Filtering with a charset and then with a narrower one is filtering with the narrower one. */
  lemma {:induction false} RestrictNarrower(a: Charset, b: Charset, s: string)
    requires Within(a, b)
    ensures Restrict(a, Restrict(b, s)) == Restrict(a, s)
  {
    if s != [] {
      RestrictNarrower(a, b, s[1..]);
      if InCharset(b, s[0]) {
        assert ([s[0]] + Restrict(b, s[1..]))[1..] == Restrict(b, s[1..]);
      }
    }
  }

  /** The console's state that the header shows: whether typed characters are echoed. */
  class TuiConsole {
    var echoEnabled: bool

    /** A new console echoes. */
    constructor()
      ensures echoEnabled
    {
      echoEnabled := true;
    }
  }

  /** `getRawInput(charset)`: the line typed, with the characters outside the charset dropped. */
  function GetRawInput(cs: Charset, typed: string): (line: string)
    ensures forall i :: 0 <= i < |line| ==> InCharset(cs, line[i])
    ensures forall c :: c in typed && InCharset(cs, c) ==> c in line
  {
    Restrict(cs, typed)
  }

  /** `getAlphaString()`: only 'a'-'z', 'A'-'Z' and ' '. */
  function GetAlphaString(typed: string): (line: string)
    ensures forall i :: 0 <= i < |line| ==> IsAlpha(line[i])
    ensures forall c :: c in typed && IsAlpha(c) ==> c in line
  {
    GetRawInput(Alpha, typed)
  }

  /** `getString()`: only 'a'-'z', 'A'-'Z', ' ', the digits, '-' and '.'. */
  function GetString(typed: string): (line: string)
    ensures forall i :: 0 <= i < |line| ==> IsAlpha(line[i]) || IsDigit(line[i]) || line[i] == '-' || line[i] == '.'
    ensures forall c :: c in typed && InCharset(AlphaNumeric, c) ==> c in line
  {
    GetRawInput(AlphaNumeric, typed)
  }

  /** What `getAlphaString()` returns, `getString()` returns too, unchanged. */
  lemma AlphaStringIsString(typed: string)
    ensures GetString(GetAlphaString(typed)) == GetAlphaString(typed)
  {
    CharsetInclusions();
    RestrictNarrower(Alpha, AlphaNumeric, typed);
    RestrictKeepsValid(AlphaNumeric, Restrict(Alpha, typed));
  }
}
