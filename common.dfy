/** Shared vocabulary of the admin console and the client proofing page:
    nullable values, and the JavaScript string built-ins the components rely on
    (truthiness of strings, String.prototype.trim, parseInt, Number#toString on integers). */
module Common {

  /** A nullable value: `null` in the TypeScript source. */
  datatype Option<+T> = None | Some(value: T)

  /** JavaScript truthiness of a string: only the empty string is falsy. */
  predicate Truthy(s: string) {
    s != ""
  }

  /** JavaScript truthiness of a nullable string (`null` and `''` are falsy). */
  predicate TruthyOpt(s: Option<string>) {
    s.Some? && Truthy(s.value)
  }

  // ---------------------------------------------------------------------------
  // String.prototype.trim
  // ---------------------------------------------------------------------------

  /** The WhiteSpace and LineTerminator code points that `trim` and `parseInt` skip
      (ECMAScript sections 12.2 and 12.3): TAB, LF, VT, FF, CR, SPACE, NBSP, the
      space separators of category Zs, LS, PS and the byte-order mark. */
  predicate IsJsWhitespace(c: char) {
    c == '\t' || c == '\n' || c == '\U{B}' || c == '\U{C}' || c == '\r' || c == ' '
    || c == '\U{A0}' || c == '\U{1680}' || ('\U{2000}' <= c <= '\U{200A}')
    || c == '\U{2028}' || c == '\U{2029}' || c == '\U{202F}' || c == '\U{205F}'
    || c == '\U{3000}' || c == '\U{FEFF}'
  }

  /** Every character of `s` is whitespace (the empty string included). */
  predicate Blank(s: string) {
    forall i :: 0 <= i < |s| ==> IsJsWhitespace(s[i])
  }

  /** `s` neither starts nor ends with whitespace. */
  predicate Trimmed(s: string) {
    s == "" || (!IsJsWhitespace(s[0]) && !IsJsWhitespace(s[|s| - 1]))
  }

  /** The first position from `from` on that does not hold whitespace (`|s|` when there
      is none). */
  function SkipBlanks(s: string, from: nat): (k: nat)
    requires from <= |s|
    ensures from <= k <= |s|
    ensures forall j :: from <= j < k ==> IsJsWhitespace(s[j])
    ensures k < |s| ==> !IsJsWhitespace(s[k])
    decreases |s| - from
  {
    if from < |s| && IsJsWhitespace(s[from]) then SkipBlanks(s, from + 1) else from
  }

  /** The end of `s[lo..hi]` once its trailing whitespace is cut off. */
  function BlanksBackTo(s: string, lo: nat, hi: nat): (k: nat)
    requires lo <= hi <= |s|
    ensures lo <= k <= hi
    ensures forall j :: k <= j < hi ==> IsJsWhitespace(s[j])
    ensures k > lo ==> !IsJsWhitespace(s[k - 1])
    decreases hi
  {
    if lo < hi && IsJsWhitespace(s[hi - 1]) then BlanksBackTo(s, lo, hi - 1) else hi
  }

  /** `s` with its leading whitespace removed. */
  function TrimStart(s: string): string {
    if s != "" && IsJsWhitespace(s[0]) then TrimStart(s[1..]) else s
  }

  /** A string that does not start with whitespace has none to skip. */
  lemma TrimStartOfSolid(s: string)
    requires s == "" || !IsJsWhitespace(s[0])
    ensures TrimStart(s) == s
  {
  }

  /** `String.prototype.trim`: the slice of `s` that starts at its first non-whitespace
      character and after which only whitespace follows, so it neither starts nor ends
      with whitespace and is "" exactly when `s` is blank. */
  function Trim(s: string): (r: string)
    ensures Trimmed(r)
    ensures r == "" <==> Blank(s)
    ensures SkipBlanks(s, 0) + |r| <= |s| && r == s[SkipBlanks(s, 0)..SkipBlanks(s, 0) + |r|]
    ensures forall j :: SkipBlanks(s, 0) + |r| <= j < |s| ==> IsJsWhitespace(s[j])
  {
    var a := SkipBlanks(s, 0);
    var b := BlanksBackTo(s, a, |s|);
    assert a < |s| ==> a < b;
    s[a..b]
  }

  /** Trimming a string that is already trimmed changes nothing; in particular
      trimming is idempotent. */
  lemma TrimOfTrimmed(s: string)
    requires Trimmed(s)
    ensures Trim(s) == s
  {
    assert s[0..|s|] == s;
  }

  lemma TrimIdempotent(s: string)
    ensures Trim(Trim(s)) == Trim(s)
  {
    TrimOfTrimmed(Trim(s));
  }

  // ---------------------------------------------------------------------------
  // Integers as text: parseInt and Number#toString
  // ---------------------------------------------------------------------------

  predicate IsDecimalDigit(c: char) {
    '0' <= c <= '9'
  }

  /** A digit of radix 10 or 16 (the only radixes `parseInt` picks without an argument). */
  predicate IsDigitIn(c: char, radix: nat) {
    IsDecimalDigit(c) || (radix == 16 && ('a' <= c <= 'f' || 'A' <= c <= 'F'))
  }

  predicate AllDigitsIn(s: string, radix: nat) {
    forall i :: 0 <= i < |s| ==> IsDigitIn(s[i], radix)
  }

  function DigitValue(c: char): (d: nat)
    requires IsDigitIn(c, 16)
    ensures d < 16
    ensures IsDecimalDigit(c) ==> d < 10
  {
    if IsDecimalDigit(c) then c as nat - '0' as nat
    else if 'a' <= c <= 'f' then c as nat - 'a' as nat + 10
    else c as nat - 'A' as nat + 10
  }

  /** The longest prefix of `s` made of digits of the given radix. */
  function DigitPrefix(s: string, radix: nat): (r: string)
    ensures |r| <= |s| && r == s[..|r|]
    ensures AllDigitsIn(r, radix)
    ensures |r| == |s| || !IsDigitIn(s[|r|], radix)
  {
    if s != "" && IsDigitIn(s[0], radix) then [s[0]] + DigitPrefix(s[1..], radix) else ""
  }

  /** The number a digit string denotes in the given radix (most significant first). */
  function ValueOf(digits: string, radix: nat): nat
    requires radix == 10 || radix == 16
    requires AllDigitsIn(digits, radix)
  {
    if digits == "" then 0
    else ValueOf(digits[..|digits| - 1], radix) * radix + DigitValue(digits[|digits| - 1])
  }

  /** The global `parseInt(s)` with no radix argument; `None` stands for NaN.
      Leading whitespace is skipped, one sign is accepted, a `0x`/`0X` prefix selects
      radix 16, and the longest run of digits that follows is converted; text after
      that run is ignored. */
  function ParseInt(s: string): Option<int> {
    ParseSigned(TrimStart(s))
  }

  /** `parseInt` after the leading whitespace: an optional sign, then the magnitude. */
  function ParseSigned(t: string): Option<int> {
    if t != "" && t[0] == '-' then Negated(ParseMagnitude(t[1..]))
    else if t != "" && t[0] == '+' then ParseMagnitude(t[1..])
    else ParseMagnitude(t)
  }

  function Negated(m: Option<int>): Option<int> {
    if m.Some? then Some(-m.value) else None
  }

  /** The unsigned part of `parseInt`: a `0x`/`0X` prefix selects radix 16, otherwise
      radix 10; `None` when no digit follows. */
  function ParseMagnitude(body: string): Option<int> {
    var hex := |body| >= 2 && body[0] == '0' && (body[1] == 'x' || body[1] == 'X');
    var radix := if hex then 16 else 10;
    var digits := DigitPrefix(if hex then body[2..] else body, radix);
    if digits == "" then None else Some(ValueOf(digits, radix))
  }

  function DigitChar(d: nat): (c: char)
    requires d < 10
    ensures IsDecimalDigit(c) && DigitValue(c) == d
  {
    ('0' as nat + d) as char
  }

  /** The decimal numeral of a natural number, without leading zeros. */
  function NatToString(n: nat): (r: string)
    ensures r != "" && AllDigitsIn(r, 10)
  {
    if n < 10 then [DigitChar(n)] else NatToString(n / 10) + [DigitChar(n % 10)]
  }

  /** `String(n)` for an integer `n` (a JavaScript number with an integral value). */
  function IntToString(n: int): (r: string)
    ensures r != ""
    ensures r[0] == '-' <==> n < 0
  {
    if n < 0 then "-" + NatToString(-n) else NatToString(n)
  }

  lemma {:induction false} ValueOfNatToString(n: nat)
    ensures ValueOf(NatToString(n), 10) == n
  {
    var s := NatToString(n);
    if n >= 10 {
      ValueOfNatToString(n / 10);
      assert s[..|s| - 1] == NatToString(n / 10);
    }
  }

  lemma DigitPrefixOfDigits(s: string, radix: nat)
    requires AllDigitsIn(s, radix)
    ensures DigitPrefix(s, radix) == s
  {
  }

  /** `parseInt` of a non-empty run of decimal digits, unsigned or after a minus sign,
      is the number those digits denote. */
  lemma ParseMagnitudeOfDigits(d: string)
    requires d != "" && AllDigitsIn(d, 10)
    ensures ParseMagnitude(d) == Some(ValueOf(d, 10))
  {
    assert !(|d| >= 2 && (d[1] == 'x' || d[1] == 'X')) by {
      if |d| >= 2 { assert IsDigitIn(d[1], 10); }
    }
    DigitPrefixOfDigits(d, 10);
  }

  lemma ParseIntOfDigits(d: string)
    requires d != "" && AllDigitsIn(d, 10)
    ensures ParseInt(d) == Some(ValueOf(d, 10))
  {
    assert IsDigitIn(d[0], 10);
    TrimStartOfSolid(d);
    ParseMagnitudeOfDigits(d);
  }

  lemma ParseIntOfMinusDigits(d: string)
    requires d != "" && AllDigitsIn(d, 10)
    ensures ParseInt("-" + d) == Some(-(ValueOf(d, 10) as int))
  {
    SignThen('-', d);
    ParseIntAfterMinus("-" + d);
    ParseMagnitudeOfDigits(d);
  }

  /** A leading minus sign negates what `parseInt` reads after it. */
  lemma ParseIntAfterMinus(t: string)
    requires t != "" && t[0] == '-'
    ensures ParseInt(t) == Negated(ParseMagnitude(t[1..]))
  {
    TrimStartOfSolid(t);
  }

  lemma SignThen(c: char, d: string)
    ensures ([c] + d)[0] == c && ([c] + d)[1..] == d
  {
  }

  /** `parseInt` skips leading whitespace: `parseInt(w + t)` is `parseInt(t)` for blank `w`. */
  lemma ParseIntSkipsLeadingBlanks(w: string, t: string)
    requires Blank(w)
    requires t == "" || !IsJsWhitespace(t[0])
    ensures ParseInt(w + t) == ParseInt(t)
  {
    TrimStartOfBlanksThen(w, t);
  }

  lemma {:induction false} TrimStartOfBlanksThen(w: string, t: string)
    requires Blank(w)
    ensures TrimStart(w + t) == TrimStart(t)
  {
    if w == [] {
      assert w + t == t;
    } else {
      assert (w + t)[0] == w[0] && (w + t)[1..] == w[1..] + t;
      TrimStartOfBlanksThen(w[1..], t);
    }
  }

  /** The longest run of digits at the start of `d + rest` is `d` when `rest` does not
      start with a digit. */
  lemma {:induction false} DigitPrefixOfDigitsThen(d: string, rest: string, radix: nat)
    requires AllDigitsIn(d, radix)
    requires rest == "" || !IsDigitIn(rest[0], radix)
    ensures DigitPrefix(d + rest, radix) == d
  {
    if d != "" {
      assert (d + rest)[0] == d[0] && IsDigitIn(d[0], radix);
      assert (d + rest)[1..] == d[1..] + rest;
      DigitPrefixOfDigitsThen(d[1..], rest, radix);
    } else {
      assert d + rest == rest;
    }
  }

  /** `parseInt` reads the leading digits and ignores the text after them, as in
      `parseInt("12 fotos") == 12`. */
  lemma ParseIntIgnoresTrailingText(d: string, rest: string)
    requires d != "" && AllDigitsIn(d, 10)
    requires rest == "" || (!IsDigitIn(rest[0], 10) && rest[0] != 'x' && rest[0] != 'X')
    ensures ParseInt(d + rest) == Some(ValueOf(d, 10))
  {
    var s := d + rest;
    assert s[0] == d[0] && IsDigitIn(d[0], 10);
    TrimStartOfSolid(s);
    assert !(|s| >= 2 && (s[1] == 'x' || s[1] == 'X')) by {
      if |s| >= 2 {
        if |d| >= 2 { assert s[1] == d[1] && IsDigitIn(d[1], 10); } else { assert s[1] == rest[0]; }
      }
    }
    DigitPrefixOfDigitsThen(d, rest, 10);
  }

  /** Round trip between the two conversions the client-access form relies on:
      the text `String(n)` put into the form parses back to `n`. */
  lemma ParseIntOfIntToString(n: int)
    ensures ParseInt(IntToString(n)) == Some(n)
  {
    var m: nat := if n < 0 then -n else n;
    ValueOfNatToString(m);
    if n < 0 {
      ParseIntOfMinusDigits(NatToString(m));
    } else {
      ParseIntOfDigits(NatToString(m));
    }
  }
}
