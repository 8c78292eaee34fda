/** The pieces of JavaScript's string semantics that the point-of-sale core relies
    on: `trim`, the white-space class `\s`, ASCII case mapping, decimal digits,
    `String(n)` for integers, the integer part of string-to-number conversion,
    `split(sep).pop()` and `join`. */
module Text {
  import opened Wrappers

  /** The characters that `String.prototype.trim` strips and that `\s` matches:
      ECMAScript's WhiteSpace and LineTerminator code points. */
  predicate IsSpace(c: char) {
    || c == '\t' || c == '\n' || c == '\U{000B}' || c == '\U{000C}' || c == '\r'
    || c == ' ' || c == '\U{00A0}' || c == '\U{1680}'
    || ('\U{2000}' <= c <= '\U{200A}')
    || c == '\U{2028}' || c == '\U{2029}' || c == '\U{202F}' || c == '\U{205F}'
    || c == '\U{3000}' || c == '\U{FEFF}'
  }

  predicate IsDigit(c: char) {
    '0' <= c <= '9'
  }

  predicate AllDigits(s: string) {
    forall i :: 0 <= i < |s| ==> IsDigit(s[i])
  }

  predicate AllSpace(s: string) {
    forall i :: 0 <= i < |s| ==> IsSpace(s[i])
  }

  /** Number of white-space characters at the start of `s`. */
  function LeadingSpace(s: string): (k: nat)
    ensures k <= |s|
    ensures forall i :: 0 <= i < k ==> IsSpace(s[i])
    ensures k < |s| ==> !IsSpace(s[k])
  {
    if s == [] || !IsSpace(s[0]) then 0 else 1 + LeadingSpace(s[1..])
  }

  /** Number of white-space characters at the end of `s`. */
  function TrailingSpace(s: string): (k: nat)
    ensures k <= |s|
    ensures forall i :: |s| - k <= i < |s| ==> IsSpace(s[i])
    ensures k < |s| ==> !IsSpace(s[|s| - 1 - k])
  {
    if s == [] || !IsSpace(s[|s| - 1]) then 0 else 1 + TrailingSpace(s[..|s| - 1])
  }

  /** `s.trim()`: the slice of `s` left once the white space at both ends is removed. */
  function Trim(s: string): (r: string)
    ensures |r| <= |s|
    ensures r == [] || (!IsSpace(r[0]) && !IsSpace(r[|r| - 1]))
    ensures r == [] <==> AllSpace(s)
    ensures exists a :: 0 <= a <= |s| - |r| && r == s[a..a + |r|]
                       && AllSpace(s[..a]) && AllSpace(s[a + |r|..])
  {
    var a := LeadingSpace(s);
    var rest := s[a..];
    var b := |rest| - TrailingSpace(rest);
    TrimEnds(s, a, b);
    TrimSpan(s, a, b);
    var r := rest[..b];
    assert |r| == b && r == s[a..a + |r|];
    r
  }

  /** The trimmed slice starts and ends with a non-space, and is empty only
      for all-space text. */
  lemma TrimEnds(s: string, a: nat, b: nat)
    requires a == LeadingSpace(s) && b == |s[a..]| - TrailingSpace(s[a..])
    ensures b == 0 || (!IsSpace(s[a..][..b][0]) && !IsSpace(s[a..][..b][b - 1]))
    ensures b == 0 <==> AllSpace(s)
  {
    var rest := s[a..];
    assert a < |s| ==> b > 0;
    if AllSpace(s) {
      assert a == |s|;
    }
    if b > 0 {
      assert rest[..b][0] == s[a];
      assert rest[..b][b - 1] == rest[|rest| - 1 - TrailingSpace(rest)];
    }
  }

  /** The trimmed slice sits between two runs of white space. */
  lemma TrimSpan(s: string, a: nat, b: nat)
    requires a == LeadingSpace(s) && b == |s[a..]| - TrailingSpace(s[a..])
    ensures 0 <= a <= |s| - b && s[a..][..b] == s[a..a + b]
    ensures AllSpace(s[..a]) && AllSpace(s[a + b..])
  {
    var rest := s[a..];
    assert rest[..b] == s[a..a + b];
    assert s[a + b..] == rest[b..];
  }

  /** Trimming is exact on text without outer white space. */
  lemma TrimNoOuterSpace(s: string)
    requires s != [] && !IsSpace(s[0]) && !IsSpace(s[|s| - 1])
    ensures Trim(s) == s
  {
    assert LeadingSpace(s) == 0;
    assert s[0..] == s;
    assert TrailingSpace(s) == 0;
  }

  /** Trimming twice is trimming once. */
  lemma TrimIdempotent(s: string)
    ensures Trim(Trim(s)) == Trim(s)
  {
    if Trim(s) != [] {
      TrimNoOuterSpace(Trim(s));
    }
  }

  /** ASCII upper-case letters mapped to lower case.  For the comparisons the core
      makes (against "guest" and against image extensions) this agrees with
      JavaScript's full `toLowerCase`. */
  function LowerChar(c: char): char {
    if 'A' <= c <= 'Z' then (c as int + 32) as char else c
  }

  /** `s.toLowerCase()` with ASCII case mapping. */
  function Lower(s: string): (r: string)
    ensures |r| == |s|
    ensures forall i :: 0 <= i < |s| ==> r[i] == LowerChar(s[i])
  {
    if s == [] then [] else [LowerChar(s[0])] + Lower(s[1..])
  }

  function DigitChar(d: nat): (c: char)
    requires d < 10
    ensures IsDigit(c)
  {
    ('0' as int + d) as char
  }

  function DigitValue(c: char): nat
    requires IsDigit(c)
  {
    c as int - '0' as int
  }

  /** The value of a run of decimal digits (the empty run is 0). */
  function DigitsValue(s: string): nat
    requires AllDigits(s)
  {
    if s == [] then 0 else 10 * DigitsValue(s[..|s| - 1]) + DigitValue(s[|s| - 1])
  }

  /** `String(n)` for a non-negative integer: its shortest decimal spelling. */
  function NatToString(n: nat): (r: string)
    ensures |r| > 0 && AllDigits(r)
    ensures DigitsValue(r) == n
  {
    if n < 10 then [DigitChar(n)]
    else
      var prefix := NatToString(n / 10);
      var r := prefix + [DigitChar(n % 10)];
      assert r[..|r| - 1] == prefix;
      r
  }

  /** `String(n)` for an integer. */
  function IntToString(n: int): string {
    if n < 0 then "-" + NatToString(-n) else NatToString(n)
  }

  /** The integer part of JavaScript's string-to-number conversion (as used by
      loose equality `==`): the trimmed text is empty (giving 0) or is decimal
      digits with an optional sign.  `None` stands for every other text, which
      JavaScript turns into NaN or into a number spelled another way ("1.0",
      "1e0", "0x1", "Infinity"); the model reads all of those as no integer. */
  function StringToInteger(s: string): (r: Option<int>)
    ensures Trim(s) == "" ==> r == Some(0)
    ensures r.Some? && Trim(s) != "" ==> IsDigit(Trim(s)[|Trim(s)| - 1])
    ensures (exists i :: 0 <= i < |Trim(s)| && !IsDigit(Trim(s)[i]) && Trim(s)[i] != '+' && Trim(s)[i] != '-')
            ==> r.None?
    ensures r.Some? && r.value < 0 ==> Trim(s)[0] == '-'
  {
    var t := Trim(s);
    if t == [] then Some(0)
    else if AllDigits(t) then Some(DigitsValue(t))
    else if |t| > 1 && (t[0] == '+' || t[0] == '-') && AllDigits(t[1..]) then
      var v: int := DigitsValue(t[1..]);
      Some(if t[0] == '-' then -v else v)
    else None
  }

  /** Converting `String(n)` back to a number gives `n`. */
  lemma IntToStringRoundTrip(n: int)
    ensures StringToInteger(IntToString(n)) == Some(n)
  {
    var s := IntToString(n);
    var d := NatToString(if n < 0 then -n else n);
    assert !IsSpace(d[|d| - 1]) && !IsSpace(d[0]);
    if n < 0 {
      assert s == "-" + d && s[1..] == d;
      assert !AllDigits(s);
    }
    TrimNoOuterSpace(s);
  }

  /** `s.split(sep).pop()`: the text after the last `sep`, or all of `s` when it has none. */
  function LastSegment(s: string, sep: char): (r: string)
    ensures |r| <= |s| && r == s[|s| - |r|..]
    ensures sep !in r
    ensures |r| < |s| ==> s[|s| - |r| - 1] == sep
  {
    if s == [] then []
    else if s[|s| - 1] == sep then []
    else
      var r := LastSegment(s[..|s| - 1], sep) + [s[|s| - 1]];
      assert s[..|s| - 1][|s| - |r|..] + [s[|s| - 1]] == s[|s| - |r|..];
      r
  }

  /** `parts.join(sep)`. */
  function Join(parts: seq<string>, sep: string): string {
    if parts == [] then []
    else if |parts| == 1 then parts[0]
    else parts[0] + sep + Join(parts[1..], sep)
  }

  /** Code-point (Unicode scalar value) lexicographic order on strings: a proper prefix comes first,
      otherwise the first differing character decides. */
  predicate Less(a: string, b: string) {
    if a == [] then b != []
    else if b == [] then false
    else if a[0] != b[0] then a[0] < b[0]
    else Less(a[1..], b[1..])
  }

  /** `Less` is a strict total order. */
  lemma {:induction false} LessIrreflexive(a: string)
    ensures !Less(a, a)
  {
    if a != [] {
      LessIrreflexive(a[1..]);
    }
  }

  lemma {:induction false} LessTransitive(a: string, b: string, c: string)
    requires Less(a, b) && Less(b, c)
    ensures Less(a, c)
  {
    if a != [] && b != [] && c != [] && a[0] == b[0] && b[0] == c[0] {
      LessTransitive(a[1..], b[1..], c[1..]);
    }
  }

  lemma {:induction false} LessTotal(a: string, b: string)
    requires a != b
    ensures Less(a, b) || Less(b, a)
  {
    if a != [] && b != [] && a[0] == b[0] {
      assert a == [a[0]] + a[1..] && b == [b[0]] + b[1..];
      LessTotal(a[1..], b[1..]);
    }
  }
}
