/** JavaScript value semantics the screens rely on: optional values, awaited
    HTTP outcomes, truthiness, `trim`, case mapping, `slice` and the decimal
    rendering of numbers in template strings. */
module Js {

  /** `null`/`undefined` versus a present value. */
  datatype Option<T> = None | Some(value: T)

  /** How an awaited request settled: the response body, or a rejection that
      may carry the server's error text (`error.response?.data?.error`). */
  datatype Outcome<T> = Success(data: T) | Failure(serverError: Option<string>)

  /** A list endpoint's `response.data`: falsy, a bare array, or an object
      whose named field (`verses`, `users`, `conversations`) may be missing. */
  datatype Body<T> = Falsy | ArrayBody(items: seq<T>) | ObjectBody(field: Option<seq<T>>)

  /** Truthiness of an optional string: `undefined` and `''` are falsy. */
  predicate StrTruthy(s: Option<string>) {
    s.Some? && s.value != ""
  }

  /** `s || fallback` on an optional string. */
  function OrElse(s: Option<string>, fallback: string): string {
    if StrTruthy(s) then s.value else fallback
  }

  /** The normalisation every list screen applies to `response.data`:
      a falsy body changes nothing (None), an array is taken as it is, and
      an object contributes its named field or `[]`. */
  function Normalise<T>(b: Body<T>): (r: Option<seq<T>>)
    ensures r.None? <==> b.Falsy?
    ensures b.ArrayBody? ==> r == Some(b.items)
    ensures b.ObjectBody? && b.field.Some? ==> r == b.field
    ensures b.ObjectBody? && b.field.None? ==> r == Some([])
  {
    match b
    case Falsy => None
    case ArrayBody(items) => Some(items)
    case ObjectBody(field) => if field.Some? then field else Some([])
  }

  // ---------------------------------------------------------------------
  // Whitespace and trim

  /** The characters JavaScript's `trim` removes and `\s` matches:
      WhiteSpace and LineTerminator of ECMA-262. */
  predicate IsSpace(c: char) {
    c == ' ' || c == '\t' || c == '\n' || c == '\r' || c == '\U{0B}' || c == '\U{0C}'
    || c == '\U{A0}' || c == '\U{1680}' || ('\U{2000}' <= c <= '\U{200A}')
    || c == '\U{2028}' || c == '\U{2029}' || c == '\U{202F}' || c == '\U{205F}'
    || c == '\U{3000}' || c == '\U{FEFF}'
  }

  predicate AllSpace(s: string) {
    forall m | 0 <= m < |s| :: IsSpace(s[m])
  }

  /** Length of the run of whitespace at the start of `s`. */
  function LeadingSpaces(s: string): (k: nat)
    ensures k <= |s|
    ensures forall m | 0 <= m < k :: IsSpace(s[m])
    ensures k < |s| ==> !IsSpace(s[k])
  {
    if |s| == 0 || !IsSpace(s[0]) then 0 else 1 + LeadingSpaces(s[1..])
  }

  /** Length of the run of whitespace at the end of `s`. */
  function TrailingSpaces(s: string): (k: nat)
    ensures k <= |s|
    ensures forall m | |s| - k <= m < |s| :: IsSpace(s[m])
    ensures k < |s| ==> !IsSpace(s[|s| - 1 - k])
  {
    if |s| == 0 || !IsSpace(s[|s| - 1]) then 0 else 1 + TrailingSpaces(s[..|s| - 1])
  }

  /** `s.trim()`: the contiguous part of `s` left after removing whitespace
      at both ends. It is empty exactly when `s` is all whitespace, and
      otherwise begins and ends with a non-whitespace character. */
  function Trim(s: string): (r: string)
    ensures |r| <= |s|
    ensures LeadingSpaces(s) + |r| <= |s| && r == s[LeadingSpaces(s)..LeadingSpaces(s) + |r|]
    ensures AllSpace(s[..LeadingSpaces(s)]) && AllSpace(s[LeadingSpaces(s) + |r|..])
    ensures r == [] <==> AllSpace(s)
    ensures r != [] ==> !IsSpace(r[0]) && !IsSpace(r[|r| - 1])
  {
    var i := LeadingSpaces(s);
    var t := s[i..];
    var r := t[..|t| - TrailingSpaces(t)];
    r
  }

  /** `!s.trim()`: the input is empty once trimmed. */
  predicate IsBlank(s: string) {
    Trim(s) == ""
  }

  /** Position of the first `c` in `s`, or `|s|`. */
  function IndexOf(s: string, c: char): (k: nat)
    ensures k <= |s|
    ensures k < |s| ==> s[k] == c
    ensures forall m | 0 <= m < k :: s[m] != c
  {
    if |s| == 0 then 0 else if s[0] == c then 0 else 1 + IndexOf(s[1..], c)
  }

  /** The message a form shows for a field that is blank after trimming. */
  function RequiredError(s: string, message: string): (r: string)
    ensures r == "" <==> !IsBlank(s) || message == ""
    ensures IsBlank(s) ==> r == message
  {
    if IsBlank(s) then message else ""
  }

  /** Two parts joined by a space are blank exactly when both parts are. */
  lemma BlankJoin(a: string, b: string)
    ensures IsBlank(a + " " + b) <==> IsBlank(a) && IsBlank(b)
  {
    var j := a + " " + b;
    if AllSpace(j) {
      forall m | 0 <= m < |a| ensures IsSpace(a[m]) {
        assert j[m] == a[m];
      }
      forall m | 0 <= m < |b| ensures IsSpace(b[m]) {
        assert j[|a| + 1 + m] == b[m];
      }
    }
    if AllSpace(a) && AllSpace(b) {
      forall m | 0 <= m < |j| ensures IsSpace(j[m]) {
        if m < |a| {
          assert j[m] == a[m];
        } else if m > |a| {
          assert j[m] == b[m - |a| - 1];
        }
      }
    }
  }

  lemma {:induction false} TrimIdempotent(s: string)
    ensures Trim(Trim(s)) == Trim(s)
  {
    var r := Trim(s);
    if r != [] {
      assert LeadingSpaces(r) == 0;
      assert TrailingSpaces(r) == 0;
      assert r[0..][..|r| - 0] == r;
    }
  }

  // ---------------------------------------------------------------------
  // Case mapping (ASCII letters)

  function LowerChar(c: char): char {
    if 'A' <= c <= 'Z' then (c as int + 32) as char else c
  }

  function UpperChar(c: char): char {
    if 'a' <= c <= 'z' then (c as int - 32) as char else c
  }

  /** `s.toLowerCase()`, character by character. */
  function Lower(s: string): (r: string)
    ensures |r| == |s|
    ensures forall i | 0 <= i < |s| :: r[i] == LowerChar(s[i])
  {
    seq(|s|, i requires 0 <= i < |s| => LowerChar(s[i]))
  }

  lemma LowerIdempotent(s: string)
    ensures Lower(Lower(s)) == Lower(s)
  {
  }

  // ---------------------------------------------------------------------
  // slice

  /** `s.slice(0, n) + '...'` when `s` is longer than `n`, else `s`. */
  function Ellipsize(s: string, n: nat): (r: string)
    ensures |s| <= n ==> r == s
    ensures |s| > n ==> |r| == n + 3 && r[..n] == s[..n] && r[n..] == "..."
    ensures |r| <= n + 3
  {
    if |s| > n then s[..n] + "..." else s
  }

  // ---------------------------------------------------------------------
  // Numbers in template strings

  predicate IsDigit(c: char) {
    '0' <= c <= '9'
  }

  predicate AllDigits(s: string) {
    forall i | 0 <= i < |s| :: IsDigit(s[i])
  }

  function DigitChar(d: nat): char
    requires d < 10
  {
    ('0' as int + d) as char
  }

  /** Decimal rendering of a natural number, most significant digit first. */
  function NatToString(n: nat): (r: string)
    ensures |r| >= 1 && AllDigits(r)
    decreases n
  {
    if n < 10 then [DigitChar(n)] else NatToString(n / 10) + [DigitChar(n % 10)]
  }

  /** Reading a string of decimal digits back as a number. */
  function ParseDigits(s: string): nat
    requires AllDigits(s)
  {
    if s == [] then 0 else 10 * ParseDigits(s[..|s| - 1]) + (s[|s| - 1] as int - '0' as int)
  }

  /** `${n}` for an integer `n`. */
  function IntToString(n: int): (r: string)
    ensures |r| >= 1
  {
    if n < 0 then "-" + NatToString(-n) else NatToString(n)
  }

  /** An optional '-' followed by at least one digit, read as an integer. */
  function ParseInt(s: string): Option<int> {
    if |s| >= 2 && s[0] == '-' && AllDigits(s[1..]) then Some(0 - ParseDigits(s[1..]) as int)
    else if |s| >= 1 && AllDigits(s) then Some(ParseDigits(s))
    else None
  }

  lemma {:induction false} ParseNatToString(n: nat)
    ensures ParseDigits(NatToString(n)) == n
  {
    if n >= 10 {
      var p := NatToString(n / 10);
      var d := DigitChar(n % 10);
      assert NatToString(n) == p + [d];
      assert (p + [d])[..|p + [d]| - 1] == p;
      ParseNatToString(n / 10);
    }
  }

  /** Rendering an integer and reading it back gives the integer. */
  lemma IntToStringRoundTrip(n: int)
    ensures ParseInt(IntToString(n)) == Some(n)
  {
    if n < 0 {
      var s := IntToString(n);
      assert s[1..] == NatToString(-n);
      ParseNatToString(-n);
    } else {
      ParseNatToString(n);
    }
  }

  /** The rendering of an integer is its decimal digits, after a '-' for a
      negative one. */
  lemma IntToStringShape(n: int)
    ensures n >= 0 ==> AllDigits(IntToString(n))
    ensures n < 0 ==> IntToString(n)[0] == '-' && AllDigits(IntToString(n)[1..])
  {
    if n < 0 {
      assert IntToString(n)[1..] == NatToString(-n);
    }
  }
}
