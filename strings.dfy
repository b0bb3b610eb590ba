/**
 * The few pieces of Go's text formatting the service relies on: `%d` and
 * `fmt.Fprint` of an integer, `strings.TrimRight` with a one-character
 * cutset, and the joining of fragments by a separator.
 */
module Strings {
  import opened Wrappers

  predicate IsDigit(c: char) {
    '0' <= c <= '9'
  }

  predicate AllDigits(s: string) {
    forall i :: 0 <= i < |s| ==> IsDigit(s[i])
  }

  function DigitChar(d: nat): (c: char)
    requires d < 10
    ensures IsDigit(c)
  {
    ('0' as int + d) as char
  }

  function DigitValue(c: char): (d: nat)
    requires IsDigit(c)
    ensures d < 10
  {
    c as int - '0' as int
  }

  /** A natural number printed in base ten the way `%d` prints it: digits only, no leading zero. */
  function Decimal(n: nat): (s: string)
    ensures |s| >= 1 && AllDigits(s)
    ensures |s| > 1 ==> s[0] != '0'
    decreases n
  {
    if n < 10 then [DigitChar(n)] else Decimal(n / 10) + [DigitChar(n % 10)]
  }

  /** The number a string of decimal digits denotes. */
  function DecimalValue(s: string): nat
    requires AllDigits(s)
  {
    if s == [] then 0 else DecimalValue(s[..|s| - 1]) * 10 + DigitValue(s[|s| - 1])
  }

  /** Reading back what `%d` printed gives the number again. */
  lemma {:induction false} DecimalRoundTrip(n: nat)
    ensures DecimalValue(Decimal(n)) == n
    decreases n
  {
    if n >= 10 {
      var s := Decimal(n);
      assert s[..|s| - 1] == Decimal(n / 10);
      DecimalRoundTrip(n / 10);
    }
  }

  /** `fmt.Fprint` of a signed integer: an optional minus sign, then the decimal digits. */
  function IntToString(n: int): (s: string)
    ensures |s| >= 1
    ensures s[0] == '-' <==> n < 0
  {
    if n < 0 then "-" + Decimal(-n) else Decimal(n)
  }

  /** Reads a possibly negative decimal integer; None for any other text. */
  function ParseInt(s: string): Option<int> {
    if |s| > 1 && s[0] == '-' && AllDigits(s[1..]) then Some(0 - DecimalValue(s[1..]) as int)
    else if |s| > 0 && AllDigits(s) then Some(DecimalValue(s))
    else None
  }

  /** A client reading a response body written by `fmt.Fprint(w, id)` recovers the id. */
  lemma IntToStringRoundTrip(n: int)
    ensures ParseInt(IntToString(n)) == Some(n)
  {
    var s := IntToString(n);
    if n < 0 {
      assert s[1..] == Decimal(-n);
      DecimalRoundTrip(-n);
    } else {
      assert !IsDigit('-');
      DecimalRoundTrip(n);
    }
  }

  /**
   * `strings.TrimRight(s, [c])`: strips every trailing occurrence of `c`,
   * and nothing else.
   */
  function TrimRight(s: string, c: char): (r: string)
    ensures |r| <= |s| && r == s[..|r|]
    ensures r == [] || r[|r| - 1] != c
    ensures forall i :: |r| <= i < |s| ==> s[i] == c
  {
    if s != [] && s[|s| - 1] == c then TrimRight(s[..|s| - 1], c) else s
  }

  /** When `s` does not already end in `c`, trimming `s + [c]` removes exactly that one `c`. */
  lemma TrimRightOne(s: string, c: char)
    requires s == [] || s[|s| - 1] != c
    ensures TrimRight(s + [c], c) == s
  {
  }

  /** The parts separated by single `sep` characters (no separator before the first or after the last). */
  function Join(parts: seq<string>, sep: char): string {
    if |parts| == 0 then ""
    else if |parts| == 1 then parts[0]
    else Join(parts[..|parts| - 1], sep) + [sep] + parts[|parts| - 1]
  }

  /** Each part followed by `sep`, as a loop that appends `part + sep` builds it. */
  function Terminated(parts: seq<string>, sep: char): string {
    if parts == [] then ""
    else Terminated(parts[..|parts| - 1], sep) + parts[|parts| - 1] + [sep]
  }

  lemma {:induction false} TerminatedIsJoinPlusSep(parts: seq<string>, sep: char)
    requires |parts| > 0
    ensures Terminated(parts, sep) == Join(parts, sep) + [sep]
    decreases |parts|
  {
    if |parts| > 1 {
      var init := parts[..|parts| - 1];
      assert init[..|init| - 1] == parts[..|parts| - 2];
      TerminatedIsJoinPlusSep(init, sep);
    } else {
      assert parts[..0] == [];
    }
  }

  /** A joined string ends the way its last part ends. */
  lemma JoinEndsWithLastPart(parts: seq<string>, sep: char)
    requires |parts| > 0 && |parts[|parts| - 1]| > 0
    ensures var j := Join(parts, sep); var last := parts[|parts| - 1];
      |j| > 0 && j[|j| - 1] == last[|last| - 1]
  {
  }

  /**
   * Trimming the trailing separators of the terminated form yields the joined
   * form, provided no part ends in the separator: exactly one `sep` is removed.
   */
  lemma TrimTerminated(parts: seq<string>, sep: char)
    requires forall k :: 0 <= k < |parts| ==> |parts[k]| > 0 && parts[k][|parts[k]| - 1] != sep
    ensures TrimRight(Terminated(parts, sep), sep) == Join(parts, sep)
  {
    if |parts| > 0 {
      TerminatedIsJoinPlusSep(parts, sep);
      JoinEndsWithLastPart(parts, sep);
      TrimRightOne(Join(parts, sep), sep);
    }
  }
}
