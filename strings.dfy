/** The few JavaScript string built-ins the proxy relies on:
    `String.prototype.split` with a one-character separator, `Array.prototype.pop`
    on its result, and the decimal rendering of a non-negative integer in a template. */
module Strings {

  predicate IsDigits(s: string) {
    forall i :: 0 <= i < |s| ==> '0' <= s[i] <= '9'
  }

  function DigitChar(d: nat): (c: char)
    requires d < 10
    ensures '0' <= c <= '9'
  {
    (48 + d) as char
  }

  /** The decimal text of `n`, as `${n}` renders a non-negative integer. */
  function Decimal(n: nat): (s: string)
    ensures |s| >= 1 && IsDigits(s)
    ensures s[0] == '0' ==> n == 0 && |s| == 1
    decreases n
  {
    if n < 10 then [DigitChar(n)] else Decimal(n / 10) + [DigitChar(n % 10)]
  }

  /** The number that a string of decimal digits denotes. */
  function ParseDecimal(s: string): nat
    requires IsDigits(s)
    decreases |s|
  {
    if s == [] then 0
    else ParseDecimal(s[..|s| - 1]) * 10 + (s[|s| - 1] as int - '0' as int)
  }

  /** Reading back the decimal text of `n` gives `n`. */
  lemma {:induction false} DecimalRoundTrip(n: nat)
    ensures ParseDecimal(Decimal(n)) == n
    decreases n
  {
    if n >= 10 {
      var s := Decimal(n);
      assert s[..|s| - 1] == Decimal(n / 10);
      DecimalRoundTrip(n / 10);
    }
  }

  /** `s.split(sep)`: the pieces of `s` between occurrences of `sep`, in order. */
  function Split(s: string, sep: char): (parts: seq<string>)
    ensures |parts| >= 1
    ensures forall i :: 0 <= i < |parts| ==> sep !in parts[i]
    decreases |s|
  {
    if s == [] then [""]
    else
      var init := Split(s[..|s| - 1], sep);
      var c := s[|s| - 1];
      if c == sep then init + [""]
      else init[..|init| - 1] + [init[|init| - 1] + [c]]
  }

  /** `parts.join(sep)`, the inverse of `Split`. */
  function Join(parts: seq<string>, sep: char): string
    requires |parts| >= 1
    decreases |parts|
  {
    if |parts| == 1 then parts[0]
    else Join(parts[..|parts| - 1], sep) + [sep] + parts[|parts| - 1]
  }

  /** `a.pop()` on a non-empty array: its last element. */
  function Last(parts: seq<string>): string
    requires |parts| >= 1
  {
    parts[|parts| - 1]
  }

  lemma JoinExtendLast(parts: seq<string>, sep: char, c: char)
    requires |parts| >= 1
    ensures Join(parts[..|parts| - 1] + [parts[|parts| - 1] + [c]], sep) == Join(parts, sep) + [c]
  {
    var k := |parts|;
    var ext := parts[..k - 1] + [parts[k - 1] + [c]];
    if k > 1 {
      assert ext[..k - 1] == parts[..k - 1];
    }
  }

  /** Splitting and joining again with the same separator gives back the string. */
  lemma {:induction false} SplitJoin(s: string, sep: char)
    ensures Join(Split(s, sep), sep) == s
    decreases |s|
  {
    if s != [] {
      var prefix := s[..|s| - 1];
      var init := Split(prefix, sep);
      var c := s[|s| - 1];
      SplitJoin(prefix, sep);
      if c == sep {
        assert (init + [""])[..|init|] == init;
      } else {
        JoinExtendLast(init, sep, c);
      }
      assert prefix + [c] == s;
    }
  }

  /** `s.split(sep).pop()` is the text after the last `sep` of `s` (all of `s` when it
      has none): it holds no `sep`, it ends `s`, and the character before it is `sep`. */
  lemma {:induction false} LastPieceIsTail(s: string, sep: char)
    ensures var r := Last(Split(s, sep));
      sep !in r && |r| <= |s| && r == s[|s| - |r|..] &&
      (|r| < |s| ==> s[|s| - |r| - 1] == sep)
    decreases |s|
  {
    if s != [] {
      var prefix := s[..|s| - 1];
      LastPieceIsTail(prefix, sep);
      var r := Last(Split(s, sep));
      var c := s[|s| - 1];
      if c != sep {
        var r0 := Last(Split(prefix, sep));
        assert r == r0 + [c];
        assert s == prefix + [c];
      }
    }
  }
}
