/**
 * The java.lang.String and java.lang.Integer behaviour the connector relies on:
 * Integer.parseInt, Integer.toString, String.trim, String.split(","),
 * String.equalsIgnoreCase and String.contains.
 */
module JavaText {
  import opened Wrappers

  const INT_MIN: int := -0x8000_0000
  const INT_MAX: int := 0x7fff_ffff

  predicate InIntRange(n: int) {
    INT_MIN <= n <= INT_MAX
  }

  /**
   * Java's `int + int`: the exact sum wrapped into the 32-bit range, so it
   * differs from the exact sum by a multiple of 2^32 and equals it whenever
   * the exact sum fits.
   */
  function AddInt32(a: int, b: int): (r: int)
    ensures InIntRange(r)
    ensures (a + b - r) % 0x1_0000_0000 == 0
    ensures InIntRange(a + b) ==> r == a + b
  {
    (a + b - INT_MIN) % 0x1_0000_0000 + INT_MIN
  }

  // ---------------------------------------------------------------- numbers

  predicate IsDigit(c: char) {
    '0' <= c <= '9'
  }

  /** Every char of s is a decimal digit (checked from the last char back, as DigitsValue reads them). */
  predicate AllDigits(s: string)
    decreases |s|
  {
    |s| == 0 || (IsDigit(s[|s| - 1]) && AllDigits(s[..|s| - 1]))
  }

  lemma {:induction false} AllDigitsAt(s: string, i: nat)
    requires AllDigits(s) && i < |s|
    ensures IsDigit(s[i])
    decreases |s|
  {
    if i < |s| - 1 {
      AllDigitsAt(s[..|s| - 1], i);
    }
  }

  function DigitValue(c: char): nat
    requires IsDigit(c)
  {
    (c as int) - ('0' as int)
  }

  function DigitChar(d: nat): (c: char)
    requires d < 10
    ensures IsDigit(c) && DigitValue(c) == d
  {
    ((d + '0' as int) as char)
  }

  /** The number a string of decimal digits denotes, most significant digit first. */
  function DigitsValue(s: string): nat
    requires AllDigits(s)
    decreases |s|
  {
    if |s| == 0 then 0 else 10 * DigitsValue(s[..|s| - 1]) + DigitValue(s[|s| - 1])
  }

  /**
   * Integer.parseInt(s): an optional '-' or '+', then at least one decimal digit,
   * denoting a value in int range. None stands for NumberFormatException.
   */
  function ParseInt(s: string): Option<int>
  {
    if |s| == 0 then None
    else
      var signed := s[0] == '-' || s[0] == '+';
      var digits := if signed then s[1..] else s;
      if |digits| == 0 || !AllDigits(digits) then None
      else
        var v: int := if s[0] == '-' then -(DigitsValue(digits) as int) else DigitsValue(digits);
        if InIntRange(v) then Some(v) else None
  }

  /** The decimal rendering of a natural number, without leading zeros. */
  function NatToString(n: nat): string
    decreases n
  {
    if n < 10 then [DigitChar(n)] else NatToString(n / 10) + [DigitChar(n % 10)]
  }

  /** Integer.toString(n) and String.format("%s", n). */
  function IntToString(n: int): string
  {
    if n < 0 then "-" + NatToString(-n) else NatToString(n)
  }

  lemma {:induction false} NatToStringDigits(n: nat)
    ensures |NatToString(n)| > 0 && AllDigits(NatToString(n))
    ensures DigitsValue(NatToString(n)) == n
    decreases n
  {
    if n >= 10 {
      NatToStringDigits(n / 10);
      var s := NatToString(n);
      assert s[..|s| - 1] == NatToString(n / 10);
    }
  }

  /** A plain run of digits parses to its value when that fits in an int. */
  lemma ParseIntDigits(s: string)
    requires |s| > 0 && AllDigits(s) && DigitsValue(s) <= INT_MAX
    ensures ParseInt(s) == Some(DigitsValue(s) as int)
  {
    AllDigitsAt(s, 0);
  }

  /** A '-' before a run of digits parses to minus its value when that fits in an int. */
  lemma ParseIntNegated(digits: string)
    requires |digits| > 0 && AllDigits(digits) && INT_MIN <= -(DigitsValue(digits) as int)
    ensures ParseInt("-" + digits) == Some(-(DigitsValue(digits) as int))
  {
    var s := "-" + digits;
    assert s[0] == '-' && s[1..] == digits;
  }

  /** Integer.parseInt reads back every int Integer.toString writes. */
  lemma ParseIntRoundTrip(n: int)
    requires InIntRange(n)
    ensures ParseInt(IntToString(n)) == Some(n)
  {
    if n < 0 {
      NatToStringDigits(-n);
      ParseIntNegated(NatToString(-n));
    } else {
      NatToStringDigits(n);
      ParseIntDigits(NatToString(n));
    }
  }

  /** Distinct numbers render as distinct strings. */
  lemma NatToStringInjective(m: nat, n: nat)
    requires NatToString(m) == NatToString(n)
    ensures m == n
  {
    NatToStringDigits(m);
    NatToStringDigits(n);
  }

  // ---------------------------------------------------------------- trim

  /** String.trim removes every leading and trailing char at or below U+0020. */
  predicate IsTrimmed(c: char) {
    c <= ' '
  }

  function TrimStart(s: string): (r: string)
    ensures |r| <= |s| && r == s[|s| - |r|..]
    ensures forall k | 0 <= k < |s| - |r| :: IsTrimmed(s[k])
    ensures |r| == 0 || !IsTrimmed(r[0])
    decreases |s|
  {
    if |s| > 0 && IsTrimmed(s[0]) then TrimStart(s[1..]) else s
  }

  function TrimEnd(s: string): (r: string)
    ensures |r| <= |s| && r == s[..|r|]
    ensures forall k | |r| <= k < |s| :: IsTrimmed(s[k])
    ensures |r| == 0 || !IsTrimmed(r[|r| - 1])
    decreases |s|
  {
    if |s| > 0 && IsTrimmed(s[|s| - 1]) then TrimEnd(s[..|s| - 1]) else s
  }

  /** String.trim(). */
  function Trim(s: string): string
  {
    TrimEnd(TrimStart(s))
  }

  /** trim() keeps a contiguous piece of s and drops only trimmable chars around it. */
  lemma TrimKeepsMiddle(s: string) returns (i: nat, j: nat)
    ensures i <= j <= |s| && Trim(s) == s[i..j]
    ensures forall k | 0 <= k < i :: IsTrimmed(s[k])
    ensures forall k | j <= k < |s| :: IsTrimmed(s[k])
  {
    var t := TrimStart(s);
    i := |s| - |t|;
    assert t == s[i..];
    var r := TrimEnd(t);
    j := i + |r|;
    assert r == t[..|r|];
    assert r == s[i..j];
    forall k | j <= k < |s|
      ensures IsTrimmed(s[k])
    {
      assert s[k] == t[k - i];
    }
  }

  /** What trim() keeps neither starts nor ends with a trimmable char. */
  lemma TrimEnds(s: string)
    ensures |Trim(s)| == 0 || (!IsTrimmed(Trim(s)[0]) && !IsTrimmed(Trim(s)[|Trim(s)| - 1]))
  {
    var t := TrimStart(s);
    var r := TrimEnd(t);
    if |r| > 0 {
      assert r[0] == t[0];
    }
  }

  /** Trimming twice is trimming once. */
  lemma TrimIdempotent(s: string)
    ensures Trim(Trim(s)) == Trim(s)
  {
    var r := Trim(s);
    TrimEnds(s);
    assert TrimStart(r) == r;
    assert TrimEnd(r) == r;
  }


  // ---------------------------------------------------------------- split

  /** Index of the first occurrence of c in s. */
  function IndexOf(s: string, c: char): (i: nat)
    requires c in s
    ensures i < |s| && s[i] == c && c !in s[..i]
  {
    if s[0] == c then 0 else 1 + IndexOf(s[1..], c)
  }

  /** All pieces of s between occurrences of sep, empty ones included. */
  function SplitAll(s: string, sep: char): (parts: seq<string>)
    ensures |parts| >= 1
    ensures forall k | 0 <= k < |parts| :: sep !in parts[k]
    decreases |s|
  {
    if sep !in s then [s]
    else
      var i := IndexOf(s, sep);
      [s[..i]] + SplitAll(s[i + 1..], sep)
  }

  /** Joining with sep: the inverse of SplitAll. */
  function Join(parts: seq<string>, sep: char): string
  {
    if |parts| == 0 then ""
    else if |parts| == 1 then parts[0]
    else parts[0] + [sep] + Join(parts[1..], sep)
  }

  lemma {:induction false} JoinSplitAll(s: string, sep: char)
    ensures Join(SplitAll(s, sep), sep) == s
    decreases |s|
  {
    if sep in s {
      var i := IndexOf(s, sep);
      var rest := SplitAll(s[i + 1..], sep);
      JoinSplitAll(s[i + 1..], sep);
      assert SplitAll(s, sep) == [s[..i]] + rest;
      JoinFirst(s[..i], rest, sep);
      assert s == s[..i] + [sep] + s[i + 1..];
    }
  }

  lemma JoinFirst(part: string, rest: seq<string>, sep: char)
    requires |rest| >= 1
    ensures Join([part] + rest, sep) == part + [sep] + Join(rest, sep)
  {
    assert ([part] + rest)[1..] == rest;
  }

  /** Removes the empty strings at the end, as String.split does with limit 0. */
  function DropTrailingEmpty(parts: seq<string>): (r: seq<string>)
    ensures |r| <= |parts| && r == parts[..|r|]
    ensures forall k | |r| <= k < |parts| :: parts[k] == ""
    ensures |r| == 0 || r[|r| - 1] != ""
  {
    if |parts| > 0 && parts[|parts| - 1] == "" then DropTrailingEmpty(parts[..|parts| - 1]) else parts
  }

  /**
   * s.split(",") for a one-character separator: with no separator in s the
   * result is [s] (even for ""); otherwise all pieces, minus the trailing
   * empty ones (so ",".split(",") is empty). Pieces are not trimmed.
   */
  function JavaSplit(s: string, sep: char): (parts: seq<string>)
  {
    if sep !in s then [s] else DropTrailingEmpty(SplitAll(s, sep))
  }

  /** What split returns: a prefix of all pieces, the dropped ones empty, none holding sep. */
  lemma JavaSplitShape(s: string, sep: char)
    ensures var all := SplitAll(s, sep);
            var r := JavaSplit(s, sep);
            && |r| <= |all| && r == all[..|r|]
            && (forall k | |r| <= k < |all| :: all[k] == "")
            && (forall k | 0 <= k < |r| :: sep !in r[k])
            && Join(all, sep) == s
  {
    JoinSplitAll(s, sep);
  }

  /** split(",") loses every piece only when s consists of separators alone. */
  lemma JavaSplitEmpty(s: string, sep: char)
    ensures JavaSplit(s, sep) == [] <==> (|s| > 0 && forall k | 0 <= k < |s| :: s[k] == sep)
  {
    JoinSplitAll(s, sep);
    var all := SplitAll(s, sep);
    if JavaSplit(s, sep) == [] {
      AllEmptyJoin(all, sep);
    } else if |s| > 0 && forall k | 0 <= k < |s| :: s[k] == sep {
      SeparatorsSplitEmpty(s, sep);
    }
  }

  lemma {:induction false} AllEmptyJoin(parts: seq<string>, sep: char)
    requires forall k | 0 <= k < |parts| :: parts[k] == ""
    ensures forall k | 0 <= k < |Join(parts, sep)| :: Join(parts, sep)[k] == sep
  {
    if |parts| > 1 {
      AllEmptyJoin(parts[1..], sep);
    }
  }

  lemma {:induction false} SeparatorsSplitEmpty(s: string, sep: char)
    requires forall k | 0 <= k < |s| :: s[k] == sep
    ensures forall k | 0 <= k < |SplitAll(s, sep)| :: SplitAll(s, sep)[k] == ""
    decreases |s|
  {
    if |s| > 0 {
      assert s[0] == sep;
      assert sep in s;
    }
    if sep in s {
      assert IndexOf(s, sep) == 0;
      var rest := SplitAll(s[1..], sep);
      assert SplitAll(s, sep) == [""] + rest;
      SeparatorsSplitEmpty(s[1..], sep);
      assert forall k | 1 <= k < |rest| + 1 :: ([""] + rest)[k] == rest[k - 1];
    }
  }

  // ---------------------------------------------------------------- case and search

  function ToUpper(c: char): char {
    if 'a' <= c <= 'z' then (c as int - 32) as char else c
  }

  function ToLower(c: char): char {
    if 'A' <= c <= 'Z' then (c as int + 32) as char else c
  }

  /** The per-character test of String.regionMatches(ignoreCase = true, ...). */
  predicate CharEqualsIgnoreCase(a: char, b: char) {
    a == b || ToUpper(a) == ToUpper(b) || ToLower(ToUpper(a)) == ToLower(ToUpper(b))
  }

  /** String.equalsIgnoreCase. */
  predicate EqualsIgnoreCase(a: string, b: string) {
    |a| == |b| && forall i | 0 <= i < |a| :: CharEqualsIgnoreCase(a[i], b[i])
  }

  /** sub occurs in s starting at index i. */
  predicate OccursAt(s: string, sub: string, i: int) {
    0 <= i <= |s| - |sub| && s[i..i + |sub|] == sub
  }

  /** String.contains. */
  predicate Contains(s: string, sub: string) {
    exists i | 0 <= i <= |s| - |sub| :: OccursAt(s, sub, i)
  }

  lemma ContainsSuffix(a: string, b: string)
    ensures Contains(a + b, b)
  {
    assert OccursAt(a + b, b, |a|);
  }
}
