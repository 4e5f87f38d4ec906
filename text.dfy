/** The few string operations of Python's `str` that the application relies on. */
module Text {
  import opened Wrappers

  // ---------------------------------------------------------------------------
  // Lower-casing (`str.lower`)
  // ---------------------------------------------------------------------------

  predicate IsUpper(c: char) { 'A' <= c <= 'Z' }

  function LowerChar(c: char): (d: char)
    ensures IsUpper(c) ==> d as int == c as int + 32
    ensures !IsUpper(c) ==> d == c
    ensures !IsUpper(d)
  {
    if IsUpper(c) then (c as int + 32) as char else c
  }

  /** `s.lower()`, restricted to the ASCII letters. */
  function Lower(s: string): (t: string)
    ensures |t| == |s|
    ensures forall i :: 0 <= i < |s| ==> t[i] == LowerChar(s[i])
  {
    if s == [] then [] else [LowerChar(s[0])] + Lower(s[1..])
  }

  lemma LowerIdempotent(s: string)
    ensures Lower(Lower(s)) == Lower(s)
  {
  }

  /** A string with no upper-case letter is its own lower-case form. */
  lemma LowerOfNoUpper(s: string)
    requires forall i :: 0 <= i < |s| ==> !IsUpper(s[i])
    ensures Lower(s) == s
  {
  }

  // ---------------------------------------------------------------------------
  // Substring search (`pat in s`, `s.split(pat)[0]`)
  // ---------------------------------------------------------------------------

  /** `pat` occurs in `s` starting at index `i`. */
  predicate OccursAt(s: string, pat: string, i: int)
  {
    0 <= i && i + |pat| <= |s| && s[i..i + |pat|] == pat
  }

  /** Python's `pat in s`. */
  predicate Contains(s: string, pat: string)
  {
    exists i | 0 <= i <= |s| :: OccursAt(s, pat, i)
  }

  /** The first occurrence of `pat` in `s` at or after `from`. */
  function FindFrom(s: string, pat: string, from: nat): (r: Option<nat>)
    decreases |s| - from
    ensures r.Some? ==> from <= r.value && OccursAt(s, pat, r.value)
    ensures r.Some? ==> forall j :: from <= j < r.value ==> !OccursAt(s, pat, j)
    ensures r.None? ==> forall j :: from <= j ==> !OccursAt(s, pat, j)
  {
    if from + |pat| > |s| then None
    else if s[from..from + |pat|] == pat then Some(from)
    else FindFrom(s, pat, from + 1)
  }

  /** The index of the first occurrence of `pat` in `s`, if there is one. */
  function Find(s: string, pat: string): (r: Option<nat>)
    ensures r.Some? <==> Contains(s, pat)
    ensures r.Some? ==> OccursAt(s, pat, r.value)
    ensures r.Some? ==> forall j :: 0 <= j < r.value ==> !OccursAt(s, pat, j)
  {
    FindFrom(s, pat, 0)
  }

  /** `s.split(pat)[0]`: everything before the first occurrence of `pat`, or all of `s`. */
  function BeforeFirst(s: string, pat: string): (t: string)
    requires pat != []
    ensures !Contains(s, pat) ==> t == s
    ensures Contains(s, pat) ==> OccursAt(s, pat, |t|) && t == s[..|t|]
    ensures Contains(s, pat) ==> forall j :: 0 <= j < |t| ==> !OccursAt(s, pat, j)
    ensures !Contains(t, pat)
  {
    match Find(s, pat)
    case None => s
    case Some(i) =>
      var t := s[..i];
      assert forall j :: OccursAt(t, pat, j) ==> OccursAt(s, pat, j) by {
        forall j | OccursAt(t, pat, j) ensures OccursAt(s, pat, j) {
          assert s[j..j + |pat|] == t[j..j + |pat|];
        }
      }
      t
  }

  // ---------------------------------------------------------------------------
  // Stripping white space (`str.strip`)
  // ---------------------------------------------------------------------------

  /** The code points for which Python's `str.isspace` holds. */
  const SpaceCodePoints: set<int> :=
    {9, 10, 11, 12, 13, 28, 29, 30, 31, 32, 0x85, 0xA0, 0x1680,
     0x2000, 0x2001, 0x2002, 0x2003, 0x2004, 0x2005, 0x2006, 0x2007, 0x2008, 0x2009, 0x200A,
     0x2028, 0x2029, 0x202F, 0x205F, 0x3000}

  /** Python's `str.isspace` for a single character. */
  predicate IsSpace(c: char)
  {
    c as int in SpaceCodePoints
  }

  function LeadingSpaces(s: string): (k: nat)
    ensures k <= |s|
    ensures forall j :: 0 <= j < k ==> IsSpace(s[j])
    ensures k < |s| ==> !IsSpace(s[k])
  {
    if s == [] || !IsSpace(s[0]) then 0 else 1 + LeadingSpaces(s[1..])
  }

  function TrailingSpaces(s: string): (k: nat)
    ensures k <= |s|
    ensures forall j :: |s| - k <= j < |s| ==> IsSpace(s[j])
    ensures k < |s| ==> !IsSpace(s[|s| - 1 - k])
  {
    if s == [] || !IsSpace(s[|s| - 1]) then 0 else 1 + TrailingSpaces(s[..|s| - 1])
  }

  /** `t` is the slice `s[a..b]`, everything outside it is white space, and `t` neither starts
      nor ends with white space. */
  ghost predicate StripsTo(s: string, a: int, b: int, t: string)
  {
    && 0 <= a <= b <= |s|
    && t == s[a..b]
    && (forall j :: 0 <= j < a ==> IsSpace(s[j]))
    && (forall j :: b <= j < |s| ==> IsSpace(s[j]))
    && (t != [] ==> !IsSpace(t[0]) && !IsSpace(t[|t| - 1]))
  }

  /** `t` is `s` with its leading and trailing white space removed. */
  ghost predicate IsStripOf(t: string, s: string)
  {
    exists a, b :: StripsTo(s, a, b, t)
  }

  /** Python's `s.strip()`. */
  function Strip(s: string): (t: string)
    ensures IsStripOf(t, s)
  {
    var a := LeadingSpaces(s);
    var rest := s[a..];
    var k := TrailingSpaces(rest);
    var b := |s| - k;
    StripBounds(s, a, rest, k);
    s[a..b]
  }

  lemma StripBounds(s: string, a: nat, rest: string, k: nat)
    requires a == LeadingSpaces(s) && rest == s[a..] && k == TrailingSpaces(rest)
    ensures StripsTo(s, a, |s| - k, s[a..|s| - k])
  {
    TrailingSpacesOfSuffix(s, a, rest, k);
    StripEnds(s, a, rest, k);
  }

  /** The stripped slice neither starts nor ends with white space. */
  lemma StripEnds(s: string, a: nat, rest: string, k: nat)
    requires a == LeadingSpaces(s) && rest == s[a..] && k == TrailingSpaces(rest)
    ensures var t := s[a..|s| - k]; t != [] ==> !IsSpace(t[0]) && !IsSpace(t[|t| - 1])
  {
    var t := s[a..|s| - k];
    if t != [] {
      assert t[0] == s[a];
      assert t[|t| - 1] == rest[|rest| - 1 - k];
    }
  }

  /** The white space trailing the suffix `rest` is white space trailing `s`. */
  lemma TrailingSpacesOfSuffix(s: string, a: nat, rest: string, k: nat)
    requires a <= |s| && rest == s[a..] && k == TrailingSpaces(rest)
    ensures forall j :: |s| - k <= j < |s| ==> IsSpace(s[j])
  {
    forall j | |s| - k <= j < |s| ensures IsSpace(s[j]) {
      assert s[j] == rest[j - a];
    }
  }

  // ---------------------------------------------------------------------------
  // Decimal rendering of integers (`str(n)`, `f"{n}"`)
  // ---------------------------------------------------------------------------

  predicate IsDigit(c: char) { '0' as int <= c as int <= '9' as int }

  predicate AllDigits(s: string) { forall i :: 0 <= i < |s| ==> IsDigit(s[i]) }

  function DigitChar(d: int): (c: char)
    requires 0 <= d < 10
    ensures IsDigit(c) && c as int - '0' as int == d
  {
    (d + '0' as int) as char
  }

  /** The value of a string of decimal digits. */
  function DecimalValue(s: string): nat
    requires AllDigits(s)
  {
    if s == [] then 0 else DecimalValue(s[..|s| - 1]) * 10 + (s[|s| - 1] as int - '0' as int)
  }

  /** The decimal digits of `n`, most significant first, without leading zeros. */
  function NatToString(n: nat): (s: string)
    ensures |s| >= 1
    ensures AllDigits(s)
    ensures s[0] == '0' ==> n == 0
  {
    if n < 10 then [DigitChar(n)] else NatToString(n / 10) + [DigitChar(n % 10)]
  }

  /** Reading the digits back gives the number. */
  lemma {:induction false} NatToStringRoundTrip(n: nat)
    ensures DecimalValue(NatToString(n)) == n
  {
    if n >= 10 {
      NatToStringRoundTrip(n / 10);
      var s := NatToString(n);
      assert s[..|s| - 1] == NatToString(n / 10);
    }
  }

  /** `str(n)` for an integer `n`. */
  function IntToString(n: int): (s: string)
    ensures |s| >= 1
    ensures n < 0 <==> s[0] == '-'
    ensures n < 0 ==> AllDigits(s[1..]) && DecimalValue(s[1..]) == -n
    ensures n >= 0 ==> AllDigits(s) && DecimalValue(s) == n
  {
    if n < 0 then
      NatToStringRoundTrip(-n);
      assert ("-" + NatToString(-n))[1..] == NatToString(-n);
      "-" + NatToString(-n)
    else
      NatToStringRoundTrip(n);
      NatToString(n)
  }
}
