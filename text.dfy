/**
 * String primitives the pages and tools rely on: substring tests, ASCII case
 * mapping, whitespace trimming, splitting on a separator and decimal digits.
 * Strings are sequences of Unicode scalar values, as in the source languages.
 */
module Text {

  /** The `\s` class and what `trim()` removes: ECMAScript's WhiteSpace and LineTerminator characters. */
  predicate IsSpace(c: char) {
    c == ' ' || c == '\t' || c == '\n' || c == '\r' || c == '\U{000B}' || c == '\U{000C}' || c == '\U{00A0}' ||
    c == '\U{1680}' || ('\U{2000}' <= c <= '\U{200A}') || c == '\U{2028}' || c == '\U{2029}' || c == '\U{202F}' ||
    c == '\U{205F}' || c == '\U{3000}' || c == '\U{FEFF}'
  }

  predicate IsDigit(c: char) { '0' <= c <= '9' }

  /** The `\w` class: ASCII letters, digits and underscore. */
  predicate IsWordChar(c: char) {
    IsDigit(c) || ('a' <= c <= 'z') || ('A' <= c <= 'Z') || c == '_'
  }

  predicate StartsWith(s: string, prefix: string) {
    |prefix| <= |s| && s[..|prefix|] == prefix
  }

  predicate EndsWith(s: string, suffix: string) {
    |suffix| <= |s| && s[|s| - |suffix|..] == suffix
  }

  /** `t` occurs in `s` starting at index `i`. */
  predicate OccursAt(s: string, t: string, i: int) {
    0 <= i && i + |t| <= |s| && s[i..i + |t|] == t
  }

  /** `s.includes(t)` / `t in s`: `t` occurs somewhere in `s`. */
  predicate Contains(s: string, t: string) {
    exists i :: 0 <= i <= |s| - |t| && OccursAt(s, t, i)
  }

  function LowerChar(c: char): char {
    if 'A' <= c <= 'Z' then (c as int + 32) as char else c
  }

  function UpperChar(c: char): char {
    if 'a' <= c <= 'z' then (c as int - 32) as char else c
  }

  /** `toLowerCase()` restricted to ASCII letters. */
  function Lower(s: string): (r: string)
    ensures |r| == |s|
    ensures forall i :: 0 <= i < |s| ==> r[i] == LowerChar(s[i])
  {
    if s == [] then [] else [LowerChar(s[0])] + Lower(s[1..])
  }

  /** `str.upper()` restricted to ASCII letters. */
  function Upper(s: string): (r: string)
    ensures |r| == |s|
    ensures forall i :: 0 <= i < |s| ==> r[i] == UpperChar(s[i])
  {
    if s == [] then [] else [UpperChar(s[0])] + Upper(s[1..])
  }

  /** Case-insensitive prefix test against a lower-case word (the `i` flag). */
  predicate StartsWithCi(t: string, lowerWord: string) {
    |lowerWord| <= |t| && Lower(t[..|lowerWord|]) == lowerWord
  }

  /** Case-insensitive occurrence of a lower-case word at index `i`. */
  predicate OccursAtCi(s: string, lowerWord: string, i: nat) {
    i + |lowerWord| <= |s| && Lower(s[i..i + |lowerWord|]) == lowerWord
  }

  lemma LowerIdempotent(s: string)
    ensures Lower(Lower(s)) == Lower(s)
  {
  }

  /** End of the whitespace run that starts at `i`. */
  function SkipSpaces(s: string, i: nat): (j: nat)
    requires i <= |s|
    ensures i <= j <= |s|
    ensures forall k {:trigger IsSpace(s[k])} :: i <= k < j ==> IsSpace(s[k])
    ensures j == |s| || !IsSpace(s[j])
    decreases |s| - i
  {
    if i == |s| || !IsSpace(s[i]) then i else SkipSpaces(s, i + 1)
  }

  /** Start of the whitespace run that ends at `j`, searching no further back than `lo`. */
  function BackSkipSpaces(s: string, lo: nat, j: nat): (h: nat)
    requires lo <= j <= |s|
    ensures lo <= h <= j
    ensures forall k {:trigger IsSpace(s[k])} :: h <= k < j ==> IsSpace(s[k])
    ensures h == lo || !IsSpace(s[h - 1])
    decreases j - lo
  {
    if j == lo || !IsSpace(s[j - 1]) then j else BackSkipSpaces(s, lo, j - 1)
  }

  /** Where `trim()` cuts: after the leading and before the trailing whitespace. */
  function TrimBounds(s: string): (b: (nat, nat))
    ensures b.0 <= b.1 <= |s|
    ensures forall k {:trigger IsSpace(s[k])} :: 0 <= k < b.0 ==> IsSpace(s[k])
    ensures forall k {:trigger IsSpace(s[k])} :: b.1 <= k < |s| ==> IsSpace(s[k])
    ensures b.0 < b.1 ==> !IsSpace(s[b.0]) && !IsSpace(s[b.1 - 1])
  {
    var lo := SkipSpaces(s, 0);
    (lo, BackSkipSpaces(s, lo, |s|))
  }

  /** `s[lo..hi]` is `s` with only whitespace cut from either end. */
  predicate SpaceCut(s: string, lo: nat, hi: nat) {
    lo <= hi <= |s| &&
    (forall k {:trigger IsSpace(s[k])} :: 0 <= k < lo ==> IsSpace(s[k])) &&
    (forall k {:trigger IsSpace(s[k])} :: hi <= k < |s| ==> IsSpace(s[k]))
  }

  /**
   * `trim()`: drops whitespace at both ends. The result is a slice of `s` with
   * only whitespace cut away and no whitespace left at either end, which
   * determines it.
   */
  function Trim(s: string): (r: string)
    ensures |r| <= |s|
    ensures exists lo: nat, hi: nat :: SpaceCut(s, lo, hi) && r == s[lo..hi]
    ensures r == [] || (!IsSpace(r[0]) && !IsSpace(r[|r| - 1]))
  {
    var (lo, hi) := TrimBounds(s);
    assert SpaceCut(s, lo, hi);
    s[lo..hi]
  }

  /** A string is blank when trimming leaves nothing: JavaScript's `!s.trim()`. */
  predicate IsBlank(s: string) {
    forall i :: 0 <= i < |s| ==> IsSpace(s[i])
  }

  lemma TrimEmptyIffBlank(s: string)
    ensures Trim(s) == [] <==> IsBlank(s)
  {
    var (lo, hi) := TrimBounds(s);
    if lo < hi {
      assert !IsSpace(s[lo]);
    }
  }

  /** Character classes of the regular expressions the pages use. */
  datatype CharClass =
    | Space        // \s
    | UrlTail      // [^\s)]
    | LabelTail    // [^\s)\]]
    | Digit        // \d
    | NotStar      // [^*]
    | NotClose     // [^)]
    | Word         // \w

  predicate InClass(c: char, cls: CharClass) {
    match cls
    case Space => IsSpace(c)
    case UrlTail => !IsSpace(c) && c != ')'
    case LabelTail => !IsSpace(c) && c != ')' && c != ']'
    case Digit => IsDigit(c)
    case NotStar => c != '*'
    case NotClose => c != ')'
    case Word => IsWordChar(c)
  }

  /** Length of the longest prefix of `t` inside `cls`: a greedy `cls*`. */
  function RunLen(t: string, cls: CharClass): (r: nat)
    ensures r <= |t|
    ensures forall k :: 0 <= k < r ==> InClass(t[k], cls)
    ensures r == |t| || !InClass(t[r], cls)
  {
    if t == [] || !InClass(t[0], cls) then 0 else 1 + RunLen(t[1..], cls)
  }

  /** End of the greedy run of `cls` characters starting at `i`. */
  function RunEnd(s: string, i: nat, cls: CharClass): (j: nat)
    requires i <= |s|
    ensures i <= j <= |s|
    ensures Run(s, i, j, cls)
    ensures j == |s| || !InClass(s[j], cls)
    decreases |s| - i
  {
    if i == |s| || !InClass(s[i], cls) then i else RunEnd(s, i + 1, cls)
  }

  /** Every character of `s[lo..hi]` is in `cls`. */
  predicate Run(s: string, lo: nat, hi: nat, cls: CharClass)
    decreases hi - lo
  {
    lo <= hi <= |s| && (lo == hi || (InClass(s[lo], cls) && Run(s, lo + 1, hi, cls)))
  }

  /** `Run` says of each character of `s[lo..hi]` that it is in `cls`. */
  lemma {:induction false} RunElements(s: string, lo: nat, hi: nat, cls: CharClass)
    requires Run(s, lo, hi, cls)
    ensures forall k :: lo <= k < hi ==> InClass(s[k], cls)
    decreases hi - lo
  {
    if lo < hi {
      RunElements(s, lo + 1, hi, cls);
    }
  }

  /** A run of `cls` characters that nothing of `cls` follows is where the greedy run ends. */
  lemma {:induction false} RunEndOf(s: string, lo: nat, hi: nat, cls: CharClass)
    requires Run(s, lo, hi, cls)
    requires hi == |s| || !InClass(s[hi], cls)
    ensures RunEnd(s, lo, cls) == hi
    decreases hi - lo
  {
    if lo < hi {
      RunEndOf(s, lo + 1, hi, cls);
    }
  }

  /** `s.includes(p)` for some phrase `p` of the list: case-sensitive. */
  predicate ContainsAny(s: string, phrases: seq<string>)
    decreases |phrases|
  {
    |phrases| > 0 && (Contains(s, phrases[0]) || ContainsAny(s, phrases[1..]))
  }

  /** `s.startsWith(p)` for some prefix `p` of the list. */
  predicate StartsWithAny(s: string, prefixes: seq<string>)
    decreases |prefixes|
  {
    |prefixes| > 0 && (StartsWith(s, prefixes[0]) || StartsWithAny(s, prefixes[1..]))
  }

  /** Index of the first occurrence of `c`. */
  function IndexOf(s: string, c: char): (k: nat)
    requires c in s
    ensures k < |s| && s[k] == c && c !in s[..k]
  {
    if s[0] == c then 0 else 1 + IndexOf(s[1..], c)
  }

  /** `s.split(sep)` for a one-character separator: always at least one piece. */
  function Split(s: string, sep: char): (r: seq<string>)
    ensures |r| >= 1
    ensures forall i :: 0 <= i < |r| ==> sep !in r[i]
    decreases |s|
  {
    if sep !in s then [s]
    else
      var k := IndexOf(s, sep);
      [s[..k]] + Split(s[k + 1..], sep)
  }

  /** `sep.join(parts)`. */
  function Join(parts: seq<string>, sep: char): string
    requires |parts| >= 1
  {
    if |parts| == 1 then parts[0] else parts[0] + [sep] + Join(parts[1..], sep)
  }

  /** Splitting loses nothing: joining the pieces back gives the original text. */
  lemma {:induction false} SplitJoin(s: string, sep: char)
    ensures Join(Split(s, sep), sep) == s
    decreases |s|
  {
    if sep in s {
      var k := IndexOf(s, sep);
      SplitJoin(s[k + 1..], sep);
      assert Split(s, sep)[1..] == Split(s[k + 1..], sep);
      assert s == s[..k] + [sep] + s[k + 1..];
    }
  }

  function DigitChar(d: nat): char
    requires d < 10
  {
    "0123456789"[d]
  }

  /** Decimal rendering of a natural number, as `${n}` or `str(n)` print it. */
  function NatToString(n: nat): (r: string)
    ensures |r| >= 1
    ensures forall i :: 0 <= i < |r| ==> IsDigit(r[i])
    ensures n >= 10 ==> r[0] != '0'
  {
    if n < 10 then [DigitChar(n)] else NatToString(n / 10) + [DigitChar(n % 10)]
  }

  /** Value of a string of decimal digits. */
  function DigitsValue(s: string): nat
    requires forall i :: 0 <= i < |s| ==> IsDigit(s[i])
  {
    if s == [] then 0
    else
      assert IsDigit(s[|s| - 1]);
      10 * DigitsValue(s[..|s| - 1]) + (s[|s| - 1] as int - '0' as int)
  }

  /** Reading back a rendered number gives the number. */
  lemma {:induction false} NatToStringRoundTrip(n: nat)
    ensures DigitsValue(NatToString(n)) == n
  {
    if n >= 10 {
      NatToStringRoundTrip(n / 10);
      var r := NatToString(n);
      assert r[..|r| - 1] == NatToString(n / 10);
    }
  }
}
