/**
 * The chat page's text processing of an agent reply: pulling out the first
 * Google Maps link, stripping every such link from the text, and reading map
 * markers written as `N. **Name** (lat, lng)`.
 *
 * Each regular expression of the page is modelled as a matcher on a suffix of
 * the text that returns the length of the match at its start (0 when there is
 * none), and a global `replace`/`exec` as a left-to-right scan that skips over
 * each match. Every pattern here is deterministic once anchored (each
 * quantifier is greedy and followed by a character its class excludes), so
 * the matchers need no backtracking.
 */
module ChatText {
  import opened Wrappers
  import opened Text
  import opened Geo

  const MapsPrefix := "https://www.google.com/maps"
  /** Head of the markdown link `[View map](https://www.google.com/maps…)`, lower-cased. */
  const LinkHead := "[view map](https://www.google.com/maps"
  const LabelHead := "view map:"

  // ---------------------------------------------------------------------------
  // Google Maps links

  /** `t` starts with a match of `https:\/\/www\.google\.com\/maps[^\s)]+`. */
  predicate UrlPrefix(t: string) {
    |MapsPrefix| < |t| && StartsWith(t, MapsPrefix) && InClass(t[|MapsPrefix|], UrlTail)
  }

  /** Length of that match: the prefix and the greedy run after it. */
  function UrlLen(t: string): (n: nat)
    requires UrlPrefix(t)
    ensures |MapsPrefix| < n <= |t|
    ensures forall k :: |MapsPrefix| <= k < n ==> InClass(t[k], UrlTail)
    ensures n == |t| || !InClass(t[n], UrlTail)
  {
    |MapsPrefix| + RunLen(t[|MapsPrefix|..], UrlTail)
  }

  /** Some position of `s` starts a Google Maps link. */
  predicate HasUrl(s: string)
    decreases |s|
  {
    s != [] && (UrlPrefix(s) || HasUrl(s[1..]))
  }

  /** Where `content.match(...)` finds its match: a position that starts a link, none when no position does. */
  function FirstUrlIndex(s: string): (r: Option<nat>)
    ensures r.None? <==> !HasUrl(s)
    ensures r.Some? ==> r.value < |s| && UrlPrefix(s[r.value..])
    decreases |s|
  {
    if s == [] then None
    else if UrlPrefix(s) then Some(0)
    else
      match FirstUrlIndex(s[1..])
      case None => None
      case Some(k) =>
        assert s[1..][k..] == s[k + 1..];
        Some(k + 1)
  }

  /** The position found is the leftmost one: no earlier position starts a link. */
  lemma {:induction false} FirstUrlIndexIsLeftmost(s: string)
    requires FirstUrlIndex(s).Some?
    ensures forall j :: 0 <= j < FirstUrlIndex(s).value ==> !UrlPrefix(s[j..])
    decreases |s|
  {
    if !UrlPrefix(s) {
      FirstUrlIndexIsLeftmost(s[1..]);
      forall j | 1 <= j < FirstUrlIndex(s).value
        ensures !UrlPrefix(s[j..])
      {
        assert s[1..][j - 1..] == s[j..];
      }
    }
  }

  /** Position `i` starts a link and no earlier position does: where a non-global `match` finds it. */
  predicate LeftmostUrlAt(s: string, i: nat) {
    i < |s| && UrlPrefix(s[i..]) && forall j :: 0 <= j < i ==> !UrlPrefix(s[j..])
  }

  /** The link that starts at position `i`: the prefix and the greedy run of link characters after it. */
  function UrlAt(s: string, i: nat): (url: string)
    requires i < |s| && UrlPrefix(s[i..])
    ensures url == s[i..i + UrlLen(s[i..])]
    ensures UrlPrefix(url) && Contains(s, url)
    ensures forall k :: |MapsPrefix| <= k < |url| ==> InClass(url[k], UrlTail)
  {
    var t := s[i..];
    var url := t[..UrlLen(t)];
    assert url[..|MapsPrefix|] == t[..|MapsPrefix|];
    assert OccursAt(s, url, i);
    url
  }

  /** The matched text: the link at the leftmost position that starts one. */
  function FirstUrl(s: string): (r: Option<string>)
    ensures r.None? <==> !HasUrl(s)
    ensures r.Some? ==> exists i :: LeftmostUrlAt(s, i) && r.value == UrlAt(s, i)
  {
    match FirstUrlIndex(s)
    case None => None
    case Some(i) =>
      FirstUrlIndexIsLeftmost(s);
      assert LeftmostUrlAt(s, i);
      Some(UrlAt(s, i))
  }

  /** `/View map:\s*\[?https:\/\/www\.google\.com\/maps[^\s)\]]+\]?/i` at the start of `t`: its length, 0 when none. */
  function LabelLen(t: string): (n: nat)
    ensures n <= |t|
  {
    if !StartsWithCi(t, LabelHead) then 0
    else
      var b := |LabelHead| + RunLen(t[|LabelHead|..], Space);
      var c := if b < |t| && t[b] == '[' then b + 1 else b;
      if !StartsWithCi(t[c..], MapsPrefix) then 0
      else
        var d := c + |MapsPrefix|;
        var e := d + RunLen(t[d..], LabelTail);
        if e == d then 0
        else if e < |t| && t[e] == ']' then e + 1
        else e
  }

  /** `/\[View map\]\(https:\/\/www\.google\.com\/maps[^)]+\)/i` at the start of `t`: its length, 0 when none. */
  function LinkLen(t: string): (n: nat)
    ensures n <= |t|
  {
    if !StartsWithCi(t, LinkHead) then 0
    else
      var d := |LinkHead|;
      var e := d + RunLen(t[d..], NotClose);
      if e == d || e == |t| then 0 else e + 1
  }

  /** The two markdown-aware removal patterns, applied first, in this order, with the `g` flag. */
  datatype Pass = LabelPass | LinkPass

  /** `s.replace(p, '')`: scan left to right, dropping each match and keeping every other character. */
  function Strip(p: Pass, s: string): string
    decreases |s|
  {
    if s == [] then []
    else
      var n := if p == LabelPass then LabelLen(s) else LinkLen(s);
      if n > 0 then Strip(p, s[n..]) else [s[0]] + Strip(p, s[1..])
  }

  /** `s.replace(/https:\/\/www\.google\.com\/maps[^\s)]+/g, '')`. */
  function StripUrls(s: string): string
    decreases |s|
  {
    if s == [] then []
    else if UrlPrefix(s) then StripUrls(s[UrlLen(s)..])
    else [s[0]] + StripUrls(s[1..])
  }

  /** What the bare-link pass leaves never starts with a link character: the greedy class ate them all. */
  lemma StripAfterUrlStartsOutsideClass(s: string)
    requires UrlPrefix(s)
    ensures var r := StripUrls(s[UrlLen(s)..]); r == [] || !InClass(r[0], UrlTail)
  {
    var t := s[UrlLen(s)..];
    if t != [] {
      assert !InClass(t[0], UrlTail);
      assert !UrlPrefix(t) by {
        assert !StartsWith(t, MapsPrefix) by { assert t[0] != MapsPrefix[0]; }
      }
    }
  }

  /** A word of link characters at the start of the stripped text was already at the start of the input. */
  lemma {:induction false} StripReflectsUrlWord(s: string, w: string)
    requires w != [] && forall k :: 0 <= k < |w| ==> InClass(w[k], UrlTail)
    requires StartsWith(StripUrls(s), w)
    ensures StartsWith(s, w)
    decreases |s|
  {
    if UrlPrefix(s) {
      StripAfterUrlStartsOutsideClass(s);
      assert false;
    } else {
      var rest := StripUrls(s[1..]);
      assert StripUrls(s) == [s[0]] + rest;
      if |w| > 1 {
        assert rest[..|w| - 1] == w[1..];
        StripReflectsUrlWord(s[1..], w[1..]);
        assert s[..|w|] == [s[0]] + s[1..][..|w| - 1];
      }
    }
  }

  /** The word a link match begins with: the prefix and its first tail character. */
  lemma UrlPrefixWord(t: string)
    requires UrlPrefix(t)
    ensures var w := t[..|MapsPrefix| + 1];
      forall k :: 0 <= k < |w| ==> InClass(w[k], UrlTail)
  {
    var w := t[..|MapsPrefix| + 1];
    forall k | 0 <= k < |w| ensures InClass(w[k], UrlTail) {
      if k < |MapsPrefix| {
        assert w[k] == MapsPrefix[k];
      }
    }
  }

  /** After the bare-link pass no Google Maps link is left anywhere in the text. */
  lemma {:induction false} StripRemovesEveryUrl(s: string)
    ensures !HasUrl(StripUrls(s))
    decreases |s|
  {
    if s != [] {
      if UrlPrefix(s) {
        StripRemovesEveryUrl(s[UrlLen(s)..]);
      } else {
        var out := StripUrls(s);
        StripRemovesEveryUrl(s[1..]);
        assert out[1..] == StripUrls(s[1..]);
        if UrlPrefix(out) {
          UrlPrefixWord(out);
          var w := out[..|MapsPrefix| + 1];
          StripReflectsUrlWord(s, w);
          assert s[..|MapsPrefix|] == w[..|MapsPrefix|];
          assert s[|MapsPrefix|] == w[|MapsPrefix|];
          assert UrlPrefix(s);
        }
      }
    }
  }

  // ---------------------------------------------------------------------------
  // Blank-line collapsing: /\n\n+/g -> '\n\n'

  /** Replaces every run of two or more newlines by exactly two (the run's first newlines are dropped). */
  function CollapseBlankLines(s: string): (r: string)
    ensures |r| <= |s|
    decreases |s|
  {
    if s == [] then []
    else if |s| >= 3 && s[0] == '\n' && s[1] == '\n' && s[2] == '\n' then CollapseBlankLines(s[1..])
    else [s[0]] + CollapseBlankLines(s[1..])
  }

  /** Length of the run of newlines at the start of `s`. */
  function NewlineRun(s: string): (n: nat)
    ensures n <= |s|
    ensures forall k :: 0 <= k < n ==> s[k] == '\n'
    ensures n == |s| || s[n] != '\n'
    decreases |s|
  {
    if s == [] || s[0] != '\n' then 0 else 1 + NewlineRun(s[1..])
  }

  /** Reference reading of the replace, run by run: a run of two or more newlines becomes two, anything else stays. */
  function CollapseRuns(s: string): string
    decreases |s|
  {
    if s == [] then []
    else if s[0] != '\n' then [s[0]] + CollapseRuns(s[1..])
    else
      var n := NewlineRun(s);
      RunImage(s, n) + CollapseRuns(s[n..])
  }

  /** What the replace writes for a newline run of length `n` at the start of `s`. */
  function RunImage(s: string, n: nat): string
    requires n <= |s|
  {
    if n >= 2 then "\n\n" else s[..n]
  }

  /** A newline run at the start of `s` comes out as two newlines (or unchanged when shorter), and the rest follows. */
  lemma {:induction false} CollapseLeadingRun(s: string, n: nat)
    requires s != [] && s[0] == '\n' && n == NewlineRun(s)
    ensures CollapseBlankLines(s) == RunImage(s, n) + CollapseBlankLines(s[n..])
    decreases |s|
  {
    var t := s[1..];
    assert n == 1 + NewlineRun(t);
    if n >= 3 {
      assert s[1] == '\n' && s[2] == '\n';
      assert CollapseBlankLines(s) == CollapseBlankLines(t);
      CollapseLeadingRun(t, n - 1);
      assert t[n - 1..] == s[n..];
    } else if n == 2 {
      assert CollapseBlankLines(s) == [s[0]] + CollapseBlankLines(t);
      CollapseLeadingRun(t, 1);
      assert t[..1] == "\n" && t[1..] == s[2..];
    } else {
      assert CollapseBlankLines(s) == [s[0]] + CollapseBlankLines(t);
      assert s[..1] == [s[0]];
    }
  }

  /** The scan and the run-by-run reading agree on every text. */
  lemma {:induction false} CollapseIsRunByRun(s: string)
    ensures CollapseBlankLines(s) == CollapseRuns(s)
    decreases |s|
  {
    if s != [] {
      if s[0] != '\n' {
        CollapseIsRunByRun(s[1..]);
      } else {
        CollapseLeadingRun(s, NewlineRun(s));
        CollapseIsRunByRun(s[NewlineRun(s)..]);
      }
    }
  }

  /** Collapsing keeps the first two characters. */
  lemma {:induction false} CollapseKeepsHead(s: string)
    ensures |s| >= 2 ==> |CollapseBlankLines(s)| >= 2 && CollapseBlankLines(s)[..2] == s[..2]
    ensures |s| < 2 ==> CollapseBlankLines(s) == s
    decreases |s|
  {
    if s != [] {
      CollapseKeepsHead(s[1..]);
    }
  }

  /** Three newlines in a row start at position `k` of `r`. */
  predicate TripleAt(r: string, k: nat) {
    k + 2 < |r| && r[k] == '\n' && r[k + 1] == '\n' && r[k + 2] == '\n'
  }

  predicate NoTripleNewline(r: string) {
    forall k: nat :: k < |r| ==> !TripleAt(r, k)
  }

  /** After collapsing no three newlines are left in a row: no blank line survives twice. */
  lemma {:induction false} CollapseLeavesNoTriple(s: string)
    ensures NoTripleNewline(CollapseBlankLines(s))
    decreases |s|
  {
    if s != [] {
      CollapseLeavesNoTriple(s[1..]);
      if !(|s| >= 3 && s[0] == '\n' && s[1] == '\n' && s[2] == '\n') {
        var rest := CollapseBlankLines(s[1..]);
        var r := [s[0]] + rest;
        CollapseKeepsHead(s[1..]);
        forall k: nat | k < |r|
          ensures !TripleAt(r, k)
        {
          if k > 0 {
            assert TripleAt(r, k) == TripleAt(rest, k - 1);
          } else if |r| >= 3 {
            assert r[1] == s[1] && r[2] == s[2];
          }
        }
      }
    }
  }

  lemma {:induction false} CollapseKeepsLeadingNewline(s: string)
    requires |s| >= 2 && s[0] == '\n' && s[1] == '\n'
    ensures CollapseBlankLines(s) != [] && CollapseBlankLines(s)[0] == '\n'
    decreases |s|
  {
    if |s| >= 3 && s[2] == '\n' {
      CollapseKeepsLeadingNewline(s[1..]);
    }
  }

  /** A newline-free word at the start of the collapsed text was at the start of the input. */
  lemma {:induction false} CollapseReflectsWord(s: string, w: string)
    requires w != [] && '\n' !in w
    requires StartsWith(CollapseBlankLines(s), w)
    ensures StartsWith(s, w)
    decreases |s|
  {
    if |s| >= 3 && s[0] == '\n' && s[1] == '\n' && s[2] == '\n' {
      CollapseKeepsLeadingNewline(s);
      assert false;
    } else {
      var rest := CollapseBlankLines(s[1..]);
      assert CollapseBlankLines(s) == [s[0]] + rest;
      if |w| > 1 {
        assert rest[..|w| - 1] == w[1..];
        CollapseReflectsWord(s[1..], w[1..]);
        assert s[..|w|] == [s[0]] + s[1..][..|w| - 1];
      }
    }
  }

  /** Collapsing blank lines cannot assemble a link out of pieces. */
  lemma {:induction false} CollapseKeepsNoUrl(s: string)
    requires !HasUrl(s)
    ensures !HasUrl(CollapseBlankLines(s))
    decreases |s|
  {
    if s != [] {
      var out := CollapseBlankLines(s);
      CollapseKeepsNoUrl(s[1..]);
      if |s| >= 3 && s[0] == '\n' && s[1] == '\n' && s[2] == '\n' {
      } else {
        assert out[1..] == CollapseBlankLines(s[1..]);
        if UrlPrefix(out) {
          UrlPrefixWord(out);
          var w := out[..|MapsPrefix| + 1];
          assert '\n' !in w by {
            forall k | 0 <= k < |w| ensures w[k] != '\n' {
              assert InClass(w[k], UrlTail);
            }
          }
          CollapseReflectsWord(s, w);
          assert s[..|MapsPrefix|] == w[..|MapsPrefix|];
          assert s[|MapsPrefix|] == w[|MapsPrefix|];
          assert UrlPrefix(s);
        }
      }
    }
  }

  // ---------------------------------------------------------------------------
  // Trimming keeps the text link-free

  lemma {:induction false} NoUrlSuffix(s: string, k: nat)
    requires k <= |s| && !HasUrl(s)
    ensures !HasUrl(s[k..])
    decreases k
  {
    if k > 0 {
      assert s[k..] == s[1..][k - 1..];
      NoUrlSuffix(s[1..], k - 1);
    }
  }

  lemma {:induction false} NoUrlPrefix(s: string, k: nat)
    requires k <= |s| && !HasUrl(s)
    ensures !HasUrl(s[..k])
    decreases k
  {
    if k > 0 {
      var t := s[..k];
      assert t[1..] == s[1..][..k - 1];
      NoUrlPrefix(s[1..], k - 1);
    }
  }

  lemma TrimKeepsNoUrl(s: string)
    requires !HasUrl(s)
    ensures !HasUrl(Trim(s))
  {
    var b := TrimBounds(s);
    NoUrlSuffix(s, b.0);
    NoUrlPrefix(s[b.0..], b.1 - b.0);
    assert s[b.0..][..b.1 - b.0] == s[b.0..b.1];
  }

  // ---------------------------------------------------------------------------
  // The reply as the page stores it

  /** The content and map link the page keeps from a reply's text. */
  datatype Processed = Processed(content: string, mapUrl: Option<string>)

  /** The removal chain, run only when the reply holds a link. */
  function CleanContent(s: string): string {
    Trim(CollapseBlankLines(StripUrls(Strip(LinkPass, Strip(LabelPass, s)))))
  }

  /**
   * A reply's text: the first link becomes the map link and the removal chain
   * runs; with no link the text is kept as it is and there is no map link.
   */
  function ProcessReply(content: string): (r: Processed)
    ensures r.mapUrl.None? <==> !HasUrl(content)
    ensures r.mapUrl.None? ==> r.content == content
    ensures r.mapUrl.Some? ==> exists i :: LeftmostUrlAt(content, i) && r.mapUrl.value == UrlAt(content, i)
    ensures r.mapUrl.Some? ==> UrlPrefix(r.mapUrl.value) && Contains(content, r.mapUrl.value)
  {
    match FirstUrl(content)
    case None => Processed(content, None)
    case Some(url) => Processed(CleanContent(content), Some(url))
  }

  /** Every Google Maps link is removed from the stored content. */
  lemma ProcessedContentHasNoUrl(content: string)
    ensures !HasUrl(ProcessReply(content).content)
  {
    var s := Strip(LinkPass, Strip(LabelPass, content));
    StripRemovesEveryUrl(s);
    CollapseKeepsNoUrl(StripUrls(s));
    TrimKeepsNoUrl(CollapseBlankLines(StripUrls(s)));
  }

  // ---------------------------------------------------------------------------
  // Markers: /(\d+)\.\s*\*\*([^*]+)\*\*\s*\((-?\d+\.\d+),\s*(-?\d+\.\d+)\)/g
  //
  // These matchers work on positions of the whole text, as `exec` does with
  // `lastIndex`.

  predicate IsAt(s: string, i: nat, c: char) {
    i < |s| && s[i] == c
  }

  /** Value of one decimal digit (the matchers only ever pass digits). */
  function DigitValue(c: char): (v: nat)
    ensures v <= 9
  {
    if IsDigit(c) then c as int - '0' as int else 0
  }

  /** Value of the digits `s[lo..hi]` before a decimal point. */
  function WholeValue(s: string, lo: nat, hi: nat): nat
    requires lo <= hi <= |s|
    decreases hi - lo
  {
    if lo == hi then 0 else 10 * WholeValue(s, lo, hi - 1) + DigitValue(s[hi - 1])
  }

  /** Value of the digits `s[lo..hi]` after a decimal point: `0.d1d2d3…`. */
  function FractionValue(s: string, lo: nat, hi: nat): (v: real)
    requires lo <= hi <= |s|
    ensures 0.0 <= v < 1.0
    decreases hi - lo
  {
    if lo == hi then 0.0 else (DigitValue(s[lo]) as real + FractionValue(s, lo + 1, hi)) / 10.0
  }

  /**
   * Where a `-?\d+\.\d+` match lies: its digits run from `whole` to the point
   * at `point`, and from just after the point to `end`.
   */
  datatype DecimalParts = DecimalParts(whole: nat, point: nat, end: nat)

  /** `-?\d+\.\d+` matches at `i` with these parts: an optional minus sign, then the digits. */
  predicate DecimalSpan(s: string, i: nat, d: DecimalParts) {
    (d.whole == i || (d.whole == i + 1 && IsAt(s, i, '-'))) &&
    d.whole < d.point && Run(s, d.whole, d.point, Digit) && IsAt(s, d.point, '.') &&
    d.point + 1 < d.end && Run(s, d.point + 1, d.end, Digit)
  }

  /** `-?\d+\.\d+` at position `i`: where the greedy match lies. */
  function DecimalAt(s: string, i: nat): (r: Option<DecimalParts>)
    requires i <= |s|
    ensures r.Some? ==> i <= r.value.whole && DecimalBounds(s, r.value)
  {
    var j := if IsAt(s, i, '-') then i + 1 else i;
    var t := RunEnd(s, j, Digit);
    if t == j || !IsAt(s, t, '.') then None
    else
      var f := RunEnd(s, t + 1, Digit);
      if f == t + 1 then None else Some(DecimalParts(j, t, f))
  }

  /** What `DecimalAt` finds is a match of the pattern, and no digit follows it. */
  lemma DecimalAtSound(s: string, i: nat)
    requires i <= |s| && DecimalAt(s, i).Some?
    ensures DecimalSpan(s, i, DecimalAt(s, i).value)
    ensures DecimalAt(s, i).value.end == |s| || !IsDigit(s[DecimalAt(s, i).value.end])
  {
  }

  /** A decimal starts with a sign or a digit, neither of which is whitespace. */
  lemma SignOrDigitNotSpace(c: char)
    requires c == '-' || IsDigit(c)
    ensures !IsSpace(c)
  {
  }

  /** Whenever the pattern matches at `i` up to a non-digit, the matcher finds that match. */
  lemma DecimalAtComplete(s: string, i: nat, d: DecimalParts)
    requires i <= |s| && DecimalSpan(s, i, d)
    requires d.end == |s| || !IsDigit(s[d.end])
    ensures DecimalAt(s, i) == Some(d)
  {
    assert IsAt(s, i, '-') <==> d.whole == i + 1 by {
      assert InClass(s[d.whole], Digit);
    }
    RunEndOf(s, d.whole, d.point, Digit);
    RunEndOf(s, d.point + 1, d.end, Digit);
  }

  /** The spans of `d` lie in order inside `s`. */
  predicate DecimalBounds(s: string, d: DecimalParts) {
    d.whole < d.point < d.end <= |s|
  }

  /**
   * `parseFloat` of the decimal matched at `i`, kept exact as `-?whole.fraction`:
   * the whole digits give its integer part, the minus its sign.
   */
  function ParseDecimal(s: string, i: nat, d: DecimalParts): (v: real)
    requires DecimalBounds(s, d)
    ensures var magnitude := if d.whole == i + 1 then -v else v;
      WholeValue(s, d.whole, d.point) as real <= magnitude < WholeValue(s, d.whole, d.point) as real + 1.0
  {
    var magnitude := WholeValue(s, d.whole, d.point) as real + FractionValue(s, d.point + 1, d.end);
    if d.whole == i + 1 then -magnitude else magnitude
  }

  /**
   * `(\d+)\.\s*\*\*([^*]+)\*\*` matches at `i`: digits up to the point at `d`,
   * spaces up to the opening stars at `c`, and the name `s[c + 2..b]` up to the
   * closing stars at `b`.
   */
  predicate HeadSpan(s: string, i: nat, d: nat, c: nat, b: nat) {
    i < d && Run(s, i, d, Digit) && IsAt(s, d, '.') &&
    Run(s, d + 1, c, Space) && IsAt(s, c, '*') && IsAt(s, c + 1, '*') &&
    c + 2 < b && Run(s, c + 2, b, NotStar) && IsAt(s, b, '*') && IsAt(s, b + 1, '*')
  }

  /** `(\d+)\.\s*\*\*([^*]+)\*\*` at position `i`: the point, the opening stars and the closing stars. */
  function ItemHead(s: string, i: nat): (r: Option<(nat, nat, nat)>)
    requires i <= |s|
    ensures r.Some? ==> i < r.value.0 < r.value.1 + 2 < r.value.2 && r.value.2 + 2 <= |s|
  {
    var d := RunEnd(s, i, Digit);
    if d == i || !IsAt(s, d, '.') then None
    else
      var c := RunEnd(s, d + 1, Space);
      if !IsAt(s, c, '*') || !IsAt(s, c + 1, '*') then None
      else
        var b := RunEnd(s, c + 2, NotStar);
        if b == c + 2 || !IsAt(s, b + 1, '*') then None else Some((d, c, b))
  }

  /** What `ItemHead` finds is a match of the head pattern. */
  lemma ItemHeadSound(s: string, i: nat)
    requires i <= |s| && ItemHead(s, i).Some?
    ensures HeadSpan(s, i, ItemHead(s, i).value.0, ItemHead(s, i).value.1, ItemHead(s, i).value.2)
  {
  }

  /** Whenever the head pattern matches at `i`, the matcher finds it. */
  lemma ItemHeadComplete(s: string, i: nat, d: nat, c: nat, b: nat)
    requires i <= |s| && HeadSpan(s, i, d, c, b)
    ensures ItemHead(s, i) == Some((d, c, b))
  {
    RunEndOf(s, i, d, Digit);
    RunEndOf(s, d + 1, c, Space);
    RunEndOf(s, c + 2, b, NotStar);
  }

  /**
   * Where a `\s*\((-?\d+\.\d+),\s*(-?\d+\.\d+)\)` match lies: the parenthesis,
   * the latitude (its end is the comma), the start of the longitude, and the
   * longitude (its end is the closing parenthesis).
   */
  datatype CoordParts = CoordParts(paren: nat, lat: DecimalParts, lngStart: nat, lng: DecimalParts)

  /** The coordinates pattern matches at `p` with these parts. */
  predicate CoordSpan(s: string, p: nat, k: CoordParts) {
    Run(s, p, k.paren, Space) && IsAt(s, k.paren, '(') &&
    DecimalSpan(s, k.paren + 1, k.lat) && IsAt(s, k.lat.end, ',') &&
    Run(s, k.lat.end + 1, k.lngStart, Space) &&
    DecimalSpan(s, k.lngStart, k.lng) && IsAt(s, k.lng.end, ')')
  }

  /** `\s*\((-?\d+\.\d+),\s*(-?\d+\.\d+)\)` at position `i`: where the match lies. */
  function Coordinates(s: string, i: nat): (r: Option<CoordParts>)
    requires i <= |s|
    ensures r.Some? ==> DecimalBounds(s, r.value.lat) && DecimalBounds(s, r.value.lng)
    ensures r.Some? ==> i < r.value.lng.end < |s|
  {
    var e := RunEnd(s, i, Space);
    if !IsAt(s, e, '(') then None
    else
      var lat := DecimalAt(s, e + 1);
      if lat.None? || !IsAt(s, lat.value.end, ',') then None
      else
        var q := RunEnd(s, lat.value.end + 1, Space);
        var lng := DecimalAt(s, q);
        if lng.None? || !IsAt(s, lng.value.end, ')') then None
        else Some(CoordParts(e, lat.value, q, lng.value))
  }

  /** What `Coordinates` finds is a match of the pattern. */
  lemma CoordinatesSound(s: string, i: nat)
    requires i <= |s| && Coordinates(s, i).Some?
    ensures CoordSpan(s, i, Coordinates(s, i).value)
  {
    var e := RunEnd(s, i, Space);
    DecimalAtSound(s, e + 1);
    var q := RunEnd(s, DecimalAt(s, e + 1).value.end + 1, Space);
    DecimalAtSound(s, q);
  }

  /** Whenever the coordinates pattern matches at `p`, the matcher finds that match. */
  lemma CoordinatesComplete(s: string, p: nat, k: CoordParts)
    requires p <= |s| && CoordSpan(s, p, k)
    ensures Coordinates(s, p) == Some(k)
  {
    RunEndOf(s, p, k.paren, Space);
    DecimalAtComplete(s, k.paren + 1, k.lat);
    SpacesBeforeDecimal(s, k.lat.end + 1, k.lngStart, k.lng);
    DecimalAtComplete(s, k.lngStart, k.lng);
    CoordinatesOfSteps(s, p, k);
  }

  /** `Coordinates` returns `k` when each of its steps lands where `k` says. */
  lemma CoordinatesOfSteps(s: string, p: nat, k: CoordParts)
    requires p <= |s| && RunEnd(s, p, Space) == k.paren && IsAt(s, k.paren, '(')
    requires DecimalAt(s, k.paren + 1) == Some(k.lat) && IsAt(s, k.lat.end, ',')
    requires RunEnd(s, k.lat.end + 1, Space) == k.lngStart
    requires DecimalAt(s, k.lngStart) == Some(k.lng) && IsAt(s, k.lng.end, ')')
    ensures Coordinates(s, p) == Some(k)
  {
  }

  /** The whitespace skipped before a decimal ends where the decimal starts. */
  lemma SpacesBeforeDecimal(s: string, lo: nat, q: nat, d: DecimalParts)
    requires Run(s, lo, q, Space) && DecimalSpan(s, q, d)
    ensures RunEnd(s, lo, Space) == q
  {
    assert InClass(s[d.whole], Digit);
    SignOrDigitNotSpace(s[q]);
    RunEndOf(s, lo, q, Space);
  }

  /**
   * Where a whole `N. **Name** (lat, lng)` match lies: the point after the
   * number, the opening stars (the name starts two further on), the closing
   * stars, and the coordinates.
   */
  datatype ItemParts = ItemParts(dot: nat, stars: nat, nameEnd: nat, coords: CoordParts)

  /** The item pattern matches at `i` with these parts. */
  predicate ItemSpan(s: string, i: nat, p: ItemParts) {
    HeadSpan(s, i, p.dot, p.stars, p.nameEnd) && p.nameEnd + 2 <= |s| && CoordSpan(s, p.nameEnd + 2, p.coords)
  }

  /** Where an item match ends: just after the closing parenthesis. */
  function ItemEnd(p: ItemParts): nat {
    p.coords.lng.end + 1
  }

  /** `locationPattern` tried at position `i`: where the match lies. */
  function ItemAt(s: string, i: nat): (r: Option<ItemParts>)
    requires i <= |s|
    ensures r.Some? ==> ItemBounds(s, r.value)
    ensures r.Some? ==> i < ItemEnd(r.value) <= |s|
  {
    var head := ItemHead(s, i);
    if head.None? then None
    else
      var (d, c, b) := head.value;
      var coords := Coordinates(s, b + 2);
      if coords.None? then None else Some(ItemParts(d, c, b, coords.value))
  }

  /** What `ItemAt` finds is a match of the item pattern. */
  lemma ItemAtSound(s: string, i: nat)
    requires i <= |s| && ItemAt(s, i).Some?
    ensures ItemSpan(s, i, ItemAt(s, i).value)
  {
    var p := ItemAt(s, i).value;
    ItemHeadSound(s, i);
    CoordinatesSound(s, ItemHead(s, i).value.2 + 2);
    assert (p.dot, p.stars, p.nameEnd) == ItemHead(s, i).value;
    assert p.coords == Coordinates(s, p.nameEnd + 2).value;
  }

  /** Whenever the item pattern matches at `i`, the matcher finds that match. */
  lemma ItemAtComplete(s: string, i: nat, p: ItemParts)
    requires i <= |s| && ItemSpan(s, i, p)
    ensures ItemAt(s, i) == Some(p)
  {
    ItemHeadComplete(s, i, p.dot, p.stars, p.nameEnd);
    CoordinatesComplete(s, p.nameEnd + 2, p.coords);
    assert ItemAt(s, i) == Some(ItemParts(p.dot, p.stars, p.nameEnd, p.coords));
  }

  /** The item pattern matches at `i`, in some way. */
  ghost predicate PatternAt(s: string, i: nat) {
    exists p :: ItemSpan(s, i, p)
  }

  /** The matcher finds an item at `i` exactly when the pattern matches there. */
  lemma ItemAtIffPattern(s: string, i: nat)
    requires i <= |s|
    ensures ItemAt(s, i).Some? <==> PatternAt(s, i)
  {
    if ItemAt(s, i).Some? {
      ItemAtSound(s, i);
    }
    if PatternAt(s, i) {
      var p :| ItemSpan(s, i, p);
      ItemAtComplete(s, i, p);
    }
  }

  /** The pattern matches at `i` in one way only. */
  lemma ItemSpanUnique(s: string, i: nat, p: ItemParts, p': ItemParts)
    requires i <= |s| && ItemSpan(s, i, p) && ItemSpan(s, i, p')
    ensures p == p'
  {
    ItemAtComplete(s, i, p);
    ItemAtComplete(s, i, p');
  }

  /** The name and the two numbers of `p` lie inside `s`. */
  predicate ItemBounds(s: string, p: ItemParts) {
    p.stars + 2 <= p.nameEnd <= |s| && DecimalBounds(s, p.coords.lat) && DecimalBounds(s, p.coords.lng)
  }

  /**
   * The marker the page pushes for a match: `parseFloat` of the two decimals,
   * the name trimmed, and no address.
   */
  function MarkerOf(s: string, p: ItemParts): (m: Marker)
    requires ItemBounds(s, p)
    ensures m.lat == ParseDecimal(s, p.coords.paren + 1, p.coords.lat)
    ensures m.lng == ParseDecimal(s, p.coords.lngStart, p.coords.lng)
    ensures m.title == Trim(s[p.stars + 2..p.nameEnd]) && m.address == []
  {
    var k := p.coords;
    Marker(ParseDecimal(s, k.paren + 1, k.lat), ParseDecimal(s, k.lngStart, k.lng), Trim(s[p.stars + 2..p.nameEnd]), "")
  }

  /** No item match starts in `[lo, hi)`. */
  ghost predicate NoMatchIn(s: string, lo: nat, hi: nat)
    decreases hi - lo
  {
    lo >= hi || (!PatternAt(s, lo) && NoMatchIn(s, lo + 1, hi))
  }

  /** `NoMatchIn` says of each position of `[lo, hi)` that no match starts there. */
  lemma {:induction false} NoMatchAt(s: string, lo: nat, hi: nat, q: nat)
    requires NoMatchIn(s, lo, hi) && lo <= q < hi
    ensures !PatternAt(s, q)
    decreases hi - lo
  {
    if lo < q {
      NoMatchAt(s, lo + 1, hi, q);
    }
  }

  /**
   * What a global `exec` loop reads from position `i` on: nothing when no item
   * matches at or after `i`; otherwise the marker of the leftmost match there,
   * then what it reads from where that match ends.
   */
  ghost predicate ExecReads(s: string, i: nat, ms: seq<Marker>)
    decreases |ms|
  {
    if ms == [] then NoMatchIn(s, i, |s|)
    else
      exists q: nat, p :: i <= q && NoMatchIn(s, i, q) && ItemSpan(s, q, p) &&
        ms[0] == MarkerOf(s, p) && ExecReads(s, ItemEnd(p), ms[1..])
  }

  /** The `while (exec(...))` loop from position `i`, with the markers found so far. */
  function MarkersFrom(s: string, i: nat, found: seq<Marker>): (ms: seq<Marker>)
    requires i <= |s|
    ensures |ms| <= |found| + |s| - i
    decreases |s| - i
  {
    if i == |s| then found
    else
      var m := ItemAt(s, i);
      if m.Some? then
        MarkersFrom(s, ItemEnd(m.value), found + [MarkerOf(s, m.value)])
      else MarkersFrom(s, i + 1, found)
  }

  function Markers(s: string): seq<Marker> {
    MarkersFrom(s, 0, [])
  }

  /** A match at `i` is the leftmost from `i`: its marker comes first, then what is read from its end. */
  lemma ReadsMatch(s: string, i: nat, p: ItemParts, rest: seq<Marker>)
    requires ItemSpan(s, i, p) && ExecReads(s, ItemEnd(p), rest)
    ensures ExecReads(s, i, [MarkerOf(s, p)] + rest)
  {
    var ms := [MarkerOf(s, p)] + rest;
    assert ms[1..] == rest;
    assert NoMatchIn(s, i, i);
  }

  /** Where the pattern does not match, reading starts one position on. */
  lemma {:induction false} ReadsSkip(s: string, i: nat, ms: seq<Marker>)
    requires !PatternAt(s, i) && ExecReads(s, i + 1, ms)
    ensures ExecReads(s, i, ms)
  {
    if ms != [] {
      var q: nat, p :| i + 1 <= q && NoMatchIn(s, i + 1, q) && ItemSpan(s, q, p) &&
        ms[0] == MarkerOf(s, p) && ExecReads(s, ItemEnd(p), ms[1..]);
      assert NoMatchIn(s, i, q);
    }
  }

  lemma AppendNothing(a: seq<Marker>)
    ensures a + [] == a
  {
  }

  lemma AppendOne(a: seq<Marker>, m: Marker, b: seq<Marker>)
    ensures a + [m] + b == a + ([m] + b)
  {
  }

  lemma AppendChain(a: seq<Marker>, a': seq<Marker>, b: seq<Marker>, b': seq<Marker>, found: seq<Marker>, m: Marker, rest: seq<Marker>)
    requires a == a' && a' == found + [m] + rest
    requires b == b' && b' == [m] + rest
    requires found + [m] + rest == found + ([m] + rest)
    ensures a == found + b
  {
  }

  /** One turn of the loop where the pattern matches at `i`. */
  lemma MarkersFromStep(s: string, i: nat, found: seq<Marker>)
    requires i < |s| && ItemAt(s, i).Some?
    ensures MarkersFrom(s, i, found) ==
      MarkersFrom(s, ItemEnd(ItemAt(s, i).value), found + [MarkerOf(s, ItemAt(s, i).value)])
  {
  }

  /** The loop only appends to what was found before it. */
  lemma {:induction false} MarkersFromAppends(s: string, i: nat, found: seq<Marker>)
    requires i <= |s|
    ensures MarkersFrom(s, i, found) == found + MarkersFrom(s, i, [])
    decreases |s| - i
  {
    if i == |s| {
      AppendNothing(found);
    } else if ItemAt(s, i).Some? {
      var p := ItemAt(s, i).value;
      var m := MarkerOf(s, p);
      MarkersFromStep(s, i, found);
      MarkersFromStep(s, i, []);
      assert [] + [m] == [m];
      MarkersFromAppends(s, ItemEnd(p), found + [m]);
      MarkersFromAppends(s, ItemEnd(p), [m]);
      AppendOne(found, m, MarkersFrom(s, ItemEnd(p), []));
      AppendChain(MarkersFrom(s, i, found), MarkersFrom(s, ItemEnd(p), found + [m]),
        MarkersFrom(s, i, []), MarkersFrom(s, ItemEnd(p), [m]), found, m, MarkersFrom(s, ItemEnd(p), []));
    } else {
      MarkersFromAppends(s, i + 1, found);
    }
  }

  /** Where the pattern matches at `i`, its marker is the first found from `i`. */
  lemma MarkersFromFirst(s: string, i: nat)
    requires i < |s| && ItemAt(s, i).Some?
    ensures MarkersFrom(s, i, []) ==
      [MarkerOf(s, ItemAt(s, i).value)] + MarkersFrom(s, ItemEnd(ItemAt(s, i).value), [])
  {
    var p := ItemAt(s, i).value;
    var m := MarkerOf(s, p);
    MarkersFromStep(s, i, []);
    assert [] + [m] == [m];
    MarkersFromAppends(s, ItemEnd(p), [m]);
  }

  /** From position `i` on, the loop finds exactly the markers of every non-overlapping match, leftmost first. */
  lemma {:induction false} MarkersFromReads(s: string, i: nat)
    requires i <= |s|
    ensures ExecReads(s, i, MarkersFrom(s, i, []))
    decreases |s| - i
  {
    if i == |s| {
      assert NoMatchIn(s, i, |s|);
    } else if ItemAt(s, i).Some? {
      var p := ItemAt(s, i).value;
      ItemAtSound(s, i);
      MarkersFromReads(s, ItemEnd(p));
      MarkersFromFirst(s, i);
      ReadsMatch(s, i, p, MarkersFrom(s, ItemEnd(p), []));
    } else {
      ItemAtIffPattern(s, i);
      MarkersFromReads(s, i + 1);
      ReadsSkip(s, i, MarkersFrom(s, i + 1, []));
    }
  }

  /** Two matches each leftmost from `i` are the same match. */
  lemma LeftmostUnique(s: string, i: nat, q: nat, p: ItemParts, q': nat, p': ItemParts)
    requires i <= q && NoMatchIn(s, i, q) && ItemSpan(s, q, p)
    requires i <= q' && NoMatchIn(s, i, q') && ItemSpan(s, q', p')
    ensures q == q' && p == p'
  {
    if q < q' {
      NoMatchAt(s, i, q', q);
    } else if q' < q {
      NoMatchAt(s, i, q, q');
    }
    ItemSpanUnique(s, q, p, p');
  }

  lemma SameHeadAndTail(a: seq<Marker>, b: seq<Marker>)
    requires a != [] && b != [] && a[0] == b[0] && a[1..] == b[1..]
    ensures a == b
  {
    assert a == [a[0]] + a[1..];
    assert b == [b[0]] + b[1..];
  }

  /** What the loop reads is determined by the text and the starting position. */
  lemma {:induction false} ExecReadsUnique(s: string, i: nat, ms: seq<Marker>, ms': seq<Marker>)
    requires ExecReads(s, i, ms) && ExecReads(s, i, ms')
    ensures ms == ms'
    decreases |ms|
  {
    if ms != [] && ms' != [] {
      var q: nat, p :| i <= q && NoMatchIn(s, i, q) && ItemSpan(s, q, p) &&
        ms[0] == MarkerOf(s, p) && ExecReads(s, ItemEnd(p), ms[1..]);
      var q': nat, p' :| i <= q' && NoMatchIn(s, i, q') && ItemSpan(s, q', p') &&
        ms'[0] == MarkerOf(s, p') && ExecReads(s, ItemEnd(p'), ms'[1..]);
      LeftmostUnique(s, i, q, p, q', p');
      ExecReadsUnique(s, ItemEnd(p), ms[1..], ms'[1..]);
      SameHeadAndTail(ms, ms');
    } else if ms != [] {
      var q: nat, p :| i <= q && NoMatchIn(s, i, q) && ItemSpan(s, q, p) &&
        ms[0] == MarkerOf(s, p) && ExecReads(s, ItemEnd(p), ms[1..]);
      NoMatchAt(s, i, |s|, q);
    } else if ms' != [] {
      var q': nat, p' :| i <= q' && NoMatchIn(s, i, q') && ItemSpan(s, q', p') &&
        ms'[0] == MarkerOf(s, p') && ExecReads(s, ItemEnd(p'), ms'[1..]);
      NoMatchAt(s, i, |s|, q');
    }
  }

  /** The markers of a text are exactly what the global `exec` loop reads from its start. */
  lemma MarkersAreTheMatches(s: string, ms: seq<Marker>)
    ensures Markers(s) == ms <==> ExecReads(s, 0, ms)
  {
    MarkersFromReads(s, 0);
    if ExecReads(s, 0, ms) {
      ExecReadsUnique(s, 0, Markers(s), ms);
    }
  }

  /** The same loop, as the page runs it over the raw reply text. */
  method ExtractMarkers(s: string) returns (markers: seq<Marker>)
    ensures markers == Markers(s)
  {
    markers := [];
    var i := 0;
    while i < |s|
      invariant i <= |s|
      invariant MarkersFrom(s, i, markers) == Markers(s)
      decreases |s| - i
    {
      var found := ItemAt(s, i);
      if found.Some? {
        markers := markers + [MarkerOf(s, found.value)];
        i := ItemEnd(found.value);
      } else {
        i := i + 1;
      }
    }
  }

  /** The map centre: the first marker's coordinates, none without markers. */
  function CenterOf(markers: seq<Marker>): (c: Option<(real, real)>)
    ensures c.None? <==> markers == []
    ensures c.Some? ==> c.value == (markers[0].lat, markers[0].lng)
  {
    if markers == [] then None else Some((markers[0].lat, markers[0].lng))
  }

  /** Text without a digit holds no marker item. */
  lemma {:induction false} NoDigitsNoMarkers(s: string, i: nat, found: seq<Marker>)
    requires i <= |s|
    requires forall k :: i <= k < |s| ==> !IsDigit(s[k])
    ensures MarkersFrom(s, i, found) == found
    decreases |s| - i
  {
    if i < |s| {
      assert ItemAt(s, i).None?;
      NoDigitsNoMarkers(s, i + 1, found);
    }
  }
}
