/** The slot extractors of the command interpreters. Each product or customer
    pattern is the regular expression `/<keyword>\s+([a-zA-Z0-9\s]+)(?:$|\s|\.)/i`;
    this module gives that expression the meaning a backtracking engine gives it
    (leftmost start, greedy `\s+`, greedy capture, then the three tail
    alternatives), and the extractors try a list of keywords in order. */
module Slots {
  import opened Text

  /** `[a-zA-Z0-9\s]` under the `i` flag. */
  predicate IsSlotChar(c: char) { IsAsciiLetter(c) || IsDigit(c) || IsSpace(c) }

  /** The code a character is compared by under the `i` flag: ASCII letters
      fold to upper case, every other character is compared as it is. */
  function FoldCode(c: char): int {
    if 'a' <= c <= 'z' then c as int - 32 else c as int
  }

  /** Case-insensitive equality of the `i` flag. */
  predicate FoldEq(a: char, b: char) { FoldCode(a) == FoldCode(b) }

  predicate SameIgnoringCase(a: string, b: string) {
    |a| == |b| && forall k :: 0 <= k < |a| ==> FoldEq(a[k], b[k])
  }

  /** The keyword matches, ignoring case, at index `i`. */
  predicate KeywordAt(text: string, i: nat, kw: string) {
    i + |kw| <= |text| && SameIgnoringCase(text[i..i + |kw|], kw)
  }

  /** `(?:$|\s|\.)` at index `p`. */
  predicate TailOk(text: string, p: nat)
    requires p <= |text|
  {
    p == |text| || IsSpace(text[p]) || text[p] == '.'
  }

  /** The end of the whitespace run that starts at `j`. */
  function SpaceRunEnd(text: string, j: nat): (e: nat)
    requires j <= |text|
    ensures j <= e <= |text|
    ensures forall k :: j <= k < e ==> IsSpace(text[k])
    ensures e < |text| ==> !IsSpace(text[e])
    decreases |text| - j
  {
    if j < |text| && IsSpace(text[j]) then SpaceRunEnd(text, j + 1) else j
  }

  /** The end of the run of `[a-zA-Z0-9\s]` characters that starts at `c`. */
  function SlotRunEnd(text: string, c: nat): (e: nat)
    requires c <= |text|
    ensures c <= e <= |text|
    ensures forall k :: c <= k < e ==> IsSlotChar(text[k])
    ensures e < |text| ==> !IsSlotChar(text[e])
    decreases |text| - c
  {
    if c < |text| && IsSlotChar(text[c]) then SlotRunEnd(text, c + 1) else c
  }

  /** The greedy capture from `c`: the candidate ends `p`, `p - 1`, ..., `c + 1`
      are tried in turn and the first one followed by a valid tail is taken. */
  function TryEnd(text: string, c: nat, p: nat): (r: Option<nat>)
    requires c <= p <= |text|
    ensures r.Some? ==> c < r.value <= p && TailOk(text, r.value)
    ensures r.Some? ==> forall q :: r.value < q <= p ==> !TailOk(text, q)
    ensures r.None? ==> forall q :: c < q <= p ==> !TailOk(text, q)
    decreases p
  {
    if p <= c then None
    else if TailOk(text, p) then Some(p)
    else TryEnd(text, c, p - 1)
  }

  /** A capture: the regular expression matched with its keyword at `at`, and
      group 1 is `text[start..end]`. */
  datatype Capture = Capture(at: nat, start: nat, end: nat)

  /** Greedy `\s+` after the keyword, which ends at `j`: the capture may start at
      `c`, `c - 1`, ..., `j + 1`, each tried with the greedy capture. */
  function TrySpaces(text: string, j: nat, c: nat): (r: Option<(nat, nat)>)
    requires j <= c <= |text|
    requires forall k :: j <= k < c ==> IsSpace(text[k])
    ensures r.Some? ==> j < r.value.0 < r.value.1 <= |text|
    ensures r.Some? ==> forall k :: j <= k < r.value.0 ==> IsSpace(text[k])
    ensures r.Some? ==> forall k :: r.value.0 <= k < r.value.1 ==> IsSlotChar(text[k])
    ensures r.Some? ==> TailOk(text, r.value.1)
    decreases c
  {
    if c <= j then None
    else
      var e := SlotRunEnd(text, c);
      match TryEnd(text, c, e)
      case Some(p) => Some((c, p))
      case None => TrySpaces(text, j, c - 1)
  }

  /** What a match of `/<kw>\s+([a-zA-Z0-9\s]+)(?:$|\s|\.)/i` is: the keyword,
      at least one whitespace character, the capture, and a valid tail. */
  predicate IsMatch(text: string, kw: string, m: Capture) {
    && KeywordAt(text, m.at, kw)
    && m.at + |kw| < m.start < m.end <= |text|
    && (forall k :: m.at + |kw| <= k < m.start ==> IsSpace(text[k]))
    && (forall k :: m.start <= k < m.end ==> IsSlotChar(text[k]))
    && TailOk(text, m.end)
  }

  /** The regular expression tried at start index `i` only. */
  function MatchAt(text: string, i: nat, kw: string): (r: Option<Capture>)
    ensures r.Some? ==> r.value.at == i && IsMatch(text, kw, r.value)
  {
    if !KeywordAt(text, i, kw) then None
    else
      var j := i + |kw|;
      match TrySpaces(text, j, SpaceRunEnd(text, j))
      case Some(span) => Some(Capture(i, span.0, span.1))
      case None => None
  }

  /** `text.match(re)` from start index `i` on: the leftmost start that matches. */
  function Search(text: string, kw: string, i: nat): (r: Option<Capture>)
    ensures r.Some? ==> i <= r.value.at && MatchAt(text, r.value.at, kw) == r
    decreases |text| + 1 - i
  {
    if i > |text| then None
    else
      match MatchAt(text, i, kw)
      case Some(m) => Some(m)
      case None => Search(text, kw, i + 1)
  }

  /** Group 1 of a capture, trimmed: what the extractors return. */
  function CaptureText(text: string, m: Capture): string
    requires m.start <= m.end <= |text|
  {
    Trim(text[m.start..m.end])
  }

  /** The extractors' loop: the patterns are tried in the listed order and the
      first that matches gives the trimmed capture; none matching gives null. */
  function FirstCapture(text: string, keywords: seq<string>): (r: Option<string>)
    ensures r.Some? ==> r.value == "" || (!IsSpace(r.value[0]) && !IsSpace(r.value[|r.value| - 1]))
    ensures r.Some? ==> forall k :: 0 <= k < |r.value| ==> IsAsciiLetter(r.value[k]) || IsDigit(r.value[k])
                                                              || IsSpace(r.value[k])
    decreases |keywords|
  {
    if keywords == [] then None
    else
      match Search(text, keywords[0], 0)
      case Some(m) =>
        TrimOfSlotChars(text, m.start, m.end);
        Some(Trim(text[m.start..m.end]))
      case None => FirstCapture(text, keywords[1..])
  }

  lemma TrimOfSlotChars(text: string, lo: nat, hi: nat)
    requires lo <= hi <= |text|
    requires forall k :: lo <= k < hi ==> IsSlotChar(text[k])
    ensures forall k :: 0 <= k < |Trim(text[lo..hi])| ==> IsSlotChar(Trim(text[lo..hi])[k])
  {
    var s := text[lo..hi];
    var a := SkipSpaces(s, 0);
    var b := DropTrailingSpaces(s, a, |s|);
    assert Trim(s) == s[a..b];
    assert forall k :: 0 <= k < b - a ==> s[a..b][k] == text[lo + a + k];
  }

  /** The extractors return null exactly when the search for every pattern of
      the list comes back empty. */
  lemma {:induction false} FirstCaptureNoneBySearch(text: string, keywords: seq<string>)
    ensures FirstCapture(text, keywords).None?
            <==> forall n :: 0 <= n < |keywords| ==> Search(text, keywords[n], 0).None?
    decreases |keywords|
  {
    if keywords != [] {
      FirstCaptureNoneBySearch(text, keywords[1..]);
      assert forall n :: 1 <= n < |keywords| ==> keywords[n] == keywords[1..][n - 1];
    }
  }

  /** The product patterns of the ERPNext interpreter. */
  const ErpProductKeywords: seq<string> := ["for product", "of product", "product"]

  /** The QBS interpreter adds `for\s+...` as a fourth, last pattern. */
  const QbsProductKeywords: seq<string> := ErpProductKeywords + ["for"]

  /** The customer patterns, the same in both interpreters. */
  const CustomerKeywords: seq<string> := ["for customer", "of customer", "customer"]

  /** `extractProductName` of the ERPNext interpreter. */
  function ErpProductName(text: string): Option<string> {
    FirstCapture(text, ErpProductKeywords)
  }

  /** `extractProductName` of the QBS interpreter. */
  function QbsProductName(text: string): Option<string> {
    FirstCapture(text, QbsProductKeywords)
  }

  /** `extractCustomerName`, the same in both interpreters. */
  function CustomerName(text: string): Option<string> {
    FirstCapture(text, CustomerKeywords)
  }

  /** Trying a list of patterns that is the concatenation of two lists is trying
      the first list, then the second. */
  lemma {:induction false} FirstCaptureAppend(text: string, a: seq<string>, b: seq<string>)
    ensures FirstCapture(text, a + b) == if FirstCapture(text, a).Some? then FirstCapture(text, a)
                                         else FirstCapture(text, b)
    decreases |a|
  {
    if a != [] {
      assert (a + b)[0] == a[0];
      assert (a + b)[1..] == a[1..] + b;
      FirstCaptureAppend(text, a[1..], b);
    } else {
      assert a + b == b;
    }
  }

  /** The greedy capture runs to the end of the text when everything after the
      keyword and its whitespace is a letter, digit or whitespace. */
  lemma CaptureRunsToEnd(text: string, i: nat, kw: string)
    requires KeywordAt(text, i, kw)
    requires i + |kw| < |text| && IsSpace(text[i + |kw|])
    requires forall k :: i + |kw| <= k < |text| ==> IsSlotChar(text[k])
    requires exists k :: i + |kw| <= k < |text| && !IsSpace(text[k])
    ensures MatchAt(text, i, kw) == Some(Capture(i, SpaceRunEnd(text, i + |kw|), |text|))
  {
    var j := i + |kw|;
    var c := SpaceRunEnd(text, j);
    assert c < |text|;
    assert SlotRunEnd(text, c) == |text|;
  }

  /** `/\d+/` from index `i` on: the first digit and the end of its run. */
  function FirstDigitRun(text: string, i: nat): (r: Option<(nat, nat)>)
    requires i <= |text|
    ensures r.Some? ==> i <= r.value.0 < r.value.1 <= |text|
    ensures r.Some? ==> forall k :: i <= k < r.value.0 ==> !IsDigit(text[k])
    ensures r.Some? ==> forall k :: r.value.0 <= k < r.value.1 ==> IsDigit(text[k])
    ensures r.Some? ==> r.value.1 == |text| || !IsDigit(text[r.value.1])
    ensures r.None? <==> forall k :: i <= k < |text| ==> !IsDigit(text[k])
    decreases |text| - i
  {
    if i == |text| then None
    else if IsDigit(text[i]) then Some((i, DigitRunEnd(text, i)))
    else FirstDigitRun(text, i + 1)
  }

  function DigitRunEnd(text: string, i: nat): (e: nat)
    requires i <= |text|
    ensures i <= e <= |text|
    ensures forall k :: i <= k < e ==> IsDigit(text[k])
    ensures e < |text| ==> !IsDigit(text[e])
    decreases |text| - i
  {
    if i < |text| && IsDigit(text[i]) then DigitRunEnd(text, i + 1) else i
  }

  /** `extractNumber`: the value of the first maximal digit run, or null. */
  function ExtractNumber(text: string): (r: Option<nat>)
    ensures r.None? <==> forall k :: 0 <= k < |text| ==> !IsDigit(text[k])
  {
    match FirstDigitRun(text, 0)
    case Some(run) =>
      var digits := text[run.0..run.1];
      assert AllDigits(digits);
      Some(DigitsValue(digits))
    case None => None
  }

  /** Round trip: a number written in decimal between text without digits and
      text that does not continue it with a digit is read back. */
  lemma ExtractNumberReadsRendered(prefix: string, n: nat, suffix: string)
    requires forall k :: 0 <= k < |prefix| ==> !IsDigit(prefix[k])
    requires suffix == "" || !IsDigit(suffix[0])
    ensures ExtractNumber(prefix + NatToString(n) + suffix) == Some(n)
  {
    var d := NatToString(n);
    var text := prefix + d + suffix;
    FirstDigitRunFrom(text, 0, |prefix|);
    assert FirstDigitRun(text, |prefix|) == Some((|prefix|, DigitRunEnd(text, |prefix|)));
    DigitRunEndAt(text, |prefix|, |prefix| + |d|);
    assert text[|prefix|..|prefix| + |d|] == d;
    DigitsValueOfNatToString(n);
  }

  lemma {:induction false} FirstDigitRunFrom(text: string, i: nat, at: nat)
    requires i <= at <= |text|
    requires forall k :: i <= k < at ==> !IsDigit(text[k])
    ensures FirstDigitRun(text, i) == FirstDigitRun(text, at)
    decreases at - i
  {
    if i < at {
      FirstDigitRunFrom(text, i + 1, at);
    }
  }

  lemma {:induction false} DigitRunEndAt(text: string, i: nat, e: nat)
    requires i <= e <= |text|
    requires forall k :: i <= k < e ==> IsDigit(text[k])
    requires e == |text| || !IsDigit(text[e])
    ensures DigitRunEnd(text, i) == e
    decreases e - i
  {
    if i < e {
      DigitRunEndAt(text, i + 1, e);
    }
  }

  lemma {:induction false} SlotRunEndAt(text: string, c: nat, e: nat)
    requires c <= e <= |text|
    requires forall k :: c <= k < e ==> IsSlotChar(text[k])
    requires e == |text| || !IsSlotChar(text[e])
    ensures SlotRunEnd(text, c) == e
    decreases e - c
  {
    if c < e {
      SlotRunEndAt(text, c + 1, e);
    }
  }

  lemma SearchSkips(text: string, kw: string, from: nat)
    requires !KeywordAt(text, from, kw)
    ensures Search(text, kw, from) == Search(text, kw, from + 1)
  {
  }

  lemma SearchHere(text: string, kw: string, i: nat)
    requires MatchAt(text, i, kw).Some?
    ensures Search(text, kw, i) == MatchAt(text, i, kw)
  {
  }

  /** The leftmost start wins: a match at `i` with no occurrence of the keyword
      before it is what `match` returns. */
  lemma {:induction false} SearchFindsFirstOccurrence(text: string, kw: string, from: nat, i: nat)
    requires from <= i
    requires forall i' :: from <= i' < i ==> !KeywordAt(text, i', kw)
    requires MatchAt(text, i, kw).Some?
    ensures Search(text, kw, from) == MatchAt(text, i, kw)
    decreases i - from
  {
    if from < i {
      SearchSkips(text, kw, from);
      SearchFindsFirstOccurrence(text, kw, from + 1, i);
    } else {
      SearchHere(text, kw, i);
    }
  }

  /** With no occurrence of the keyword from `from` on, there is no match. */
  lemma {:induction false} SearchFindsNothing(text: string, kw: string, from: nat)
    requires forall i' :: from <= i' ==> !KeywordAt(text, i', kw)
    ensures Search(text, kw, from).None?
    decreases |text| + 1 - from
  {
    if from <= |text| {
      SearchSkips(text, kw, from);
      SearchFindsNothing(text, kw, from + 1);
    }
  }

  /** A whitespace run that reaches `x` ends at `x` or later. */
  lemma {:induction false} SpaceRunEndReaches(text: string, j: nat, x: nat)
    requires j <= x <= |text|
    requires forall k :: j <= k < x ==> IsSpace(text[k])
    ensures x <= SpaceRunEnd(text, j)
    decreases x - j
  {
    if j < x {
      SpaceRunEndReaches(text, j + 1, x);
    }
  }

  /** A run of slot characters that reaches `x` ends at `x` or later. */
  lemma {:induction false} SlotRunEndReaches(text: string, c: nat, x: nat)
    requires c <= x <= |text|
    requires forall k :: c <= k < x ==> IsSlotChar(text[k])
    ensures x <= SlotRunEnd(text, c)
    decreases x - c
  {
    if c < x {
      SlotRunEndReaches(text, c + 1, x);
    }
  }

  /** Backtracking over the whitespace run finds a capture whenever one exists:
      the start `m.start` is among the candidates `c`, `c - 1`, ..., `j + 1`. */
  lemma {:induction false} TrySpacesFinds(text: string, j: nat, c: nat, m: Capture)
    requires j < m.start <= c <= |text|
    requires forall k :: j <= k < c ==> IsSpace(text[k])
    requires m.start < m.end <= |text| && TailOk(text, m.end)
    requires forall k :: m.start <= k < m.end ==> IsSlotChar(text[k])
    ensures TrySpaces(text, j, c).Some?
    decreases c
  {
    var e := SlotRunEnd(text, c);
    if TryEnd(text, c, e).None? {
      if c == m.start {
        SlotRunEndReaches(text, c, m.end);
        assert false;
      }
      TrySpacesFinds(text, j, c - 1, m);
    }
  }

  /** The engine tried at a start index finds a match whenever the pattern
      matches there. */
  lemma MatchAtFindsMatch(text: string, kw: string, m: Capture)
    requires IsMatch(text, kw, m)
    ensures MatchAt(text, m.at, kw).Some?
  {
    var j := m.at + |kw|;
    SpaceRunEndReaches(text, j, m.start);
    var s := SpaceRunEnd(text, j);
    if s < m.start {
      assert false;
    }
    TrySpacesFinds(text, j, s, m);
  }

  /** An empty search from `i` means no start at or after `i` matches. */
  lemma {:induction false} SearchNoneBefore(text: string, kw: string, i: nat, a: nat)
    requires Search(text, kw, i).None? && i <= a
    ensures MatchAt(text, a, kw).None?
    decreases a - i
  {
    if i <= |text| && i < a {
      SearchNoneBefore(text, kw, i + 1, a);
    }
  }

  /** No start before the one `Search` returns matches. */
  lemma {:induction false} SearchSomeBefore(text: string, kw: string, i: nat, m: Capture, a: nat)
    requires Search(text, kw, i) == Some(m) && i <= a < m.at
    ensures MatchAt(text, a, kw).None?
    decreases a - i
  {
    if i < a {
      SearchSomeBefore(text, kw, i + 1, m, a);
    }
  }

  /** `match` returns null exactly when the pattern matches nowhere from `i` on. */
  lemma SearchNoneIff(text: string, kw: string, i: nat)
    ensures Search(text, kw, i).None? <==> forall m: Capture :: i <= m.at ==> !IsMatch(text, kw, m)
  {
    if Search(text, kw, i).None? {
      forall m: Capture | i <= m.at ensures !IsMatch(text, kw, m) {
        if IsMatch(text, kw, m) {
          MatchAtFindsMatch(text, kw, m);
          SearchNoneBefore(text, kw, i, m.at);
        }
      }
    }
  }

  /** The match `match` returns starts at the leftmost start that matches. */
  lemma SearchIsLeftmost(text: string, kw: string, i: nat, m: Capture, m': Capture)
    requires Search(text, kw, i) == Some(m)
    requires IsMatch(text, kw, m') && i <= m'.at
    ensures IsMatch(text, kw, m) && i <= m.at <= m'.at
  {
    if m'.at < m.at {
      MatchAtFindsMatch(text, kw, m');
      SearchSomeBefore(text, kw, i, m, m'.at);
    }
  }

  /** With no match starting in `from .. i - 1`, and a match at `i`, `match`
      returns the engine's match at `i`. */
  lemma SearchFindsFirstMatch(text: string, kw: string, from: nat, i: nat)
    requires from <= i && MatchAt(text, i, kw).Some?
    requires forall m: Capture :: from <= m.at < i ==> !IsMatch(text, kw, m)
    ensures Search(text, kw, from) == MatchAt(text, i, kw)
  {
    var here := MatchAt(text, i, kw).value;
    SearchNoneIff(text, kw, from);
    var m := Search(text, kw, from).value;
    SearchIsLeftmost(text, kw, from, m, here);
  }

  /** The extractors return null exactly when no pattern of the list matches
      anywhere in the text. */
  lemma FirstCaptureNone(text: string, keywords: seq<string>)
    ensures FirstCapture(text, keywords).None?
            <==> forall n, m :: 0 <= n < |keywords| ==> !IsMatch(text, keywords[n], m)
  {
    FirstCaptureNoneBySearch(text, keywords);
    forall n | 0 <= n < |keywords|
      ensures Search(text, keywords[n], 0).None? <==> forall m :: !IsMatch(text, keywords[n], m)
    {
      SearchNoneIff(text, keywords[n], 0);
    }
  }

  /** A keyword cannot start where its first character, in either case, is
      missing. */
  lemma NoKeywordWithout(text: string, kw: string, from: nat, to: nat, lo: char, up: char)
    requires kw != [] && kw[0] == lo && 'a' <= lo <= 'z' && up as int == lo as int - 32
    requires from <= to <= |text| && lo !in text[from..to] && up !in text[from..to]
    ensures forall i' :: from <= i' < to ==> !KeywordAt(text, i', kw)
  {
    forall i' | from <= i' < to ensures !KeywordAt(text, i', kw) {
      assert text[i'] == text[from..to][i' - from];
      if i' + |kw| <= |text| {
        assert text[i'..i' + |kw|][0] == text[i'];
      }
    }
  }

  /** No keyword starts where it would run past the end of the text. */
  lemma NoKeywordPastEnd(text: string, kw: string, from: nat)
    requires from + |kw| > |text|
    ensures forall i' :: from <= i' ==> !KeywordAt(text, i', kw)
  {
  }

  /** The first pattern of the list that matches decides. */
  lemma FirstCaptureHead(text: string, keywords: seq<string>, m: Capture)
    requires keywords != [] && Search(text, keywords[0], 0) == Some(m)
    ensures FirstCapture(text, keywords) == Some(Trim(text[m.start..m.end]))
  {
  }

  /** A text in which the keyword's first character, in either case, occurs
      nowhere the keyword could start has no match. */
  lemma NoMatchWithout(text: string, kw: string, lo: char, up: char)
    requires kw != [] && kw[0] == lo && 'a' <= lo <= 'z' && up as int == lo as int - 32
    requires |kw| <= |text| ==> lo !in text[..|text| - |kw| + 1] && up !in text[..|text| - |kw| + 1]
    ensures Search(text, kw, 0).None?
  {
    if |kw| <= |text| {
      NoKeywordWithout(text, kw, 0, |text| - |kw| + 1, lo, up);
    }
    SearchFindsNothing(text, kw, 0);
  }

  /** No pattern of the product list matches. */
  lemma ErpProductNone(text: string)
    requires Search(text, "for product", 0).None?
    requires Search(text, "of product", 0).None?
    requires Search(text, "product", 0).None?
    ensures FirstCapture(text, ErpProductKeywords) == None
  {
    FirstCaptureNoneBySearch(text, ErpProductKeywords);
  }

  /** The match at a keyword occurrence followed by one whitespace character and
      a run of letters and digits that the text ends with or follows with a
      valid tail. */
  lemma MatchOfWord(text: string, i: nat, kw: string, e: nat)
    requires KeywordAt(text, i, kw)
    requires i + |kw| + 1 < e <= |text| && IsSpace(text[i + |kw|])
    requires forall k :: i + |kw| < k < e ==> IsAsciiLetter(text[k]) || IsDigit(text[k])
    requires e == |text| || text[e] == '.'
    ensures MatchAt(text, i, kw) == Some(Capture(i, i + |kw| + 1, e))
  {
    var j := i + |kw|;
    assert SpaceRunEnd(text, j + 1) == j + 1;
    SlotRunEndAt(text, j + 1, e);
  }

  const WidgetCommand := "check inventory for product Widget."

  lemma WidgetNoEarlier()
    ensures forall i' :: 0 <= i' < 16 ==> !KeywordAt(WidgetCommand, i', "for product")
  {
    NoKeywordWithout(WidgetCommand, "for product", 0, 16, 'f', 'F');
  }

  lemma WidgetMatch()
    ensures MatchAt(WidgetCommand, 16, "for product") == Some(Capture(16, 28, 34))
  {
    var t := WidgetCommand;
    assert t[16..27] == "for product";
    assert t[28..34] == "Widget";
    assert forall c | c in "Widget" :: IsAsciiLetter(c);
    assert forall k :: 28 <= k < 34 ==> t[k] == t[28..34][k - 28];
    MatchOfWord(t, 16, "for product", 34);
  }

  lemma WidgetTrimmed()
    ensures Trim(WidgetCommand[28..34]) == "Widget"
  {
    assert WidgetCommand[28..34] == "Widget";
    TrimOfTrimmed("Widget");
  }

  /** Example: the product keeps the casing of the command and stops before the
      full stop. */
  lemma ErpProductOfWidget()
    ensures FirstCapture(WidgetCommand, ErpProductKeywords) == Some("Widget")
  {
    WidgetNoEarlier();
    WidgetMatch();
    SearchFindsFirstOccurrence(WidgetCommand, "for product", 0, 16);
    FirstCaptureHead(WidgetCommand, ErpProductKeywords, Capture(16, 28, 34));
    WidgetTrimmed();
  }

  const BareCommand := "check inventory"

  lemma BareNoForProduct() ensures Search(BareCommand, "for product", 0).None? {
    NoMatchWithout(BareCommand, "for product", 'f', 'F');
  }

  lemma BareNoOfProduct() ensures Search(BareCommand, "of product", 0).None? {
    NoMatchWithout(BareCommand, "of product", 'o', 'O');
  }

  lemma BareNoProduct() ensures Search(BareCommand, "product", 0).None? {
    NoMatchWithout(BareCommand, "product", 'p', 'P');
  }

  /** Example: with no slot keyword in the text there is no product. */
  lemma ErpProductMissing()
    ensures FirstCapture(BareCommand, ErpProductKeywords) == None
  {
    BareNoForProduct();
    BareNoOfProduct();
    BareNoProduct();
    ErpProductNone(BareCommand);
  }

  /** The QBS product extractor agrees with the ERPNext one whenever the latter
      finds a product, so "for product X" keeps its priority; only otherwise
      does the bare `for` pattern get its turn. */
  lemma QbsProductExtendsErp(text: string)
    ensures QbsProductName(text) == if ErpProductName(text).Some? then ErpProductName(text)
                                    else FirstCapture(text, ["for"])
  {
    FirstCaptureAppend(text, ErpProductKeywords, ["for"]);
  }

  const PlateCommand := "check inventory for Plate"

  lemma PlateNoForProduct() ensures Search(PlateCommand, "for product", 0).None? {
    NoMatchWithout(PlateCommand, "for product", 'f', 'F');
  }

  lemma PlateNoOfProductBefore() ensures forall i' :: 0 <= i' < 12 ==> !KeywordAt(PlateCommand, i', "of product") {
    NoKeywordWithout(PlateCommand, "of product", 0, 12, 'o', 'O');
  }

  lemma PlateNoOfProductAt() ensures !KeywordAt(PlateCommand, 12, "of product") {
    assert PlateCommand[12..22][1] == 'r';
  }

  lemma PlateNoOfProductAfter() ensures forall i' :: 13 <= i' ==> !KeywordAt(PlateCommand, i', "of product") {
    NoKeywordWithout(PlateCommand, "of product", 13, 16, 'o', 'O');
    NoKeywordPastEnd(PlateCommand, "of product", 16);
  }

  lemma PlateNoOfProduct() ensures Search(PlateCommand, "of product", 0).None? {
    PlateNoOfProductBefore();
    PlateNoOfProductAt();
    PlateNoOfProductAfter();
    SearchFindsNothing(PlateCommand, "of product", 0);
  }

  lemma PlateNoProduct() ensures Search(PlateCommand, "product", 0).None? {
    NoMatchWithout(PlateCommand, "product", 'p', 'P');
  }

  lemma PlateNoEarlierFor() ensures forall i' :: 0 <= i' < 16 ==> !KeywordAt(PlateCommand, i', "for") {
    NoKeywordWithout(PlateCommand, "for", 0, 16, 'f', 'F');
  }

  lemma PlateMatch() ensures MatchAt(PlateCommand, 16, "for") == Some(Capture(16, 20, 25)) {
    var t := PlateCommand;
    assert t[16..19] == "for";
    assert t[20..25] == "Plate";
    assert forall c | c in "Plate" :: IsAsciiLetter(c);
    assert forall k :: 20 <= k < 25 ==> t[k] == t[20..25][k - 20];
    MatchOfWord(t, 16, "for", 25);
  }

  lemma PlateTrimmed() ensures Trim(PlateCommand[20..25]) == "Plate" {
    assert PlateCommand[20..25] == "Plate";
    TrimOfTrimmed("Plate");
  }

  /** Example: the bare `for` pattern finds "Plate" in the QBS interpreter, where
      the ERPNext interpreter finds no product at all. */
  lemma QbsProductOfPlate()
    ensures ErpProductName(PlateCommand) == None
    ensures QbsProductName(PlateCommand) == Some("Plate")
  {
    PlateNoForProduct();
    PlateNoOfProduct();
    PlateNoProduct();
    ErpProductNone(PlateCommand);
    QbsProductExtendsErp(PlateCommand);
    PlateNoEarlierFor();
    PlateMatch();
    SearchFindsFirstOccurrence(PlateCommand, "for", 0, 16);
    FirstCaptureHead(PlateCommand, ["for"], Capture(16, 20, 25));
    PlateTrimmed();
  }
}
