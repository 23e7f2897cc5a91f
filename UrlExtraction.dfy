/**
 * URL extraction and host extraction: `extract_urls` and `domain_of` of the
 * detection engine.
 *
 * `extract_urls` runs `re.findall(r"(https?://[^\s]+)", text, re.IGNORECASE)`
 * and strips trailing `).,;!"'` from every match.  The regular-expression
 * scan is written out here as `Scan`: from left to right, a match starts at
 * the first position where the scheme matches and is followed by at least one
 * non-whitespace character, runs to the next whitespace character (the
 * pattern is greedy), and the scan resumes where the match ended.
 */
module UrlExtraction {
  import opened Wrappers
  import opened Text

  /** The characters `u.rstrip(").,;!\"'")` removes. */
  predicate IsTrailingPunct(c: char) {
    c == ')' || c == '.' || c == ',' || c == ';' || c == '!' || c == '"' || c == '\''
  }

  /** `str.rstrip` with the trailing-punctuation set: the longest prefix not ending in punctuation. */
  function RStripPunct(s: string): (r: string)
    ensures |r| <= |s| && r == s[..|r|]
    ensures r == [] || !IsTrailingPunct(r[|r| - 1])
    ensures forall k :: |r| <= k < |s| ==> IsTrailingPunct(s[k])
    decreases |s|
  {
    if s != [] && IsTrailingPunct(s[|s| - 1]) then RStripPunct(s[..|s| - 1]) else s
  }

  /** A string not ending in punctuation is left as it is. */
  lemma RStripPunctKeeps(s: string)
    requires s != [] && !IsTrailingPunct(s[|s| - 1])
    ensures RStripPunct(s) == s
  {
  }

  /**
   * The length of the `https?://` the pattern matches at position `i`, ignoring
   * case, or 0 when it matches none.  The optional `s` is tried first; when it
   * is there but `://` does not follow it, the pattern falls back to matching
   * without it, which then fails on the `s`.
   */
  function SchemeLength(s: string, i: nat): (n: nat)
    requires i <= |s|
    ensures n == 0 || n == 7 || n == 8
    ensures i + n <= |s|
  {
    if && i + 7 <= |s|
       && LowerChar(s[i]) == 'h' && LowerChar(s[i + 1]) == 't'
       && LowerChar(s[i + 2]) == 't' && LowerChar(s[i + 3]) == 'p'
    then
      if i + 8 <= |s| && LowerChar(s[i + 4]) == 's' && s[i + 5] == ':' && s[i + 6] == '/' && s[i + 7] == '/' then 8
      else if s[i + 4] == ':' && s[i + 5] == '/' && s[i + 6] == '/' then 7
      else 0
    else 0
  }

  /** `s` begins with `http://` or `https://`, in any case. */
  predicate BeginsWithScheme(s: string) {
    (|s| >= 7 && Lower(s[..7]) == "http://") || (|s| >= 8 && Lower(s[..8]) == "https://")
  }

  /** A string to which `domain_of` is applied in this model: one that begins with the scheme. */
  predicate IsHttpUrl(s: string) {
    SchemeLength(s, 0) > 0
  }

  /** A lowered string equals a literal exactly when it does character by character. */
  lemma LowerEquals(u: string, lit: string)
    requires |u| == |lit|
    ensures Lower(u) == lit <==> forall m :: 0 <= m < |u| ==> LowerChar(u[m]) == lit[m]
  {
    if forall m :: 0 <= m < |u| ==> LowerChar(u[m]) == lit[m] {
      assert Lower(u) == lit;
    }
  }

  /** Only `:` lowers to `:` and only `/` lowers to `/`. */
  lemma LowerPunct(c: char)
    ensures LowerChar(c) == ':' <==> c == ':'
    ensures LowerChar(c) == '/' <==> c == '/'
  {
  }

  /** The seven or eight characters at `i` spell the scheme when lowered. */
  lemma SchemeAt(s: string, i: nat, lit: string)
    requires i + |lit| <= |s|
    ensures Lower(s[i..][..|lit|]) == lit <==> forall m :: 0 <= m < |lit| ==> LowerChar(s[i + m]) == lit[m]
  {
    var u := s[i..][..|lit|];
    LowerEquals(u, lit);
    assert forall m :: 0 <= m < |lit| ==> u[m] == s[i + m];
  }

  lemma SchemeLengthMeansScheme(s: string, i: nat)
    requires i <= |s|
    ensures SchemeLength(s, i) > 0 <==> BeginsWithScheme(s[i..])
  {
    if i + 7 <= |s| {
      SchemeAt(s, i, "http://");
      LowerPunct(s[i + 4]);
      LowerPunct(s[i + 5]);
      LowerPunct(s[i + 6]);
      assert "http://"[0] == 'h' && "http://"[1] == 't' && "http://"[2] == 't' && "http://"[3] == 'p';
      assert "http://"[4] == ':' && "http://"[5] == '/' && "http://"[6] == '/';
    }
    if i + 8 <= |s| {
      SchemeAt(s, i, "https://");
      LowerPunct(s[i + 5]);
      LowerPunct(s[i + 6]);
      LowerPunct(s[i + 7]);
      assert "https://"[0] == 'h' && "https://"[1] == 't' && "https://"[2] == 't' && "https://"[3] == 'p';
      assert "https://"[4] == 's' && "https://"[5] == ':' && "https://"[6] == '/' && "https://"[7] == '/';
    }
  }

  /** The scheme's characters are letters, `:` and `/`: none of them is whitespace or punctuation. */
  lemma SchemeCharacters(s: string, i: nat)
    requires i <= |s| && SchemeLength(s, i) > 0
    ensures forall m :: i <= m < i + SchemeLength(s, i) ==> !IsSpace(s[m])
    ensures s[i + SchemeLength(s, i) - 1] == '/'
  {
  }

  /** The scheme length depends only on the characters the scheme covers. */
  lemma SchemeLengthOfPrefix(s: string, i: nat, t: string)
    requires i <= |s|
    requires 0 < SchemeLength(s, i) <= |t|
    requires t[..SchemeLength(s, i)] == s[i..i + SchemeLength(s, i)]
    ensures SchemeLength(t, 0) == SchemeLength(s, i)
  {
    var n := SchemeLength(s, i);
    forall m | 0 <= m < n ensures t[m] == s[i + m] {
      assert t[..n][m] == s[i..i + n][m];
    }
  }

  /** The end of the run of non-whitespace characters starting at `j`: where `[^\s]+` stops. */
  function RunEnd(s: string, j: nat): (k: nat)
    requires j <= |s|
    ensures j <= k <= |s|
    ensures forall m :: j <= m < k ==> !IsSpace(s[m])
    ensures k == |s| || IsSpace(s[k])
    decreases |s| - j
  {
    if j == |s| || IsSpace(s[j]) then j else RunEnd(s, j + 1)
  }

  /** Where a match of `https?://[^\s]+` starting at `i` ends, if one starts there. */
  function MatchAt(s: string, i: nat): (e: Option<nat>)
    requires i <= |s|
    ensures e.Some? ==> i < e.value <= |s|
    ensures e.Some? ==> e.value == |s| || IsSpace(s[e.value])
  {
    var n := SchemeLength(s, i);
    if n > 0 && i + n < |s| && !IsSpace(s[i + n]) then Some(RunEnd(s, i + n)) else None
  }

  /** The position and end of one raw match. */
  datatype Span = Span(start: nat, end: nat)

  /** The matches `re.findall` reports from position `i` on, left to right, non-overlapping. */
  function Scan(s: string, i: nat): (spans: seq<Span>)
    requires i <= |s|
    ensures forall k :: 0 <= k < |spans| ==>
      i <= spans[k].start < spans[k].end <= |s| && MatchAt(s, spans[k].start) == Some(spans[k].end)
    ensures forall j, k :: 0 <= j < k < |spans| ==> spans[j].end <= spans[k].start
    decreases |s| - i
  {
    if i == |s| then []
    else match MatchAt(s, i)
      case Some(e) => [Span(i, e)] + Scan(s, e)
      case None => Scan(s, i + 1)
  }

  function Spans(text: string): seq<Span> {
    Scan(text, 0)
  }

  /** The list comprehension `[u.rstrip(...) for u in urls]` over the raw matches. */
  function StripEach(text: string, spans: seq<Span>): (urls: seq<string>)
    requires forall k :: 0 <= k < |spans| ==> spans[k].start <= spans[k].end <= |text|
    ensures |urls| == |spans|
    ensures forall k :: 0 <= k < |spans| ==>
      urls[k] == RStripPunct(text[spans[k].start..spans[k].end])
  {
    if spans == [] then []
    else [RStripPunct(text[spans[0].start..spans[0].end])] + StripEach(text, spans[1..])
  }

  /** `extract_urls(text)`: every match, with trailing punctuation stripped, in text order. */
  function ExtractUrls(text: string): (urls: seq<string>)
    ensures |urls| == |Spans(text)|
  {
    if text == [] then [] else StripEach(text, Spans(text))
  }

  /** The `k`-th extracted URL is the `k`-th raw match with its trailing punctuation stripped. */
  lemma ExtractedUrlAt(text: string, k: nat)
    requires k < |ExtractUrls(text)|
    ensures var sp := Spans(text)[k];
      && sp.start < sp.end <= |text|
      && MatchAt(text, sp.start) == Some(sp.end)
      && ExtractUrls(text)[k] == RStripPunct(text[sp.start..sp.end])
  {
  }

  /**
   * `u` is the text from position `i` on, and between its end and `e` the
   * text holds only punctuation `rstrip` removes.
   */
  predicate StrippedFrom(text: string, u: string, i: nat, e: nat) {
    && i + |u| <= e <= |text|
    && u == text[i..i + |u|]
    && (forall m :: i + |u| <= m < e ==> IsTrailingPunct(text[m]))
  }

  /**
   * A raw match with its trailing punctuation stripped still holds the whole
   * scheme; only punctuation was cut off.
   */
  lemma StrippedMatchPosition(s: string, i: nat, e: nat)
    requires i <= |s| && MatchAt(s, i) == Some(e)
    ensures SchemeLength(s, i) <= |RStripPunct(s[i..e])|
    ensures StrippedFrom(s, RStripPunct(s[i..e]), i, e)
  {
    var raw := s[i..e];
    var u := RStripPunct(raw);
    var n := SchemeLength(s, i);
    SchemeCharacters(s, i);
    assert raw[n - 1] == '/';
    assert !IsTrailingPunct(raw[n - 1]);
    assert n <= |u|;
    assert u == raw[..|u|] == s[i..i + |u|];
    forall m | i + |u| <= m < e ensures IsTrailingPunct(s[m]) {
      assert s[m] == raw[m - i];
    }
  }

  /**
   * A raw match with its trailing punctuation stripped is a URL of the same
   * scheme; it holds no whitespace and does not end in punctuation.
   */
  lemma StrippedMatchForm(s: string, i: nat, e: nat)
    requires i <= |s| && MatchAt(s, i) == Some(e)
    ensures var u := RStripPunct(s[i..e]);
      && SchemeLength(u, 0) == SchemeLength(s, i)
      && (forall m :: 0 <= m < |u| ==> !IsSpace(u[m]))
      && !IsTrailingPunct(u[|u| - 1])
  {
    var u := RStripPunct(s[i..e]);
    StrippedMatchPosition(s, i, e);
    SchemeCharacters(s, i);
    SchemeLengthOfPrefix(s, i, u);
    forall m | 0 <= m < |u| ensures !IsSpace(u[m]) {
      assert u[m] == s[i + m];
    }
  }

  /** Every raw match runs up to whitespace or to the end of the text: the pattern is greedy. */
  lemma MatchEndsAtSpace(text: string, k: nat)
    requires k < |ExtractUrls(text)|
    ensures Spans(text)[k].end == |text| || IsSpace(text[Spans(text)[k].end])
  {
    ExtractedUrlAt(text, k);
  }

  /**
   * Every extracted URL is the text at its match's position with only
   * punctuation cut off its end.
   */
  lemma ExtractedUrlPosition(text: string, k: nat)
    requires k < |ExtractUrls(text)|
    ensures StrippedFrom(text, ExtractUrls(text)[k], Spans(text)[k].start, Spans(text)[k].end)
  {
    var sp := Spans(text)[k];
    ExtractedUrlAt(text, k);
    StrippedMatchPosition(text, sp.start, sp.end);
  }

  /**
   * Every extracted URL begins with `http://` or `https://` in any case,
   * holds no whitespace, and does not end in `).,;!"'`.
   */
  lemma ExtractedUrlForm(text: string, k: nat)
    requires k < |ExtractUrls(text)|
    ensures var u := ExtractUrls(text)[k];
      && BeginsWithScheme(u)
      && IsHttpUrl(u)
      && (forall m :: 0 <= m < |u| ==> !IsSpace(u[m]))
      && !IsTrailingPunct(u[|u| - 1])
  {
    var sp := Spans(text)[k];
    var u := ExtractUrls(text)[k];
    ExtractedUrlAt(text, k);
    StrippedMatchForm(text, sp.start, sp.end);
    SchemeLengthMeansScheme(u, 0);
    assert u[0..] == u;
  }

  /** Every extracted URL is a substring of the text it was extracted from. */
  lemma ExtractedUrlIsSubstring(text: string, k: nat)
    requires k < |ExtractUrls(text)|
    ensures Contains(text, ExtractUrls(text)[k])
  {
    ExtractedUrlPosition(text, k);
    StrippedIsSubstring(text, ExtractUrls(text)[k], Spans(text)[k].start, Spans(text)[k].end);
  }

  lemma StrippedIsSubstring(text: string, u: string, i: nat, e: nat)
    requires StrippedFrom(text, u, i, e)
    ensures Contains(text, u)
  {
    assert OccursAt(text, u, i);
    ContainsIff(text, u);
  }

  /** Extracted URLs follow the order of their positions in the text and never overlap. */
  lemma ExtractedUrlsInTextOrder(text: string, j: nat, k: nat)
    requires j < k < |ExtractUrls(text)|
    ensures Spans(text)[j].start + |ExtractUrls(text)[j]| <= Spans(text)[k].start
  {
    ExtractedUrlPosition(text, j);
    ExtractedUrlAt(text, k);
  }

  /** The scan misses no match: it finds nothing exactly when no position of the text starts a match. */
  lemma {:induction false} ScanEmptyIff(s: string, i: nat)
    requires i <= |s|
    ensures Scan(s, i) == [] <==> forall j :: i <= j < |s| ==> MatchAt(s, j).None?
    decreases |s| - i
  {
    if i < |s| && MatchAt(s, i).None? {
      ScanEmptyIff(s, i + 1);
    }
  }

  /** `extract_urls` returns an empty list exactly when no position of the text starts a match. */
  lemma ExtractUrlsEmptyIff(text: string)
    ensures ExtractUrls(text) == [] <==> forall j :: 0 <= j < |text| ==> MatchAt(text, j).None?
  {
    ScanEmptyIff(text, 0);
  }

  /** The run of non-whitespace from `j` ends at `k` when the text shows it does. */
  lemma {:induction false} RunEndIs(s: string, j: nat, k: nat)
    requires j <= k <= |s|
    requires forall m :: j <= m < k ==> !IsSpace(s[m])
    requires k == |s| || IsSpace(s[k])
    ensures RunEnd(s, j) == k
    decreases k - j
  {
    if j < k {
      RunEndIs(s, j + 1, k);
    }
  }

  /** The scheme matched at `i` depends only on the characters there. */
  lemma SchemeLengthInContext(s: string, i: nat, u: string)
    requires 8 <= |u| && i + |u| <= |s| && s[i..i + |u|] == u
    ensures SchemeLength(s, i) == SchemeLength(u, 0)
  {
    forall m | 0 <= m < 8
      ensures s[i + m] == u[m]
    {
      assert s[i..i + |u|][m] == s[i + m];
    }
  }

  /** A whole URL as `findall` sees it: a scheme, at least one more character, no whitespace. */
  predicate IsUrlWord(u: string) {
    && 8 <= |u|
    && 0 < SchemeLength(u, 0) < |u|
    && forall m :: 0 <= m < |u| ==> !IsSpace(u[m])
  }

  /** A URL word followed by whitespace or the end of the text is matched whole. */
  lemma UrlWordIsMatched(s: string, i: nat, u: string)
    requires IsUrlWord(u) && i + |u| <= |s| && s[i..i + |u|] == u
    requires i + |u| == |s| || IsSpace(s[i + |u|])
    ensures MatchAt(s, i) == Some(i + |u|)
  {
    SchemeLengthInContext(s, i, u);
    forall m | i <= m < i + |u|
      ensures !IsSpace(s[m])
    {
      assert s[i..i + |u|][m - i] == s[m];
    }
    RunEndIs(s, i + SchemeLength(u, 0), i + |u|);
  }

  /** No match starts at a character other than `h` or `H`. */
  lemma NoMatchWithoutH(s: string, i: nat)
    requires i < |s| && LowerChar(s[i]) != 'h'
    ensures MatchAt(s, i).None?
  {
  }

  /** The scan passes over positions where no `h` or `H` stands. */
  lemma {:induction false} ScanSkipsTo(s: string, i: nat, j: nat)
    requires i <= j <= |s|
    requires forall p :: i <= p < j ==> LowerChar(s[p]) != 'h'
    ensures Scan(s, i) == Scan(s, j)
    decreases j - i
  {
    if i < j {
      NoMatchWithoutH(s, i);
      ScanAtMiss(s, i);
      ScanSkipsTo(s, i + 1, j);
    }
  }

  /** A raw match holds no whitespace. */
  lemma MatchHasNoSpace(s: string, i: nat, e: nat, m: nat)
    requires i <= |s| && MatchAt(s, i) == Some(e) && i <= m < e
    ensures !IsSpace(s[m])
  {
    SchemeCharacters(s, i);
  }

  /** Position `j` lies inside one of the matches `spans`. */
  predicate Covered(spans: seq<Span>, j: nat) {
    exists k :: 0 <= k < |spans| && spans[k].start <= j < spans[k].end
  }

  /** One step of the scan: a match at `i` is reported and the scan resumes at its end. */
  lemma ScanAtMatch(s: string, i: nat)
    requires i < |s| && MatchAt(s, i).Some?
    ensures Scan(s, i) == [Span(i, MatchAt(s, i).value)] + Scan(s, MatchAt(s, i).value)
  {
  }

  /** One step of the scan: with no match at `i`, the scan moves on by one position. */
  lemma ScanAtMiss(s: string, i: nat)
    requires i < |s| && MatchAt(s, i).None?
    ensures Scan(s, i) == Scan(s, i + 1)
  {
  }

  lemma CoveredCons(sp: Span, spans: seq<Span>, j: nat)
    requires Covered(spans, j) || sp.start <= j < sp.end
    ensures Covered([sp] + spans, j)
  {
    if sp.start <= j < sp.end {
      assert ([sp] + spans)[0] == sp;
    } else {
      var k :| 0 <= k < |spans| && spans[k].start <= j < spans[k].end;
      assert ([sp] + spans)[k + 1] == spans[k];
    }
  }

  /**
   * The scan skips no match: every position from `i` on where the pattern
   * matches lies inside one of the matches reported, so between, before and
   * after the reported matches no match starts.
   */
  lemma {:induction false} ScanCoversMatches(s: string, i: nat, j: nat)
    requires i <= j < |s| && MatchAt(s, j).Some?
    ensures Covered(Scan(s, i), j)
    decreases |s| - i
  {
    if MatchAt(s, i).Some? {
      var e := MatchAt(s, i).value;
      ScanAtMatch(s, i);
      if e <= j {
        ScanCoversMatches(s, e, j);
      }
      CoveredCons(Span(i, e), Scan(s, e), j);
    } else {
      ScanAtMiss(s, i);
      ScanCoversMatches(s, i + 1, j);
    }
  }

  /** A match that starts at the beginning of the text or right after whitespace is reported as it stands. */
  lemma MatchAfterSpaceIsReported(text: string, j: nat)
    requires j < |text| && MatchAt(text, j).Some?
    requires j == 0 || IsSpace(text[j - 1])
    ensures exists k :: 0 <= k < |Spans(text)| && Spans(text)[k] == Span(j, MatchAt(text, j).value)
  {
    var spans := Spans(text);
    ScanCoversMatches(text, 0, j);
    var k :| 0 <= k < |spans| && spans[k].start <= j < spans[k].end;
    var p, e := spans[k].start, spans[k].end;
    if p < j {
      MatchHasNoSpace(text, p, e, j - 1);
      assert false;
    }
    assert spans[k] == Span(j, MatchAt(text, j).value);
  }

  /** So the stripped text of such a match is one of the extracted URLs. */
  lemma MatchAfterSpaceIsExtracted(text: string, j: nat)
    requires j < |text| && MatchAt(text, j).Some?
    requires j == 0 || IsSpace(text[j - 1])
    ensures RStripPunct(text[j..MatchAt(text, j).value]) in ExtractUrls(text)
  {
    MatchAfterSpaceIsReported(text, j);
    var k :| 0 <= k < |Spans(text)| && Spans(text)[k] == Span(j, MatchAt(text, j).value);
    ExtractedUrlAt(text, k);
  }

  /**
   * A URL written as a word of its own at position `j`, between whitespace
   * or the ends of the text and not ending in punctuation, is among the
   * extracted URLs.
   */
  lemma UrlWordIsExtracted(text: string, j: nat, u: string)
    requires IsUrlWord(u) && !IsTrailingPunct(u[|u| - 1])
    requires j + |u| <= |text| && text[j..j + |u|] == u
    requires j == 0 || IsSpace(text[j - 1])
    requires j + |u| == |text| || IsSpace(text[j + |u|])
    ensures u in ExtractUrls(text)
  {
    UrlWordIsMatched(text, j, u);
    var e := MatchAt(text, j).value;
    assert e == j + |u|;
    RStripPunctKeeps(u);
    assert RStripPunct(text[j..e]) == u;
    MatchAfterSpaceIsExtracted(text, j);
  }

  /**
   * `domain_of(url)` for a string that begins with `http://` or `https://`:
   * the authority part (after `://`, up to the first `/`, `?` or `#`),
   * lower-cased and cut at its first `:`, or `None` when that leaves nothing.
   */
  function DomainOf(url: string): (host: Option<string>)
    requires IsHttpUrl(url)
    ensures host.Some? ==> host.value != [] && HasNoUpper(host.value)
    ensures host.Some? ==> forall m :: 0 <= m < |host.value| ==> host.value[m] !in {':', '/', '?', '#'}
  {
    var netloc := PrefixBefore(url[SchemeLength(url, 0)..], {'/', '?', '#'});
    var host := PrefixBefore(Lower(netloc), {':'});
    if host == [] then None else Some(host)
  }

  /** A host free of `/?#:` and of upper-case letters that ends the authority is what `domain_of` returns. */
  lemma DomainOfPlainHost(url: string, h: string)
    requires IsHttpUrl(url)
    requires SchemeLength(url, 0) + |h| <= |url|
    requires url[SchemeLength(url, 0)..SchemeLength(url, 0) + |h|] == h
    requires SchemeLength(url, 0) + |h| == |url| || url[SchemeLength(url, 0) + |h|] in {'/', '?', '#'}
    requires h != [] && HasNoUpper(h)
    requires forall m :: 0 <= m < |h| ==> h[m] !in {'/', '?', '#', ':'}
    ensures DomainOf(url) == Some(h)
  {
    var n := SchemeLength(url, 0);
    var rest := url[n..];
    forall k | 0 <= k < |h|
      ensures rest[k] !in {'/', '?', '#'}
    {
      assert rest[k] == url[n..n + |h|][k];
    }
    PrefixBeforeIs(rest, {'/', '?', '#'}, |h|);
    assert rest[..|h|] == h;
    LowerOfLowerCase(h);
    PrefixBeforeIs(h, {':'}, |h|);
    assert h[..|h|] == h;
  }

  /**
   * A host `domain_of` returns is non-empty, lower-case, holds no `:`, `/`,
   * `?` or `#`, and is the lower-cased text right after the scheme; it
   * returns `None` exactly when the authority is empty or starts with `:`.
   */
  lemma DomainOfShape(url: string)
    requires IsHttpUrl(url)
    ensures var n := SchemeLength(url, 0);
      match DomainOf(url)
      case Some(h) =>
        && h != []
        && HasNoUpper(h)
        && (forall m :: 0 <= m < |h| ==> h[m] != ':' && h[m] != '/' && h[m] != '?' && h[m] != '#')
        && n + |h| <= |url|
        && h == Lower(url[n..n + |h|])
      case None =>
        n == |url| || url[n] in {'/', '?', '#', ':'}
  {
    var n := SchemeLength(url, 0);
    var netloc := PrefixBefore(url[n..], {'/', '?', '#'});
    var host := PrefixBefore(Lower(netloc), {':'});
    LowerSlice(netloc, 0, |host|);
    assert netloc[..|host|] == url[n..n + |host|];
    if host == [] && n < |url| && url[n] !in {'/', '?', '#'} {
      assert netloc != [] && netloc[0] == url[n];
      assert Lower(netloc)[0] == ':';
    }
  }

  /** A host taken from a URL without whitespace holds no whitespace either. */
  lemma HostHasNoSpace(url: string)
    requires IsHttpUrl(url)
    requires forall m :: 0 <= m < |url| ==> !IsSpace(url[m])
    ensures DomainOf(url).Some? ==> forall m :: 0 <= m < |DomainOf(url).value| ==> !IsSpace(DomainOf(url).value[m])
  {
    DomainOfShape(url);
    if DomainOf(url).Some? {
      var h, n := DomainOf(url).value, SchemeLength(url, 0);
      forall m | 0 <= m < |h| ensures !IsSpace(h[m]) {
        assert h[m] == LowerChar(url[n + m]);
      }
    }
  }
}
