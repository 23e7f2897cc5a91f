/**
 * Worked examples: concrete messages and what the engine makes of them.
 */
module EngineExamples {
  import opened Wrappers
  import opened Text
  import opened UrlExtraction
  import opened DetectionEngine
  import opened EngineProperties

  // ---------------------------------------------------------------------------
  // A URL inside a sentence

  const PathUrl: string := "https://example.com/path?a=1"
  const Sentence: string := "See " + PathUrl + " now."

  lemma PathUrlIsUrlWord()
    ensures IsUrlWord(PathUrl) && |PathUrl| == 28
  {
  }

  lemma SentenceMatch()
    ensures |Sentence| == 37
    ensures MatchAt(Sentence, 4) == Some(32)
  {
    PathUrlIsUrlWord();
    assert Sentence[4..32] == PathUrl;
    UrlWordIsMatched(Sentence, 4, PathUrl);
  }

  lemma SentenceSpans()
    ensures Spans(Sentence) == [Span(4, 32)]
  {
    SentenceMatch();
    ScanSkipsTo(Sentence, 0, 4);
    ScanAtMatch(Sentence, 4);
    ScanSkipsTo(Sentence, 32, 37);
  }

  /** A URL inside a sentence is extracted without the words around it or the full stop after them. */
  lemma UrlInSentenceIsExtracted()
    ensures ExtractUrls(Sentence) == [PathUrl]
  {
    SentenceSpans();
    SentenceMatch();
    assert Sentence[4..32] == PathUrl;
  }

  // ---------------------------------------------------------------------------
  // A lone shortened link

  const ShortLink: string := "http://bit.ly/abc"
  const ShortLinkEvidence: Features := Features([ShortLink], Some(UrlCounts(1, 0, 0)), [], [], [], false)

  lemma ShortLinkUrls()
    ensures ExtractUrls(ShortLink) == [ShortLink]
  {
    assert IsUrlWord(ShortLink) && |ShortLink| == 17;
    assert ShortLink[0..17] == ShortLink;
    UrlWordIsMatched(ShortLink, 0, ShortLink);
    ScanAtMatch(ShortLink, 0);
    assert Spans(ShortLink) == [Span(0, 17)];
  }

  lemma ShortLinkHost()
    ensures IsHttpUrl(ShortLink) && HostOf(ShortLink) == "bit.ly"
  {
    assert ShortLink[7..13] == "bit.ly" && ShortLink[13] == '/';
    DomainOfPlainHost(ShortLink, "bit.ly");
  }

  lemma ShortLinkCounts()
    ensures AllHttpUrls([ShortLink])
    ensures LinkCounts([ShortLink]) == Some(UrlCounts(1, 0, 0))
  {
    ShortLinkHost();
    assert Hosts([ShortLink]) == ["bit.ly"];
    CountFlaggedSingle("bit.ly", Shortener);
    CountFlaggedSingle("bit.ly", IpLiteral);
    CountFlaggedSingle("bit.ly", UnusualLooking);
    assert !IsIpv4Literal("bit.ly") && !LooksUnusual("bit.ly");
  }

  /** The characters of the lowered text "\nhttp://bit.ly/abc". */
  const ShortLinkAlphabet: set<char> := {'\n', 'h', 't', 'p', ':', '/', 'b', 'i', '.', 'l', 'y', 'a', 'c'}

  lemma ShortLinkText()
    ensures MessageText(None, Some(ShortLink)) == "\n" + ShortLink
    ensures forall m :: 0 <= m < |"\n" + ShortLink| ==> ("\n" + ShortLink)[m] in ShortLinkAlphabet
  {
    assert "" + "\n" + ShortLink == "\n" + ShortLink;
    LowerOfLowerCase("\n" + ShortLink);
  }

  lemma ShortLinkNotUrgent()
    ensures Hits(UrgentKeywords, "\n" + ShortLink) == []
    ensures !MentionsPayment("\n" + ShortLink)
  {
    ShortLinkText();
    NoHitsOutsideAlphabet(UrgentKeywords, "\n" + ShortLink, ShortLinkAlphabet, [0, 1, 1, 4, 0, 0, 1, 2, 0, 1, 3, 0, 1]);
    PaymentWordsAreUrgent("\n" + ShortLink);
  }

  lemma ShortLinkAsksNoCredentials()
    ensures Hits(CredentialKeywords, "\n" + ShortLink) == []
  {
    ShortLinkText();
    NoHitsOutsideAlphabet(CredentialKeywords, "\n" + ShortLink, ShortLinkAlphabet, [1, 0, 0, 1, 1, 1]);
  }

  lemma ShortLinkClaimsNoAuthority()
    ensures Hits(AuthorityKeywords, "\n" + ShortLink) == []
  {
    ShortLinkText();
    NoHitsOutsideAlphabet(AuthorityKeywords, "\n" + ShortLink, ShortLinkAlphabet, [1, 0, 1, 0, 3, 0, 0, 0]);
  }

  lemma ShortLinkGathered()
    ensures Evidence(None, None, None, Some(ShortLink)) == ShortLinkEvidence
  {
    ShortLinkUrls();
    ShortLinkCounts();
    ShortLinkText();
    ShortLinkNotUrgent();
    ShortLinkAsksNoCredentials();
    ShortLinkClaimsNoAuthority();
  }

  /** Links whose only flagged hosts are shorteners, and nothing else, fire the first two rules. */
  lemma ShortenedLinksFire(f: Features)
    requires f.urls != [] && f.urlCounts.Some?
    requires f.urlCounts.value.shorteners > 0 && f.urlCounts.value.ipLinks == 0 && f.urlCounts.value.suspiciousHosts == 0
    requires f.urgencyHits == [] && f.credentialHits == [] && f.authorityHits == [] && !f.fromReplyToMismatch
    ensures RawScore(f) == 30
    ensures Reasons(f) == [LinkPresent.Reason(), LinkShortener.Reason()]
  {
    RawScoreTerms(f);
    ReasonsInRuleOrder(f);
  }

  /**
   * Evidence of links whose only flagged hosts are shorteners, with no
   * keywords, payment wording or sender mismatch: 15 + 15 = 30, safe, with
   * the two link reasons and the default labels.
   */
  lemma ShortenedLinksOnly(f: Features, text: string)
    requires f.urls != [] && f.urlCounts.Some?
    requires f.urlCounts.value.shorteners > 0 && f.urlCounts.value.ipLinks == 0 && f.urlCounts.value.suspiciousHosts == 0
    requires f.urgencyHits == [] && f.credentialHits == [] && f.authorityHits == [] && !f.fromReplyToMismatch
    requires !MentionsPayment(text)
    ensures Judge(f, text)
      == Assessment(30, Safe, GeneralSocialEngineering, UnknownOther, [LinkPresent.Reason(), LinkShortener.Reason()], f)
  {
    ShortenedLinksFire(f);
  }

  /**
   * A body that is only the shortened link `http://bit.ly/abc`: 15 points for
   * the link and 15 for the shortener make 30, which is safe, with the two
   * matching reasons and the default labels.
   */
  lemma ShortLinkOnly()
    ensures Assess(None, None, None, Some(ShortLink))
      == Assessment(30, Safe, GeneralSocialEngineering, UnknownOther,
                    [LinkPresent.Reason(), LinkShortener.Reason()], ShortLinkEvidence)
  {
    ShortLinkGathered();
    ShortLinkText();
    ShortLinkNotUrgent();
    ShortLinkAsksNoCredentials();
    ShortLinkClaimsNoAuthority();
    ShortenedLinksOnly(ShortLinkEvidence, "\n" + ShortLink);
  }

  // ---------------------------------------------------------------------------
  // A message on which every rule fires

  const CapSubject: string := "urgent login ceo"
  const ShortUrl: string := "http://t.co"
  const IpUrl: string := "http://1.1.1.1"
  const HyphenUrl: string := "http://a-b-c-d"
  const CapBody: string := ShortUrl + " " + IpUrl + " " + HyphenUrl

  predicate PlainUrlWord(u: string) {
    IsUrlWord(u) && !IsTrailingPunct(u[|u| - 1])
  }

  lemma FirstUrlWord(u1: string, u2: string, u3: string)
    requires PlainUrlWord(u1)
    ensures u1 in ExtractUrls(u1 + " " + u2 + " " + u3)
  {
    var p1 := u1 + " ";
    var text := p1 + u2 + " " + u3;
    assert text[..|p1|] == p1;
    assert text[|u1|] == p1[|u1|] == ' ';
    assert text[0..0 + |u1|] == p1[0..|u1|] == u1;
    UrlWordIsExtracted(text, 0, u1);
  }

  lemma MiddleUrlWord(u1: string, u2: string, u3: string)
    requires PlainUrlWord(u2)
    ensures u2 in ExtractUrls(u1 + " " + u2 + " " + u3)
  {
    var p1 := u1 + " ";
    var p2 := p1 + u2;
    var p3 := p2 + " ";
    var text := p3 + u3;
    assert text[..|p3|] == p3 && p3[..|p2|] == p2 && p2[..|p1|] == p1;
    assert text[|p1| - 1] == p1[|u1|] == ' ';
    assert text[|p2|] == p3[|p2|] == ' ';
    assert text[|p1|..|p1| + |u2|] == p2[|p1|..] == u2;
    UrlWordIsExtracted(text, |p1|, u2);
  }

  lemma LastUrlWord(u1: string, u2: string, u3: string)
    requires PlainUrlWord(u3)
    ensures u3 in ExtractUrls(u1 + " " + u2 + " " + u3)
  {
    var p := u1 + " " + u2 + " ";
    assert p[|p| - 1] == ' ';
    TrailingUrlWord(p, u3);
  }

  /** A URL word that ends the text after whitespace is extracted. */
  lemma TrailingUrlWord(p: string, u: string)
    requires PlainUrlWord(u) && p != [] && IsSpace(p[|p| - 1])
    ensures u in ExtractUrls(p + u)
  {
    var text := p + u;
    assert text[|p| - 1] == p[|p| - 1];
    assert text[|p|..|p| + |u|] == u;
    UrlWordIsExtracted(text, |p|, u);
  }

  lemma CapBodyLinks()
    ensures ShortUrl in ExtractUrls(CapBody)
    ensures IpUrl in ExtractUrls(CapBody)
    ensures HyphenUrl in ExtractUrls(CapBody)
  {
    assert PlainUrlWord(ShortUrl) && PlainUrlWord(IpUrl) && PlainUrlWord(HyphenUrl);
    FirstUrlWord(ShortUrl, IpUrl, HyphenUrl);
    MiddleUrlWord(ShortUrl, IpUrl, HyphenUrl);
    LastUrlWord(ShortUrl, IpUrl, HyphenUrl);
  }

  lemma ShortUrlFlagged()
    ensures IsHttpUrl(ShortUrl) && Flags(Shortener, HostOf(ShortUrl))
  {
    assert ShortUrl[7..11] == "t.co";
    DomainOfPlainHost(ShortUrl, "t.co");
  }

  lemma IpUrlHost()
    ensures IsHttpUrl(IpUrl) && HostOf(IpUrl) == "1.1.1.1"
  {
    assert IpUrl[7..14] == "1.1.1.1";
    DomainOfPlainHost(IpUrl, "1.1.1.1");
  }

  lemma IpUrlFlagged()
    ensures IsHttpUrl(IpUrl) && Flags(IpLiteral, HostOf(IpUrl))
  {
    IpUrlHost();
    OnesAreIpv4();
  }

  lemma OnesAreIpv4()
    ensures IsIpv4Literal("1.1.1.1")
  {
  }

  lemma HyphenUrlHost()
    ensures IsHttpUrl(HyphenUrl) && HostOf(HyphenUrl) == "a-b-c-d"
  {
    assert HyphenUrl[7..14] == "a-b-c-d";
    DomainOfPlainHost(HyphenUrl, "a-b-c-d");
  }

  lemma HyphenUrlFlagged()
    ensures IsHttpUrl(HyphenUrl) && Flags(UnusualLooking, HostOf(HyphenUrl))
  {
    HyphenUrlHost();
    assert LooksUnusual("a-b-c-d");
  }

  /** Each of the three links trips one of the three host checks. */
  lemma CapLinkCounters()
    ensures var urls := ExtractUrls(CapBody);
      && AllHttpUrls(urls) && urls != []
      && var c := LinkCounts(urls).value;
      && c.shorteners > 0 && c.ipLinks > 0 && c.suspiciousHosts > 0
  {
    var urls := ExtractUrls(CapBody);
    ExtractedUrlsAreHttp(CapBody);
    CapBodyLinks();
    ShortUrlFlagged();
    IpUrlFlagged();
    HyphenUrlFlagged();
    LinkFlagsItsHost(urls, ShortUrl, Shortener);
    LinkFlagsItsHost(urls, IpUrl, IpLiteral);
    LinkFlagsItsHost(urls, HyphenUrl, UnusualLooking);
    LinkCountersCountHosts(urls);
  }

  /** The subject holds one keyword of each list. */
  lemma CapWording()
    ensures var text := MessageText(Some(CapSubject), Some(CapBody));
      && Hits(UrgentKeywords, text) != []
      && Hits(CredentialKeywords, text) != []
      && Hits(AuthorityKeywords, text) != []
  {
    var text := MessageText(Some(CapSubject), Some(CapBody));
    LowerOfLowerCase(CapSubject);
    assert OccursAt(CapSubject, "urgent", 0) && OccursAt(CapSubject, "login", 7) && OccursAt(CapSubject, "ceo", 13);
    ContainsIff(CapSubject, "urgent");
    ContainsIff(CapSubject, "login");
    ContainsIff(CapSubject, "ceo");
    SubjectWordInText(CapSubject, Some(CapBody), "urgent");
    SubjectWordInText(CapSubject, Some(CapBody), "login");
    SubjectWordInText(CapSubject, Some(CapBody), "ceo");
    KeywordHit(UrgentKeywords, text, "urgent");
    KeywordHit(CredentialKeywords, text, "login");
    KeywordHit(AuthorityKeywords, text, "ceo");
  }

  lemma CapSenders()
    ensures IsSenderMismatch("a@x", "b@y")
  {
    assert Lower("a@x")[0] == 'a' && Lower("b@y")[0] == 'b';
  }

  /** Evidence that trips every check fires every rule and scores 125, capped at 100. */
  lemma AllRulesFire(f: Features, text: string)
    requires f.urls != [] && f.urlCounts.Some?
    requires f.urlCounts.value.shorteners > 0 && f.urlCounts.value.ipLinks > 0 && f.urlCounts.value.suspiciousHosts > 0
    requires f.urgencyHits != [] && f.credentialHits != [] && f.authorityHits != [] && f.fromReplyToMismatch
    ensures FiredRules(f) == AllRules && RawScore(f) == 125
    ensures Judge(f, text).riskScore == 100 && Judge(f, text).verdict == Phishing
    ensures Judge(f, text).reasons == ReasonsOf(AllRules)
  {
    RawScoreTerms(f);
    FiredRulesInOrder(f);
  }

  /** The evidence gathered from the message trips every check. */
  lemma CapEvidence()
    ensures var f := Evidence(Some(CapSubject), Some("a@x"), Some("b@y"), Some(CapBody));
      && f.urls != [] && f.urlCounts.Some?
      && f.urlCounts.value.shorteners > 0 && f.urlCounts.value.ipLinks > 0 && f.urlCounts.value.suspiciousHosts > 0
      && f.urgencyHits != [] && f.credentialHits != [] && f.authorityHits != [] && f.fromReplyToMismatch
  {
    CapLinkCounters();
    CapWording();
    CapSenders();
  }

  /**
   * A message on which all eight rules fire: subject "urgent login ceo",
   * From "a@x", Reply-To "b@y", and a body holding a shortened link, a link
   * to an IP address and a link to a host with three hyphens.  The raw score
   * is 125, above the cap, so the risk score is capped at 100.
   */
  lemma CapIsReachable()
    ensures var a := Assess(Some(CapSubject), Some("a@x"), Some("b@y"), Some(CapBody));
      && FiredRules(a.features) == AllRules
      && RawScore(a.features) == 125
      && a.riskScore == 100
      && a.verdict == Phishing
      && a.reasons == ReasonsOf(AllRules)
  {
    CapEvidence();
    AllRulesFire(Evidence(Some(CapSubject), Some("a@x"), Some("b@y"), Some(CapBody)), MessageText(Some(CapSubject), Some(CapBody)));
  }

  // ---------------------------------------------------------------------------
  // An urgent request to log in at an IP address

  const Shout: string := "URGENT"
  const Demand: string := ": verify your account immediately at "
  const LoginUrl: string := "http://192.168.1.1/login"
  const UrgentBody: string := Shout + Demand + LoginUrl

  lemma UrgentBodyLink()
    ensures LoginUrl in ExtractUrls(UrgentBody)
  {
    assert PlainUrlWord(LoginUrl);
    assert (Shout + Demand)[|Shout + Demand| - 1] == ' ';
    TrailingUrlWord(Shout + Demand, LoginUrl);
  }

  lemma LoginUrlHost()
    ensures IsHttpUrl(LoginUrl) && HostOf(LoginUrl) == "192.168.1.1"
  {
    assert LoginUrl[7..18] == "192.168.1.1" && LoginUrl[18] == '/';
    DomainOfPlainHost(LoginUrl, "192.168.1.1");
  }

  lemma PrivateAddressIsIpv4()
    ensures IsIpv4Literal("192.168.1.1")
  {
  }

  /** The link to 192.168.1.1 is counted as a link to an IP address. */
  lemma UrgentBodyCounters()
    ensures var urls := ExtractUrls(UrgentBody);
      && AllHttpUrls(urls) && urls != []
      && LinkCounts(urls).value.ipLinks > 0
  {
    var urls := ExtractUrls(UrgentBody);
    ExtractedUrlsAreHttp(UrgentBody);
    UrgentBodyLink();
    LoginUrlHost();
    PrivateAddressIsIpv4();
    LinkFlagsItsHost(urls, LoginUrl, IpLiteral);
    LinkCountersCountHosts(urls);
  }

  /** "URGENT", lowered, is the urgency keyword "urgent". */
  lemma UrgentBodyIsUrgent()
    ensures Hits(UrgentKeywords, MessageText(None, Some(UrgentBody))) != []
  {
    assert Lower(Shout) == "urgent";
    LoweredPartContains(Shout, Demand, "urgent");
    LoweredPartContains(Shout + Demand, LoginUrl, "urgent");
    BodyWordInText(None, UrgentBody, "urgent");
    KeywordHit(UrgentKeywords, MessageText(None, Some(UrgentBody)), "urgent");
  }

  /** The link's path holds the credential keyword "login". */
  lemma UrgentBodyAsksToLogIn()
    ensures Hits(CredentialKeywords, MessageText(None, Some(UrgentBody))) != []
  {
    LowerOfLowerCase(LoginUrl);
    assert OccursAt(LoginUrl, "login", 19);
    ContainsIff(LoginUrl, "login");
    LoweredPartContains(Shout + Demand, LoginUrl, "login");
    BodyWordInText(None, UrgentBody, "login");
    KeywordHit(CredentialKeywords, MessageText(None, Some(UrgentBody)), "login");
  }

  /**
   * Evidence with a link, a link to an IP address, urgency and a credential
   * request scores at least 15 + 20 + 20 + 20 = 75: phishing, labelled as
   * credential harvesting under urgency pressure.
   */
  lemma UrgentCredentialLinkJudged(f: Features, text: string)
    requires f.urls != [] && f.urlCounts.Some? && f.urlCounts.value.ipLinks > 0
    requires f.urgencyHits != [] && f.credentialHits != []
    ensures var a := Judge(f, text);
      && a.riskScore >= 75 && a.verdict == Phishing
      && a.attackType == CredentialHarvesting && a.manipulationStrategy == UrgencyPressure
  {
    RawScoreTerms(f);
  }

  /**
   * The body "URGENT: verify your account immediately at
   * http://192.168.1.1/login", with no subject and no sender fields, scores
   * at least 75: phishing, credential harvesting, urgency pressure.
   */
  lemma UrgentLoginAtIpAddress()
    ensures var a := Assess(None, None, None, Some(UrgentBody));
      && a.riskScore >= 75 && a.verdict == Phishing
      && a.attackType == CredentialHarvesting && a.manipulationStrategy == UrgencyPressure
  {
    UrgentBodyCounters();
    UrgentBodyIsUrgent();
    UrgentBodyAsksToLogIn();
    UrgentCredentialLinkJudged(Evidence(None, None, None, Some(UrgentBody)), MessageText(None, Some(UrgentBody)));
  }

  // ---------------------------------------------------------------------------
  // The host checks on sample hosts

  /** Four dotted groups of one to three digits are an IPv4 literal. */
  lemma DottedQuad()
    ensures IsIpv4Literal("255.0.10.1")
  {
  }

  /** `$` also matches before a final newline, so a dotted quad followed by one still counts. */
  lemma DottedQuadBeforeNewline()
    ensures IsIpv4Literal("8.8.8.8\n")
  {
  }

  lemma ThreeGroupsAreNotAQuad()
    ensures !IsIpv4Literal("8.8.8")
  {
  }

  lemma FiveGroupsAreNotAQuad()
    ensures !IsIpv4Literal("8.8.8.8.8")
  {
    var s := "8.8.8.8.8";
    assert DigitRun(s, 6) == 1 && s[7] == '.';
    assert !DigitGroups(s, 6, 1);
    assert DigitGroups(s, 4, 2) == DigitGroups(s, 6, 1);
    assert DigitGroups(s, 2, 3) == DigitGroups(s, 4, 2);
    assert DigitGroups(s, 0, 4) == DigitGroups(s, 2, 3);
  }

  lemma FourDigitGroupIsNotAQuad()
    ensures !IsIpv4Literal("1000.8.8.8")
  {
  }

  /** Three hyphens make a host look unusual; two do not. */
  lemma HyphenThreshold()
    ensures LooksUnusual("a-b-c-d") && !LooksUnusual("a-b-c")
  {
  }

  /** A host of 28 characters looks unusual; one of 27 characters without hyphens does not. */
  lemma LengthThreshold()
    ensures LooksUnusual("abcdefghijklmnopqrstuvwxy.io")
    ensures !LooksUnusual("abcdefghijklmnopqrstuvwx.io")
  {
    assert |"abcdefghijklmnopqrstuvwxy.io"| == 28;
    assert '-' !in "abcdefghijklmnopqrstuvwx.io";
  }
}
