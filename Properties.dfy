/**
 * What `score_email` promises about its result, stated over `Assess` and the
 * evidence it is computed from.
 */
module EngineProperties {
  import opened Wrappers
  import opened Text
  import opened UrlExtraction
  import opened DetectionEngine

  // ---------------------------------------------------------------------------
  // Score

  /** No more rules fire than there are rules. */
  lemma {:induction false} FiredAmongLength(rules: seq<Rule>, f: Features)
    ensures |FiredAmong(rules, f)| <= |rules|
  {
    if rules != [] {
      FiredAmongLength(rules[..|rules| - 1], f);
    }
  }

  /** The raw score never exceeds 125, the sum of all eight weights. */
  lemma RawScoreAtMost125(f: Features)
    ensures RawScore(f) <= 125
  {
    RawScoreTerms(f);
  }

  /**
   * The risk score is the raw score capped at 100: `max(0, min(100, score))`
   * never needs its lower bound, since no rule takes points away.
   */
  lemma RiskScoreIsCappedRawScore(subject: Option<string>, fromAddr: Option<string>, replyTo: Option<string>, bodyText: Option<string>)
    ensures var a := Assess(subject, fromAddr, replyTo, bodyText);
      && 0 <= a.riskScore <= 100
      && a.riskScore == (if RawScore(a.features) > 100 then 100 else RawScore(a.features))
      && a.riskScore <= RawScore(a.features) <= 125
  {
    RawScoreAtMost125(Evidence(subject, fromAddr, replyTo, bodyText));
  }

  // ---------------------------------------------------------------------------
  // Reasons

  /** One reason per rule that fires, in rule order, so there are never more than eight and `[:8]` keeps them all. */
  lemma ReasonsFitInEight(subject: Option<string>, fromAddr: Option<string>, replyTo: Option<string>, bodyText: Option<string>)
    ensures var f := Evidence(subject, fromAddr, replyTo, bodyText);
      && |Reasons(f)| == |FiredRules(f)| <= 8
      && Assess(subject, fromAddr, replyTo, bodyText).reasons == Reasons(f)
  {
    var f := Evidence(subject, fromAddr, replyTo, bodyText);
    FiredAmongLength(AllRules, f);
  }

  // ---------------------------------------------------------------------------
  // Links

  /** Some link's host trips the given check. */
  predicate SomeHostFlagged(urls: seq<string>, signal: HostSignal)
    requires AllHttpUrls(urls)
  {
    exists k :: 0 <= k < |urls| && Flags(signal, HostOf(urls[k]))
  }

  /** A link whose host trips a check is a witness that some host does. */
  lemma LinkFlagsItsHost(urls: seq<string>, u: string, signal: HostSignal)
    requires AllHttpUrls(urls) && u in urls
    requires IsHttpUrl(u) && Flags(signal, HostOf(u))
    ensures SomeHostFlagged(urls, signal)
  {
    var k :| 0 <= k < |urls| && urls[k] == u;
  }

  /**
   * Each counter is at most the number of links, and positive exactly when
   * some link's host trips its check.
   */
  lemma LinkCountersCountHosts(urls: seq<string>)
    requires AllHttpUrls(urls) && urls != []
    ensures var c := LinkCounts(urls).value;
      && c.shorteners <= |urls| && c.ipLinks <= |urls| && c.suspiciousHosts <= |urls|
      && (c.shorteners > 0 <==> SomeHostFlagged(urls, Shortener))
      && (c.ipLinks > 0 <==> SomeHostFlagged(urls, IpLiteral))
      && (c.suspiciousHosts > 0 <==> SomeHostFlagged(urls, UnusualLooking))
  {
    HostCountMeaning(urls, Shortener);
    HostCountMeaning(urls, IpLiteral);
    HostCountMeaning(urls, UnusualLooking);
  }

  lemma HostCountMeaning(urls: seq<string>, signal: HostSignal)
    requires AllHttpUrls(urls)
    ensures CountFlagged(Hosts(urls), signal) > 0 <==> SomeHostFlagged(urls, signal)
  {
    var hosts := Hosts(urls);
    CountFlaggedPositive(hosts, signal);
    if CountFlagged(hosts, signal) > 0 {
      var k :| 0 <= k < |hosts| && Flags(signal, hosts[k]);
      assert Flags(signal, HostOf(urls[k]));
    }
    if SomeHostFlagged(urls, signal) {
      var k :| 0 <= k < |urls| && Flags(signal, HostOf(urls[k]));
      assert Flags(signal, hosts[k]);
    }
  }

  /**
   * The link counters are present exactly when the body holds a link, so
   * the shortener, IP-address and unusual-host rules only fire alongside
   * the rule for links.
   */
  lemma LinkRulesNeedLinks(subject: Option<string>, fromAddr: Option<string>, replyTo: Option<string>, bodyText: Option<string>)
    ensures var f := Evidence(subject, fromAddr, replyTo, bodyText);
      && (f.urlCounts.Some? <==> Fires(LinkPresent, f))
      && (Fires(LinkShortener, f) || Fires(IpAddressLink, f) || Fires(UnusualHost, f) ==> Fires(LinkPresent, f))
  {
  }

  // ---------------------------------------------------------------------------
  // Keyword hits

  lemma KeywordListsHaveNoDuplicates()
    ensures NoDuplicates(UrgentKeywords)
    ensures NoDuplicates(CredentialKeywords)
    ensures NoDuplicates(AuthorityKeywords)
  {
  }

  /**
   * Each list of hits holds exactly the keywords of its list that occur in
   * the lowered text, in list order, each once.
   */
  lemma HitsAreExact(subject: Option<string>, fromAddr: Option<string>, replyTo: Option<string>, bodyText: Option<string>, k: string)
    ensures var f, text := Evidence(subject, fromAddr, replyTo, bodyText), MessageText(subject, bodyText);
      && (k in f.urgencyHits <==> k in UrgentKeywords && Contains(text, k))
      && (k in f.credentialHits <==> k in CredentialKeywords && Contains(text, k))
      && (k in f.authorityHits <==> k in AuthorityKeywords && Contains(text, k))
      && IsSubsequence(f.urgencyHits, UrgentKeywords) && NoDuplicates(f.urgencyHits)
      && IsSubsequence(f.credentialHits, CredentialKeywords) && NoDuplicates(f.credentialHits)
      && IsSubsequence(f.authorityHits, AuthorityKeywords) && NoDuplicates(f.authorityHits)
  {
    var text := MessageText(subject, bodyText);
    KeywordListsHaveNoDuplicates();
    HitsMembership(UrgentKeywords, text, k);
    HitsMembership(CredentialKeywords, text, k);
    HitsMembership(AuthorityKeywords, text, k);
    HitsKeepOrder(UrgentKeywords, text);
    HitsKeepOrder(CredentialKeywords, text);
    HitsKeepOrder(AuthorityKeywords, text);
    HitsAreDistinct(UrgentKeywords, text);
    HitsAreDistinct(CredentialKeywords, text);
    HitsAreDistinct(AuthorityKeywords, text);
  }

  // ---------------------------------------------------------------------------
  // Taxonomy

  /**
   * The labels follow the first rule that matches: credentials before
   * payment words before a sender mismatch, urgency before authority; the
   * verdict follows the capped score.
   */
  lemma LabelsFollowFirstMatch(subject: Option<string>, fromAddr: Option<string>, replyTo: Option<string>, bodyText: Option<string>)
    ensures var a, text := Assess(subject, fromAddr, replyTo, bodyText), MessageText(subject, bodyText);
      && (a.attackType == CredentialHarvesting <==> a.features.credentialHits != [])
      && (a.attackType == InvoicePaymentFraud <==> a.features.credentialHits == [] && MentionsPayment(text))
      && (a.attackType == ImpersonationSpoofing
          <==> a.features.credentialHits == [] && !MentionsPayment(text) && a.features.fromReplyToMismatch)
      && (a.manipulationStrategy == UrgencyPressure <==> a.features.urgencyHits != [])
      && (a.manipulationStrategy == Authority <==> a.features.urgencyHits == [] && a.features.authorityHits != [])
      && (a.verdict == Phishing <==> a.riskScore >= 70)
      && (a.verdict == Suspicious <==> 40 <= a.riskScore < 70)
  {
  }

  /** The sender check ignores case and the order of the two addresses, and never flags an address against itself. */
  lemma SenderMismatchIgnoresCase(fromAddr: string, replyTo: string)
    ensures IsSenderMismatch(fromAddr, replyTo) == IsSenderMismatch(replyTo, fromAddr)
    ensures IsSenderMismatch(fromAddr, replyTo) == IsSenderMismatch(Lower(fromAddr), Lower(replyTo))
    ensures !IsSenderMismatch(fromAddr, fromAddr)
  {
    LowerIsIdempotent(fromAddr);
    LowerIsIdempotent(replyTo);
  }

  /** Every payment word is also an urgency keyword. */
  lemma PaymentWordsAreUrgent(text: string)
    ensures MentionsPayment(text) ==> Hits(UrgentKeywords, text) != []
  {
    HitsMembership(UrgentKeywords, text, "invoice");
    HitsMembership(UrgentKeywords, text, "payment");
    HitsMembership(UrgentKeywords, text, "wire");
    HitsMembership(UrgentKeywords, text, "transfer");
  }

  /** A message labelled invoice or payment fraud is always labelled as using urgency. */
  lemma PaymentFraudIsUrgent(subject: Option<string>, fromAddr: Option<string>, replyTo: Option<string>, bodyText: Option<string>)
    ensures var a := Assess(subject, fromAddr, replyTo, bodyText);
      a.attackType == InvoicePaymentFraud ==> a.manipulationStrategy == UrgencyPressure
  {
    PaymentWordsAreUrgent(MessageText(subject, bodyText));
  }

  // ---------------------------------------------------------------------------
  // The empty message

  /** No keyword longer than the text occurs in it. */
  lemma {:induction false} NoHitsInShortText(keywords: seq<string>, text: string)
    requires forall k :: 0 <= k < |keywords| ==> |text| < |keywords[k]|
    ensures Hits(keywords, text) == []
  {
    if keywords != [] {
      NotContainsLonger(text, keywords[0]);
      NoHitsInShortText(keywords[1..], text);
    }
  }

  /** With no subject and no body, the text is a lone newline and the only evidence left is the sender check. */
  lemma EmptyTextEvidence(subject: Option<string>, fromAddr: Option<string>, replyTo: Option<string>, bodyText: Option<string>)
    requires OrEmpty(subject) == "" && OrEmpty(bodyText) == ""
    ensures MessageText(subject, bodyText) == "\n"
    ensures !MentionsPayment(MessageText(subject, bodyText))
    ensures Evidence(subject, fromAddr, replyTo, bodyText)
      == Features([], None, [], [], [], IsSenderMismatch(OrEmpty(fromAddr), OrEmpty(replyTo)))
  {
    var text := MessageText(subject, bodyText);
    assert text == "\n";
    NoHitsInShortText(UrgentKeywords, text);
    NoHitsInShortText(CredentialKeywords, text);
    NoHitsInShortText(AuthorityKeywords, text);
    NotContainsLonger(text, "invoice");
    NotContainsLonger(text, "payment");
    NotContainsLonger(text, "wire");
    NotContainsLonger(text, "transfer");
  }

  /**
   * Without links, keywords or payment wording only the sender rule can
   * fire: 15 points and the impersonation label when it does, nothing at all
   * when it does not; both are safe.
   */
  lemma SenderEvidenceOnly(mismatch: bool, text: string)
    requires !MentionsPayment(text)
    ensures var f := Features([], None, [], [], [], mismatch);
      Judge(f, text) == if mismatch
        then Assessment(15, Safe, ImpersonationSpoofing, UnknownOther, [SenderMismatch.Reason()], f)
        else Assessment(0, Safe, GeneralSocialEngineering, UnknownOther, [], f)
  {
    var f := Features([], None, [], [], [], mismatch);
    RawScoreTerms(f);
    ReasonsInRuleOrder(f);
  }

  /** With every field absent or empty: score 0, safe, no reasons, the default labels. */
  lemma EmptyMessage(subject: Option<string>, fromAddr: Option<string>, replyTo: Option<string>, bodyText: Option<string>)
    requires OrEmpty(subject) == "" && OrEmpty(fromAddr) == "" && OrEmpty(replyTo) == "" && OrEmpty(bodyText) == ""
    ensures Assess(subject, fromAddr, replyTo, bodyText)
      == Assessment(0, Safe, GeneralSocialEngineering, UnknownOther, [], Features([], None, [], [], [], false))
  {
    EmptyTextEvidence(subject, fromAddr, replyTo, bodyText);
    SenderEvidenceOnly(false, MessageText(subject, bodyText));
  }

  /**
   * A Reply-To that differs from From, with nothing else in the message:
   * 15 points, safe, labelled impersonation, with the one sender reason.
   */
  lemma MismatchedSenderOnly()
    ensures Assess(None, Some("ceo@company.com"), Some("attacker@evil.com"), None)
      == Assessment(15, Safe, ImpersonationSpoofing, UnknownOther, [SenderMismatch.Reason()], Features([], None, [], [], [], true))
  {
    var fromAddr, replyTo := "ceo@company.com", "attacker@evil.com";
    assert |Lower(fromAddr)| != |Lower(replyTo)|;
    EmptyTextEvidence(None, Some(fromAddr), Some(replyTo), None);
    SenderEvidenceOnly(true, MessageText(None, None));
  }
}
