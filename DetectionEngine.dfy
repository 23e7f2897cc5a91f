/**
 * The phishing scoring engine: `score_email` and the constants it reads.
 *
 * The engine maps four optional text fields (subject, From, Reply-To, body)
 * to an assessment: a risk score clamped to 0..100, a verdict, an attack
 * type, a manipulation strategy, the reasons for the score and the evidence
 * it was computed from.  `Assess` states what the assessment is, rule by
 * rule; `ScoreEmail` computes it the way the engine does, step by step, and
 * is proved to agree with `Assess`.
 */
module DetectionEngine {
  import opened Wrappers
  import opened Text
  import opened UrlExtraction

  // ---------------------------------------------------------------------------
  // Fixed configuration

  const UrgentKeywords: seq<string> := [
    "urgent", "immediately", "asap", "action required", "verify", "suspended",
    "locked", "password", "reset", "invoice", "payment", "wire", "transfer"
  ]

  const AuthorityKeywords: seq<string> := [
    "ceo", "director", "hr", "finance", "it support", "security team", "microsoft", "google"
  ]

  const CredentialKeywords: seq<string> := [
    "login", "sign in", "verify your account", "confirm your password", "credentials", "credit"
  ]

  const ShortenerDomains: set<string> := {"bit.ly", "tinyurl.com", "t.co", "goo.gl", "is.gd", "ow.ly"}

  // ---------------------------------------------------------------------------
  // Keyword analysers

  /** The list comprehension `[k for k in keywords if k in text]`. */
  function Hits(keywords: seq<string>, text: string): (hits: seq<string>)
    ensures |hits| <= |keywords|
  {
    if keywords == [] then []
    else (if Contains(text, keywords[0]) then [keywords[0]] else []) + Hits(keywords[1..], text)
  }

  /** A keyword is a hit exactly when it is on the list and occurs in the text. */
  lemma {:induction false} HitsMembership(keywords: seq<string>, text: string, k: string)
    ensures k in Hits(keywords, text) <==> k in keywords && Contains(text, k)
  {
    if keywords != [] {
      HitsMembership(keywords[1..], text, k);
      assert k in keywords <==> k == keywords[0] || k in keywords[1..];
    }
  }

  /** A keyword of the list that occurs in the text makes the hits non-empty. */
  lemma KeywordHit(keywords: seq<string>, text: string, k: string)
    requires k in keywords && Contains(text, k)
    ensures k in Hits(keywords, text) && Hits(keywords, text) != []
  {
    HitsMembership(keywords, text, k);
  }

  /**
   * No keyword is a hit when the text is written in `alphabet` and every
   * keyword has a character outside it; `missing` says which.
   */
  lemma {:induction false} NoHitsOutsideAlphabet(keywords: seq<string>, text: string, alphabet: set<char>, missing: seq<nat>)
    requires forall m :: 0 <= m < |text| ==> text[m] in alphabet
    requires |missing| == |keywords|
    requires forall j :: 0 <= j < |keywords| ==> missing[j] < |keywords[j]| && keywords[j][missing[j]] !in alphabet
    ensures Hits(keywords, text) == []
  {
    if keywords != [] {
      if Contains(text, keywords[0]) {
        ContainedCharsOccur(text, keywords[0], missing[0]);
        assert false;
      }
      NoHitsOutsideAlphabet(keywords[1..], text, alphabet, missing[1..]);
    }
  }

  /** `a` is `b` with some elements left out and the rest kept in order. */
  predicate IsSubsequence<T(==)>(a: seq<T>, b: seq<T>)
    decreases |b|
  {
    a == [] || (b != [] && ((a[0] == b[0] && IsSubsequence(a[1..], b[1..])) || IsSubsequence(a, b[1..])))
  }

  predicate NoDuplicates<T(==)>(s: seq<T>) {
    forall i, j :: 0 <= i < j < |s| ==> s[i] != s[j]
  }

  /** The hits keep the order of the keyword list. */
  lemma {:induction false} HitsKeepOrder(keywords: seq<string>, text: string)
    ensures IsSubsequence(Hits(keywords, text), keywords)
  {
    if keywords != [] {
      var rest := Hits(keywords[1..], text);
      HitsKeepOrder(keywords[1..], text);
      if Contains(text, keywords[0]) {
        assert Hits(keywords, text) == [keywords[0]] + rest;
        assert ([keywords[0]] + rest)[1..] == rest;
      } else {
        assert Hits(keywords, text) == rest;
      }
    }
  }

  /** A keyword list without repetitions gives hits without repetitions. */
  lemma {:induction false} HitsAreDistinct(keywords: seq<string>, text: string)
    requires NoDuplicates(keywords)
    ensures NoDuplicates(Hits(keywords, text))
  {
    if keywords != [] {
      var rest := Hits(keywords[1..], text);
      assert NoDuplicates(keywords[1..]) by {
        forall i, j | 0 <= i < j < |keywords| - 1 ensures keywords[1..][i] != keywords[1..][j] {
          assert keywords[1..][i] == keywords[i + 1];
          assert keywords[1..][j] == keywords[j + 1];
        }
      }
      HitsAreDistinct(keywords[1..], text);
      if Contains(text, keywords[0]) {
        var hits := [keywords[0]] + rest;
        assert keywords[0] !in keywords[1..] by {
          forall j | 0 <= j < |keywords| - 1 ensures keywords[1..][j] != keywords[0] {
            assert keywords[1..][j] == keywords[j + 1];
          }
        }
        HitsMembership(keywords[1..], text, keywords[0]);
        forall i, j | 0 <= i < j < |hits| ensures hits[i] != hits[j] {
          if i == 0 {
            assert hits[j] == rest[j - 1];
          } else {
            assert hits[i] == rest[i - 1] && hits[j] == rest[j - 1];
          }
        }
      }
    }
  }

  // ---------------------------------------------------------------------------
  // Host checks

  /** How many decimal digits follow position `i`. */
  function DigitRun(s: string, i: nat): (n: nat)
    requires i <= |s|
    ensures i + n <= |s|
    ensures forall m :: i <= m < i + n ==> IsDigit(s[m])
    ensures i + n == |s| || !IsDigit(s[i + n])
    decreases |s| - i
  {
    if i < |s| && IsDigit(s[i]) then 1 + DigitRun(s, i + 1) else 0
  }

  /**
   * `groups` dot-separated groups of one to three digits run from position
   * `i` to the end of `s`.  A group is its whole digit run: a shorter match
   * of `\d{1,3}` would be followed by a digit, not by the `.` or the end the
   * pattern needs next.
   */
  predicate DigitGroups(s: string, i: nat, groups: nat)
    requires i <= |s|
    decreases groups
  {
    var d := DigitRun(s, i);
    && groups >= 1
    && 1 <= d <= 3
    && if groups == 1 then i + d == |s|
       else i + d < |s| && s[i + d] == '.' && DigitGroups(s, i + d + 1, groups - 1)
  }

  /**
   * `re.match(r"^\d{1,3}(\.\d{1,3}){3}$", dom)`: four groups of one to three
   * digits separated by dots; `$` also matches just before a final newline.
   */
  predicate IsIpv4Literal(dom: string) {
    || DigitGroups(dom, 0, 4)
    || (|dom| > 0 && dom[|dom| - 1] == '\n' && DigitGroups(dom[..|dom| - 1], 0, 4))
  }

  /** A host counted as unusual: three or more hyphens, or 28 characters or more. */
  predicate LooksUnusual(dom: string) {
    CountChar(dom, '-') >= 3 || |dom| >= 28
  }

  lemma {:induction false} DigitGroupsShape(s: string, i: nat, groups: nat)
    requires i <= |s| && DigitGroups(s, i, groups)
    ensures |s| - i <= 4 * groups - 1
    ensures forall m :: i <= m < |s| ==> IsDigit(s[m]) || s[m] == '.'
    decreases groups
  {
    if groups > 1 {
      DigitGroupsShape(s, i + DigitRun(s, i) + 1, groups - 1);
    }
  }

  /** A dotted-quad host holds only digits and dots, apart from a final newline, and is short. */
  lemma IpLiteralShape(dom: string)
    requires IsIpv4Literal(dom)
    ensures |dom| <= 16
    ensures forall m :: 0 <= m < |dom| ==> IsDigit(dom[m]) || dom[m] == '.' || dom[m] == '\n'
    ensures |dom| > 0 && IsDigit(dom[0])
  {
    if DigitGroups(dom, 0, 4) {
      DigitGroupsShape(dom, 0, 4);
    } else {
      var core := dom[..|dom| - 1];
      DigitGroupsShape(core, 0, 4);
      assert forall m :: 0 <= m < |core| ==> dom[m] == core[m];
    }
  }

  /** A dotted-quad host never looks unusual: it is short and has no hyphen. */
  lemma IpLiteralIsNotUnusual(dom: string)
    requires IsIpv4Literal(dom)
    ensures !LooksUnusual(dom)
  {
    IpLiteralShape(dom);
  }

  /** A dotted-quad host is not a shortener: every shortener starts with a letter. */
  lemma IpLiteralIsNotShortener(dom: string)
    requires IsIpv4Literal(dom)
    ensures dom !in ShortenerDomains
  {
    IpLiteralShape(dom);
  }

  // ---------------------------------------------------------------------------
  // URL analyser

  datatype HostSignal = Shortener | IpLiteral | UnusualLooking

  /** Whether a link host trips the given check. */
  predicate Flags(signal: HostSignal, dom: string) {
    match signal
    case Shortener => dom in ShortenerDomains
    case IpLiteral => IsIpv4Literal(dom)
    case UnusualLooking => LooksUnusual(dom)
  }

  predicate AllHttpUrls(urls: seq<string>) {
    forall k :: 0 <= k < |urls| ==> IsHttpUrl(urls[k])
  }

  /** `domain_of(u) or ""`. */
  function HostOf(url: string): string
    requires IsHttpUrl(url)
  {
    DomainOf(url).GetOr("")
  }

  /** The host of every link, in link order. */
  function Hosts(urls: seq<string>): (hosts: seq<string>)
    requires AllHttpUrls(urls)
    ensures |hosts| == |urls|
  {
    seq(|urls|, k requires 0 <= k < |urls| => HostOf(urls[k]))
  }

  /** How many of the hosts trip the given check. */
  function CountFlagged(hosts: seq<string>, signal: HostSignal): (n: nat)
    ensures n <= |hosts|
  {
    if hosts == [] then 0
    else CountFlagged(hosts[..|hosts| - 1], signal) + if Flags(signal, hosts[|hosts| - 1]) then 1 else 0
  }

  /** Some host is counted exactly when some host trips the check. */
  lemma {:induction false} CountFlaggedPositive(hosts: seq<string>, signal: HostSignal)
    ensures CountFlagged(hosts, signal) > 0 <==> exists k :: 0 <= k < |hosts| && Flags(signal, hosts[k])
  {
    if hosts != [] {
      var init := hosts[..|hosts| - 1];
      CountFlaggedPositive(init, signal);
      if exists k :: 0 <= k < |init| && Flags(signal, init[k]) {
        var k :| 0 <= k < |init| && Flags(signal, init[k]);
        assert hosts[k] == init[k];
      }
      if exists k :: 0 <= k < |hosts| && Flags(signal, hosts[k]) {
        var k :| 0 <= k < |hosts| && Flags(signal, hosts[k]);
        if k < |init| {
          assert hosts[k] == init[k];
        }
      }
    }
  }

  /** Counting one more host adds one exactly when that host trips the check. */
  /** A single link counts once when its host trips the check and not at all otherwise. */
  lemma CountFlaggedSingle(host: string, signal: HostSignal)
    ensures CountFlagged([host], signal) == if Flags(signal, host) then 1 else 0
  {
    assert [host][..0] == [];
  }

  lemma CountOneMore(hosts: seq<string>, i: nat, signal: HostSignal)
    requires i < |hosts|
    ensures CountFlagged(hosts[..i + 1], signal) == CountFlagged(hosts[..i], signal) + if Flags(signal, hosts[i]) then 1 else 0
  {
    assert hosts[..i + 1][..i] == hosts[..i];
  }

  /** Every string `extract_urls` returns begins with the scheme. */
  lemma ExtractedUrlsAreHttp(text: string)
    ensures AllHttpUrls(ExtractUrls(text))
  {
    forall k | 0 <= k < |ExtractUrls(text)| ensures IsHttpUrl(ExtractUrls(text)[k]) {
      ExtractedUrlForm(text, k);
    }
  }

  // ---------------------------------------------------------------------------
  // The assessment

  datatype Verdict = Safe | Suspicious | Phishing {
    function Label(): string {
      match this
      case Safe => "safe"
      case Suspicious => "suspicious"
      case Phishing => "phishing"
    }
  }

  datatype AttackType = CredentialHarvesting | InvoicePaymentFraud | ImpersonationSpoofing | GeneralSocialEngineering {
    function Label(): string {
      match this
      case CredentialHarvesting => "Credential Harvesting"
      case InvoicePaymentFraud => "Invoice/Payment Fraud"
      case ImpersonationSpoofing => "Impersonation/Spoofing"
      case GeneralSocialEngineering => "General Social Engineering"
    }
  }

  datatype Strategy = UrgencyPressure | Authority | UnknownOther {
    function Label(): string {
      match this
      case UrgencyPressure => "Urgency/Pressure"
      case Authority => "Authority"
      case UnknownOther => "Unknown/Other"
    }
  }

  /** The `url_shorteners`, `url_ip_links` and `url_suspicious_host_count` features. */
  datatype UrlCounts = UrlCounts(shorteners: nat, ipLinks: nat, suspiciousHosts: nat)

  /**
   * The `features` dictionary.  The three link counters are present only
   * when the body holds a link, so they sit in one optional record.
   */
  datatype Features = Features(
    urls: seq<string>,
    urlCounts: Option<UrlCounts>,
    urgencyHits: seq<string>,
    credentialHits: seq<string>,
    authorityHits: seq<string>,
    fromReplyToMismatch: bool)

  datatype Assessment = Assessment(
    riskScore: int,
    verdict: Verdict,
    attackType: AttackType,
    manipulationStrategy: Strategy,
    reasons: seq<string>,
    features: Features)

  /** The scoring rules, each with its weight and its reason sentence. */
  datatype Rule = LinkPresent | LinkShortener | IpAddressLink | UnusualHost
                | UrgencyLanguage | CredentialRequest | AuthorityCue | SenderMismatch
  {
    function Weight(): nat {
      match this
      case LinkPresent => 15
      case LinkShortener => 15
      case IpAddressLink => 20
      case UnusualHost => 10
      case UrgencyLanguage => 20
      case CredentialRequest => 20
      case AuthorityCue => 10
      case SenderMismatch => 15
    }

    function Reason(): string {
      match this
      case LinkPresent => "This email contains one or more links, which is common in phishing."
      case LinkShortener => "A link shortener is used, which can hide the real destination."
      case IpAddressLink => "A link points directly to an IP address, which is suspicious."
      case UnusualHost => "Some link domains look unusual (very long or many hyphens)."
      case UrgencyLanguage => "The message uses urgency/pressure language (a common scam tactic)."
      case CredentialRequest => "The message asks you to log in/verify credentials (possible credential harvesting)."
      case AuthorityCue => "The message uses authority cues (CEO/IT/Security), a common manipulation method."
      case SenderMismatch => "Reply-To differs from From, which can indicate impersonation."
    }
  }

  /** The rules in the order the engine evaluates them. */
  const AllRules: seq<Rule> := [
    LinkPresent, LinkShortener, IpAddressLink, UnusualHost,
    UrgencyLanguage, CredentialRequest, AuthorityCue, SenderMismatch
  ]

  /** Whether a rule fires on the evidence. */
  predicate Fires(rule: Rule, f: Features) {
    match rule
    case LinkPresent => f.urls != []
    case LinkShortener => f.urlCounts.Some? && f.urlCounts.value.shorteners > 0
    case IpAddressLink => f.urlCounts.Some? && f.urlCounts.value.ipLinks > 0
    case UnusualHost => f.urlCounts.Some? && f.urlCounts.value.suspiciousHosts > 0
    case UrgencyLanguage => f.urgencyHits != []
    case CredentialRequest => f.credentialHits != []
    case AuthorityCue => f.authorityHits != []
    case SenderMismatch => f.fromReplyToMismatch
  }

  /** The rules of `rules` that fire, in order. */
  function FiredAmong(rules: seq<Rule>, f: Features): seq<Rule> {
    if rules == [] then []
    else
      var last := rules[|rules| - 1];
      FiredAmong(rules[..|rules| - 1], f) + if Fires(last, f) then [last] else []
  }

  function FiredRules(f: Features): seq<Rule> {
    FiredAmong(AllRules, f)
  }

  function TotalWeight(rules: seq<Rule>): nat {
    if rules == [] then 0 else TotalWeight(rules[..|rules| - 1]) + rules[|rules| - 1].Weight()
  }

  function ReasonsOf(rules: seq<Rule>): (reasons: seq<string>)
    ensures |reasons| == |rules|
  {
    if rules == [] then [] else ReasonsOf(rules[..|rules| - 1]) + [rules[|rules| - 1].Reason()]
  }

  /** The absent-or-empty fields the engine reads as empty strings. */
  function OrEmpty(field: Option<string>): (s: string)
    ensures s == [] <==> field.None? || field.value == []
  {
    field.GetOr("")
  }

  /** The lower-cased subject and body, joined by a newline: the text the keyword analysers scan. */
  function MessageText(subject: Option<string>, bodyText: Option<string>): (text: string)
    ensures text == Lower(OrEmpty(subject)) + "\n" + Lower(OrEmpty(bodyText))
    ensures HasNoUpper(text)
  {
    LowerConcat(OrEmpty(subject) + "\n", OrEmpty(bodyText));
    LowerConcat(OrEmpty(subject), "\n");
    LowerIsIdempotent(OrEmpty(subject) + "\n" + OrEmpty(bodyText));
    Lower(OrEmpty(subject) + "\n" + OrEmpty(bodyText))
  }

  /** From and Reply-To are both given and differ once lower-cased. */
  predicate IsSenderMismatch(fromAddr: string, replyTo: string) {
    fromAddr != [] && replyTo != [] && Lower(fromAddr) != Lower(replyTo)
  }

  /** A word of the lowered subject is a word of the scanned text. */
  lemma SubjectWordInText(subject: string, bodyText: Option<string>, pat: string)
    requires Contains(Lower(subject), pat)
    ensures Contains(MessageText(Some(subject), bodyText), pat)
  {
    var rest := "\n" + OrEmpty(bodyText);
    assert subject + "\n" + OrEmpty(bodyText) == subject + rest;
    LoweredPartContains(subject, rest, pat);
  }

  /** A word of the lowered body is a word of the scanned text. */
  lemma BodyWordInText(subject: Option<string>, bodyText: string, pat: string)
    requires Contains(Lower(bodyText), pat)
    ensures Contains(MessageText(subject, Some(bodyText)), pat)
  {
    LoweredPartContains(OrEmpty(subject) + "\n", bodyText, pat);
  }

  predicate MentionsPayment(text: string) {
    Contains(text, "invoice") || Contains(text, "payment") || Contains(text, "wire") || Contains(text, "transfer")
  }

  /** The link counters over the extracted links, absent when there are none. */
  function LinkCounts(urls: seq<string>): (counts: Option<UrlCounts>)
    requires AllHttpUrls(urls)
    ensures counts.Some? <==> urls != []
  {
    if urls == [] then None
    else
      var hosts := Hosts(urls);
      Some(UrlCounts(CountFlagged(hosts, Shortener), CountFlagged(hosts, IpLiteral), CountFlagged(hosts, UnusualLooking)))
  }

  /** The evidence the engine gathers: the `features` dictionary. */
  function Evidence(subject: Option<string>, fromAddr: Option<string>, replyTo: Option<string>, bodyText: Option<string>): (f: Features)
    ensures AllHttpUrls(f.urls) && (f.urlCounts.Some? <==> f.urls != [])
    ensures |f.urgencyHits| <= |UrgentKeywords| && |f.credentialHits| <= |CredentialKeywords| && |f.authorityHits| <= |AuthorityKeywords|
    ensures f.fromReplyToMismatch ==> fromAddr.Some? && replyTo.Some?
  {
    var text := MessageText(subject, bodyText);
    var urls := ExtractUrls(OrEmpty(bodyText));
    ExtractedUrlsAreHttp(OrEmpty(bodyText));
    Features(
      urls,
      LinkCounts(urls),
      Hits(UrgentKeywords, text),
      Hits(CredentialKeywords, text),
      Hits(AuthorityKeywords, text),
      IsSenderMismatch(OrEmpty(fromAddr), OrEmpty(replyTo)))
  }

  /** The weight a rule adds: its own weight when it fires, nothing otherwise. */
  function WeightIf(rule: Rule, f: Features): nat {
    if Fires(rule, f) then rule.Weight() else 0
  }

  /** The reason a rule adds: its sentence when it fires, nothing otherwise. */
  function ReasonIf(rule: Rule, f: Features): seq<string> {
    if Fires(rule, f) then [rule.Reason()] else []
  }

  /** The unclamped score: the total weight of the rules that fire. */
  function RawScore(f: Features): nat {
    TotalWeight(FiredRules(f))
  }

  /** The reasons before truncation: the sentences of the rules that fire. */
  function Reasons(f: Features): seq<string> {
    ReasonsOf(FiredRules(f))
  }

  /** `max(0, min(100, score))`. */
  function Clamp(score: int): (r: int)
    ensures 0 <= r <= 100
    ensures 0 <= score <= 100 ==> r == score
    ensures score > 100 ==> r == 100
    ensures score < 0 ==> r == 0
  {
    if score > 100 then 100 else if score < 0 then 0 else score
  }

  function VerdictFor(score: int): (v: Verdict)
    ensures v == Phishing <==> score >= 70
    ensures v == Suspicious <==> 40 <= score < 70
    ensures v == Safe <==> score < 40
  {
    if score >= 70 then Phishing else if score >= 40 then Suspicious else Safe
  }

  /** The first label whose condition holds: credentials, then payment wording, then a sender mismatch. */
  function AttackTypeFor(f: Features, text: string): (t: AttackType)
    ensures t == CredentialHarvesting <==> f.credentialHits != []
    ensures t == InvoicePaymentFraud <==> f.credentialHits == [] && MentionsPayment(text)
    ensures t == ImpersonationSpoofing <==> f.credentialHits == [] && !MentionsPayment(text) && f.fromReplyToMismatch
    ensures t == GeneralSocialEngineering <==> f.credentialHits == [] && !MentionsPayment(text) && !f.fromReplyToMismatch
  {
    if f.credentialHits != [] then CredentialHarvesting
    else if MentionsPayment(text) then InvoicePaymentFraud
    else if f.fromReplyToMismatch then ImpersonationSpoofing
    else GeneralSocialEngineering
  }

  /** Urgency wins over authority; with neither the strategy is unknown. */
  function StrategyFor(f: Features): (m: Strategy)
    ensures m == UrgencyPressure <==> f.urgencyHits != []
    ensures m == Authority <==> f.urgencyHits == [] && f.authorityHits != []
    ensures m == UnknownOther <==> f.urgencyHits == [] && f.authorityHits == []
  {
    if f.urgencyHits != [] then UrgencyPressure
    else if f.authorityHits != [] then Authority
    else UnknownOther
  }

  /** `reasons[:8]`. */
  function FirstEight(reasons: seq<string>): (r: seq<string>)
    ensures |r| <= 8
    ensures |reasons| <= 8 ==> r == reasons
    ensures r == reasons[..|r|]
  {
    if |reasons| <= 8 then reasons else reasons[..8]
  }

  /** The score, verdict, taxonomy and reasons `score_email` derives from the evidence and the lowered text. */
  function Judge(f: Features, text: string): (a: Assessment)
    ensures 0 <= a.riskScore <= 100 && a.riskScore <= RawScore(f)
    ensures a.verdict == Phishing <==> a.riskScore >= 70
    ensures |a.reasons| <= 8 && |a.reasons| <= |Reasons(f)|
    ensures a.reasons == Reasons(f)[..|a.reasons|]
    ensures a.features == f
  {
    var score := Clamp(RawScore(f));
    Assessment(
      score,
      VerdictFor(score),
      AttackTypeFor(f, text),
      StrategyFor(f),
      FirstEight(Reasons(f)),
      f)
  }

  /** What `score_email` returns for the four fields. */
  function Assess(subject: Option<string>, fromAddr: Option<string>, replyTo: Option<string>, bodyText: Option<string>): (a: Assessment)
    ensures 0 <= a.riskScore <= 100 && |a.reasons| <= 8
    ensures a.features == Evidence(subject, fromAddr, replyTo, bodyText)
    ensures a.features.urlCounts.Some? <==> a.features.urls != []
  {
    Judge(Evidence(subject, fromAddr, replyTo, bodyText), MessageText(subject, bodyText))
  }

  // ---------------------------------------------------------------------------
  // Unfolding the rule list

  /** The rule alone when the condition holds, nothing otherwise. */
  function Maybe(rule: Rule, condition: bool): seq<Rule> {
    if condition then [rule] else []
  }

  function When(rule: Rule, f: Features): seq<Rule> {
    Maybe(rule, Fires(rule, f))
  }

  lemma FiredAmongSnoc(rules: seq<Rule>, rule: Rule, f: Features)
    ensures FiredAmong(rules + [rule], f) == FiredAmong(rules, f) + When(rule, f)
  {
    assert (rules + [rule])[..|rules|] == rules;
  }

  /** The rules that fire, written out in evaluation order. */
  lemma FiredRulesInOrder(f: Features)
    ensures FiredRules(f) ==
      When(LinkPresent, f) + When(LinkShortener, f) + When(IpAddressLink, f) + When(UnusualHost, f)
      + When(UrgencyLanguage, f) + When(CredentialRequest, f) + When(AuthorityCue, f) + When(SenderMismatch, f)
  {
    var r1 := [LinkPresent];
    var r2 := r1 + [LinkShortener];
    var r3 := r2 + [IpAddressLink];
    var r4 := r3 + [UnusualHost];
    var r5 := r4 + [UrgencyLanguage];
    var r6 := r5 + [CredentialRequest];
    var r7 := r6 + [AuthorityCue];
    assert AllRules == r7 + [SenderMismatch];
    assert r1 == [] + [LinkPresent];
    FiredAmongSnoc([], LinkPresent, f);
    FiredAmongSnoc(r1, LinkShortener, f);
    FiredAmongSnoc(r2, IpAddressLink, f);
    FiredAmongSnoc(r3, UnusualHost, f);
    FiredAmongSnoc(r4, UrgencyLanguage, f);
    FiredAmongSnoc(r5, CredentialRequest, f);
    FiredAmongSnoc(r6, AuthorityCue, f);
    FiredAmongSnoc(r7, SenderMismatch, f);
  }

  /** Adding one rule to the fired list adds its weight and its reason. */
  lemma FireOne(fired: seq<Rule>, rule: Rule, f: Features)
    ensures TotalWeight(fired + When(rule, f)) == TotalWeight(fired) + WeightIf(rule, f)
    ensures ReasonsOf(fired + When(rule, f)) == ReasonsOf(fired) + ReasonIf(rule, f)
  {
    if !Fires(rule, f) {
      assert fired + When(rule, f) == fired;
    } else {
      assert (fired + [rule])[..|fired|] == fired;
    }
  }

  /** The raw score, rule by rule in evaluation order. */
  lemma RawScoreIsSum(f: Features)
    ensures RawScore(f) ==
      WeightIf(LinkPresent, f) + WeightIf(LinkShortener, f) + WeightIf(IpAddressLink, f) + WeightIf(UnusualHost, f)
      + WeightIf(UrgencyLanguage, f) + WeightIf(CredentialRequest, f) + WeightIf(AuthorityCue, f) + WeightIf(SenderMismatch, f)
  {
    FiredRulesInOrder(f);
    var p1 := When(LinkPresent, f);
    var p2 := p1 + When(LinkShortener, f);
    var p3 := p2 + When(IpAddressLink, f);
    var p4 := p3 + When(UnusualHost, f);
    var p5 := p4 + When(UrgencyLanguage, f);
    var p6 := p5 + When(CredentialRequest, f);
    var p7 := p6 + When(AuthorityCue, f);
    var p8 := p7 + When(SenderMismatch, f);
    assert TotalWeight(p1) == WeightIf(LinkPresent, f) by {
      FireOne([], LinkPresent, f);
      assert [] + p1 == p1;
    }
    assert TotalWeight(p2) == TotalWeight(p1) + WeightIf(LinkShortener, f) by {
      FireOne(p1, LinkShortener, f);
    }
    assert TotalWeight(p3) == TotalWeight(p2) + WeightIf(IpAddressLink, f) by {
      FireOne(p2, IpAddressLink, f);
    }
    assert TotalWeight(p4) == TotalWeight(p3) + WeightIf(UnusualHost, f) by {
      FireOne(p3, UnusualHost, f);
    }
    assert TotalWeight(p5) == TotalWeight(p4) + WeightIf(UrgencyLanguage, f) by {
      FireOne(p4, UrgencyLanguage, f);
    }
    assert TotalWeight(p6) == TotalWeight(p5) + WeightIf(CredentialRequest, f) by {
      FireOne(p5, CredentialRequest, f);
    }
    assert TotalWeight(p7) == TotalWeight(p6) + WeightIf(AuthorityCue, f) by {
      FireOne(p6, AuthorityCue, f);
    }
    assert TotalWeight(p8) == TotalWeight(p7) + WeightIf(SenderMismatch, f) by {
      FireOne(p7, SenderMismatch, f);
    }
  }

  /** The reasons, rule by rule in evaluation order. */
  lemma ReasonsInRuleOrder(f: Features)
    ensures Reasons(f) ==
      ReasonIf(LinkPresent, f) + ReasonIf(LinkShortener, f) + ReasonIf(IpAddressLink, f) + ReasonIf(UnusualHost, f)
      + ReasonIf(UrgencyLanguage, f) + ReasonIf(CredentialRequest, f) + ReasonIf(AuthorityCue, f) + ReasonIf(SenderMismatch, f)
  {
    FiredRulesInOrder(f);
    var p1 := When(LinkPresent, f);
    var p2 := p1 + When(LinkShortener, f);
    var p3 := p2 + When(IpAddressLink, f);
    var p4 := p3 + When(UnusualHost, f);
    var p5 := p4 + When(UrgencyLanguage, f);
    var p6 := p5 + When(CredentialRequest, f);
    var p7 := p6 + When(AuthorityCue, f);
    var p8 := p7 + When(SenderMismatch, f);
    assert ReasonsOf(p1) == ReasonIf(LinkPresent, f) by {
      FireOne([], LinkPresent, f);
      assert [] + p1 == p1;
    }
    assert ReasonsOf(p2) == ReasonsOf(p1) + ReasonIf(LinkShortener, f) by {
      FireOne(p1, LinkShortener, f);
    }
    assert ReasonsOf(p3) == ReasonsOf(p2) + ReasonIf(IpAddressLink, f) by {
      FireOne(p2, IpAddressLink, f);
    }
    assert ReasonsOf(p4) == ReasonsOf(p3) + ReasonIf(UnusualHost, f) by {
      FireOne(p3, UnusualHost, f);
    }
    assert ReasonsOf(p5) == ReasonsOf(p4) + ReasonIf(UrgencyLanguage, f) by {
      FireOne(p4, UrgencyLanguage, f);
    }
    assert ReasonsOf(p6) == ReasonsOf(p5) + ReasonIf(CredentialRequest, f) by {
      FireOne(p5, CredentialRequest, f);
    }
    assert ReasonsOf(p7) == ReasonsOf(p6) + ReasonIf(AuthorityCue, f) by {
      FireOne(p6, AuthorityCue, f);
    }
    assert ReasonsOf(p8) == ReasonsOf(p7) + ReasonIf(SenderMismatch, f) by {
      FireOne(p7, SenderMismatch, f);
    }
  }

  /** The raw score written out condition by condition. */
  lemma RawScoreTerms(f: Features)
    ensures RawScore(f) ==
      (if f.urls != [] then 15 else 0)
      + (if f.urlCounts.Some? && f.urlCounts.value.shorteners > 0 then 15 else 0)
      + (if f.urlCounts.Some? && f.urlCounts.value.ipLinks > 0 then 20 else 0)
      + (if f.urlCounts.Some? && f.urlCounts.value.suspiciousHosts > 0 then 10 else 0)
      + (if f.urgencyHits != [] then 20 else 0)
      + (if f.credentialHits != [] then 20 else 0)
      + (if f.authorityHits != [] then 10 else 0)
      + (if f.fromReplyToMismatch then 15 else 0)
  {
    RawScoreIsSum(f);
  }

  /** Firing one more rule adds its weight to the total and its sentence to the reasons. */
  lemma Push(fired: seq<Rule>, rule: Rule)
    ensures TotalWeight(fired + [rule]) == TotalWeight(fired) + rule.Weight()
    ensures ReasonsOf(fired + [rule]) == ReasonsOf(fired) + [rule.Reason()]
  {
    assert (fired + [rule])[..|fired|] == fired;
  }

  // ---------------------------------------------------------------------------
  // The engine, step by step

  /** The per-link loop of `score_email`: counts shortener, IP-literal and unusual hosts. */
  method CountLinkHosts(urls: seq<string>) returns (shorteners: nat, ipLinks: nat, suspiciousUrlCount: nat)
    requires AllHttpUrls(urls)
    ensures shorteners == CountFlagged(Hosts(urls), Shortener)
    ensures ipLinks == CountFlagged(Hosts(urls), IpLiteral)
    ensures suspiciousUrlCount == CountFlagged(Hosts(urls), UnusualLooking)
  {
    ghost var hosts := Hosts(urls);
    shorteners, ipLinks, suspiciousUrlCount := 0, 0, 0;
    for i := 0 to |urls|
      invariant shorteners == CountFlagged(hosts[..i], Shortener)
      invariant ipLinks == CountFlagged(hosts[..i], IpLiteral)
      invariant suspiciousUrlCount == CountFlagged(hosts[..i], UnusualLooking)
    {
      var dom := DomainOf(urls[i]).GetOr("");
      assert dom == hosts[i];
      CountOneMore(hosts, i, Shortener);
      CountOneMore(hosts, i, IpLiteral);
      CountOneMore(hosts, i, UnusualLooking);
      if dom in ShortenerDomains {
        shorteners := shorteners + 1;
      }
      if IsIpv4Literal(dom) {
        ipLinks := ipLinks + 1;
      }
      if LooksUnusual(dom) {
        suspiciousUrlCount := suspiciousUrlCount + 1;
      }
    }
    assert hosts[..|urls|] == hosts;
  }

  /** The link rules `score_email` fires, each under the condition it tests. */
  function LinkSteps(urls: seq<string>, urlCounts: Option<UrlCounts>): seq<Rule> {
    Maybe(LinkPresent, urls != [])
    + Maybe(LinkShortener, urlCounts.Some? && urlCounts.value.shorteners > 0)
    + Maybe(IpAddressLink, urlCounts.Some? && urlCounts.value.ipLinks > 0)
    + Maybe(UnusualHost, urlCounts.Some? && urlCounts.value.suspiciousHosts > 0)
  }

  /** The rules fired so far, followed by the keyword rules `score_email` fires. */
  function WordingSteps(fired: seq<Rule>, urgencyHits: seq<string>, credentialHits: seq<string>, authorityHits: seq<string>): seq<Rule> {
    fired
    + Maybe(UrgencyLanguage, urgencyHits != [])
    + Maybe(CredentialRequest, credentialHits != [])
    + Maybe(AuthorityCue, authorityHits != [])
  }

  /** The rules `score_email` fires, in the order it tests them. */
  function Steps(f: Features): seq<Rule> {
    WordingSteps(LinkSteps(f.urls, f.urlCounts), f.urgencyHits, f.credentialHits, f.authorityHits)
    + Maybe(SenderMismatch, f.fromReplyToMismatch)
  }

  lemma StepsAreFiredRules(f: Features)
    ensures Steps(f) == FiredRules(f)
  {
    FiredRulesInOrder(f);
  }

  /**
   * One scoring step of `score_email`: when the condition holds, the rule's
   * weight goes onto the score and the rule onto the list of rules that fired.
   */
  method AddIf(rule: Rule, condition: bool, score: int, fired: seq<Rule>) returns (score': int, fired': seq<Rule>)
    requires score == TotalWeight(fired)
    ensures fired' == fired + Maybe(rule, condition)
    ensures score' == TotalWeight(fired')
  {
    score', fired' := score, fired;
    if condition {
      score' := score + rule.Weight();
      fired' := fired + [rule];
      Push(fired, rule);
    }
  }

  /** Section 1 of `score_email` once the links are extracted: the four link rules. */
  method ScoreLinks(urls: seq<string>) returns (urlCounts: Option<UrlCounts>, score: int, fired: seq<Rule>)
    requires AllHttpUrls(urls)
    ensures urlCounts == LinkCounts(urls)
    ensures fired == LinkSteps(urls, urlCounts)
    ensures score == TotalWeight(fired)
  {
    score, fired := 0, [];
    urlCounts := None;
    if urls != [] {
      score, fired := AddIf(LinkPresent, true, score, fired);
      var shorteners, ipLinks, suspiciousUrlCount := CountLinkHosts(urls);
      urlCounts := Some(UrlCounts(shorteners, ipLinks, suspiciousUrlCount));
      score, fired := AddIf(LinkShortener, shorteners > 0, score, fired);
      score, fired := AddIf(IpAddressLink, ipLinks > 0, score, fired);
      score, fired := AddIf(UnusualHost, suspiciousUrlCount > 0, score, fired);
    }
  }

  /** Sections 2 to 4 of `score_email`: the urgency, credential and authority keyword rules. */
  method ScoreWording(text: string, score: int, fired: seq<Rule>)
    returns (urgencyHits: seq<string>, credHits: seq<string>, authHits: seq<string>, score': int, fired': seq<Rule>)
    requires score == TotalWeight(fired)
    ensures urgencyHits == Hits(UrgentKeywords, text)
    ensures credHits == Hits(CredentialKeywords, text)
    ensures authHits == Hits(AuthorityKeywords, text)
    ensures fired' == WordingSteps(fired, urgencyHits, credHits, authHits)
    ensures score' == TotalWeight(fired')
  {
    // Second check: pressure wording
    urgencyHits := Hits(UrgentKeywords, text);
    score', fired' := AddIf(UrgencyLanguage, urgencyHits != [], score, fired);

    // Third check: requests for credentials
    credHits := Hits(CredentialKeywords, text);
    score', fired' := AddIf(CredentialRequest, credHits != [], score', fired');

    // Fourth check: appeals to authority
    authHits := Hits(AuthorityKeywords, text);
    score', fired' := AddIf(AuthorityCue, authHits != [], score', fired');
  }

  /**
   * Sections 1 to 5 of `score_email`: gathers the evidence and adds up the
   * score of the rules that fire.
   */
  method Gather(subject: Option<string>, fromAddr: Option<string>, replyTo: Option<string>, bodyText: Option<string>)
    returns (features: Features, score: int, fired: seq<Rule>)
    ensures features == Evidence(subject, fromAddr, replyTo, bodyText)
    ensures fired == Steps(features)
    ensures score == TotalWeight(fired)
  {
    var body := OrEmpty(bodyText);
    var from := OrEmpty(fromAddr);
    var reply := OrEmpty(replyTo);
    var text := MessageText(subject, bodyText);

    // First check: the links in the body
    var urls := ExtractUrls(body);
    assert AllHttpUrls(urls) by { ExtractedUrlsAreHttp(body); }
    var urlCounts;
    urlCounts, score, fired := ScoreLinks(urls);

    // Second to fourth checks: the three keyword lists
    var urgencyHits, credHits, authHits;
    urgencyHits, credHits, authHits, score, fired := ScoreWording(text, score, fired);

    // Fifth check: does Reply-To differ from From
    var mismatch := false;
    if from != [] && reply != [] && Lower(from) != Lower(reply) {
      mismatch := true;
    }
    score, fired := AddIf(SenderMismatch, mismatch, score, fired);

    features := Features(urls, urlCounts, urgencyHits, credHits, authHits, mismatch);
  }

  /** The rest of `score_email`: clamps the score, picks the verdict and the taxonomy, lists the reasons. */
  method Conclude(features: Features, text: string, score: int, fired: seq<Rule>) returns (a: Assessment)
    requires fired == FiredRules(features) && score == TotalWeight(fired)
    ensures a == Judge(features, text)
  {
    // Keep the score within 0 to 100
    var clamped := if score > 100 then 100 else if score < 0 then 0 else score;

    var verdict;
    if clamped >= 70 {
      verdict := Phishing;
    } else if clamped >= 40 {
      verdict := Suspicious;
    } else {
      verdict := Safe;
    }

    var attackType;
    if features.credentialHits != [] {
      attackType := CredentialHarvesting;
    } else if Contains(text, "invoice") || Contains(text, "payment") || Contains(text, "wire") || Contains(text, "transfer") {
      attackType := InvoicePaymentFraud;
    } else if features.fromReplyToMismatch {
      attackType := ImpersonationSpoofing;
    } else {
      attackType := GeneralSocialEngineering;
    }

    var strategy;
    if features.urgencyHits != [] {
      strategy := UrgencyPressure;
    } else if features.authorityHits != [] {
      strategy := Authority;
    } else {
      strategy := UnknownOther;
    }

    a := Assessment(clamped, verdict, attackType, strategy, FirstEight(ReasonsOf(fired)), features);
  }

  /**
   * `score_email(subject, from_addr, reply_to, body_text)`: gathers the
   * evidence, adds the weight of every rule that fires, clamps the total and
   * classifies the message.
   */
  method ScoreEmail(subject: Option<string>, fromAddr: Option<string>, replyTo: Option<string>, bodyText: Option<string>)
    returns (a: Assessment)
    ensures a == Assess(subject, fromAddr, replyTo, bodyText)
  {
    var features, score, fired := Gather(subject, fromAddr, replyTo, bodyText);
    StepsAreFiredRules(features);
    a := Conclude(features, MessageText(subject, bodyText), score, fired);
  }
}
