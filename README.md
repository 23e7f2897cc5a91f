# Phishing detection engine — a Dafny model

This project models the scoring engine of a phishing-awareness
application: `score_email` takes the subject, From, Reply-To and body of
a message and returns an assessment with these fields:

- a risk score from 0 to 100;
- a verdict (`safe`, `suspicious` or `phishing`);
- an attack-type label;
- a manipulation-strategy label;
- the reasons behind the score;
- the evidence it found, which is the `features` dictionary.

It also models the two helpers the engine uses: `extract_urls` and `domain_of`.

Files:

- `Wrappers.dfy`: `Option`, which models Python's `None`.
- `Text.dfy`: characters and strings. It covers the characters `\s` matches, ASCII digits and case, `str.lower`, the `in` substring test, `str.split(...)[0]` and `str.count`.
- `UrlExtraction.dfy`: `extract_urls` and `domain_of`.
  - `extract_urls` scans left to right for `https?://` followed by a run of non-space characters. It then strips trailing `).,;!"'` from each match.
  - `domain_of` takes the authority part of the URL, lower-cases it and cuts it at the first `:`.
- `DetectionEngine.dfy`: the keyword and shortener constants, the keyword scans and the three host checks. It also holds the specification and the imperative model of `score_email`:
  - The specification `Assess` is built from `Evidence`, the eight `Rule`s with their weights and sentences, and `Judge`.
  - The method `ScoreEmail` follows the source step by step. It uses a loop over the links with three counters, one conditional score-and-reason step per rule, the clamp, the verdict and the two label chains. It is proved equal to `Assess`.
- `Properties.dfy`: what the engine promises about its result:
  - the score range and the cap;
  - at most eight reasons;
  - link rules only fire when there are links;
  - the exact keyword hits;
  - label precedence;
  - invoice fraud implies urgency;
  - the all-empty message and the sender-only message.
- `Examples.dfy`: concrete messages worked through `Assess`:
  - a URL inside a sentence is extracted without the full stop after it;
  - a body that is only `http://bit.ly/abc` scores 30 and is safe;
  - "URGENT: verify your account immediately at http://192.168.1.1/login" is phishing, credential harvesting and urgency pressure;
  - a message on which all eight rules fire reaches the 100 cap;
  - sample hosts on either side of the IPv4 and unusual-host checks.

The `features` dictionary is a record, `Features`. Its three link counters
sit together in one `Option<UrlCounts>`. That value is `None` exactly when
there are no links, which matches the source: it only writes those three
keys when the body has a link.

While scoring, `ScoreEmail` keeps the list of rules that fired rather than
the list of sentences. It renders the sentences from that list once, at
the end. The resulting list is the same one the source builds by appending
one sentence per rule (`DetectionEngine.Push`).

## Model

| member | source | states |
|---|---|---|
| Text.LowerChar | app/services/detection_engine.py:35 | lowering a character leaves no upper-case letter, shifts `A`–`Z` by 32 and keeps every other character |
| Text.Lower | app/services/detection_engine.py:58 | `str.lower` keeps the length and lowers each character in place |
| Text.LowerIsIdempotent | app/services/detection_engine.py:58 | lowered text has no upper-case letter, and lowering it again changes nothing |
| Text.LowerConcat | app/services/detection_engine.py:58 | lowering the joined subject and body is joining the lowered parts |
| Text.LowerOfLowerCase | app/services/detection_engine.py:58 | text with no upper-case letter is unchanged by `str.lower` |
| Text.ContainsIff | app/services/detection_engine.py:101 | `k in text` holds exactly when `k` occurs at some position of `text` |
| Text.NotContainsLonger | app/services/detection_engine.py:101 | a keyword longer than the text never occurs in it |
| Text.ContainsInConcat | app/services/detection_engine.py:101 | an occurrence of a keyword in either part of a text is an occurrence in the whole |
| Text.ContainedCharsOccur | app/services/detection_engine.py:101 | every character of a keyword the text contains occurs in the text |
| Text.LoweredPartContains | app/services/detection_engine.py:58 | a keyword found in either lowered part is found in the lowered whole, since lowering commutes with concatenation |
| Text.PrefixBefore | app/services/detection_engine.py:37 | `split(c)[0]` is the longest prefix free of the stop characters: a prefix of the input, none of its characters a stop character, followed by a stop character or the end |
| Text.PrefixBeforeIs | app/services/detection_engine.py:37 | `split(c)[0]` is exactly the text before the first stop character, wherever that is |
| Text.CountChar | app/services/detection_engine.py:83 | `str.count` is at most the length, and is zero exactly when the character does not occur |
| UrlExtraction.RStripPunct | app/services/detection_engine.py:28 | `rstrip` leaves a prefix of the input whose last character is not one of `).,;!"'`, and only those characters were removed |
| UrlExtraction.RStripPunctKeeps | app/services/detection_engine.py:28 | `rstrip` leaves a string that does not end in `).,;!"'` unchanged |
| UrlExtraction.SchemeLength | app/services/detection_engine.py:26 | the scheme matched at a position is 0 (none), 7 (`http://`) or 8 (`https://`) characters and fits in the text |
| UrlExtraction.SchemeLengthMeansScheme | app/services/detection_engine.py:26 | a scheme is matched at a position exactly when the text there begins with `http://` or `https://` in any case |
| UrlExtraction.RunEnd | app/services/detection_engine.py:26 | `[^\s]+` runs greedily: every character in the run is non-space, and the run stops at a space or the end |
| UrlExtraction.RunEndIs | app/services/detection_engine.py:26 | the run `[^\s]+` ends exactly at the first whitespace character or at the end |
| UrlExtraction.UrlWordIsMatched | app/services/detection_engine.py:26 | a word that begins with the scheme and is followed by whitespace or the end is matched whole |
| UrlExtraction.MatchAt | app/services/detection_engine.py:26 | a match at a position is non-empty and ends at a space or at the end of the text |
| UrlExtraction.Scan | app/services/detection_engine.py:26 | `re.findall` reports matches that are genuine matches of the pattern, in text order and not overlapping (that it misses none is `ScanCoversMatches`) |
| UrlExtraction.ScanSkipsTo | app/services/detection_engine.py:26 | positions where no `h` or `H` stands start no match, so the scan passes over them |
| UrlExtraction.ScanCoversMatches | app/services/detection_engine.py:26 | every position where the pattern matches lies inside one of the matches reported, so the scan misses no URL |
| UrlExtraction.MatchAfterSpaceIsReported | app/services/detection_engine.py:26 | a match starting at the beginning of the text or after whitespace is reported with exactly its own extent |
| UrlExtraction.MatchAfterSpaceIsExtracted | app/services/detection_engine.py:22-29 | such a match, with trailing punctuation stripped, is among the extracted URLs |
| UrlExtraction.UrlWordIsExtracted | app/services/detection_engine.py:22-29 | a URL written as a word of its own, not ending in punctuation, is among the extracted URLs unchanged |
| UrlExtraction.StripEach | app/services/detection_engine.py:28 | one cleaned URL per match: the matched text with trailing punctuation stripped |
| UrlExtraction.ExtractUrls | app/services/detection_engine.py:22-29 | one URL per regex match |
| UrlExtraction.ExtractedUrlAt | app/services/detection_engine.py:22-29 | the k-th URL is the k-th match with its trailing punctuation stripped |
| UrlExtraction.StrippedMatchPosition | app/services/detection_engine.py:26-28 | a cleaned match still holds its whole scheme and sits in the text at the match's start, followed only by stripped punctuation |
| UrlExtraction.StrippedMatchForm | app/services/detection_engine.py:26-28 | a cleaned match still begins with the same scheme, contains no whitespace and does not end in trailing punctuation |
| UrlExtraction.MatchEndsAtSpace | app/services/detection_engine.py:26 | each match ends at whitespace or at the end of the text |
| UrlExtraction.ExtractedUrlPosition | app/services/detection_engine.py:22-29 | each extracted URL occurs in the body at its match's start, followed only by stripped punctuation up to the match's end |
| UrlExtraction.ExtractedUrlForm | app/services/detection_engine.py:22-29 | every extracted URL begins with `http://` or `https://` in any case, has no whitespace and does not end in `).,;!"'` |
| UrlExtraction.ExtractedUrlIsSubstring | app/services/detection_engine.py:22-29 | every extracted URL is a substring of the body |
| UrlExtraction.ExtractedUrlsInTextOrder | app/services/detection_engine.py:22-29 | URLs come in body order, and each lies wholly before the next |
| UrlExtraction.ScanEmptyIff | app/services/detection_engine.py:26 | the scan finds nothing exactly when no position of the remaining text starts a match |
| UrlExtraction.ExtractUrlsEmptyIff | app/services/detection_engine.py:22-29 | the list is empty exactly when no position of the body starts a match, which includes the empty body |
| UrlExtraction.DomainOf | app/services/detection_engine.py:32-40 | a host `domain_of` returns is non-empty, lower-case and holds none of `:/?#` |
| UrlExtraction.DomainOfPlainHost | app/services/detection_engine.py:32-40 | a lower-case host free of `:/?#` that ends the authority is exactly what `domain_of` returns |
| UrlExtraction.DomainOfShape | app/services/detection_engine.py:32-40 | the host is non-empty, lower-case and free of `:/?#`, and it is the lowered text right after the scheme; `None` exactly when the authority is empty or starts with `:` |
| UrlExtraction.HostHasNoSpace | app/services/detection_engine.py:32-40 | the host of a URL without whitespace has no whitespace |
| DetectionEngine.Hits | app/services/detection_engine.py:101 | a keyword list comprehension yields at most as many hits as there are keywords |
| DetectionEngine.HitsMembership | app/services/detection_engine.py:101 | a keyword is a hit exactly when it is in the list and occurs in the text |
| DetectionEngine.KeywordHit | app/services/detection_engine.py:101 | a keyword of the list that occurs in the text makes the hit list non-empty |
| DetectionEngine.NoHitsOutsideAlphabet | app/services/detection_engine.py:101 | no keyword is a hit when each has a character the text never uses |
| DetectionEngine.HitsKeepOrder | app/services/detection_engine.py:101 | the hits are a subsequence of the keyword list, so list order is kept |
| DetectionEngine.HitsAreDistinct | app/services/detection_engine.py:101 | a list without repeats gives hits without repeats |
| DetectionEngine.DigitRun | app/services/detection_engine.py:80 | `\d` runs greedily: all digits, stopping at a non-digit or the end |
| DetectionEngine.DigitGroupsShape | app/services/detection_engine.py:80 | text matching `n` dotted digit groups has only digits and dots and is at most `4n - 1` long |
| DetectionEngine.IpLiteralShape | app/services/detection_engine.py:80 | a host that matches the IPv4 pattern is at most 16 characters, starts with a digit and holds only digits, dots and a final newline that `$` allows |
| DetectionEngine.IpLiteralIsNotUnusual | app/services/detection_engine.py:80-84 | an IPv4 literal is never counted as an unusual host |
| DetectionEngine.IpLiteralIsNotShortener | app/services/detection_engine.py:78-80 | an IPv4 literal is never a shortener domain |
| DetectionEngine.Hosts | app/services/detection_engine.py:76-77 | one host per link, in link order |
| DetectionEngine.CountFlagged | app/services/detection_engine.py:76-84 | a counter never exceeds the number of links |
| DetectionEngine.CountFlaggedPositive | app/services/detection_engine.py:76-84 | a counter is positive exactly when some host trips its check |
| DetectionEngine.CountFlaggedSingle | app/services/detection_engine.py:76-84 | a single link counts once when its host trips the check and not at all otherwise |
| DetectionEngine.ExtractedUrlsAreHttp | app/services/detection_engine.py:66-77 | every extracted URL has an `http`/`https` scheme, so `domain_of` is applied to URLs of that form |
| DetectionEngine.ReasonsOf | app/services/detection_engine.py:60-127 | one sentence per fired rule |
| DetectionEngine.OrEmpty | app/services/detection_engine.py:53-56 | `x or ""` is empty exactly when the field is absent or empty |
| DetectionEngine.MessageText | app/services/detection_engine.py:58 | the scanned text is the lowered subject, a newline and the lowered body, and holds no upper-case letter |
| DetectionEngine.SubjectWordInText | app/services/detection_engine.py:58 | a keyword of the lowered subject is found in the scanned text |
| DetectionEngine.BodyWordInText | app/services/detection_engine.py:58 | a keyword of the lowered body is found in the scanned text |
| DetectionEngine.LinkCounts | app/services/detection_engine.py:86-88 | the three counters are present exactly when the body has a link |
| DetectionEngine.Evidence | app/services/detection_engine.py:53-127 | the evidence holds only `http`/`https` links, link counters exactly when there are links, no more hits than keywords, and a sender mismatch only when both addresses are given |
| DetectionEngine.Clamp | app/services/detection_engine.py:129-130 | `max(0, min(100, score))` is in [0, 100], keeps in-range scores and caps the rest |
| DetectionEngine.VerdictFor | app/services/detection_engine.py:132-138 | phishing iff score ≥ 70, suspicious iff 40 ≤ score < 70, safe iff score < 40 |
| DetectionEngine.AttackTypeFor | app/services/detection_engine.py:140-148 | credential harvesting iff there are credential hits; payment fraud iff not and a payment word occurs; impersonation iff neither and the senders differ; general otherwise |
| DetectionEngine.StrategyFor | app/services/detection_engine.py:150-155 | urgency iff there are urgency hits; authority iff not and there are authority hits; unknown otherwise |
| DetectionEngine.FirstEight | app/services/detection_engine.py:162 | `reasons[:8]` is a prefix of at most eight entries and the whole list when it has at most eight |
| DetectionEngine.Judge | app/services/detection_engine.py:129-164 | the score is in [0, 100] and at most the raw score, phishing iff it is at least 70, and the reasons are at most eight, a prefix of the fired rules' sentences |
| DetectionEngine.Assess | app/services/detection_engine.py:43-164 | the result carries the evidence gathered from the inputs, a score in [0, 100], at most eight reasons, and link counters exactly when there are links |
| DetectionEngine.FiredRulesInOrder | app/services/detection_engine.py:65-127 | the fired rules are the eight checks, each kept when its condition holds, in evaluation order |
| DetectionEngine.RawScoreIsSum | app/services/detection_engine.py:63-127 | the raw score is the sum over the rules of each rule's weight when it fires |
| DetectionEngine.RawScoreTerms | app/services/detection_engine.py:63-127 | the raw score is 15, 15, 20, 10, 20, 20, 10 and 15 points added for the eight conditions |
| DetectionEngine.ReasonsInRuleOrder | app/services/detection_engine.py:60-127 | the reasons are each fired rule's sentence, in evaluation order |
| DetectionEngine.Push | app/services/detection_engine.py:68-70 | adding a rule adds its weight to the score and appends its sentence to the reasons |
| DetectionEngine.CountLinkHosts | app/services/detection_engine.py:72-84 | the loop's three counters equal the number of links whose host is a shortener, an IPv4 literal and unusual-looking |
| DetectionEngine.StepsAreFiredRules | app/services/detection_engine.py:65-127 | the rules the step-by-step scoring fires are exactly the fired rules of the evidence |
| DetectionEngine.AddIf | app/services/detection_engine.py:68-70 | a guarded step adds the rule, and its weight, exactly when its condition holds |
| DetectionEngine.ScoreLinks | app/services/detection_engine.py:65-98 | the link section yields the link counters and fires the link rules in order, with the score equal to their weights |
| DetectionEngine.ScoreWording | app/services/detection_engine.py:100-119 | the keyword section records the exact hits and fires urgency, credential and authority rules in order |
| DetectionEngine.Gather | app/services/detection_engine.py:53-127 | the evidence gathered is `Evidence` of the inputs, and the score so far is the weight of the rules fired |
| DetectionEngine.Conclude | app/services/detection_engine.py:129-164 | clamp, verdict, the two label chains and `reasons[:8]` give `Judge` of the evidence |
| DetectionEngine.ScoreEmail | app/services/detection_engine.py:43-164 | the step-by-step scoring returns exactly the assessment `Assess` specifies |
| EngineProperties.FiredAmongLength | app/services/detection_engine.py:162 | no more rules fire than there are rules |
| EngineProperties.RawScoreAtMost125 | app/services/detection_engine.py:63-127 | the raw score never exceeds 125, the sum of all weights |
| EngineProperties.RiskScoreIsCappedRawScore | app/services/detection_engine.py:129-130 | the risk score is in [0, 100] and equals the raw score capped at 100 |
| EngineProperties.ReasonsFitInEight | app/services/detection_engine.py:162 | there are as many reasons as fired rules, at most eight, so `[:8]` keeps them all |
| EngineProperties.LinkCountersCountHosts | app/services/detection_engine.py:72-88 | each link counter is at most the number of links and positive exactly when some link's host trips its check |
| EngineProperties.LinkFlagsItsHost | app/services/detection_engine.py:72-84 | a link whose host trips a check witnesses that some host does |
| EngineProperties.HostCountMeaning | app/services/detection_engine.py:76-84 | counting a host check over the links is positive exactly when some link's host trips it |
| EngineProperties.LinkRulesNeedLinks | app/services/detection_engine.py:68-98 | the counters exist exactly when the link rule fires, and the shortener, IP and unusual-host rules fire only with it |
| EngineProperties.KeywordListsHaveNoDuplicates | app/services/detection_engine.py:6-17 | none of the three keyword lists repeats a keyword |
| EngineProperties.HitsAreExact | app/services/detection_engine.py:100-119 | each hit list holds exactly the keywords of its list that occur in the lowered text, in list order and without repeats |
| EngineProperties.LabelsFollowFirstMatch | app/services/detection_engine.py:132-155 | credentials win over payment words, which win over a sender mismatch; urgency wins over authority; the verdict follows the capped score |
| EngineProperties.SenderMismatchIgnoresCase | app/services/detection_engine.py:122 | the sender check is symmetric and case-blind, and never flags an address against itself |
| EngineProperties.PaymentWordsAreUrgent | app/services/detection_engine.py:142 | any payment word in the text is also an urgency hit |
| EngineProperties.PaymentFraudIsUrgent | app/services/detection_engine.py:140-155 | a message labelled invoice or payment fraud is always labelled urgency/pressure |
| EngineProperties.NoHitsInShortText | app/services/detection_engine.py:101 | no keyword longer than the text is a hit |
| EngineProperties.EmptyTextEvidence | app/services/detection_engine.py:53-127 | with no subject and no body, the text is one newline, mentions no payment, and the only evidence is the sender check |
| EngineProperties.SenderEvidenceOnly | app/services/detection_engine.py:121-155 | with no links, keywords or payment wording, a sender mismatch gives 15, safe and impersonation with its one reason; otherwise 0, safe and general |
| EngineProperties.EmptyMessage | app/services/detection_engine.py:43-164 | all fields absent or empty give score 0, safe, general social engineering, unknown strategy, no reasons and empty evidence |
| EngineProperties.MismatchedSenderOnly | app/services/detection_engine.py:43-164 | From `ceo@company.com` with Reply-To `attacker@evil.com` and nothing else gives 15, safe, impersonation and the one sender reason |
| EngineExamples.SentenceSpans | app/services/detection_engine.py:26 | in "See https://example.com/path?a=1 now." the pattern matches once, from the URL up to the next space |
| EngineExamples.UrlInSentenceIsExtracted | app/services/detection_engine.py:22-29 | that sentence yields exactly `https://example.com/path?a=1`, with the full stop stripped |
| EngineExamples.ShortLinkUrls | app/services/detection_engine.py:22-29 | the body `http://bit.ly/abc` yields exactly that one URL |
| EngineExamples.ShortLinkHost | app/services/detection_engine.py:32-40 | its host is `bit.ly` |
| EngineExamples.ShortLinkCounts | app/services/detection_engine.py:72-88 | one shortener, no IP-address link and no unusual host |
| EngineExamples.ShortLinkText | app/services/detection_engine.py:58 | the scanned text is a newline and the link, written in a small alphabet |
| EngineExamples.ShortLinkNotUrgent | app/services/detection_engine.py:100-105 | no urgency keyword and no payment word occurs in it |
| EngineExamples.ShortLinkAsksNoCredentials | app/services/detection_engine.py:107-112 | no credential keyword occurs in it |
| EngineExamples.ShortLinkClaimsNoAuthority | app/services/detection_engine.py:114-119 | no authority keyword occurs in it |
| EngineExamples.ShortLinkGathered | app/services/detection_engine.py:53-127 | the evidence is the one link with one shortener and nothing else |
| EngineExamples.ShortenedLinksFire | app/services/detection_engine.py:63-98 | links whose only flagged hosts are shorteners, and nothing else, score 30 with the two link reasons |
| EngineExamples.ShortenedLinksOnly | app/services/detection_engine.py:129-155 | such evidence is judged 30, safe, general social engineering, unknown strategy |
| EngineExamples.ShortLinkOnly | app/services/detection_engine.py:43-164 | `http://bit.ly/abc` alone gives 30, safe, the two link reasons and the default labels |
| EngineExamples.CapBodyLinks | app/services/detection_engine.py:22-29 | a body of three space-separated links yields all three |
| EngineExamples.ShortUrlFlagged | app/services/detection_engine.py:76-79 | `http://t.co` has a shortener host |
| EngineExamples.IpUrlFlagged | app/services/detection_engine.py:76-81 | `http://1.1.1.1` has an IPv4 host |
| EngineExamples.HyphenUrlFlagged | app/services/detection_engine.py:76-84 | `http://a-b-c-d` has an unusual-looking host |
| EngineExamples.CapLinkCounters | app/services/detection_engine.py:72-88 | all three link counters of that body are positive |
| EngineExamples.CapWording | app/services/detection_engine.py:100-119 | the subject "urgent login ceo" gives urgency, credential and authority hits |
| EngineExamples.CapSenders | app/services/detection_engine.py:122 | From `a@x` and Reply-To `b@y` differ |
| EngineExamples.AllRulesFire | app/services/detection_engine.py:63-138 | evidence tripping every check fires all eight rules, scores 125, is capped to 100 and is phishing |
| EngineExamples.CapEvidence | app/services/detection_engine.py:53-127 | the evidence of that message trips every check |
| EngineExamples.CapIsReachable | app/services/detection_engine.py:43-164 | `Assess` of that message fires all eight rules: raw score 125, risk score 100, phishing, all eight reasons |
| EngineExamples.UrgentBodyLink | app/services/detection_engine.py:22-29 | the body "URGENT: verify your account immediately at http://192.168.1.1/login" yields its link |
| EngineExamples.LoginUrlHost | app/services/detection_engine.py:32-40 | the link's host is `192.168.1.1` |
| EngineExamples.UrgentBodyCounters | app/services/detection_engine.py:72-88 | that body counts an IP-address link |
| EngineExamples.UrgentBodyIsUrgent | app/services/detection_engine.py:100-105 | "URGENT", lowered, is an urgency hit |
| EngineExamples.UrgentBodyAsksToLogIn | app/services/detection_engine.py:107-112 | "login" in the link's path is a credential hit |
| EngineExamples.UrgentCredentialLinkJudged | app/services/detection_engine.py:63-155 | a link, an IP-address link, urgency and a credential request score at least 75: phishing, credential harvesting, urgency pressure |
| EngineExamples.UrgentLoginAtIpAddress | app/services/detection_engine.py:43-164 | `Assess` of that body gives at least 75, phishing, credential harvesting and urgency pressure |
| EngineExamples.OnesAreIpv4 | app/services/detection_engine.py:80 | `1.1.1.1` matches the IPv4 pattern |
| EngineExamples.PrivateAddressIsIpv4 | app/services/detection_engine.py:80 | `192.168.1.1` matches the IPv4 pattern |
| EngineExamples.DottedQuad | app/services/detection_engine.py:80 | `255.0.10.1` matches the IPv4 pattern |
| EngineExamples.DottedQuadBeforeNewline | app/services/detection_engine.py:80 | `8.8.8.8` followed by a newline matches, since `$` allows a final newline |
| EngineExamples.ThreeGroupsAreNotAQuad | app/services/detection_engine.py:80 | three digit groups do not match |
| EngineExamples.FiveGroupsAreNotAQuad | app/services/detection_engine.py:80 | five digit groups do not match |
| EngineExamples.FourDigitGroupIsNotAQuad | app/services/detection_engine.py:80 | a group of four digits does not match |
| EngineExamples.HyphenThreshold | app/services/detection_engine.py:83 | three hyphens make a host unusual; two do not |
| EngineExamples.LengthThreshold | app/services/detection_engine.py:83 | a 28-character host is unusual; a 27-character one without hyphens is not |

## Left out

- `to_json_text` (app/services/detection_engine.py:167-168): JSON serialisation of the result, which is I/O formatting and not scoring logic.
- `urlparse` in general: `domain_of` is modelled only for the strings `extract_urls` produces, which all start with `http://` or `https://`. For those, the authority is the text up to the first `/`, `?` or `#`.
- UrlExtraction.DomainOf: does not model the `ValueError` paths of `urlparse`, nor the `except` branch that turns them into `None`. These are: an unbalanced `[` or `]` in the authority; from Python 3.11.4, a bracketed host that is not a valid IPv6 or IPvFuture address; and a non-ASCII authority whose NFKC form contains one of `/?#@:`. The model always returns the lowered text before the first `:`. This can change the unusual-host counter: for `http://[a-b-c-d]/x` the source's host is "" while the model's is `[a-b-c-d]`, which has three hyphens and adds 10 points.
- Text.Lower: `str.lower` is modelled on ASCII letters only. Other Unicode case mappings, some of which change length, are left out.
- Text.IsDigit: `\d` is modelled as `0`–`9`. Python's `str` patterns also accept other Unicode decimal digits.
- UrlExtraction.SchemeLength: `re.IGNORECASE` is modelled as ASCII case-blindness. Python also lets `ſ` (U+017F) match `s`, which the model does not.
- The features dictionary's key/value export is modelled as the typed record `Features`, not as a string-keyed map.
- Everything outside `app/services/detection_engine.py` is not part of this model: the email parser, the database models, application setup and the admin routes.
