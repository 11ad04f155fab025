/** The ATS (applicant tracking system) check and the job-description
    match. Both read one text, `Text(d)`, the lower-cased serialisation of
    the resume. `calculateATSScore` keeps three running scores and a list of
    suggestions, and the method below does the same. It is proved equal to
    `ATSScoreOf`, and the lemmas state what that score means. The job match
    is built the same way: a method with the source's loop, proved equal to
    `JobMatchOf`. */
module AtsChecker {
  import opened Seqs
  import opened Strings
  import opened ResumeTypes
  import opened ResumeText

  // ---------------------------------------------------------------------
  // Industry dictionaries
  // ---------------------------------------------------------------------

  /** `commonKeywords`: five industries, each with a fixed word list. */
  const CommonKeywords: map<string, seq<string>> := map[
    "software" := ["agile", "scrum", "git", "api", "rest", "testing", "debugging", "deployment",
                   "ci/cd", "documentation"],
    "marketing" := ["seo", "analytics", "campaigns", "roi", "crm", "content", "social media", "brand",
                    "strategy", "metrics"],
    "finance" := ["financial analysis", "budgeting", "forecasting", "excel", "reporting", "compliance",
                  "audit", "risk management"],
    "healthcare" := ["patient care", "hipaa", "ehr", "clinical", "medical", "documentation",
                     "protocols", "compliance"],
    "general" := ["leadership", "communication", "teamwork", "problem-solving", "project management",
                  "analytical", "organization"]
  ]

  /** `commonKeywords[key] || commonKeywords.general`. Every list has at
      least seven words, so the keyword ratio never divides by zero. */
  function Lookup(key: string): (r: seq<string>)
    ensures key in CommonKeywords ==> r == CommonKeywords[key]
    ensures key !in CommonKeywords ==> r == CommonKeywords["general"]
    ensures r in CommonKeywords.Values
    ensures 7 <= |r| <= 10
  {
    if key in CommonKeywords then CommonKeywords[key] else CommonKeywords["general"]
  }

  /** `getIndustryKeywords(industry)`: the lookup ignores case. */
  function IndustryKeywords(industry: string): (r: seq<string>)
    ensures Lower(industry) in CommonKeywords ==> r == CommonKeywords[Lower(industry)]
    ensures Lower(industry) !in CommonKeywords ==> r == CommonKeywords["general"]
    ensures r in CommonKeywords.Values
  {
    Lookup(Lower(industry))
  }

  /** Names that differ only in the case of their letters pick the same
      list. */
  lemma IndustryKeywordsIgnoresCase(a: string, b: string)
    requires Lower(a) == Lower(b)
    ensures IndustryKeywords(a) == IndustryKeywords(b)
    ensures IndustryKeywords(a) == IndustryKeywords(Lower(a))
  {
    LowerIdempotent(a);
  }

  /** The dictionary has exactly the five industries. */
  lemma IndustryNames()
    ensures CommonKeywords.Keys == {"software", "marketing", "finance", "healthcare", "general"}
  {
  }

  /** The dictionary name chosen by the score,
      `data.targetIndustry?.toLowerCase() || 'general'`: never empty and
      already lower-case. */
  function IndustryName(target: Option<string>): (r: string)
    ensures target.None? || target.value == "" ==> r == "general"
    ensures target.Some? && target.value != "" ==> r == Lower(target.value)
    ensures r != "" && Lower(r) == r
  {
    if target.Some? && target.value != "" then
      LowerIdempotent(target.value);
      Lower(target.value)
    else
      assert Lower("general") == "general";
      "general"
  }

  /** The word list the score uses. */
  function RelevantKeywords(d: ResumeData): seq<string>
  {
    Lookup(IndustryName(d.targetIndustry))
  }

  /** The score picks its dictionary exactly as `getIndustryKeywords` would
      for the chosen industry name. */
  lemma RelevantKeywordsIsIndustryKeywords(d: ResumeData)
    ensures RelevantKeywords(d) == IndustryKeywords(IndustryName(d.targetIndustry))
  {
    var name := IndustryName(d.targetIndustry);
    assert Lower(name) == name;
  }

  // ---------------------------------------------------------------------
  // Keyword score
  // ---------------------------------------------------------------------

  /** The number of words of `ws` whose lower-cased form occurs in `text`. */
  function KeywordHits(text: string, ws: seq<string>): (m: nat)
    ensures m <= |ws|
    decreases |ws|
  {
    if ws == [] then 0
    else KeywordHits(text, ws[..|ws| - 1]) + (if Contains(text, Lower(ws[|ws| - 1])) then 1 else 0)
  }

  /** Every word is counted exactly when every word occurs. */
  lemma {:induction false} KeywordHitsAll(text: string, ws: seq<string>)
    ensures KeywordHits(text, ws) == |ws| <==> forall i :: 0 <= i < |ws| ==> Contains(text, Lower(ws[i]))
    decreases |ws|
  {
    if ws != [] {
      var init := ws[..|ws| - 1];
      KeywordHitsAll(text, init);
      assert forall i :: 0 <= i < |init| ==> init[i] == ws[i];
    }
  }

  /** Nothing is counted exactly when no word occurs. */
  lemma {:induction false} KeywordHitsNone(text: string, ws: seq<string>)
    ensures KeywordHits(text, ws) == 0 <==> forall i :: 0 <= i < |ws| ==> !Contains(text, Lower(ws[i]))
    decreases |ws|
  {
    if ws != [] {
      var init := ws[..|ws| - 1];
      KeywordHitsNone(text, init);
      assert forall i :: 0 <= i < |init| ==> init[i] == ws[i];
    }
  }

  /** `Math.min(100, (m / n) * 100)`, as an exact ratio. */
  function KeywordScore(m: nat, n: nat): (k: real)
    requires n > 0
    ensures 0.0 <= k <= 100.0
  {
    var x := (m as real) / (n as real) * 100.0;
    if x < 100.0 then x else 100.0
  }

  /** Comparing a quotient is comparing its numerator. */
  lemma DivCompare(a: real, b: real, c: real)
    requires b > 0.0
    ensures a / b < c <==> a < c * b
    ensures a / b == c <==> a == c * b
  {
    var q := a / b;
    assert q * b == a;
    if q < c { assert q * b < c * b; }
    if q > c { assert q * b > c * b; }
  }

  /** Up to 100 the score is the plain ratio; it is 100 exactly when every
      word hit, and below 50 exactly when fewer than half hit. */
  lemma KeywordScoreRatio(m: nat, n: nat)
    requires 0 < n && m <= n
    ensures KeywordScore(m, n) == 100.0 * (m as real) / (n as real)
    ensures KeywordScore(m, n) == 100.0 <==> m == n
    ensures KeywordScore(m, n) < 50.0 <==> 2 * m < n
  {
    var a, b := m as real, n as real;
    DivCompare(a, b, 1.0);
    DivCompare(a, b, 0.5);
    DivCompare(100.0 * a, b, 100.0);
    assert (a / b) * 100.0 == 100.0 * a / b;
  }

  /** The keyword score of `text` against the word list `ws`. */
  function KeywordScoreIn(text: string, ws: seq<string>): real
    requires |ws| > 0
  {
    KeywordScore(KeywordHits(text, ws), |ws|)
  }

  /** The keyword score is 100 exactly when every word of the list occurs
      in the text, and 0 exactly when none does. */
  lemma KeywordScoreInMeaning(text: string, ws: seq<string>)
    requires |ws| > 0
    ensures KeywordScoreIn(text, ws) == 100.0 <==> forall i :: 0 <= i < |ws| ==> Contains(text, Lower(ws[i]))
    ensures KeywordScoreIn(text, ws) == 0.0 <==> forall i :: 0 <= i < |ws| ==> !Contains(text, Lower(ws[i]))
  {
    var m, n := KeywordHits(text, ws), |ws|;
    KeywordScoreRatio(m, n);
    KeywordHitsAll(text, ws);
    KeywordHitsNone(text, ws);
    DivCompare(100.0 * (m as real), n as real, 0.0);
  }

  // ---------------------------------------------------------------------
  // Formatting score
  // ---------------------------------------------------------------------

  const EmailMessage := "Add an email address to your contact information"
  const PhoneMessage := "Include a phone number for easy contact"
  const SummaryMessage := "Write a professional summary of at least 50 characters"
  const ExperienceMessage := "Add work experience to strengthen your resume"
  const SkillsMessage := "Add more skills (aim for at least 5 relevant skills)"

  /** A missing summary has length 0, so `!summary || summary.length < 50`
      is the length test alone. */
  predicate ShortSummary(d: ResumeData) { |d.personalInfo.summary| < 50 }

  /** Formatting after the five penalties: never below 15. */
  function FormattingScore(d: ResumeData): (f: int)
    ensures 15 <= f <= 100
  {
    100
    - (if d.personalInfo.email == "" then 20 else 0)
    - (if d.personalInfo.phone == "" then 15 else 0)
    - (if ShortSummary(d) then 15 else 0)
    - (if |d.experiences| == 0 then 25 else 0)
    - (if |d.skills| < 5 then 10 else 0)
  }

  /** One suggestion per fired penalty, in the order of the checks. */
  function FormattingSuggestions(d: ResumeData): (s: seq<string>)
    ensures |s| <= 5
  {
    (if d.personalInfo.email == "" then [EmailMessage] else [])
    + (if d.personalInfo.phone == "" then [PhoneMessage] else [])
    + (if ShortSummary(d) then [SummaryMessage] else [])
    + (if |d.experiences| == 0 then [ExperienceMessage] else [])
    + (if |d.skills| < 5 then [SkillsMessage] else [])
  }

  /** The points each formatting suggestion stands for. */
  function Penalty(message: string): int
  {
    if message == EmailMessage then 20
    else if message == PhoneMessage then 15
    else if message == SummaryMessage then 15
    else if message == ExperienceMessage then 25
    else if message == SkillsMessage then 10
    else 0
  }

  function TotalPenalty(ms: seq<string>): int
    decreases |ms|
  {
    if ms == [] then 0 else Penalty(ms[0]) + TotalPenalty(ms[1..])
  }

  lemma {:induction false} TotalPenaltyAppend(a: seq<string>, b: seq<string>)
    ensures TotalPenalty(a + b) == TotalPenalty(a) + TotalPenalty(b)
    decreases |a|
  {
    if a == [] {
      assert a + b == b;
    } else {
      assert (a + b)[0] == a[0];
      assert (a + b)[1..] == a[1..] + b;
      TotalPenaltyAppend(a[1..], b);
    }
  }

  /** The five formatting messages have five different lengths. */
  lemma MessageLengths()
    ensures |EmailMessage| == 48 && |PhoneMessage| == 39 && |SummaryMessage| == 54
    ensures |ExperienceMessage| == 45 && |SkillsMessage| == 52
  {
  }

  lemma PenaltyOfMessages()
    ensures Penalty(EmailMessage) == 20 && Penalty(PhoneMessage) == 15 && Penalty(SummaryMessage) == 15
    ensures Penalty(ExperienceMessage) == 25 && Penalty(SkillsMessage) == 10
  {
    MessageLengths();
  }

  /** `TotalPenalty` over five optional messages. */
  lemma TotalPenaltyOfFive(a: string, b: string, c: string, x: string, y: string,
                           ma: bool, mb: bool, mc: bool, mx: bool, my: bool)
    ensures var t := (if ma then [a] else []) + (if mb then [b] else []) + (if mc then [c] else [])
                     + (if mx then [x] else []) + (if my then [y] else []);
      TotalPenalty(t) == (if ma then Penalty(a) else 0) + (if mb then Penalty(b) else 0)
        + (if mc then Penalty(c) else 0) + (if mx then Penalty(x) else 0) + (if my then Penalty(y) else 0)
  {
    var e, p, s, u, k := if ma then [a] else [], if mb then [b] else [], if mc then [c] else [],
                         if mx then [x] else [], if my then [y] else [];
    TotalPenaltyAppend(e, p);
    TotalPenaltyAppend(e + p, s);
    TotalPenaltyAppend(e + p + s, u);
    TotalPenaltyAppend(e + p + s + u, k);
    assert TotalPenalty(e) == if ma then Penalty(a) else 0;
    assert TotalPenalty(p) == if mb then Penalty(b) else 0;
    assert TotalPenalty(s) == if mc then Penalty(c) else 0;
    assert TotalPenalty(u) == if mx then Penalty(x) else 0;
    assert TotalPenalty(k) == if my then Penalty(y) else 0;
  }

  /** Five optional, pairwise different messages make a list without
      duplicates. */
  lemma DistinctOfFive(a: string, b: string, c: string, x: string, y: string,
                       ma: bool, mb: bool, mc: bool, mx: bool, my: bool)
    requires |a| != |b| && |a| != |c| && |a| != |x| && |a| != |y|
    requires |b| != |c| && |b| != |x| && |b| != |y|
    requires |c| != |x| && |c| != |y| && |x| != |y|
    ensures Distinct((if ma then [a] else []) + (if mb then [b] else []) + (if mc then [c] else [])
                     + (if mx then [x] else []) + (if my then [y] else []))
  {
    var t := (if ma then [a] else []) + (if mb then [b] else []) + (if mc then [c] else [])
             + (if mx then [x] else []) + (if my then [y] else []);
    assert forall i :: 0 <= i < |t| ==> t[i] in {a, b, c, x, y};
    forall i, j | 0 <= i < j < |t| ensures t[i] != t[j] {
      assert |t[i]| != |t[j]|;
    }
  }

  /** Every point lost is accounted for by a suggestion: the score is 100
      minus the penalties the suggestions name, the five messages are
      distinct, and the score is perfect exactly when nothing is suggested. */
  lemma FormattingAccounting(d: ResumeData)
    ensures FormattingScore(d) == 100 - TotalPenalty(FormattingSuggestions(d))
    ensures Distinct(FormattingSuggestions(d))
    ensures FormattingScore(d) == 100 <==> FormattingSuggestions(d) == []
  {
    var info := d.personalInfo;
    MessageLengths();
    PenaltyOfMessages();
    TotalPenaltyOfFive(EmailMessage, PhoneMessage, SummaryMessage, ExperienceMessage, SkillsMessage,
                       info.email == "", info.phone == "", ShortSummary(d), |d.experiences| == 0, |d.skills| < 5);
    DistinctOfFive(EmailMessage, PhoneMessage, SummaryMessage, ExperienceMessage, SkillsMessage,
                   info.email == "", info.phone == "", ShortSummary(d), |d.experiences| == 0, |d.skills| < 5);
  }

  /** The formatting messages in the order of their checks. */
  function FormattingMessages(): seq<string>
  {
    [EmailMessage, PhoneMessage, SummaryMessage, ExperienceMessage, SkillsMessage]
  }

  /** The optional message `x`: present exactly when `m` holds. */
  function Opt(m: bool, x: string): seq<string> { if m then [x] else [] }

  lemma SubseqOfTwo(a: string, b: string, ma: bool, mb: bool)
    ensures Subseq(Opt(ma, a) + Opt(mb, b), [a, b])
  {
    var none: seq<string> := [];
    assert Subseq(none, none);
    SubseqSnocOption(none, none, a, ma);
    assert none + Opt(ma, a) == Opt(ma, a) && none + [a] == [a];
    SubseqSnocOption(Opt(ma, a), [a], b, mb);
  }

  lemma SubseqOfThree(a: string, b: string, c: string, ma: bool, mb: bool, mc: bool)
    ensures Subseq(Opt(ma, a) + Opt(mb, b) + Opt(mc, c), [a, b, c])
  {
    SubseqOfTwo(a, b, ma, mb);
    SubseqSnocOption(Opt(ma, a) + Opt(mb, b), [a, b], c, mc);
    assert [a, b] + [c] == [a, b, c];
  }

  lemma SubseqOfFour(a: string, b: string, c: string, x: string, ma: bool, mb: bool, mc: bool, mx: bool)
    ensures Subseq(Opt(ma, a) + Opt(mb, b) + Opt(mc, c) + Opt(mx, x), [a, b, c, x])
  {
    SubseqOfThree(a, b, c, ma, mb, mc);
    SubseqSnocOption(Opt(ma, a) + Opt(mb, b) + Opt(mc, c), [a, b, c], x, mx);
    assert [a, b, c] + [x] == [a, b, c, x];
  }

  lemma SubseqOfFive(a: string, b: string, c: string, x: string, y: string,
                     ma: bool, mb: bool, mc: bool, mx: bool, my: bool)
    ensures Subseq((if ma then [a] else []) + (if mb then [b] else []) + (if mc then [c] else [])
                   + (if mx then [x] else []) + (if my then [y] else []), [a, b, c, x, y])
  {
    SubseqOfFour(a, b, c, x, ma, mb, mc, mx);
    SubseqSnocOption(Opt(ma, a) + Opt(mb, b) + Opt(mc, c) + Opt(mx, x), [a, b, c, x], y, my);
    assert [a, b, c, x] + [y] == [a, b, c, x, y];
  }


  /** Among five pairwise different optional messages, each is present
      exactly when its flag is set. */
  lemma MembersOfFive(a: string, b: string, c: string, x: string, y: string,
                      ma: bool, mb: bool, mc: bool, mx: bool, my: bool)
    requires |a| != |b| && |a| != |c| && |a| != |x| && |a| != |y|
    requires |b| != |c| && |b| != |x| && |b| != |y|
    requires |c| != |x| && |c| != |y| && |x| != |y|
    ensures var t := (if ma then [a] else []) + (if mb then [b] else []) + (if mc then [c] else [])
                     + (if mx then [x] else []) + (if my then [y] else []);
      && (a in t <==> ma) && (b in t <==> mb) && (c in t <==> mc) && (x in t <==> mx) && (y in t <==> my)
  {
    var e, p, s, u, k := if ma then [a] else [], if mb then [b] else [], if mc then [c] else [],
                         if mx then [x] else [], if my then [y] else [];
    assert forall z :: z in e + p + s + u + k <==> z in e || z in p || z in s || z in u || z in k;
  }

  /** Each check pushes its own message, and only when it fails: a message
      is suggested exactly when its condition holds, and the suggestions
      keep the order of the checks. */
  lemma FormattingSuggestionsExactly(d: ResumeData)
    ensures EmailMessage in FormattingSuggestions(d) <==> d.personalInfo.email == ""
    ensures PhoneMessage in FormattingSuggestions(d) <==> d.personalInfo.phone == ""
    ensures SummaryMessage in FormattingSuggestions(d) <==> |d.personalInfo.summary| < 50
    ensures ExperienceMessage in FormattingSuggestions(d) <==> |d.experiences| == 0
    ensures SkillsMessage in FormattingSuggestions(d) <==> |d.skills| < 5
    ensures Subseq(FormattingSuggestions(d), FormattingMessages())
  {
    var info := d.personalInfo;
    MessageLengths();
    MembersOfFive(EmailMessage, PhoneMessage, SummaryMessage, ExperienceMessage, SkillsMessage,
                  info.email == "", info.phone == "", ShortSummary(d), |d.experiences| == 0, |d.skills| < 5);
    SubseqOfFive(EmailMessage, PhoneMessage, SummaryMessage, ExperienceMessage, SkillsMessage,
                 info.email == "", info.phone == "", ShortSummary(d), |d.experiences| == 0, |d.skills| < 5);
  }

  // ---------------------------------------------------------------------
  // Readability score
  // ---------------------------------------------------------------------

  predicate LongDescription(e: Experience) { |e.description| > 500 }

  predicate NoAchievements(e: Experience) { |e.achievements| == 0 }

  /** `summary && summary.length > 300`. */
  predicate LongSummary(d: ResumeData) { |d.personalInfo.summary| > 300 }

  /** Readability in closed form, `100 - 10L - 5E - 10S`: at most 100 and
      unbounded below. */
  function ReadabilityScore(d: ResumeData): (r: int)
    ensures r <= 100
  {
    100 - 10 * |Filter(d.experiences, LongDescription)| - 5 * |Filter(d.experiences, NoAchievements)|
    - (if LongSummary(d) then 10 else 0)
  }

  // The texts after the number are written in pieces only so that the
  // verifier can read off the characters that tell them apart.
  const ConciseTail := ": C" + "onsider making the description more concise"
  const AchievementsTail := ": A" + "dd quantifiable achievements"

  /** The suggestion for a long description of the experience at index `i`
      (numbered from 1 in the text). */
  function ConciseMessage(i: nat): string
  {
    "Experience " + NatToString(i + 1) + ConciseTail
  }

  /** The suggestion for an experience without achievements. */
  function AchievementsMessage(i: nat): string
  {
    "Experience " + NatToString(i + 1) + AchievementsTail
  }

  const ShortenSummaryMessage := "C" + "onsider shortening your professional summary"

  /** The experience loop's suggestions: one per penalty it applies. */
  function ExperienceSuggestions(es: seq<Experience>): (s: seq<string>)
    ensures |s| == |Filter(es, LongDescription)| + |Filter(es, NoAchievements)|
    decreases |es|
  {
    if es == [] then []
    else
      var i := |es| - 1;
      assert es == es[..i] + [es[i]];
      FilterAppend(es[..i], es[i], LongDescription);
      FilterAppend(es[..i], es[i], NoAchievements);
      ExperienceSuggestions(es[..i])
      + (if LongDescription(es[i]) then [ConciseMessage(i)] else [])
      + (if NoAchievements(es[i]) then [AchievementsMessage(i)] else [])
  }

  /** One more experience, as the loop sees it. */
  lemma ExperienceStep(es: seq<Experience>, i: nat)
    requires i < |es|
    ensures |Filter(es[..i + 1], LongDescription)|
            == |Filter(es[..i], LongDescription)| + (if LongDescription(es[i]) then 1 else 0)
    ensures |Filter(es[..i + 1], NoAchievements)|
            == |Filter(es[..i], NoAchievements)| + (if NoAchievements(es[i]) then 1 else 0)
    ensures ExperienceSuggestions(es[..i + 1])
            == ExperienceSuggestions(es[..i])
               + (if LongDescription(es[i]) then [ConciseMessage(i)] else [])
               + (if NoAchievements(es[i]) then [AchievementsMessage(i)] else [])
  {
    assert es[..i + 1][..i] == es[..i];
    assert es[..i + 1] == es[..i] + [es[i]];
    FilterAppend(es[..i], es[i], LongDescription);
    FilterAppend(es[..i], es[i], NoAchievements);
  }

  /** The digits at the front of `s`. */
  function LeadingDigits(s: string): string
    decreases |s|
  {
    if s != "" && '0' <= s[0] <= '9' then [s[0]] + LeadingDigits(s[1..]) else ""
  }

  /** What follows the digits at the front of `s`. */
  function AfterDigits(s: string): string
    decreases |s|
  {
    if s != "" && '0' <= s[0] <= '9' then AfterDigits(s[1..]) else s
  }

  /** Digits followed by a non-digit are read back as those digits. */
  lemma {:induction false} DigitsThenRest(a: string, x: string)
    requires forall k :: 0 <= k < |a| ==> '0' <= a[k] <= '9'
    requires x != "" && !('0' <= x[0] <= '9')
    ensures LeadingDigits(a + x) == a && AfterDigits(a + x) == x
    decreases |a|
  {
    if a == "" {
      assert a + x == x;
    } else {
      assert (a + x)[0] == a[0] && (a + x)[1..] == a[1..] + x;
      DigitsThenRest(a[1..], x);
      assert [a[0]] + a[1..] == a;
    }
  }

  /** A numbered experience message is read back as its number and its text. */
  lemma NumberedMessage(i: nat, tail: string)
    requires tail != "" && tail[0] == ':'
    ensures var m := "Experience " + NatToString(i + 1) + tail;
      LeadingDigits(m[11..]) == NatToString(i + 1) && AfterDigits(m[11..]) == tail
  {
    var m := "Experience " + NatToString(i + 1) + tail;
    assert m[11..] == NatToString(i + 1) + tail;
    DigitsThenRest(NatToString(i + 1), tail);
  }

  /** The two experience messages name their experience, and no message of
      one kind is a message of the other. */
  lemma ExperienceMessagesDistinct(i: nat, j: nat)
    ensures ConciseMessage(i) == ConciseMessage(j) <==> i == j
    ensures AchievementsMessage(i) == AchievementsMessage(j) <==> i == j
    ensures ConciseMessage(i) != AchievementsMessage(j)
    ensures |ConciseMessage(i)| > 0 && ConciseMessage(i)[0] == 'E'
    ensures |AchievementsMessage(i)| > 0 && AchievementsMessage(i)[0] == 'E'
  {
    var c, a := ConciseTail, AchievementsTail;
    assert c[0] == ':' && a[0] == ':';
    NumberedMessage(i, c);
    NumberedMessage(j, c);
    NumberedMessage(i, a);
    NumberedMessage(j, a);
    assert c != a by {
      assert c[2] == 'C' && a[2] == 'A';
    }
  }

  /** `m` is one of the two messages about the experience at index `i`. */
  predicate MessageOf(i: nat, m: string)
  {
    m == ConciseMessage(i) || m == AchievementsMessage(i)
  }

  /** The concise message is in `s` exactly for the long descriptions of `es`. */
  ghost predicate ConciseExactly(es: seq<Experience>, s: seq<string>)
  {
    forall i: nat {:trigger ConciseMessage(i)} :: ConciseMessage(i) in s <==> i < |es| && LongDescription(es[i])
  }

  /** The achievements message is in `s` exactly for the experiences of `es`
      without achievements. */
  ghost predicate AchievementsExactly(es: seq<Experience>, s: seq<string>)
  {
    forall i: nat {:trigger AchievementsMessage(i)} :: AchievementsMessage(i) in s <==> i < |es| && NoAchievements(es[i])
  }

  /** Every message in `s` starts with `E`. */
  ghost predicate StartWithE(s: seq<string>)
  {
    forall k :: 0 <= k < |s| ==> |s[k]| > 0 && s[k][0] == 'E'
  }

  /** The messages of the experiences of `es`, in the loop's order: those of
      the prefix, then the two of the last one. */
  lemma ExperienceSuggestionsSnoc(es: seq<Experience>)
    requires es != []
    ensures ExperienceSuggestions(es) == ExperienceSuggestions(es[..|es| - 1])
              + (if LongDescription(es[|es| - 1]) then [ConciseMessage(|es| - 1)] else [])
              + (if NoAchievements(es[|es| - 1]) then [AchievementsMessage(|es| - 1)] else [])
  {
  }

  lemma ConciseStep(es: seq<Experience>, s0: seq<string>, a: seq<string>, b: seq<string>)
    requires es != [] && ConciseExactly(es[..|es| - 1], s0)
    requires a == if LongDescription(es[|es| - 1]) then [ConciseMessage(|es| - 1)] else []
    requires b == if NoAchievements(es[|es| - 1]) then [AchievementsMessage(|es| - 1)] else []
    ensures ConciseExactly(es, s0 + a + b)
  {
    var n := |es| - 1;
    forall i: nat ensures ConciseMessage(i) in s0 + a + b <==> i < |es| && LongDescription(es[i]) {
      ExperienceMessagesDistinct(i, n);
      if i < n {
        assert es[..n][i] == es[i];
      }
    }
  }

  lemma AchievementsStep(es: seq<Experience>, s0: seq<string>, a: seq<string>, b: seq<string>)
    requires es != [] && AchievementsExactly(es[..|es| - 1], s0)
    requires a == if LongDescription(es[|es| - 1]) then [ConciseMessage(|es| - 1)] else []
    requires b == if NoAchievements(es[|es| - 1]) then [AchievementsMessage(|es| - 1)] else []
    ensures AchievementsExactly(es, s0 + a + b)
  {
    var n := |es| - 1;
    forall i: nat ensures AchievementsMessage(i) in s0 + a + b <==> i < |es| && NoAchievements(es[i]) {
      ExperienceMessagesDistinct(n, i);
      ExperienceMessagesDistinct(i, n);
      if i < n {
        assert es[..n][i] == es[i];
      }
    }
  }

  lemma StartStep(s0: seq<string>, a: seq<string>, b: seq<string>, n: nat)
    requires StartWithE(s0)
    requires a == [] || a == [ConciseMessage(n)]
    requires b == [] || b == [AchievementsMessage(n)]
    ensures StartWithE(s0 + a + b)
  {
    ExperienceMessagesDistinct(n, n);
  }

  lemma {:induction false} ConciseMessagesExactly(es: seq<Experience>)
    ensures ConciseExactly(es, ExperienceSuggestions(es))
    decreases |es|
  {
    if es != [] {
      var n := |es| - 1;
      ConciseMessagesExactly(es[..n]);
      var s0 := ExperienceSuggestions(es[..n]);
      var a := if LongDescription(es[n]) then [ConciseMessage(n)] else [];
      var b := if NoAchievements(es[n]) then [AchievementsMessage(n)] else [];
      ExperienceSuggestionsSnoc(es);
      assert ExperienceSuggestions(es) == s0 + a + b;
      ConciseStep(es, s0, a, b);
    }
  }


  lemma {:induction false} AchievementsMessagesExactly(es: seq<Experience>)
    ensures AchievementsExactly(es, ExperienceSuggestions(es))
    decreases |es|
  {
    if es != [] {
      var n := |es| - 1;
      AchievementsMessagesExactly(es[..n]);
      var s0 := ExperienceSuggestions(es[..n]);
      var a := if LongDescription(es[n]) then [ConciseMessage(n)] else [];
      var b := if NoAchievements(es[n]) then [AchievementsMessage(n)] else [];
      ExperienceSuggestionsSnoc(es);
      assert ExperienceSuggestions(es) == s0 + a + b;
      AchievementsStep(es, s0, a, b);
    }
  }


  lemma {:induction false} ExperienceMessagesStartWithE(es: seq<Experience>)
    ensures StartWithE(ExperienceSuggestions(es))
    decreases |es|
  {
    if es != [] {
      var n := |es| - 1;
      ExperienceMessagesStartWithE(es[..n]);
      ExperienceSuggestionsSnoc(es);
      StartStep(ExperienceSuggestions(es[..n]),
                if LongDescription(es[n]) then [ConciseMessage(n)] else [],
                if NoAchievements(es[n]) then [AchievementsMessage(n)] else [], n);
    }
  }

  /** The experience loop suggests "make the description more concise" for
      experience `i` exactly when its description is over 500 characters,
      and "add achievements" exactly when it has none. */
  lemma ExperienceSuggestionsExactly(es: seq<Experience>)
    ensures forall i: nat {:trigger ConciseMessage(i)} :: ConciseMessage(i) in ExperienceSuggestions(es) <==> i < |es| && LongDescription(es[i])
    ensures forall i: nat {:trigger AchievementsMessage(i)} :: AchievementsMessage(i) in ExperienceSuggestions(es) <==> i < |es| && NoAchievements(es[i])
    ensures forall k :: 0 <= k < |ExperienceSuggestions(es)| ==>
              |ExperienceSuggestions(es)[k]| > 0 && ExperienceSuggestions(es)[k][0] == 'E'
  {
    ConciseMessagesExactly(es);
    AchievementsMessagesExactly(es);
    ExperienceMessagesStartWithE(es);
  }

  /** In `s`, the messages of an earlier experience come before those of a
      later one. */
  ghost predicate MessagesInOrder(s: seq<string>)
  {
    forall p, q, i: nat, j: nat ::
      (0 <= p < q < |s| && MessageOf(i, s[p]) && MessageOf(j, s[q])) ==> i <= j
  }

  /** The messages of one more experience, at the end, keep the order. */
  lemma InOrderStep(es: seq<Experience>, s0: seq<string>, a: seq<string>, b: seq<string>)
    requires es != [] && MessagesInOrder(s0)
    requires ConciseExactly(es[..|es| - 1], s0) && AchievementsExactly(es[..|es| - 1], s0)
    requires a == if LongDescription(es[|es| - 1]) then [ConciseMessage(|es| - 1)] else []
    requires b == if NoAchievements(es[|es| - 1]) then [AchievementsMessage(|es| - 1)] else []
    ensures MessagesInOrder(s0 + a + b)
  {
    var n := |es| - 1;
    var s := s0 + a + b;
    forall p, q, i: nat, j: nat | 0 <= p < q < |s| && MessageOf(i, s[p]) && MessageOf(j, s[q])
      ensures i <= j
    {
      if q < |s0| {
        assert s[p] == s0[p] && s[q] == s0[q];
      } else {
        assert s[q] in a + b;
        ExperienceMessagesDistinct(j, n);
        ExperienceMessagesDistinct(n, j);
        if p < |s0| {
          assert s[p] == s0[p] && s0[p] in s0;
        } else {
          assert s[p] in a + b;
          ExperienceMessagesDistinct(i, n);
          ExperienceMessagesDistinct(n, i);
        }
      }
    }
  }

  /** The messages of an earlier experience come before those of a later one. */
  lemma {:induction false} ExperienceSuggestionsInOrder(es: seq<Experience>)
    ensures forall p, q, i: nat, j: nat ::
      (0 <= p < q < |ExperienceSuggestions(es)| && MessageOf(i, ExperienceSuggestions(es)[p])
       && MessageOf(j, ExperienceSuggestions(es)[q])) ==> i <= j
    decreases |es|
  {
    if es != [] {
      var n := |es| - 1;
      ExperienceSuggestionsInOrder(es[..n]);
      ConciseMessagesExactly(es[..n]);
      AchievementsMessagesExactly(es[..n]);
      ExperienceSuggestionsSnoc(es);
      var a := if LongDescription(es[n]) then [ConciseMessage(n)] else [];
      var b := if NoAchievements(es[n]) then [AchievementsMessage(n)] else [];
      InOrderStep(es, ExperienceSuggestions(es[..n]), a, b);
    }
  }

  lemma AppendAssoc<T>(w: seq<T>, x: seq<T>, y: seq<T>, z: seq<T>)
    ensures w + x + y + z == w + (x + y + z)
  {
  }

  lemma AppendAssoc3<T>(x: seq<T>, y: seq<T>, z: seq<T>)
    ensures x + y + z == x + (y + z)
  {
  }

  function ReadabilitySuggestions(d: ResumeData): seq<string>
  {
    ExperienceSuggestions(d.experiences) + (if LongSummary(d) then [ShortenSummaryMessage] else [])
  }

  /** The readability suggestions: the experience messages exactly for the
      experiences that fail each test, in the order of the experiences,
      then the summary message exactly when the summary is over 300
      characters. */
  lemma ReadabilitySuggestionsExactly(d: ResumeData)
    ensures forall i: nat {:trigger ConciseMessage(i)} :: ConciseMessage(i) in ReadabilitySuggestions(d) <==>
              i < |d.experiences| && LongDescription(d.experiences[i])
    ensures forall i: nat {:trigger AchievementsMessage(i)} :: AchievementsMessage(i) in ReadabilitySuggestions(d) <==>
              i < |d.experiences| && NoAchievements(d.experiences[i])
    ensures ShortenSummaryMessage in ReadabilitySuggestions(d) <==> LongSummary(d)
    ensures LongSummary(d) ==> ReadabilitySuggestions(d)[|ReadabilitySuggestions(d)| - 1] == ShortenSummaryMessage
    ensures ExperienceSuggestions(d.experiences) <= ReadabilitySuggestions(d)
  {
    var es := ExperienceSuggestions(d.experiences);
    ExperienceSuggestionsExactly(d.experiences);
    assert ShortenSummaryMessage[0] == 'C';
    assert ShortenSummaryMessage !in es;
    forall i: nat ensures ConciseMessage(i) != ShortenSummaryMessage && AchievementsMessage(i) != ShortenSummaryMessage {
      ExperienceMessagesDistinct(i, i);
    }
  }

  /** Readability is perfect exactly when it suggests nothing. */
  lemma ReadabilityPerfect(d: ResumeData)
    ensures ReadabilityScore(d) == 100 <==> ReadabilitySuggestions(d) == []
  {
    assert |ExperienceSuggestions(d.experiences)| ==
      |Filter(d.experiences, LongDescription)| + |Filter(d.experiences, NoAchievements)|;
  }

  // ---------------------------------------------------------------------
  // The ATS score
  // ---------------------------------------------------------------------

  function Max(a: int, b: int): int { if a < b then b else a }

  function MaxReal(a: real, b: real): real { if a < b then b else a }

  /** `Math.round`: halves go up. */
  function RoundHalfUp(x: real): (r: int)
    ensures r as real <= x + 0.5 < r as real + 1.0
  {
    (x + 0.5).Floor
  }

  /** The keyword suggestion names the chosen industry, not the dictionary
      that was used for it. */
  function KeywordMessage(industry: string): string
  {
    "Consider adding more industry-specific keywords related to " + industry
  }

  function KeywordSuggestions(d: ResumeData, text: string): seq<string>
  {
    if KeywordScoreIn(text, RelevantKeywords(d)) < 50.0 then [KeywordMessage(IndustryName(d.targetIndustry))]
    else []
  }

  /** The score `calculateATSScore` computes for `d` when its search text is
      `text`. `overall` is taken from the raw sub-scores; the reported
      sub-scores are clamped at 0; the suggestions are the first five of
      formatting, keyword, readability. The lemmas below hold for every
      text, and so for `Text(d)`. */
  function ATSScoreWith(d: ResumeData, text: string): (s: ATSScore)
    ensures 0 <= s.formatting <= 100 && 0 <= s.readability <= 100
    ensures 0.0 <= s.keywords <= 100.0
    ensures s.overall <= 100
    ensures |s.suggestions| <= 5
  {
    var f, k, r := FormattingScore(d), KeywordScoreIn(text, RelevantKeywords(d)), ReadabilityScore(d);
    ATSScore(RoundHalfUp((f as real + k + r as real) / 3.0), Max(0, f), MaxReal(0.0, k), Max(0, r),
             Take(FormattingSuggestions(d) + KeywordSuggestions(d, text) + ReadabilitySuggestions(d), 5))
  }

  /** What `calculateATSScore(d)` returns. */
  function ATSScoreOf(d: ResumeData): ATSScore
  {
    ATSScoreWith(d, Text(d))
  }

  /** Real division followed by floor is integer division. */
  lemma FloorOfQuotient(a: int, b: int)
    requires b > 0
    ensures ((a as real) / (b as real)).Floor == a / b
  {
    var q, r := a / b, a % b;
    assert a == q * b + r && 0 <= r < b;
    assert (q * b) as real == (q as real) * (b as real);
    assert ((q + 1) * b) as real == ((q + 1) as real) * (b as real);
    DivCompare(a as real, b as real, q as real);
    DivCompare(a as real, b as real, (q + 1) as real);
  }

  /** Rounding a third of `fr + 100m/n`, in integers. */
  lemma RoundOverall(fr: int, m: nat, n: nat)
    requires 0 < n
    ensures RoundHalfUp((fr as real + 100.0 * (m as real) / (n as real)) / 3.0)
            == (2 * n * fr + 200 * m + 3 * n) / (6 * n)
  {
    var q := (m as real) / (n as real);
    assert q * (n as real) == m as real;
    assert 100.0 * (m as real) / (n as real) == 100.0 * q;
    var num := 2 * n * fr + 200 * m + 3 * n;
    var x := (fr as real + 100.0 * q) / 3.0 + 0.5;
    assert num as real == x * ((6 * n) as real);
    DivCompare(num as real, (6 * n) as real, x);
    FloorOfQuotient(num, 6 * n);
  }

  /** The overall score in integers: with `m` of `n` words hit,
      `round((F + 100m/n + R) / 3) == (2n(F + R) + 200m + 3n) / 6n`. */
  function OverallOf(fr: int, m: nat, n: nat): int
    requires n > 0
  {
    (2 * n * fr + 200 * m + 3 * n) / (6 * n)
  }

  lemma {:induction false} OverallFormula(d: ResumeData, text: string)
    ensures ATSScoreWith(d, text).overall
              == OverallOf(FormattingScore(d) + ReadabilityScore(d), KeywordHits(text, RelevantKeywords(d)), |RelevantKeywords(d)|)
  {
    var ws := RelevantKeywords(d);
    OverallArith(FormattingScore(d), ReadabilityScore(d), KeywordHits(text, ws), |ws|,
                 KeywordScoreIn(text, ws), ATSScoreWith(d, text).overall);
  }

  /** The overall formula on the sub-scores alone. */
  lemma OverallArith(f: int, r: int, m: nat, n: nat, k: real, o: int)
    requires 0 < n && m <= n && k == KeywordScore(m, n)
    requires o == RoundHalfUp((f as real + k + r as real) / 3.0)
    ensures o == OverallOf(f + r, m, n)
  {
    KeywordScoreRatio(m, n);
    assert f as real + k + r as real == (f + r) as real + 100.0 * (m as real) / (n as real);
    RoundOverall(f + r, m, n);
  }

  /** `overall` uses the unclamped readability, so it drops below zero once
      raw readability is -202 or lower. */
  lemma OverallCanBeNegative(d: ResumeData, text: string)
    requires ReadabilityScore(d) <= -202
    ensures ATSScoreWith(d, text).overall < 0
  {
  }

  /** A concrete route to a negative overall: 21 experiences, each with a
      description over 500 characters and no achievements. */
  lemma NegativeOverallExample(d: ResumeData, text: string)
    requires |d.experiences| >= 21
    requires forall i :: 0 <= i < |d.experiences| ==>
               LongDescription(d.experiences[i]) && NoAchievements(d.experiences[i])
    ensures ATSScoreWith(d, text).overall < 0
  {
    FilterAllPass(d.experiences, LongDescription);
    FilterAllPass(d.experiences, NoAchievements);
    OverallCanBeNegative(d, text);
  }

  /** The empty resume: formatting 15 (every check fires), readability
      100, and the five formatting suggestions are the whole list; the
      keyword suggestion is cut. When no dictionary word occurs in the
      text, the overall is 38. */
  lemma DefaultResumeScore(text: string)
    ensures ATSScoreWith(DefaultResumeData, text).formatting == 15
    ensures ATSScoreWith(DefaultResumeData, text).readability == 100
    ensures ATSScoreWith(DefaultResumeData, text).suggestions
              == [EmailMessage, PhoneMessage, SummaryMessage, ExperienceMessage, SkillsMessage]
    ensures KeywordHits(text, RelevantKeywords(DefaultResumeData)) == 0 ==>
              ATSScoreWith(DefaultResumeData, text).overall == 38
  {
    var d := DefaultResumeData;
    DefaultSubScores();
    var fs := [EmailMessage, PhoneMessage, SummaryMessage, ExperienceMessage, SkillsMessage];
    var all := fs + KeywordSuggestions(d, text) + ReadabilitySuggestions(d);
    assert all[..5] == fs;
    OverallFormula(d, text);
  }

  /** The text-independent parts of the empty resume's score. */
  lemma DefaultSubScores()
    ensures |RelevantKeywords(DefaultResumeData)| == 7
    ensures FormattingScore(DefaultResumeData) == 15 && ReadabilityScore(DefaultResumeData) == 100
    ensures FormattingSuggestions(DefaultResumeData)
            == [EmailMessage, PhoneMessage, SummaryMessage, ExperienceMessage, SkillsMessage]
  {
    assert IndustryName(DefaultResumeData.targetIndustry) == "general";
  }

  /** The suggestion list: every formatting suggestion comes first, in
      order; the keyword suggestion follows them when the keyword score is
      below 50 and fewer than five formatting checks fired; without it the
      readability suggestions follow directly. */
  lemma SuggestionOrder(d: ResumeData, text: string)
    ensures FormattingSuggestions(d) <= ATSScoreWith(d, text).suggestions
    ensures var fs := FormattingSuggestions(d);
      KeywordScoreIn(text, RelevantKeywords(d)) < 50.0 && |fs| < 5 ==>
        ATSScoreWith(d, text).suggestions[|fs|] == KeywordMessage(IndustryName(d.targetIndustry))
    ensures KeywordScoreIn(text, RelevantKeywords(d)) >= 50.0 ==>
      ATSScoreWith(d, text).suggestions == Take(FormattingSuggestions(d) + ReadabilitySuggestions(d), 5)
  {
    var fs, ks, rs := FormattingSuggestions(d), KeywordSuggestions(d, text), ReadabilitySuggestions(d);
    var all := fs + ks + rs;
    assert all[..|fs|] == fs;
    if KeywordScoreIn(text, RelevantKeywords(d)) >= 50.0 {
      assert ks == [];
      assert all == fs + rs;
    }
  }

  /** The formatting checks of `calculateATSScore`: five tests, each
      lowering the score and pushing one suggestion. */
  method CheckFormatting(d: ResumeData) returns (formatting: int, suggestions: seq<string>)
    ensures formatting == FormattingScore(d)
    ensures suggestions == FormattingSuggestions(d)
  {
    formatting := 100;
    suggestions := [];
    if d.personalInfo.email == "" {
      formatting := formatting - 20;
      suggestions := suggestions + [EmailMessage];
    }
    if d.personalInfo.phone == "" {
      formatting := formatting - 15;
      suggestions := suggestions + [PhoneMessage];
    }
    if |d.personalInfo.summary| < 50 {
      formatting := formatting - 15;
      suggestions := suggestions + [SummaryMessage];
    }
    if |d.experiences| == 0 {
      formatting := formatting - 25;
      suggestions := suggestions + [ExperienceMessage];
    }
    if |d.skills| < 5 {
      formatting := formatting - 10;
      suggestions := suggestions + [SkillsMessage];
    }
  }

  /** The `forEach` that counts the dictionary words found in the text. */
  method CountKeywordHits(text: string, ws: seq<string>) returns (matched: nat)
    ensures matched == KeywordHits(text, ws)
  {
    matched := 0;
    for i := 0 to |ws|
      invariant matched == KeywordHits(text, ws[..i])
    {
      assert ws[..i + 1][..i] == ws[..i];
      if Contains(text, Lower(ws[i])) {
        matched := matched + 1;
      }
    }
    assert ws[..|ws|] == ws;
  }

  /** One turn of the experience loop: the two checks on the experience at
      index `i`, each lowering the score and pushing its suggestion. */
  method CheckExperience(e: Experience, i: nat, readability: int, suggestions: seq<string>)
    returns (newReadability: int, newSuggestions: seq<string>)
    ensures newReadability
            == readability - (if LongDescription(e) then 10 else 0) - (if NoAchievements(e) then 5 else 0)
    ensures newSuggestions
            == suggestions + (if LongDescription(e) then [ConciseMessage(i)] else [])
               + (if NoAchievements(e) then [AchievementsMessage(i)] else [])
  {
    newReadability, newSuggestions := readability, suggestions;
    if |e.description| > 500 {
      newReadability := newReadability - 10;
      newSuggestions := newSuggestions + [ConciseMessage(i)];
    }
    ghost var a := if LongDescription(e) then [ConciseMessage(i)] else [];
    assert newSuggestions == suggestions + a;
    if |e.achievements| == 0 {
      newReadability := newReadability - 5;
      newSuggestions := newSuggestions + [AchievementsMessage(i)];
    }
  }

  /** The keyword phase: look up the industry's words, count those found
      in the text, and push the keyword suggestion when fewer than half hit. */
  method CheckKeywords(d: ResumeData, text: string, before: seq<string>) returns (keywords: real, suggestions: seq<string>)
    ensures keywords == KeywordScoreIn(text, RelevantKeywords(d))
    ensures suggestions == before + KeywordSuggestions(d, text)
  {
    var industry := IndustryName(d.targetIndustry);
    var relevant := Lookup(industry);
    var matched := CountKeywordHits(text, relevant);
    keywords := KeywordScore(matched, |relevant|);
    suggestions := before;
    if keywords < 50.0 {
      suggestions := suggestions + [KeywordMessage(industry)];
    }
  }

  /** The readability checks: the experience loop, then the summary test,
      pushing onto the suggestions gathered so far. */
  method CheckReadability(d: ResumeData, before: seq<string>) returns (readability: int, suggestions: seq<string>)
    ensures readability == ReadabilityScore(d)
    ensures suggestions == before + ReadabilitySuggestions(d)
  {
    readability := 100;
    suggestions := before;
    var es := d.experiences;
    for i := 0 to |es|
      invariant readability
                == 100 - 10 * |Filter(es[..i], LongDescription)| - 5 * |Filter(es[..i], NoAchievements)|
      invariant suggestions == before + ExperienceSuggestions(es[..i])
    {
      ExperienceStep(es, i);
      ghost var a := if LongDescription(es[i]) then [ConciseMessage(i)] else [];
      ghost var b := if NoAchievements(es[i]) then [AchievementsMessage(i)] else [];
      AppendAssoc(before, ExperienceSuggestions(es[..i]), a, b);
      readability, suggestions := CheckExperience(es[i], i, readability, suggestions);
    }
    assert es[..|es|] == es;
    if |d.personalInfo.summary| > 300 {
      readability := readability - 10;
      suggestions := suggestions + [ShortenSummaryMessage];
    }
    ghost var c := if LongSummary(d) then [ShortenSummaryMessage] else [];
    assert suggestions == before + ExperienceSuggestions(d.experiences) + c;
    AppendAssoc3(before, ExperienceSuggestions(d.experiences), c);
  }

  /** `calculateATSScore`: build the search text, then score the resume
      against it. */
  method CalculateATSScore(d: ResumeData) returns (s: ATSScore)
    ensures s == ATSScoreOf(d)
  {
    var text := Text(d);
    s := ScoreAgainst(d, text);
  }

  /** The three phases of `calculateATSScore` in the source's order, then
      the overall score and the clamped, truncated report. */
  method ScoreAgainst(d: ResumeData, text: string) returns (s: ATSScore)
    ensures s == ATSScoreWith(d, text)
  {
    var formatting, suggestions := CheckFormatting(d);
    var keywords;
    keywords, suggestions := CheckKeywords(d, text, suggestions);
    var readability;
    readability, suggestions := CheckReadability(d, suggestions);

    var overall := RoundHalfUp((formatting as real + keywords + readability as real) / 3.0);
    s := ATSScore(overall, Max(0, formatting), MaxReal(0.0, keywords), Max(0, readability),
                  Take(suggestions, 5));
  }

  // ---------------------------------------------------------------------
  // Job match
  // ---------------------------------------------------------------------

  /** The words `analyzeJobMatch` never treats as keywords. */
  predicate IsStopWord(w: string)
  {
    w in {
    "the", "a", "an", "and", "or", "but", "in", "on", "at", "to", "for", "of", "with", "by", "is",
    "are", "was", "were", "be", "been", "being", "have", "has", "had", "do", "does", "did", "will",
    "would", "could", "should", "may", "might", "must", "can", "this", "that", "these", "those",
    "we", "you", "they", "i", "he", "she", "it", "as", "from", "about", "into", "through", "during",
    "before", "after", "above", "below", "up", "down", "out", "off", "over", "under", "again",
    "further", "then", "once"}
  }

  /** `word.length > 3 && !commonWords.has(word)`. */
  predicate IsCandidate(w: string)
  {
    |w| > 3 && !IsStopWord(w)
  }

  /** `jobDescription.toLowerCase().split(/\s+/)`. */
  function JobWords(desc: string): seq<string>
  {
    SplitOnSpaces(Lower(desc))
  }

  /** `[...new Set(jobWords)].filter(isCandidate).slice(0, 30)`: at most 30
      words of the description, each long enough, no stop-word and no
      whitespace. */
  function JobCandidates(desc: string): (r: seq<string>)
    ensures |r| <= 30
    ensures forall i :: 0 <= i < |r| ==> IsCandidate(r[i]) && r[i] in JobWords(desc) && NoSpace(r[i])
  {
    var f := Filter(Dedupe(JobWords(desc)), IsCandidate);
    var r := Take(f, 30);
    assert forall i :: 0 <= i < |r| ==> r[i] == f[i];
    r
  }

  /** The candidates are distinct and appear in the order in which the
      description first uses them. */
  lemma CandidatesDistinctInOrder(desc: string)
    ensures Distinct(JobCandidates(desc))
    ensures InFirstOccurrenceOrder(JobCandidates(desc), JobWords(desc))
  {
    var words := JobWords(desc);
    var u := Dedupe(words);
    var f := Filter(u, IsCandidate);
    DedupeDistinct(words);
    FilterDistinct(u, IsCandidate);
    TakeDistinct(f, 30);
    DedupeInOrder(words);
    FilterIsSubseq(u, IsCandidate);
    SubseqKeepsOrder(f, u, words);
    PrefixIsSubseq(Take(f, 30), f);
    SubseqKeepsOrder(Take(f, 30), f, words);
  }

  /** The first 30 qualifying words are kept: a qualifying word is dropped
      only when 30 candidates are taken, and then all of them come before
      it in the description. */
  lemma CandidatesComplete(desc: string, w: string)
    requires w in JobWords(desc) && IsCandidate(w)
    ensures w in JobCandidates(desc) || |JobCandidates(desc)| == 30
    ensures w !in JobCandidates(desc) ==>
      forall i :: 0 <= i < |JobCandidates(desc)| ==>
        IndexOf(JobWords(desc), JobCandidates(desc)[i]) < IndexOf(JobWords(desc), w)
  {
    var words := JobWords(desc);
    assert JobCandidates(desc) == Take(Filter(Dedupe(words), IsCandidate), 30);
    KeptBeforeDropped(words, IsCandidate, 30, w);
  }

  /** An empty or blank description yields no candidate. */
  lemma BlankHasNoCandidates(desc: string)
    requires AllSpace(desc)
    ensures JobCandidates(desc) == []
  {
    LowerKeepsSpaces(desc);
    SplitBlank(Lower(desc));
    var words := JobWords(desc);
    var u := Dedupe(words);
    forall i | 0 <= i < |u| ensures !IsCandidate(u[i]) {
      assert u[i] in u;
      var k :| 0 <= k < |words| && words[k] == u[i];
    }
    FilterKeepsNone(u, IsCandidate);
  }

  /** The candidates found in the text, in candidate order. */
  function Matched(text: string, cands: seq<string>): (r: seq<string>)
    ensures forall i :: 0 <= i < |cands| ==> (cands[i] in r <==> Contains(text, cands[i]))
    ensures forall i :: 0 <= i < |r| ==> r[i] in cands
  {
    Filter(cands, w => Contains(text, w))
  }

  /** The candidates not found in the text, in candidate order. */
  function Missing(text: string, cands: seq<string>): (r: seq<string>)
    ensures forall i :: 0 <= i < |cands| ==> (cands[i] in r <==> !Contains(text, cands[i]))
    ensures forall i :: 0 <= i < |r| ==> r[i] in cands
  {
    Filter(cands, w => !Contains(text, w))
  }

  /** Matched and missing split the candidates: together they are an
      interleaving of the candidate list, so each candidate lands in exactly
      one of them and both keep the candidates' order. */
  lemma MatchedMissingPartition(text: string, cands: seq<string>)
    ensures Interleaving(Matched(text, cands), Missing(text, cands), cands)
    ensures |Matched(text, cands)| + |Missing(text, cands)| == |cands|
  {
    FilterPartition(cands, w => Contains(text, w), w => !Contains(text, w));
    InterleavingLength(Matched(text, cands), Missing(text, cands), cands);
  }

  lemma MatchedSnoc(text: string, s: seq<string>, x: string)
    ensures Matched(text, s + [x]) == Matched(text, s) + (if Contains(text, x) then [x] else [])
    ensures Missing(text, s + [x]) == Missing(text, s) + (if Contains(text, x) then [] else [x])
  {
    assert (s + [x])[..|s|] == s;
  }

  /** `jobKeywords.length > 0 ? Math.round((m / n) * 100) : 0`. */
  function JobScore(m: nat, n: nat): int
  {
    if n > 0 then RoundHalfUp((m as real) / (n as real) * 100.0) else 0
  }

  lemma MulCancelLess(x: int, y: int, b: int)
    requires b > 0 && x * b < y * b
    ensures x < y
  {
  }

  /** `a / b <= q` once `a` is below `(q + 1) * b`. */
  lemma DivBelow(a: int, b: int, q: int)
    requires b > 0 && a < (q + 1) * b
    ensures a / b <= q
  {
    assert (a / b) * b <= a;
    MulCancelLess(a / b, q + 1, b);
  }

  /** `q <= a / b` once `q * b` is at most `a`. */
  lemma DivAtLeast(a: int, b: int, q: int)
    requires b > 0 && q * b <= a
    ensures q <= a / b
  {
    assert a < (a / b + 1) * b;
    MulCancelLess(q, a / b + 1, b);
  }

  /** The job score in integers: `(200m + n) / 2n`. */
  lemma JobScoreFormula(m: nat, n: nat)
    requires n > 0
    ensures JobScore(m, n) == (200 * m + n) / (2 * n)
  {
    var q := (m as real) / (n as real);
    assert q * (n as real) == m as real;
    var num := 200 * m + n;
    var x := q * 100.0 + 0.5;
    assert num as real == x * ((2 * n) as real);
    DivCompare(num as real, (2 * n) as real, x);
    FloorOfQuotient(num, 2 * n);
  }

  /** With at most 30 candidates the score is a percentage that reaches 100
      only when every candidate matched and 0 only when none did. */
  lemma JobScoreRange(m: nat, n: nat)
    requires m <= n <= 30
    ensures 0 <= JobScore(m, n) <= 100
    ensures JobScore(m, n) == 100 <==> 0 < n && m == n
    ensures JobScore(m, n) == 0 <==> m == 0
  {
    if n > 0 {
      JobScoreFormula(m, n);
      var a := 200 * m + n;
      DivAtLeast(a, 2 * n, 0);
      DivBelow(a, 2 * n, 100);
      if m == n {
        DivAtLeast(a, 2 * n, 100);
      } else {
        DivBelow(a, 2 * n, 99);
      }
      if m == 0 {
        DivBelow(a, 2 * n, 0);
      } else {
        DivAtLeast(a, 2 * n, 1);
      }
    }
  }

  // The two fixed messages are written in two pieces only so that the
  // verifier can read off their first character.
  const TailorMessage := "Consider tailoring your resume " + "more closely to this job description"
  const GoodMatchMessage := "Good keyword match! " + "Your resume aligns well with this position"

  /** Names the first five missing keywords. */
  function IncorporateMessage(missing: seq<string>): (r: string)
    ensures |r| > 0 && r[0] == 'T'
  {
    "Try incorporating these keywords: " + Join(Take(missing, 5), ", ")
  }

  /** The message names each of the first five missing keywords. */
  lemma IncorporateNamesMissing(missing: seq<string>)
    ensures forall i :: 0 <= i < |missing| && i < 5 ==> Contains(IncorporateMessage(missing), missing[i])
  {
    var t := Take(missing, 5);
    var j := Join(t, ", ");
    JoinContains(t, ", ");
    ContainsInfix("Try incorporating these keywords: ", j, "");
    assert "Try incorporating these keywords: " + j + "" == IncorporateMessage(missing);
    forall i | 0 <= i < |missing| && i < 5 ensures Contains(IncorporateMessage(missing), missing[i]) {
      assert t[i] == missing[i];
      ContainsTrans(IncorporateMessage(missing), j, missing[i]);
    }
  }

  /** The three conditional suggestions, in the source's order, each present
      exactly when its condition holds. */
  function JobSuggestions(score: int, matched: seq<string>, missing: seq<string>): (r: seq<string>)
    ensures TailorMessage in r <==> score < 50
    ensures IncorporateMessage(missing) in r <==> missing != []
    ensures GoodMatchMessage in r <==> |matched| > 5
    ensures |r| <= 3
  {
    var m := IncorporateMessage(missing);
    assert TailorMessage[0] == 'C' && GoodMatchMessage[0] == 'G';
    assert TailorMessage != m && GoodMatchMessage != m && TailorMessage != GoodMatchMessage;
    (if score < 50 then [TailorMessage] else [])
    + (if missing != [] then [m] else [])
    + (if |matched| > 5 then [GoodMatchMessage] else [])
  }

  /** What `analyzeJobMatch` returns for a resume whose search text is `text`. */
  function JobMatchWith(text: string, desc: string): (j: JobMatch)
    ensures 0 <= j.score <= 100
    ensures |j.matchedKeywords| <= 10 && |j.missingKeywords| <= 10
  {
    var cands := JobCandidates(desc);
    var matched, missing := Matched(text, cands), Missing(text, cands);
    MatchedMissingPartition(text, cands);
    JobScoreRange(|matched|, |cands|);
    var score := JobScore(|matched|, |cands|);
    JobMatch(score, Take(matched, 10), Take(missing, 10), JobSuggestions(score, matched, missing))
  }

  /** What `analyzeJobMatch(d, desc)` returns. */
  function JobMatchOf(d: ResumeData, desc: string): JobMatch
  {
    JobMatchWith(Text(d), desc)
  }

  /** The score of a candidate list is 100 exactly when there is a
      candidate and every one occurs in the text, and 0 exactly when none
      does. */
  lemma CandidateScore(text: string, cands: seq<string>)
    requires |cands| <= 30
    ensures JobScore(|Matched(text, cands)|, |cands|) == 100 <==>
              cands != [] && forall i :: 0 <= i < |cands| ==> Contains(text, cands[i])
    ensures JobScore(|Matched(text, cands)|, |cands|) == 0 <==>
              forall i :: 0 <= i < |cands| ==> !Contains(text, cands[i])
  {
    MatchedMissingPartition(text, cands);
    JobScoreRange(|Matched(text, cands)|, |cands|);
    FilterKeepsAll(cands, w => Contains(text, w));
    FilterKeepsNone(cands, w => Contains(text, w));
  }

  /** The score is 100 exactly when there is a candidate and every candidate
      occurs in the text, and 0 exactly when none occurs. */
  lemma JobScoreMeaning(text: string, desc: string)
    ensures var cands := JobCandidates(desc);
            JobMatchWith(text, desc).score == 100 <==>
              cands != [] && forall i :: 0 <= i < |cands| ==> Contains(text, cands[i])
    ensures var cands := JobCandidates(desc);
            JobMatchWith(text, desc).score == 0 <==>
              forall i :: 0 <= i < |cands| ==> !Contains(text, cands[i])
  {
    var cands := JobCandidates(desc);
    assert JobMatchWith(text, desc).score == JobScore(|Matched(text, cands)|, |cands|);
    CandidateScore(text, cands);
  }

  /** An empty or blank description: score 0, no keywords, and exactly the
      one suggestion to tailor the resume. */
  lemma BlankDescriptionMatch(text: string, desc: string)
    requires AllSpace(desc)
    ensures JobMatchWith(text, desc) == JobMatch(0, [], [], [TailorMessage])
  {
    BlankHasNoCandidates(desc);
    var cands := JobCandidates(desc);
    assert Matched(text, cands) == [] && Missing(text, cands) == [];
    assert JobScore(0, 0) == 0;
    assert JobSuggestions(0, [], []) == [TailorMessage];
  }

  /** A candidate that is part of a section name (`skills`, `experience`,
      `education`, ...) is always matched, whatever the resume holds. */
  lemma SectionWordsAlwaysMatch(d: ResumeData, desc: string, k: nat, w: string)
    requires k < |SectionNames| && Contains(SectionNames[k], w)
    requires w in JobCandidates(desc)
    ensures w in Matched(Text(d), JobCandidates(desc))
  {
    SectionNameInText(d, k);
    ContainsTrans(Text(d), SectionNames[k], w);
  }

  /** A candidate equal to a skill name (in lower case) is always matched. */
  lemma SkillNamesMatch(d: ResumeData, desc: string, i: nat)
    requires i < |d.skills| && Lower(d.skills[i].name) in JobCandidates(desc)
    requires PlainString(d.skills[i].name)
    ensures Lower(d.skills[i].name) in Matched(Text(d), JobCandidates(desc))
  {
    SkillNameInText(d, i);
  }

  /** The `forEach` that sorts each candidate into matched or missing. */
  method PartitionKeywords(text: string, keywords: seq<string>) returns (matched: seq<string>, missing: seq<string>)
    ensures matched == Matched(text, keywords)
    ensures missing == Missing(text, keywords)
  {
    matched, missing := [], [];
    for i := 0 to |keywords|
      invariant matched == Matched(text, keywords[..i])
      invariant missing == Missing(text, keywords[..i])
    {
      MatchedSnoc(text, keywords[..i], keywords[i]);
      assert keywords[..i + 1] == keywords[..i] + [keywords[i]];
      if Contains(text, keywords[i]) {
        matched := matched + [keywords[i]];
      } else {
        missing := missing + [keywords[i]];
      }
    }
    assert keywords[..|keywords|] == keywords;
  }

  /** `analyzeJobMatch(data, jobDescription)`: build the resume text, then
      match the description against it. */
  method AnalyzeJobMatch(d: ResumeData, desc: string) returns (j: JobMatch)
    ensures j == JobMatchOf(d, desc)
  {
    var text := Text(d);
    j := MatchDescription(text, desc);
  }

  /** The three suggestion checks at the end of `analyzeJobMatch`, pushed in
      the source's order. */
  method JobSuggestionList(score: int, matched: seq<string>, missing: seq<string>) returns (suggestions: seq<string>)
    ensures suggestions == JobSuggestions(score, matched, missing)
  {
    suggestions := [];
    if score < 50 {
      suggestions := suggestions + [TailorMessage];
    }
    ghost var a := if score < 50 then [TailorMessage] else [];
    assert suggestions == a;
    if |missing| > 0 {
      suggestions := suggestions + [IncorporateMessage(missing)];
    }
    ghost var b := if missing != [] then [IncorporateMessage(missing)] else [];
    assert suggestions == a + b;
    if |matched| > 5 {
      suggestions := suggestions + [GoodMatchMessage];
    }
    ghost var c := if |matched| > 5 then [GoodMatchMessage] else [];
    assert suggestions == a + b + c;
  }

  /** The body of `analyzeJobMatch` after the resume text is built: the
      candidates, the partition loop, the score and the suggestions. */
  method MatchDescription(text: string, desc: string) returns (j: JobMatch)
    ensures j == JobMatchWith(text, desc)
  {
    var keywords := JobCandidates(desc);
    var matched, missing := PartitionKeywords(text, keywords);

    var score := JobScore(|matched|, |keywords|);

    var suggestions := JobSuggestionList(score, matched, missing);
    j := JobMatch(score, Take(matched, 10), Take(missing, 10), suggestions);
    assert j == JobMatchWith(text, desc);
  }
}
