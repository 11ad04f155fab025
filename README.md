# Resume builder: ATS scoring, section editors and stores, in Dafny

This project models the core of a browser resume builder. It has four parts.

- **The resume data model**: personal information, five ordered sections (experience, education, skills, projects, certifications), template settings, saved CVs, cover letters, job applications and the user profile.
- **The ATS (applicant tracking system) checker**:
  - `calculateATSScore` turns a resume into a formatting score, a keyword score, a readability score, an overall score and at most five suggestions;
  - `analyzeJobMatch` splits a job description into candidate keywords, sorts them into matched and missing against the resume, and gives a percentage and suggestions.
- **The section editors' helpers**: the add, update, remove and toggle operations of the skills, experience, projects, education and certifications forms, as pure functions over the data the form edits.
- **The two client-side stores**: classes whose fields are the hooks' state cells, together with what their `localStorage` keys hold. Each method overwrites both.

Both ATS engines search one text: the lower-cased JSON serialisation of the resume, `ResumeText.Text`. The scoring functions take that text as a parameter (`ATSScoreWith`, `JobMatchWith`). Everything proved about them therefore holds for `Text(d)` in particular.

The source's loops are methods proved equal to the specification functions:

- `CalculateATSScore` keeps three running scores and a suggestion list;
- `AnalyzeJobMatch` pushes each candidate into the matched or the missing list;
- `GroupSkills` is the `reduce` that groups skills by category.

Clock readings and `Date.now()` ids are parameters. A stored key is `Absent`, `Stored(value)` or `Malformed` (text on which `JSON.parse` throws). Every store method keeps the invariant `Synced()`: each state cell agrees with its key. A reload of a synced store therefore restores its resume, settings and lists, and its profile when the profile key holds one. An empty profile key (after `logout`) gives the default profile again, stamped with the new clock reading (`Reload`).

Files:

- `seqs.dfy`, `strings.dfy`: generic sequence and string helpers (map, update-where, filter, dedupe, subsequence, interleaving; ASCII lower-casing, trimming, whitespace splitting, substring search, join, decimal printing);
- `resume_types.dfy`: the data model;
- `resume_text.dfy`: the serialisation;
- `ats_checker.dfy`: the ATS checker;
- `accordion.dfy`: the forms' shared expand/collapse helpers;
- one file per form;
- `local_storage.dfy`, `cvision_storage.dfy`, `resume_storage.dfy`: the stores.

Notes on where the model follows the code over its documentation:

- The keyword sub-score is the exact, unrounded ratio `100*m/n` (a `real`), as the code computes it; it is not an integer.
- `overall` is computed from the raw, unclamped sub-scores. It is at most 100 but can be negative (`OverallCanBeNegative`, `NegativeOverallExample`), while the three reported sub-scores are clamped at 0.
- Project helpers that look a project up (`addTechnology`, `removeTechnology`, the highlight helpers) take the FIRST project with the id and write the derived list into EVERY project with that id, as the code does. With distinct ids this is the same as editing the one project.

## Model

| member | source | states |
|---|---|---|
| ResumeTypes.ParseSkillLevel | src/components/types/resume.ts:36 | a level's spelling parses back to exactly that level; any other string is rejected, so the levels are exactly beginner, intermediate, advanced, expert |
| ResumeTypes.ParseTemplate | src/components/types/resume.ts:69 | the six template names parse back to their template and nothing else parses |
| ResumeTypes.ParseFontSize | src/components/types/resume.ts:76 | the three font sizes parse back to their size and nothing else parses |
| ResumeTypes.ParseStatus | src/components/types/resume.ts:117 | the five application statuses parse back to their status and nothing else parses |
| ResumeTypes.GetSection | src/components/types/resume.ts:58-67 | reading a section of a resume gives a section of that key |
| ResumeTypes.SectionsDetermineResume | src/components/types/resume.ts:58-67 | a resume is exactly its personal info, its five sections and its two targeting fields: two resumes that agree on all of them are equal |
| ResumeTypes.WithSection | src/components/hooks/useResumeStorage.ts:78 | `{ ...resumeData, [section]: data }`: the named section takes the new value and every other section reads as before |
| ResumeTypes.WithSameSection | src/components/hooks/useResumeStorage.ts:78 | writing back a section's own value gives the same resume |
| ResumeTypes.WithSectionTwice | src/components/hooks/useResumeStorage.ts:78 | of two writes to one section only the later is visible |
| ResumeTypes.WithSectionCommute | src/components/hooks/useResumeStorage.ts:78 | writes to different sections commute |
| ResumeTypes.DefaultResumeBlank | src/components/hooks/useResumeStorage.ts:7-24 | `DefaultResumeData` is the blank resume: every personal field is the empty string and every list section is empty |
| ResumeTypes.DefaultSettingsNamed | src/components/hooks/useResumeStorage.ts:26-32 | `DefaultSettings` is the template named `modern` at the size named `medium`, with the two colours and the font of the source |
| Strings.Lower | src/components/utilis/atsChecker.ts:42 | lower-casing keeps the length and maps each character to its ASCII lower case |
| Strings.LowerConcat | src/components/utilis/atsChecker.ts:42 | lower-casing distributes over concatenation |
| Strings.LowerIdempotent | src/components/utilis/atsChecker.ts:40 | lower-casing twice is lower-casing once |
| Strings.LowerKeepsSpaces | src/components/utilis/atsChecker.ts:87 | lower-casing neither adds nor removes whitespace, so splitting before or after it cuts at the same places |
| Strings.Trim | src/components/forms/SkillsForm.tsx:34 | `trim()` gives the infix of the input with only whitespace around it and no whitespace at either end; it is empty exactly when the input is all whitespace |
| Strings.SplitOnSpaces | src/components/utilis/atsChecker.ts:87 | `split(/\s+/)` gives at least one piece, no piece holds whitespace, only the first and last piece can be empty, and the first is non-empty when the input does not start with whitespace |
| Strings.SplitOnSpacesExactly | src/components/utilis/atsChecker.ts:87 | `p` is the split of `s` exactly when `s` is `p` woven with non-empty whitespace gaps, where the pieces hold no whitespace and only the first and last may be empty: the cuts are exactly the maximal whitespace runs |
| Strings.SplitGaps | src/components/utilis/atsChecker.ts:87 | the split together with the whitespace runs it cut at weaves back to the input |
| Strings.SplitUnique | src/components/utilis/atsChecker.ts:87 | any such weaving of pieces and gaps is the one `split(/\s+/)` makes |
| Strings.SplitOnSpacesConcat | src/components/utilis/atsChecker.ts:87 | the pieces concatenated are the input with its whitespace removed: no character is lost or invented |
| Strings.SplitBlank | src/components/utilis/atsChecker.ts:87 | a blank description splits into empty pieces only |
| Strings.Contains | src/components/utilis/atsChecker.ts:46 | `includes` holds exactly when the word occurs at some position of the text |
| Strings.ContainsLower | src/components/utilis/atsChecker.ts:46 | a word contained in a text is contained, lower-cased, in the lower-cased text |
| Strings.ContainsTrans | src/components/utilis/atsChecker.ts:100 | containment is transitive |
| Strings.JoinShort | src/components/utilis/atsChecker.ts:116 | no parts join to the empty string and one part joins to itself |
| Strings.Join | src/components/utilis/atsChecker.ts:116 | `parts.join(sep)`; what it returns is stated by JoinShort, JoinContains, JoinSnoc and JoinIsWeave, and SplitJoin inverts it |
| Strings.JoinContains | src/components/utilis/atsChecker.ts:116 | the joined string contains every part |
| Strings.JoinSnoc | src/components/utilis/atsChecker.ts:116 | appending a part appends the separator and the part: the parts appear in order, one separator between neighbours |
| Strings.JoinIsWeave | src/components/utilis/atsChecker.ts:116 | joining is weaving the parts with the separator in every gap |
| Strings.SplitJoin | src/components/utilis/atsChecker.ts:87 | joining space-free parts with a whitespace separator and splitting again gives back the parts |
| Strings.NatToString | src/components/utilis/atsChecker.ts:61 | the decimal rendering of `index + 1` is digits only, without a leading zero, and denotes the number |
| Seqs.Take | src/components/utilis/atsChecker.ts:94 | `slice(0, n)`: a prefix of length `min(n, |s|)` |
| Seqs.Dedupe | src/components/utilis/atsChecker.ts:92 | `[...new Set(s)]`: exactly the elements of `s`; one copy of each and in first-occurrence order by CandidatesDistinctInOrder |
| Seqs.RemoveAt | src/components/forms/ExperienceForm.tsx:61 | `filter((_, i) => i !== index)`: the element at the index is dropped and the others close up; an index past the end drops nothing |
| Seqs.SetAt | src/components/forms/ExperienceForm.tsx:44-45 | the indexed write on a copy: only the index changes, and the value is appended when the index is the length |
| ResumeText.EscapeCharPlain | src/components/utilis/atsChecker.ts:42 | a character is written as it is exactly when it is not a quote, a backslash or a control character |
| ResumeText.EscapePlain | src/components/utilis/atsChecker.ts:42 | a string that needs no escape is written as it is |
| ResumeText.UnescapeEscape | src/components/utilis/atsChecker.ts:42 | reading an escaped string back gives the string, so escaping loses nothing |
| ResumeText.TextContains | src/components/utilis/atsChecker.ts:42 | whatever the serialisation contains, the search text contains lower-cased |
| ResumeText.Escape | src/components/utilis/atsChecker.ts:42 | how `JSON.stringify` writes a string value; EscapePlain and UnescapeEscape state that plain strings are kept and nothing is lost |
| ResumeText.Quote | src/components/utilis/atsChecker.ts:42 | a string value in quotes; QuoteContains states that the escaped string occurs inside it |
| ResumeText.QuoteContains | src/components/utilis/atsChecker.ts:42 | the escaped string occurs inside its quoted form |
| ResumeText.ResumeJson | src/components/utilis/atsChecker.ts:42 | `JSON.stringify(data)`: one member per field in the source's order; SectionNameInText, SkillNameInText and ExperienceDescriptionInText state what it contains |
| ResumeText.Text | src/components/utilis/atsChecker.ts:42 | `JSON.stringify(data).toLowerCase()`, the one text both engines search (also at line 86); TextContains carries containment across the lower-casing |
| ResumeText.SectionNameInText | src/components/utilis/atsChecker.ts:42 | the search text of every resume contains each top-level section key |
| ResumeText.SkillNameInText | src/components/utilis/atsChecker.ts:42 | the search text contains every skill name escaped and lower-cased, and, for a name that needs no escape, the lower-cased name itself |
| ResumeText.ExperienceDescriptionInText | src/components/utilis/atsChecker.ts:42 | the search text contains every experience description escaped and lower-cased, and, for one without quotes, backslashes or control characters such as line breaks, the lower-cased description itself |
| AtsChecker.Lookup | src/components/utilis/atsChecker.ts:3-9 | a listed industry gives its own list and any other key the general list; every list has 7 to 10 words, so the keyword ratio never divides by zero |
| AtsChecker.IndustryNames | src/components/utilis/atsChecker.ts:3-9 | the dictionary has exactly the five industries software, marketing, finance, healthcare and general |
| AtsChecker.IndustryKeywords | src/components/utilis/atsChecker.ts:130-132 | the lower-cased name picks its own list when it is an industry, and the general list otherwise |
| AtsChecker.IndustryKeywordsIgnoresCase | src/components/utilis/atsChecker.ts:130-132 | names that differ only in letter case pick the same list |
| AtsChecker.IndustryName | src/components/utilis/atsChecker.ts:40 | an absent or empty target industry becomes `general`, any other is lower-cased; the result is never empty and is lower case |
| AtsChecker.RelevantKeywordsIsIndustryKeywords | src/components/utilis/atsChecker.ts:40-41 | the list the score uses is `getIndustryKeywords` of the chosen industry name |
| AtsChecker.RelevantKeywords | src/components/utilis/atsChecker.ts:40-41 | the list the score searches for; RelevantKeywordsIsIndustryKeywords states that it is `getIndustryKeywords` of the chosen industry name, and Lookup gives its size |
| AtsChecker.KeywordHits | src/components/utilis/atsChecker.ts:44-49 | the matched count is at most the dictionary size |
| AtsChecker.KeywordHitsAll | src/components/utilis/atsChecker.ts:44-49 | every word is counted exactly when every dictionary word occurs in the text |
| AtsChecker.KeywordHitsNone | src/components/utilis/atsChecker.ts:44-49 | the count is 0 exactly when no dictionary word occurs in the text |
| AtsChecker.KeywordScore | src/components/utilis/atsChecker.ts:51 | `min(100, m/n*100)` lies in [0, 100] |
| AtsChecker.KeywordScoreRatio | src/components/utilis/atsChecker.ts:51-53 | the keyword score is exactly `100*m/n`; it is 100 exactly when all words match, and below 50 (the suggestion's condition) exactly when `2m < n` |
| AtsChecker.KeywordScoreInMeaning | src/components/utilis/atsChecker.ts:42-51 | the keyword score is 100 exactly when every dictionary word is a substring of the text, and 0 exactly when none is |
| AtsChecker.KeywordSuggestions | src/components/utilis/atsChecker.ts:53-55 | the one keyword message when the keyword score is below 50; its place in the report is stated by SuggestionOrder and CheckKeywords |
| AtsChecker.FormattingScore | src/components/utilis/atsChecker.ts:12-37 | the raw formatting score is always in [15, 100] |
| AtsChecker.FormattingSuggestions | src/components/utilis/atsChecker.ts:17-37 | at most five formatting suggestions |
| AtsChecker.FormattingSuggestionsExactly | src/components/utilis/atsChecker.ts:17-37 | each check's own message is suggested exactly when that check fails, and the suggestions keep the order of the checks |
| AtsChecker.FormattingAccounting | src/components/utilis/atsChecker.ts:17-37 | formatting is 100 minus the penalties (20, 15, 15, 25, 10) of exactly the suggestions emitted; the suggestions are distinct; formatting is 100 exactly when none is emitted |
| AtsChecker.ReadabilityScore | src/components/utilis/atsChecker.ts:57-72 | raw readability is `100 - 10L - 5E - 10S` and at most 100, with no lower bound |
| AtsChecker.ExperienceSuggestions | src/components/utilis/atsChecker.ts:58-67 | one suggestion per long description plus one per experience without achievements; ExperienceSuggestionsExactly and ExperienceSuggestionsInOrder say which messages and in what order |
| AtsChecker.ExperienceMessagesDistinct | src/components/utilis/atsChecker.ts:58-67 | the numbered messages are equal only for the same kind and the same experience number, and each begins with the letter E (so none equals the summary message) |
| AtsChecker.ExperienceSuggestionsExactly | src/components/utilis/atsChecker.ts:58-67 | the message "Experience i+1: Consider making the description more concise" is present exactly when experience i exists and its description is over 500 characters, and "Experience i+1: Add quantifiable achievements" exactly when experience i exists and has no achievements |
| AtsChecker.ExperienceSuggestionsInOrder | src/components/utilis/atsChecker.ts:58-67 | the messages follow the experiences' order: those of experience i come before those of experience j when i < j |
| AtsChecker.ReadabilitySuggestionsExactly | src/components/utilis/atsChecker.ts:58-72 | the experience messages are present under the same conditions; the summary message is present exactly when the summary is over 300 characters, and then it comes last, after all the experience messages |
| AtsChecker.ExperienceStep | src/components/utilis/atsChecker.ts:58-67 | experience `i` adds, in order, its "more concise" and then its "add achievements" message, each exactly when its test holds |
| AtsChecker.ReadabilitySuggestions | src/components/utilis/atsChecker.ts:58-72 | the experience messages in list order, then the summary message; ReadabilityPerfect states that there is none exactly when readability is 100 |
| AtsChecker.ReadabilityPerfect | src/components/utilis/atsChecker.ts:57-72 | readability is 100 exactly when no readability suggestion is emitted |
| AtsChecker.RoundHalfUp | src/components/utilis/atsChecker.ts:74 | `Math.round` gives the integer within one half below and strictly less than one half above the value |
| AtsChecker.ATSScoreWith | src/components/utilis/atsChecker.ts:74-82 | the reported sub-scores lie in [0, 100]; overall is at most 100; at most five suggestions |
| AtsChecker.SuggestionOrder | src/components/utilis/atsChecker.ts:81 | the formatting suggestions come first and in order; the keyword suggestion comes right after them when the score is below 50 and there is room; otherwise the readability suggestions follow them directly, cut at five |
| AtsChecker.RoundOverall | src/components/utilis/atsChecker.ts:74 | rounding `(F + 100m/n + R)/3` equals the integer expression `(2n(F+R) + 200m + 3n) / (6n)` |
| AtsChecker.OverallArith | src/components/utilis/atsChecker.ts:51-74 | with `k = min(100, 100m/n)` and `m <= n`, the rounded third of `f + k + r` is `(2n(f+r) + 200m + 3n) / (6n)` |
| AtsChecker.OverallFormula | src/components/utilis/atsChecker.ts:74 | the overall score in closed integer form, from the raw formatting and readability scores |
| AtsChecker.OverallCanBeNegative | src/components/utilis/atsChecker.ts:74-80 | overall uses the unclamped readability, so it is negative once readability is -202 or less |
| AtsChecker.NegativeOverallExample | src/components/utilis/atsChecker.ts:58-74 | 21 experiences, each with a long description and no achievements, give a negative overall score |
| AtsChecker.DefaultResumeScore | src/components/utilis/atsChecker.ts:11-82 | for the empty resume: formatting 15, readability 100, the five formatting suggestions are the whole list (the keyword one is cut), and overall is 38 when no dictionary word occurs in the text |
| AtsChecker.CheckFormatting | src/components/utilis/atsChecker.ts:17-37 | the five successive tests compute the formatting score and its suggestions |
| AtsChecker.CountKeywordHits | src/components/utilis/atsChecker.ts:44-49 | the `forEach` counter computes the matched count |
| AtsChecker.CheckExperience | src/components/utilis/atsChecker.ts:58-67 | one loop turn lowers readability by 10 for a long description and by 5 for missing achievements, appending the matching messages in that order |
| AtsChecker.CheckKeywords | src/components/utilis/atsChecker.ts:39-55 | the keyword phase computes the keyword score of the chosen dictionary and appends the keyword suggestion exactly when that score is below 50 |
| AtsChecker.CheckReadability | src/components/utilis/atsChecker.ts:57-72 | the experience loop and the summary test compute readability and append its suggestions to those before |
| AtsChecker.CalculateATSScore | src/components/utilis/atsChecker.ts:11-83 | the imperative score computation returns exactly the specified score of the resume |
| AtsChecker.ScoreAgainst | src/components/utilis/atsChecker.ts:12-82 | the three phases, the overall score and the clamped, truncated report give exactly the specified score for the given search text |
| AtsChecker.ATSScoreOf | src/components/utilis/atsChecker.ts:11-83 | `calculateATSScore(data)`: ATSScoreWith on the resume's own search text, so OverallFormula, SuggestionOrder and FormattingAccounting hold of it, and CalculateATSScore returns it |
| AtsChecker.JobCandidates | src/components/utilis/atsChecker.ts:86-94 | at most 30 candidates, each a word of the lower-cased description, longer than 3, not a stop-word, without whitespace |
| AtsChecker.JobWords | src/components/utilis/atsChecker.ts:87 | `jobDescription.toLowerCase().split(/\s+/)`; SplitOnSpacesExactly says where it cuts and LowerKeepsSpaces that lower-casing keeps every whitespace position, so it moves no cut |
| AtsChecker.IsStopWord | src/components/utilis/atsChecker.ts:90 | the 66 common words of the source's set; JobCandidates states that none of them is a candidate |
| AtsChecker.IsCandidate | src/components/utilis/atsChecker.ts:93 | longer than three characters and no stop-word; JobCandidates and CandidatesComplete state that the candidates are exactly the first 30 distinct such words |
| AtsChecker.CandidatesDistinctInOrder | src/components/utilis/atsChecker.ts:92-94 | the candidates are distinct and appear in the order of their first occurrence in the description |
| AtsChecker.CandidatesComplete | src/components/utilis/atsChecker.ts:92-94 | the first 30 eligible words are kept: an eligible word is left out only when 30 candidates are taken, and each of them occurs in the description before it |
| Seqs.KeptBeforeDropped | src/components/utilis/atsChecker.ts:92-94 | of the distinct elements satisfying a test, one is left out of the first `n` only when `n` were taken, all occurring before it |
| AtsChecker.BlankHasNoCandidates | src/components/utilis/atsChecker.ts:87-94 | a blank description has no candidates: the empty pieces of the split are dropped |
| AtsChecker.Matched | src/components/utilis/atsChecker.ts:96-105 | a candidate is matched exactly when the text contains it |
| AtsChecker.Missing | src/components/utilis/atsChecker.ts:96-105 | a candidate is missing exactly when the text does not contain it |
| AtsChecker.MatchedMissingPartition | src/components/utilis/atsChecker.ts:96-105 | matched and missing interleave to the candidate list: same relative order, nothing lost or repeated |
| AtsChecker.MatchedSnoc | src/components/utilis/atsChecker.ts:99-105 | one more candidate goes to exactly one of the two lists, at its end |
| AtsChecker.JobScoreFormula | src/components/utilis/atsChecker.ts:107-109 | the rounded percentage equals `(200m + n) / (2n)` |
| AtsChecker.JobScore | src/components/utilis/atsChecker.ts:107-109 | `Math.round(m / n * 100)`, or 0 without candidates; JobScoreFormula gives its integer form and JobScoreRange its range and extremes |
| AtsChecker.JobScoreRange | src/components/utilis/atsChecker.ts:107-109 | the score lies in [0, 100]; it is 100 exactly when there are candidates and all match; it is 0 exactly when none matches |
| AtsChecker.CandidateScore | src/components/utilis/atsChecker.ts:96-109 | for any list of at most 30 candidates, the score is 100 exactly when the list is non-empty and the text contains every candidate, and 0 exactly when it contains none |
| AtsChecker.JobSuggestions | src/components/utilis/atsChecker.ts:111-120 | "tailor" is present exactly when the score is below 50, "try incorporating" exactly when something is missing, and "good match" exactly when more than five matched |
| AtsChecker.IncorporateMessage | src/components/utilis/atsChecker.ts:116 | the message starts with "Try incorporating", so it differs from the other two suggestions |
| AtsChecker.IncorporateNamesMissing | src/components/utilis/atsChecker.ts:116 | the message names each of the first five missing keywords |
| AtsChecker.JobMatchWith | src/components/utilis/atsChecker.ts:85-128 | the score lies in [0, 100] and both reported lists hold at most 10 entries |
| AtsChecker.JobMatchOf | src/components/utilis/atsChecker.ts:85-128 | `analyzeJobMatch(data, desc)`: JobMatchWith on the resume's own search text, so JobScoreMeaning, CandidatesComplete and MatchedMissingPartition hold of it, and AnalyzeJobMatch returns it |
| AtsChecker.JobScoreMeaning | src/components/utilis/atsChecker.ts:107-109 | the match is 100 exactly when there are candidates and the text contains them all, and 0 exactly when it contains none |
| AtsChecker.BlankDescriptionMatch | src/components/utilis/atsChecker.ts:85-128 | a blank description gives score 0, empty lists and only the "tailor" suggestion |
| AtsChecker.SectionWordsAlwaysMatch | src/components/utilis/atsChecker.ts:86-101 | a candidate inside a section key such as `experiences` or `skills` is always matched, whatever the resume holds |
| AtsChecker.SkillNamesMatch | src/components/utilis/atsChecker.ts:86-101 | a candidate equal to a lower-cased skill name that needs no escape is always matched |
| AtsChecker.PartitionKeywords | src/components/utilis/atsChecker.ts:96-105 | the `forEach` that pushes into the two lists builds exactly the matched and missing lists |
| AtsChecker.JobSuggestionList | src/components/utilis/atsChecker.ts:111-120 | the three pushes build exactly the suggestion list whose membership laws `JobSuggestions` states |
| AtsChecker.MatchDescription | src/components/utilis/atsChecker.ts:85-128 | the imperative job match over a text returns exactly the specified match |
| AtsChecker.AnalyzeJobMatch | src/components/utilis/atsChecker.ts:85-128 | `analyzeJobMatch` returns exactly the specified match of the resume's search text |
| Accordion.FirstExpanded | src/components/forms/ExperienceForm.tsx:18 | the first id, unless there is none or it is empty |
| Accordion.ToggleExpanded | src/components/forms/ExperienceForm.tsx:104 | a click expands that entry unless it was the expanded one, in which case none is expanded |
| Accordion.ToggleExpandedTwice | src/components/forms/ExperienceForm.tsx:104 | two clicks on one header restore the state when that entry or none was expanded, and collapse all otherwise |
| Accordion.ToggleOpen | src/components/forms/ProjectsForm.tsx:84-88 | after the toggle the id is open exactly when it was not, and every other id is as it was |
| Accordion.ToggleOpenDistinct | src/components/forms/ProjectsForm.tsx:84-88 | toggling keeps the open ids free of duplicates |
| Accordion.ToggleOpenTwice | src/components/forms/ProjectsForm.tsx:84-88 | opening then closing an id that was closed restores the list |
| SkillsForm.InitialState | src/components/forms/SkillsForm.tsx:29-31 | the inputs start empty, on the first category and on "intermediate" |
| SkillsForm.ChosenName | src/components/forms/SkillsForm.tsx:34 | an explicit non-empty name wins; otherwise the trimmed input, which is empty exactly when the input is blank |
| SkillsForm.NameTaken | src/components/forms/SkillsForm.tsx:35 | `data.some(s => s.name.toLowerCase() === name.toLowerCase())`; AddSkill states that a taken name changes nothing, and AddSkillKeepsNamesUnique that adding keeps names unique |
| SkillsForm.AddSkill | src/components/forms/SkillsForm.tsx:33-45 | nothing changes exactly when the name is empty or already present ignoring case; otherwise one skill with the current level and category is appended, earlier skills stay, and the input is cleared |
| SkillsForm.AddSkillTwice | src/components/forms/SkillsForm.tsx:35 | adding the same name twice adds it once |
| SkillsForm.AddSkillKeepsNamesUnique | src/components/forms/SkillsForm.tsx:35 | adding keeps all names distinct ignoring case |
| SkillsForm.FilterKeepsNamesUnique | src/components/forms/SkillsForm.tsx:48 | any filter keeps names distinct |
| SkillsForm.RemoveSkill | src/components/forms/SkillsForm.tsx:48 | every skill with the id goes; every other one stays, in order |
| SkillsForm.RemoveSkillKeepsNamesUnique | src/components/forms/SkillsForm.tsx:48 | removing keeps names distinct |
| SkillsForm.UpdateSkillLevel | src/components/forms/SkillsForm.tsx:52 | only the level of matching skills changes; ids, names, categories and the order stay |
| SkillsForm.UpdateSkillLevelKeepsNamesUnique | src/components/forms/SkillsForm.tsx:52 | a level change keeps names distinct |
| SkillsForm.UpdateSkillLevelTwice | src/components/forms/SkillsForm.tsx:52 | of two level changes only the later is visible |
| SkillsForm.Suggestions | src/components/forms/SkillsForm.tsx:55 | a known industry, in any letter case, gives its own list; an unknown or missing industry gives the general list |
| SkillsForm.SuggestionsNonEmpty | src/components/forms/SkillsForm.tsx:18-24 | no suggestion is empty, so clicking one always names a skill |
| SkillsForm.UnusedSuggestions | src/components/forms/SkillsForm.tsx:56 | exactly the suggestions no skill name matches ignoring case, in dictionary order |
| SkillsForm.ShownSuggestions | src/components/forms/SkillsForm.tsx:134 | a prefix of the unused suggestions of length eight, or all of them when there are fewer |
| SkillsForm.AddShownSuggestion | src/components/forms/SkillsForm.tsx:134-136 | clicking a shown suggestion appends it as a skill, after which it is no longer unused |
| SkillsForm.GroupSkills | src/components/forms/SkillsForm.tsx:58-62 | the `reduce` yields one group per category, categories in first-appearance order, each group exactly that category's skills in order |
| SkillsForm.GroupsPartition | src/components/forms/SkillsForm.tsx:58-62 | a skill is in a group exactly when the key is its category, its category has a group, and each group is a subsequence of the skills |
| ExperienceForm.InitialState | src/components/forms/ExperienceForm.tsx:18 | the first entry starts expanded, when there is one with a non-empty id |
| ExperienceForm.BlankExperience | src/components/forms/ExperienceForm.tsx:21-30 | a new entry has empty texts, is not current, and has one empty achievement |
| ExperienceForm.AddExperience | src/components/forms/ExperienceForm.tsx:20-33 | one blank entry is appended after the unchanged list and becomes the expanded one |
| ExperienceForm.ToggleExperience | src/components/forms/ExperienceForm.tsx:104 | the header click toggles between that entry and none, leaving the list alone |
| ExperienceForm.SetField | src/components/forms/ExperienceForm.tsx:37 | the named field takes the value; every other field keeps its own |
| ExperienceForm.UpdateExperience | src/components/forms/ExperienceForm.tsx:35-39 | matching entries get the field set; all others, and the order, stay |
| ExperienceForm.UpdateExperienceTwice | src/components/forms/ExperienceForm.tsx:35-39 | of two writes to one field other than the id only the later is visible |
| ExperienceForm.UpdateAchievement | src/components/forms/ExperienceForm.tsx:41-50 | on matching entries just the one achievement line changes, or the value is appended when the index is the length; all other entries stay |
| ExperienceForm.AddAchievement | src/components/forms/ExperienceForm.tsx:52-56 | matching entries get one empty line appended; all other entries stay |
| ExperienceForm.WithoutLine | src/components/forms/ExperienceForm.tsx:61-62 | dropping a line never yields an empty list: the last line is replaced by one empty line |
| ExperienceForm.RemoveAchievement | src/components/forms/ExperienceForm.tsx:58-66 | matching entries lose that line and keep at least one; all others stay |
| ExperienceForm.RemoveExperience | src/components/forms/ExperienceForm.tsx:68-70 | entries with the id go, the rest stay in order |
| ExperienceForm.AddExperienceKeepsAchievements | src/components/forms/ExperienceForm.tsx:29 | a new entry has an achievement line, so every entry keeps having one |
| ExperienceForm.UpdateExperienceKeepsAchievements | src/components/forms/ExperienceForm.tsx:35-39 | a field edit that does not blank the achievements keeps every entry's lines non-empty |
| ExperienceForm.UpdateAchievementKeepsAchievements | src/components/forms/ExperienceForm.tsx:41-50 | editing a line keeps every entry's lines non-empty |
| ExperienceForm.AddAchievementKeepsAchievements | src/components/forms/ExperienceForm.tsx:52-56 | adding a line keeps every entry's lines non-empty |
| ExperienceForm.RemoveAchievementKeepsAchievements | src/components/forms/ExperienceForm.tsx:58-66 | removing a line keeps every entry's lines non-empty |
| ExperienceForm.RemoveExperienceKeepsAchievements | src/components/forms/ExperienceForm.tsx:68-70 | removing entries keeps every remaining entry's lines non-empty |
| ExperienceForm.NoAchievementPenalty | src/components/utilis/atsChecker.ts:63-66 | with every entry's lines non-empty, the "add achievements" penalty never applies and readability is `100 - 10L - 10S` |
| ExperienceForm.AddExperienceFreshId | src/components/forms/ExperienceForm.tsx:22 | a fresh id keeps the ids distinct |
| ProjectsForm.InitialState | src/components/forms/ProjectsForm.tsx:19-20 | every project starts open and no technology is being typed |
| ProjectsForm.BlankProject | src/components/forms/ProjectsForm.tsx:23-30 | a new project has no technologies, an empty link and one empty highlight |
| ProjectsForm.AddProject | src/components/forms/ProjectsForm.tsx:22-33 | one blank project is appended after the unchanged list and its id is opened |
| ProjectsForm.AddProjectOpensIt | src/components/forms/ProjectsForm.tsx:32 | the new project is open, and closing it restores the open ids |
| ProjectsForm.RemoveProject | src/components/forms/ProjectsForm.tsx:35-38 | the id leaves both the list and the open ids; everything else stays in order |
| ProjectsForm.ToggleItem | src/components/forms/ProjectsForm.tsx:84-88 | the id is open exactly when it was not; other ids and the list are unaffected |
| ProjectsForm.SetField | src/components/forms/ProjectsForm.tsx:41 | the named field takes the value; every other field keeps its own |
| ProjectsForm.UpdateProject | src/components/forms/ProjectsForm.tsx:40-42 | matching projects get the field set; all others, and the order, stay |
| ProjectsForm.FirstIndex | src/components/forms/ProjectsForm.tsx:47 | the position of the first project with the id, or the length when there is none |
| ProjectsForm.Find | src/components/forms/ProjectsForm.tsx:47 | `find` fails exactly when no project has the id, and otherwise gives the first one |
| ProjectsForm.TechAccepted | src/components/forms/ProjectsForm.tsx:45-48 | the trimmed input is non-empty, the project exists and does not list it yet; AddTechnology states that exactly then the technology is appended |
| ProjectsForm.AddTechnology | src/components/forms/ProjectsForm.tsx:44-52 | nothing changes unless the trimmed input is non-empty, the project exists and lacks it; then the trimmed text is appended to the project's technologies and its input is cleared |
| ProjectsForm.AddTechnologyKeepsDistinct | src/components/forms/ProjectsForm.tsx:48 | adding a technology keeps every project's technologies free of duplicates and its highlights non-empty |
| ProjectsForm.RemoveTechnology | src/components/forms/ProjectsForm.tsx:54-59 | every equal entry leaves the project's technologies; other projects stay |
| ProjectsForm.RemoveTechnologyKeepsDistinct | src/components/forms/ProjectsForm.tsx:54-59 | removing a technology keeps both invariants |
| ProjectsForm.AddHighlight | src/components/forms/ProjectsForm.tsx:61-66 | an empty highlight is appended to an existing project; otherwise nothing changes |
| ProjectsForm.UpdateHighlight | src/components/forms/ProjectsForm.tsx:68-75 | one highlight index of an existing project is overwritten, or the value appended at the length |
| ProjectsForm.RemoveHighlight | src/components/forms/ProjectsForm.tsx:77-82 | a highlight is removed only when the project has more than one |
| ProjectsForm.HighlightEditsKeepInvariants | src/components/forms/ProjectsForm.tsx:61-82 | the three highlight edits keep highlights non-empty and technologies distinct |
| ProjectsForm.UpdateKeepsInvariants | src/components/forms/ProjectsForm.tsx:40-42 | a field edit with a distinct technology list and non-empty highlights keeps both invariants |
| ProjectsForm.AddRemoveKeepInvariants | src/components/forms/ProjectsForm.tsx:22-38 | adding and removing projects keep both invariants |
| EducationForm.InitialState | src/components/forms/EducationForm.tsx:16 | the first entry starts expanded, when there is one with a non-empty id |
| EducationForm.BlankEducation | src/components/forms/EducationForm.tsx:19-28 | a new entry has an empty GPA and no achievement lines |
| EducationForm.AddEducation | src/components/forms/EducationForm.tsx:18-31 | one blank entry is appended after the unchanged list and becomes the expanded one |
| EducationForm.ToggleEducation | src/components/forms/EducationForm.tsx:73 | the header click toggles between that entry and none |
| EducationForm.SetField | src/components/forms/EducationForm.tsx:35 | the named field takes the value; every other field keeps its own |
| EducationForm.UpdateEducation | src/components/forms/EducationForm.tsx:33-37 | matching entries get the field set; all others, and the order, stay |
| EducationForm.RemoveEducation | src/components/forms/EducationForm.tsx:39-41 | entries with the id go, the rest stay in order |
| EducationForm.AddThenUpdate | src/components/forms/EducationForm.tsx:18-37 | editing a just-added entry with a fresh id changes only that entry |
| EducationForm.AddThenRemove | src/components/forms/EducationForm.tsx:18-41 | removing a just-added entry with a fresh id restores the list |
| CertificationsForm.InitialState | src/components/forms/CertificationsForm.tsx:17 | the open ids start as exactly the certifications' ids |
| CertificationsForm.BlankCertification | src/components/forms/CertificationsForm.tsx:20-27 | a new entry has empty texts and an empty expiry and credential id |
| CertificationsForm.AddCertification | src/components/forms/CertificationsForm.tsx:19-30 | one blank entry is appended after the unchanged list and marked open |
| CertificationsForm.RemoveCertification | src/components/forms/CertificationsForm.tsx:32-35 | the id leaves both the list and the open ids; everything else stays in order |
| CertificationsForm.ToggleItem | src/components/forms/CertificationsForm.tsx:41-45 | the id is open exactly when it was not; other ids and the list are unaffected |
| CertificationsForm.SetField | src/components/forms/CertificationsForm.tsx:38 | the named field takes the value; every other field keeps its own |
| CertificationsForm.UpdateCertification | src/components/forms/CertificationsForm.tsx:37-39 | matching entries get the field set; all others, and the order, stay |
| CertificationsForm.UpdateCertificationTwice | src/components/forms/CertificationsForm.tsx:37-39 | of two writes to one field other than the id only the later is visible |
| CertificationsForm.AddThenRemove | src/components/forms/CertificationsForm.tsx:19-35 | removing a just-added, closed, fresh entry restores the list and the open ids |
| LocalStorage.ReadBack | src/components/hooks/useCVisionStorage.ts:71-75 | `if (saved) cell = JSON.parse(saved)`: a stored value replaces the cell, anything else leaves it |
| LocalStorage.ReadBackSynced | src/components/hooks/useCVisionStorage.ts:71-75 | reading a synced key into a cell at its default restores the cell |
| CVisionStorage.ReadableKeys | src/components/hooks/useCVisionStorage.ts:63-83 | the keys read before the first `JSON.parse` that throws: those before it are well-formed, and it is not |
| CVisionStorage.DefaultProfile | src/components/hooks/useCVisionStorage.ts:46-51 | the default profile is `local-user` with empty name and email and no avatar |
| CVisionStorage.PatchCoverLetter | src/components/hooks/useCVisionStorage.ts:159 | named fields take the update, the others stay, and the update time is always now |
| CVisionStorage.PatchApplication | src/components/hooks/useCVisionStorage.ts:181 | named fields take the update and the others stay |
| CVisionStorage.PatchProfile | src/components/hooks/useCVisionStorage.ts:212 | named fields take the update and the others stay |
| CVisionStorage.PatchLaws | src/components/hooks/useCVisionStorage.ts:157-215 | an empty update changes nothing (for a letter, nothing but its update time); the same update twice is the update once |
| CVisionStorage.WithoutCV | src/components/hooks/useCVisionStorage.ts:138 | CVs with the id go; the rest stay in order |
| CVisionStorage.WithoutLetter | src/components/hooks/useCVisionStorage.ts:166 | letters with the id go; the rest stay in order |
| CVisionStorage.WithoutApplication | src/components/hooks/useCVisionStorage.ts:187 | applications with the id go; the rest stay in order |
| CVisionStorage.PatchLetters | src/components/hooks/useCVisionStorage.ts:158-160 | matching letters are updated and stamped; the others stay |
| CVisionStorage.PatchApplications | src/components/hooks/useCVisionStorage.ts:181 | matching applications are updated; the others stay |
| CVisionStorage.CVisionStore.constructor | src/components/hooks/useCVisionStorage.ts:53-60 | the cells start at the defaults, not loaded and not logged in |
| CVisionStorage.CVisionStore.Load | src/components/hooks/useCVisionStorage.ts:62-85 | the keys before the first malformed one replace their cells when present; the login state follows the stored profile's email; the store is loaded in every case |
| CVisionStorage.CVisionStore.SaveResumeData | src/components/hooks/useCVisionStorage.ts:88-95 | the resume and its key take the value; the store stays synced |
| CVisionStorage.CVisionStore.SaveSettings | src/components/hooks/useCVisionStorage.ts:97-104 | the settings and their key take the value; the store stays synced |
| CVisionStorage.CVisionStore.UpdateSection | src/components/hooks/useCVisionStorage.ts:106-112 | exactly the named section changes, and the result is saved |
| CVisionStorage.CVisionStore.SaveCV | src/components/hooks/useCVisionStorage.ts:115-128 | a CV holding the current resume and settings is appended after the unchanged list, stored and returned |
| CVisionStorage.CVisionStore.LoadCV | src/components/hooks/useCVisionStorage.ts:130-135 | the CV's resume and settings become current and are stored |
| CVisionStorage.CVisionStore.DeleteCV | src/components/hooks/useCVisionStorage.ts:137-141 | CVs with the id go and the list is stored |
| CVisionStorage.CVisionStore.SaveCoverLetter | src/components/hooks/useCVisionStorage.ts:144-155 | the letter, with the new id and both times now, is appended, stored and returned |
| CVisionStorage.CVisionStore.UpdateCoverLetter | src/components/hooks/useCVisionStorage.ts:157-163 | matching letters are updated and stamped, and the list is stored |
| CVisionStorage.CVisionStore.DeleteCoverLetter | src/components/hooks/useCVisionStorage.ts:165-169 | letters with the id go and the list is stored |
| CVisionStorage.CVisionStore.AddApplication | src/components/hooks/useCVisionStorage.ts:172-178 | the application, with the new id, is appended, stored and returned |
| CVisionStorage.CVisionStore.UpdateApplication | src/components/hooks/useCVisionStorage.ts:180-184 | matching applications are updated and the list is stored |
| CVisionStorage.CVisionStore.DeleteApplication | src/components/hooks/useCVisionStorage.ts:186-190 | applications with the id go and the list is stored |
| CVisionStorage.CVisionStore.Login | src/components/hooks/useCVisionStorage.ts:193-203 | a new profile with the name and email, logged in, and stored |
| CVisionStorage.CVisionStore.Logout | src/components/hooks/useCVisionStorage.ts:205-209 | the default profile, logged out, and the key removed |
| CVisionStorage.CVisionStore.UpdateProfile | src/components/hooks/useCVisionStorage.ts:211-215 | the profile takes the update and is stored; the login state is untouched |
| CVisionStorage.CVisionStore.ClearAllData | src/components/hooks/useCVisionStorage.ts:217-228 | resume, settings and the three lists go back to the defaults and their keys are removed; the profile and the login state stay |
| CVisionStorage.Reload | src/components/hooks/useCVisionStorage.ts:45-85 | a new store at a new clock reading, loaded from a synced store's keys, has the same resume, settings and lists; its profile is the stored one, or the default stamped with the new reading when the key is empty; it is logged in exactly when a stored profile has an email, and it is synced |
| ResumeStorage.ResumeStore.constructor | src/components/hooks/useResumeStorage.ts:35-37 | the cells start at the defaults, not loaded |
| ResumeStorage.ResumeStore.Load | src/components/hooks/useResumeStorage.ts:39-54 | stored values replace the defaults; a malformed resume key leaves both cells; the store is loaded in every case |
| ResumeStorage.ResumeStore.SaveResumeData | src/components/hooks/useResumeStorage.ts:56-63 | the resume and its key take the value; the store stays synced |
| ResumeStorage.ResumeStore.SaveSettings | src/components/hooks/useResumeStorage.ts:65-72 | the settings and their key take the value; the store stays synced |
| ResumeStorage.ResumeStore.UpdateSection | src/components/hooks/useResumeStorage.ts:74-80 | exactly the named section changes, and the result is saved |
| ResumeStorage.ResumeStore.ClearAllData | src/components/hooks/useResumeStorage.ts:82-87 | both cells go back to the defaults and both keys are removed |
| ResumeStorage.Reload | src/components/hooks/useResumeStorage.ts:39-54 | loading a new store from a synced store's keys restores both cells |

## Left out

- Unicode: lower-casing is ASCII only, and whitespace is the ASCII set plus the common Unicode spaces of `\s` as listed in `Strings.IsSpace`. Lengths count characters, not UTF-16 code units.
- `JSON.stringify`: the serialisation in `ResumeText` has the source's keys in the source's order and escapes string values as `JSON.stringify` does. Keys are written without escaping, which is right for the fixed field names. Only containment facts about it are proved; the exact text is not claimed to be byte-for-byte equal.
- AtsChecker.SkillNamesMatch: stated only for skill names without a quote, a backslash or a control character. Such a name is escaped in the text, so a candidate equal to it matches only if it also occurs as written somewhere else.
- Floating point: the model computes in exact rationals. The `< 50` test on the keyword ratio and both rounded percentages (`Math.round`) come out as they do with IEEE-754 doubles. The reported keyword value (`ATSScore.keywords`) is the exact ratio, such as 100/7, which the double only approximates (14.285714285714285).
- AtsChecker.DefaultResumeScore: overall 38 is proved only under the hypothesis that no general-dictionary word occurs in the search text of the empty resume. It is not derived from the serialisation itself.
- The clock and `Date.now()`: ids and timestamps are parameters. Their freshness is a precondition where a lemma needs it. `saveCV` and `saveCoverLetter` read the clock twice, for `createdAt` and for `updatedAt`, so the two may differ by a tick; the model takes one reading `now` for both.
- `localStorage` failures: a quota error on `setItem` is not modelled (the key is assumed written). `JSON.stringify` of a stored value is assumed to read back as that value.
- Object keys: a `targetIndustry` or category naming a prototype property (`constructor`, …) is not modelled; dictionaries are maps with exactly their listed keys. `SkillsForm.GroupSkills` keeps categories in first-appearance order; the integer-like keys that `Object.entries` would list first are not modelled.
- `Partial<T>` updates: a key present with the value `undefined` is modelled as absent.
- ExperienceForm.UpdateAchievement: an index beyond the length leaves the list unchanged, where the source would write a sparse array with holes. At the length it appends the value, as the source does.
- ProjectsForm.UpdateHighlight: the same holds for its index.
- Stale closures: `updateSection`, `saveCV` and `addTechnology` read the state captured at the last render. The model's methods read the current fields, so two such calls in one event, before a re-render, differ from the source, where the second works from the old state.
- ProjectsForm.AddTechnology: typing into the technology input (`setNewTech`) is not modelled; the state passes `newTech` in.
- The JSX, the toasts, the animations, and the rendering of the suggestion chips and groups.
