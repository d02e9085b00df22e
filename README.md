# AI Resume Scanner — a verified model of the scoring and matching core

This project models the deterministic core of the AI Resume Scanner in Dafny:

- how a resume is scored;
- how it is matched against a job description;
- how resume text is structured into fields and sections;
- the text features the scores are built from;
- the upload gate that decides which files are analysed.

Each source file of the core becomes one module:

| module | file | what it holds |
|---|---|---|
| `ScoringEngine` | `scoring_engine.dfy` | completeness, content quality, skills relevance and experience tiers; the weighted overall score and letter grade; the feedback and improvement-suggestion rule lists |
| `JobMatcher` | `job_matcher.dfy` | the four-method similarity score; keyword, skills and experience matching; required-experience extraction; skill gaps; role categorisation; recommendations; batch ranking |
| `ResumeParser` | `resume_parser.dfy` | the line-driven section segmenter; the merge of primary and manually extracted fields; the normaliser of parsed fields; the resume summary |
| `TextProcessing` | `text_processing.dfy` | `clean_text`, stopword removal, whole-word skill matching, the four phone patterns, the education sentence filter, experience years, text statistics |
| `FileHandler` | `file_handler.dfy` | `validate_file` with the pathlib suffix rule; the extension dispatch of `extract_text` |

Three modules support them:

- `Config` holds the constants of `config.py`: the size limit, the allowed extensions, the skill lists and the job-category table in insertion order.
- `Strings` holds character classes, ASCII lower-casing, `str.strip`, `str.split`, `sep.join` and substring search.
- `Seqs` holds `Option`, duplicate-freedom, first-occurrence deduplication, and the `Fired` rule-table combinator that the feedback, suggestion and recommendation lists are built on.

The model keeps the source's form:

- Code that accumulates into local lists, counters, dictionaries or a sorted list is a `method` with a loop. Each such method is proved equal to a specification function:
  - the skills categorisation loop;
  - the keyword counter;
  - the capture aggregations;
  - the section segmenter;
  - the merge loop;
  - `clean_parsed_data`;
  - `generate_feedback` and `get_improvement_suggestions`;
  - the recommendation list;
  - the batch ranking's score, sort and renumber passes.
- Pure expressions and early returns are functions. Properties relating several calls are lemmas.

What foreign libraries compute is passed in as inputs:

- TF-IDF cosine similarity and TF-IDF keywords;
- NLTK word and sentence tokens;
- the spaCy entity map;
- the captures of the experience regexes;
- the e-mail regex matches;
- pyresparser's dictionary;
- the text the PDF, DOCX, DOC and TXT readers return.

Some consequences of the code that the model keeps:

- The skill pattern is `\b` + the escaped skill + `\b` (utils/text_processing.py:107-108). For a skill ending in a non-word character such as "c++", the trailing `\b` holds only before a word character. So "c++11" mentions C++ and "c++ developer" does not (`TextProcessing.CPlusPlusNeedsFollowingWordChar`).
- `clean_parsed_data` strips entries and drops blank ones only in the skills and education lists (models/resume_parser.py:180-189). E-mails, phones, companies, designations and degrees are only wrapped into lists (166-172, 200-206, 215-217).
- The sentence-length tier compares the real average against 8, 10, 25 and 30 (models/scoring_engine.py:107-112). The tiers leave no gaps: an average of 9.995 falls in the 0.8 tier.
- `parse_resume` merges before it normalises (models/resume_parser.py:145-155). The name is pyresparser's when truthy and otherwise the first PERSON entity. The sections always come from the segmenter, because pyresparser reports none.

## Model

| member | source | states |
|---|---|---|
| ScoringEngine.CompletenessScore | models/scoring_engine.py:54-78 | the score lies in [0, 1]; it is 1 exactly when all five required and all three optional checks hold, and 0 exactly when none holds |
| ScoringEngine.SegmentedSectionsFillOptional | models/scoring_engine.py:65-76 | optional checks test key presence only, so with the segmenter's eight keys the optional part always adds 0.3 |
| ScoringEngine.ContentQuality | models/scoring_engine.py:80-130 | 0 for empty text; otherwise in [1/3, 1], and exactly 1 iff 300–800 words, 10–25 words per sentence and a diversity ratio of at least 0.5 |
| ScoringEngine.SentenceIdeal | models/scoring_engine.py:106-113 | the sentence tier is 1 iff there are sentences and the average lies in [10, 25], restated over word and sentence counts |
| ScoringEngine.DiversityIdeal | models/scoring_engine.py:115-128 | the diversity tier is 1 iff there are words and unique words are at least half of them (0 without words) |
| ScoringEngine.TechnicalOf | models/scoring_engine.py:143-146 | a skill is filed as technical iff its lower-cased form contains some technical skill |
| ScoringEngine.SoftOf | models/scoring_engine.py:143-148 | a skill is filed as soft iff it is not technical and contains some soft skill (technical is tested first) |
| ScoringEngine.CategoriesWithinTotal | models/scoring_engine.py:139-153 | each skill lands in at most one category, so technical + soft ≤ total |
| ScoringEngine.SkillsRelevance | models/scoring_engine.py:132-188 | 0 without skills; otherwise in [0.3, 1], and 1 iff 8–15 skills, at least five technical and some soft |
| ScoringEngine.FileSkills | models/scoring_engine.py:139-148 | the categorisation loop yields exactly the technical and soft lists of the specification |
| ScoringEngine.FileStep | models/scoring_engine.py:143-148 | filing one more entry extends the technical list, or else the soft list, by exactly that entry |
| ScoringEngine.CalculateSkillsRelevanceScore | models/scoring_engine.py:132-188 | the score equals the skills-relevance specification for the resume's skills |
| ScoringEngine.ExperienceScore | models/scoring_engine.py:190-231 | the mean of the three tiers lies in [1/6, 1]; it is 1 iff ≥5 years, ≥3 companies and ≥2 designations; it is 1/6 iff no years, companies or designations |
| ScoringEngine.ExperienceScoreMonotone | models/scoring_engine.py:198-229 | more years, companies or designations never lower the experience score |
| ScoringEngine.GradeOf | models/scoring_engine.py:233-254 | each grade is earned exactly on its band with an inclusive lower bound; D exactly below 50 |
| ScoringEngine.GradeMonotone | models/scoring_engine.py:233-254 | a higher score never earns a worse grade |
| ScoringEngine.GradeBoundaries | models/scoring_engine.py:235-254 | 90 gives A+, 89.999 gives A, 50 gives C-, 49.999 gives D |
| ScoringEngine.Weighted | models/scoring_engine.py:36-45 | the 30/25/20/15/10 weights sum to one: unit category scores give a unit overall score, and all-ones gives exactly 1 |
| ScoringEngine.Categories | models/scoring_engine.py:15-34 | job match is 0 when the job description is missing or empty; the other four categories always lie in [0, 1], and job match does when the TF-IDF score does |
| ScoringEngine.ScoreCategories | models/scoring_engine.py:15-34 | the five scorers called in sequence give the category specification |
| ScoringEngine.CalculateOverallScore | models/scoring_engine.py:13-52 | overall = 100 × weighted sum; category scores are ×100; the grade comes from the unrounded overall; feedback is the rule list; overall lies in [0, 100] |
| ScoringEngine.MissingSections | models/scoring_engine.py:263-271 | each part is listed iff it is missing (name, e-mail and phone, skills, education); the list is empty iff nothing is missing |
| ScoringEngine.CollectMissingSections | models/scoring_engine.py:263-271 | the appends produce the missing-parts specification |
| ScoringEngine.ProfileMessages | models/scoring_engine.py:260-305 | missing-information iff completeness < 0.7 with something missing; improve-content iff content < 0.6; complete-profile iff completeness ≥ 0.8 |
| ScoringEngine.SkillsMessages | models/scoring_engine.py:281-308 | add-skills iff relevance < 0.6 and fewer than 5 skills; optimise iff relevance < 0.6 and more than 20; strong-profile iff relevance ≥ 0.8 |
| ScoringEngine.ExperienceMessages | models/scoring_engine.py:290-301 | add-experience iff experience < 0.5 with zero years; enhance iff experience < 0.5 with non-zero years; job-match iff 0 < job match < 0.6 |
| ScoringEngine.FeedbackConsistent | models/scoring_engine.py:260-308 | contradictory pairs never appear together (missing info and complete profile, add and optimise skills, add and strong skills, add and enhance experience) |
| ScoringEngine.FeedbackInRuleOrder | models/scoring_engine.py:256-310 | messages appear in rule order without repeats |
| ScoringEngine.FeedbackUnrolled | models/scoring_engine.py:256-310 | the feedback list is the nine independent rules concatenated in source order |
| ScoringEngine.AppendSkillsFeedback | models/scoring_engine.py:281-288 | the skills branch appends at most one message, as the elif chain decides |
| ScoringEngine.AppendExperienceFeedback | models/scoring_engine.py:290-296 | the experience branch appends one of two messages, chosen by zero years |
| ScoringEngine.GenerateFeedback | models/scoring_engine.py:256-310 | the appends produce the feedback rule list over the resume's missing parts, skill count and years |
| ScoringEngine.WritingSuggestions | models/scoring_engine.py:316-330 | add-numbers iff no digit; action-verbs iff no verb; expand iff < 200 words; concise iff > 1000 words |
| ScoringEngine.WritingRules | models/scoring_engine.py:316-323 | the digit and action-verb rules fire exactly on their conditions |
| ScoringEngine.LengthRules | models/scoring_engine.py:325-330 | at most one length message: expand below 200 words, concise above 1000 |
| ScoringEngine.ContactSuggestions | models/scoring_engine.py:332-337 | add-email iff the e-mail field is falsy; add-phone iff the phone field is falsy |
| ScoringEngine.ContactRules | models/scoring_engine.py:332-337 | the e-mail and phone rules fire independently on their conditions |
| ScoringEngine.SuggestionsInRuleOrder | models/scoring_engine.py:312-339 | suggestions come in rule order without repeats, and there are at most five |
| ScoringEngine.SuggestionsUnrolled | models/scoring_engine.py:312-339 | the suggestion list is the six rules concatenated in source order |
| ScoringEngine.NoSuggestionsForPolishedResume | models/scoring_engine.py:312-339 | digits, an action verb, 200–1000 words, e-mail and phone give no suggestions |
| ScoringEngine.GetImprovementSuggestions | models/scoring_engine.py:312-339 | the appends produce the suggestion rule list |
| JobMatcher.KeywordHits | models/job_matcher.py:78-83 | the hit count is at most the keyword count; it equals it iff every keyword occurs case-insensitively; it is 0 iff none occurs |
| JobMatcher.KeywordScore | models/job_matcher.py:69-89 | in [0, 1]; 0 without keywords; 1 iff there are keywords and all occur; 0 iff none occurs |
| JobMatcher.KeywordMatchingScore | models/job_matcher.py:69-89 | the counting loop gives the keyword-score specification |
| JobMatcher.SkillSet | models/job_matcher.py:95-96 | the lower-cased set of skills extract_skills finds |
| JobMatcher.SkillsScore | models/job_matcher.py:98-111 | 0 without job skills; in [0, 1]; with job skills it is 1 iff the two skill sets are equal |
| JobMatcher.SameSkillsCards | models/job_matcher.py:101-111 | full Jaccard and full coverage together hold iff the resume and job skill sets are equal |
| JobMatcher.SkillGapsOf | models/job_matcher.py:186-200 | matching ∪ missing = job skills, matching ∪ additional = resume skills, pairwise disjoint; percentage = 100·matching/job in [0, 100], 0 without job skills, 100 iff job skills ⊆ resume skills |
| JobMatcher.AllJobSkillsCard | models/job_matcher.py:191-199 | the intersection has the job set's size iff the job set is contained in the resume set |
| JobMatcher.ExperienceMatch | models/job_matcher.py:117-137 | 1 when nothing is required or the requirement is met; 0.8 from 0.7×; 0.6 from 0.5×; below that, resume/required; always in [0, 1] |
| JobMatcher.ExperienceMatchMonotone | models/job_matcher.py:123-133 | more resume years never lower the experience match |
| JobMatcher.ThreeOfFiveYears | models/job_matcher.py:126-131 | three years against five required falls in the 0.6 tier |
| JobMatcher.MinOr0 | models/job_matcher.py:184 | the minimum of the years, 0 when there are none |
| JobMatcher.ExtractRequiredExperience | models/job_matcher.py:163-184 | the loop gives the minimum over all captures of all patterns; it is at most every capture's first group, and 0 without captures |
| JobMatcher.Scored | models/job_matcher.py:43-56 | four named method scores; with inputs in [0, 1], the overall and every method score lie in [0, 100] |
| JobMatcher.SimilaritySpec | models/job_matcher.py:20-56 | an empty preprocessed text gives overall 0 with no method scores; otherwise all four methods are present, and scores lie in [0, 100] when the TF-IDF score is in [0, 1] |
| JobMatcher.PerfectScores | models/job_matcher.py:43-51 | perfect method scores give an overall score of exactly 100 (the weights sum to one) |
| JobMatcher.CalculateSimilarityScore | models/job_matcher.py:20-56 | the method computes the similarity specification |
| JobMatcher.FirstCategory | models/job_matcher.py:202-211 | the first table entry with a keyword in the lower-cased text wins; "general" when none matches |
| JobMatcher.FirstListedCategoryWins | models/job_matcher.py:204-209 | "Data Analyst and Web Developer" is data_science: the earlier table entry wins |
| JobMatcher.DataAnalystMentioned | models/job_matcher.py:206-208 | the data-science keyword list hits that description |
| JobMatcher.MissingKeywords | models/job_matcher.py:232-234 | a keyword is missing iff it does not occur case-insensitively in the resume |
| JobMatcher.FirstThree | models/job_matcher.py:236-237 | the shown terms are a prefix of at most three, empty iff there are none |
| JobMatcher.RecommendRules | models/job_matcher.py:213-249 | each of the five recommendations appears iff its condition holds; at most five |
| JobMatcher.RecommendOnlyRules | models/job_matcher.py:213-249 | nothing else is ever recommended |
| JobMatcher.RecommendInRuleOrder | models/job_matcher.py:213-249 | recommendations appear in rule order without repeats |
| JobMatcher.ListedSetEmpty | models/job_matcher.py:196-220 | the listed missing skills are empty iff the missing set is |
| JobMatcher.AppendRecommendations | models/job_matcher.py:213-249 | the appends produce the recommendation rules |
| JobMatcher.GetMatchingRecommendations | models/job_matcher.py:213-249 | recommendations from the first five missing skills, required vs resume years, the first three of the ten keywords not in the resume, absent ORG entities, and a match below 50% |
| JobMatcher.InitialRankings | models/job_matcher.py:253-263 | one record per resume, ranked by input position |
| JobMatcher.RankOne | models/job_matcher.py:255-263 | the record for one resume |
| JobMatcher.ScoreAll | models/job_matcher.py:253-263 | the scoring loop builds the initial ranking records |
| JobMatcher.SortRankings | models/job_matcher.py:265-266 | the sort yields a permutation ordered by descending score, equal scores by ascending initial rank (the sort is stable) |
| JobMatcher.Renumber | models/job_matcher.py:268-270 | ranks are rewritten to 1..N in output order, and nothing else changes |
| JobMatcher.OriginOfSorted | models/job_matcher.py:265-266 | a sorted permutation maps each output to a distinct input, and ties keep input order |
| JobMatcher.BatchResumeRanking | models/job_matcher.py:251-272 | the output is a permutation of the scored inputs with ranks 1..N, non-increasing scores and stable ties; empty input gives empty output |
| ResumeParser.FirstHeaderFrom | models/resume_parser.py:106-110 | from a given position on, the first section in dictionary order whose pattern matches; none between that position and it matches |
| ResumeParser.HeaderSection | models/resume_parser.py:107-110 | a header line names one of the eight sections |
| ResumeParser.FindHeader | models/resume_parser.py:107-110 | the pattern loop finds the first matching section |
| ResumeParser.ExtractResumeSections | models/resume_parser.py:73-120 | exactly the eight keys; each value is the stripped body the cursor machine gives that section over the text's lines |
| ResumeParser.SegmentLines | models/resume_parser.py:98-118 | the line loop produces the eight stripped section bodies |
| ResumeParser.SegmentLine | models/resume_parser.py:101-114 | one step: a header line moves the cursor; any other non-blank line is appended, with a space, to the current section |
| ResumeParser.SectionsStep | models/resume_parser.py:101-114 | one loop step extends every section body as the specification does |
| ResumeParser.CursorStep | models/resume_parser.py:101-110 | the cursor moves exactly on non-blank header lines |
| ResumeParser.BodyStep | models/resume_parser.py:111-114 | a body grows by a line exactly when that line is non-blank, not a header, and in that section |
| ResumeParser.StripSections | models/resume_parser.py:116-118 | every body is stripped; the keys are kept |
| ResumeParser.CursorConcat | models/resume_parser.py:98-110 | the cursor over two pieces of text is the cursor over the second, started where the first left it |
| ResumeParser.BodyConcat | models/resume_parser.py:98-114 | a body over two pieces of text is the first's body followed by the second's, started from the first's cursor |
| ResumeParser.PreambleDropped | models/resume_parser.py:99-114 | lines before the first header change nothing |
| ResumeParser.PreambleEmpty | models/resume_parser.py:99-114 | without a header, no section is selected and every body is empty |
| ResumeParser.HeaderLineSwitches | models/resume_parser.py:106-110 | a header line selects its section and is never appended |
| ResumeParser.ContentLineAppends | models/resume_parser.py:103-114 | a blank line is skipped; a content line is appended to the current section only |
| ResumeParser.AcademicProjectsIsEducation | models/resume_parser.py:87-110 | "Academic Projects" is an education header: "academic" matches before the projects pattern is tried |
| ResumeParser.AcademicProjectsMissesFirstThree | models/resume_parser.py:88-90 | it matches none of the objective, summary and experience patterns |
| ResumeParser.AcademicProjectsMatchesEducation | models/resume_parser.py:91 | it matches the education pattern |
| ResumeParser.ExperienceMentionSwitches | models/resume_parser.py:87-110 | any line mentioning "experience" switches to experience unless an objective or summary pattern matches first |
| ResumeParser.MergeParsedData | models/resume_parser.py:149-151 | the merge loop keeps truthy primary values and fills absent or falsy keys from the manual parse |
| ResumeParser.MergeKeepsTruthy | models/resume_parser.py:149-151 | a merged value is truthy iff the primary or the manual value is |
| ResumeParser.MergeIdempotent | models/resume_parser.py:149-151 | merging the manual parse a second time changes nothing |
| ResumeParser.AsList | models/resume_parser.py:166-172 | a string becomes a one-element list, or [] when empty; anything else passes unchanged |
| ResumeParser.AsListIdempotent | models/resume_parser.py:166-172 | coercing twice is coercing once |
| ResumeParser.StripNonBlank | models/resume_parser.py:183 | entries are stripped, blank ones dropped; every kept entry is non-blank and trimmed |
| ResumeParser.StripNonBlankConcat | models/resume_parser.py:183 | the filter works entry by entry, preserving order |
| ResumeParser.StripNonBlankLength | models/resume_parser.py:183 | nothing is dropped iff no entry is blank |
| ResumeParser.WithMobile | models/resume_parser.py:175-177 | a falsy mobile number changes nothing; a truthy one already in the list changes nothing, otherwise it is appended at the end; existing phones keep their order and duplicate-freedom is kept |
| ResumeParser.CleanParsedData | models/resume_parser.py:158-221 | each cleaned field as the source derives it, including the experience-years fallback and the one-page default |
| ResumeParser.ParseResumeManual | models/resume_parser.py:35-71 | the manual parse holds the given e-mails, the phone matches in pattern order, the unique mentioned skills, the education sentences, the maximum experience years and the entities; the name is the first PERSON entity, or "" without one; the sections are the segmenter's, keyed in declaration order |
| ResumeParser.ParseResume | models/resume_parser.py:145-156 | after merge and normalisation the name is pyresparser's when truthy, otherwise the stripped first PERSON entity ("" without one); the phones are the manual matches with the mobile number folded in; the sections are the segmenter's bodies, and whenever the company value has a length, the summary lists the eight section keys in declaration order |
| ResumeParser.MergeManual | models/resume_parser.py:149-151 | merging a manual record into pyresparser's dictionary takes phones and sections from the manual record and the mobile number from pyresparser, and gives a dictionary the normaliser accepts |
| ResumeParser.GetResumeSummary | models/resume_parser.py:223-234 | contact completeness iff a name and an e-mail; phone iff truthy; counts are list lengths; `sections_found` is the section dictionary's key list in insertion order |
| ScoringEngine.SummaryAgreesWithMissing | models/resume_parser.py:225-230 | the summary and the missing-information feedback agree: complete contact details rule out a missing name or contact, a phone rules out a missing contact, and a zero skills or education count is exactly a missing part |
| TextProcessing.CollapseShape | utils/text_processing.py:59 | collapsing whitespace runs leaves only lower-case letters and single spaces |
| TextProcessing.TrimmedPartClean | utils/text_processing.py:59 | a trimmed piece of a collapsed text is clean |
| TextProcessing.CleanText | utils/text_processing.py:47-61 | "" stays ""; the result holds only a–z and single inner spaces, with no space at either end; its non-space characters are exactly the text's letters, lower-cased and in order |
| TextProcessing.KeptLetters | utils/text_processing.py:53-56 | after lower-casing and replacing every non-letter by a space, the non-space characters are the text's letters, lower-cased, in order |
| TextProcessing.CollapseNonSpace | utils/text_processing.py:59 | collapsing whitespace runs keeps every non-space character, in order |
| TextProcessing.StripLeftNonSpace | utils/text_processing.py:59 | stripping leading whitespace keeps every non-space character |
| TextProcessing.StripRightNonSpace | utils/text_processing.py:59 | stripping trailing whitespace keeps every non-space character |
| TextProcessing.CollapseFixpoint | utils/text_processing.py:59 | collapsing a text with single spaces changes nothing |
| TextProcessing.CleanFixpoint | utils/text_processing.py:47-61 | a clean text is its own cleaning |
| TextProcessing.CleanTextIdempotent | utils/text_processing.py:47-61 | clean_text(clean_text(t)) = clean_text(t) |
| TextProcessing.KeptWords | utils/text_processing.py:63-67 | a token is kept iff its lower-case form is not a stopword |
| TextProcessing.KeptWordsConcat | utils/text_processing.py:66 | the filter works token by token, in the original order |
| TextProcessing.ExtractSkills | utils/text_processing.py:96-111 | no duplicates; a listed skill is returned, verbatim, iff its lower-case form occurs between word boundaries |
| TextProcessing.JavaNotInJavascript | utils/text_processing.py:104-109 | "java" is not found in "javascript" but is found in "java, javascript" |
| TextProcessing.CPlusPlusNeedsFollowingWordChar | utils/text_processing.py:107-108 | the trailing boundary after "c++" needs a following word character: "c++ developer" misses, "c++11" hits |
| TextProcessing.SkipSpaces | utils/text_processing.py:123 | \s* consumes the maximal run of whitespace |
| TextProcessing.MatchAt | utils/text_processing.py:121-126 | a match ends within the text |
| TextProcessing.MatchFits | utils/text_processing.py:121-126 | the matched text has the pattern's fixed shape |
| TextProcessing.FindAllFits | utils/text_processing.py:129-130 | every findall result has its pattern's shape |
| TextProcessing.ParenNeedsWordCharBefore | utils/text_processing.py:123 | the \b before "(" needs a word character right before the parenthesis |
| TextProcessing.PhoneMatchesUnfold | utils/text_processing.py:128-132 | the pattern loop concatenates the four findall results |
| TextProcessing.ExtractPhone | utils/text_processing.py:119-132 | pattern 1 to 4 matches, concatenated in that order with no deduplication; each has a pattern's shape |
| TextProcessing.SentencesMentioning | utils/text_processing.py:148-151 | the stripped sentences whose lower-case form contains the keyword |
| TextProcessing.EducationHits | utils/text_processing.py:145-151 | a stripped sentence is collected iff it mentions some keyword that also occurs in the whole text |
| TextProcessing.EducationHitsSnoc | utils/text_processing.py:145-151 | each keyword contributes its sentences after those of the earlier keywords |
| TextProcessing.MentioningSentences | utils/text_processing.py:148-151 | the sentence loop produces the sentences mentioning the keyword |
| TextProcessing.ExtractEducation | utils/text_processing.py:134-153 | no duplicates; exactly the stripped sentences that mention an education keyword |
| TextProcessing.MaxOr0 | utils/text_processing.py:170 | the maximum of the years, 0 when there are none |
| TextProcessing.ExtractExperienceYears | utils/text_processing.py:155-170 | the loop gives the maximum capture of all three patterns: at least every capture, and one of them unless 0 |
| TextProcessing.AlphaVocabularyBound | utils/text_processing.py:211 | there are no more unique alphabetic words than words |
| TextProcessing.GetTextStatistics | utils/text_processing.py:198-214 | {} for empty text; counts are the token and sentence counts; avg = words/sentences, 0 without sentences; unique ≤ words |
| FileHandler.LastIndex | utils/file_handler.py:27 | str.rfind: the position of the last occurrence, or none when the character is absent |
| FileHandler.FinalName | utils/file_handler.py:27 | the final path component holds no separator and is not "." |
| FileHandler.SuffixShape | utils/file_handler.py:27 | a suffix is a dot and at least one non-dot character ending the name behind a non-empty stem; there is none iff the name has no dot after its first character, or it ends in a dot |
| FileHandler.ExtensionIsLastDottedTail | utils/file_handler.py:27 | the last dot wins and the case is folded: the stem plus a dotted tail gives the lower-cased tail |
| FileHandler.NoExtension | utils/file_handler.py:27 | a leading lone dot or a trailing dot gives no extension |
| FileHandler.DirectoryIgnored | utils/file_handler.py:27 | the directory part of the name does not affect the extension |
| FileHandler.ValidateFile | utils/file_handler.py:17-31 | valid iff a file is present, at most the size limit, and its extension is allowed |
| FileHandler.ValidationMessages | utils/file_handler.py:19-31 | "No file uploaded", "File size exceeds 10MB limit" and "File is valid", each on its case |
| FileHandler.UnsupportedTypeMessage | utils/file_handler.py:27-29 | the type message names the extension and lists .pdf, .docx, .doc, .txt |
| FileHandler.SizeLimitInclusive | utils/file_handler.py:15-24 | exactly 10 MiB passes with an allowed extension; one byte more fails on size, whatever the extension |
| FileHandler.ExtractorFor | utils/file_handler.py:126-134 | a reader exists exactly for the allowed extensions |
| FileHandler.ExtractorsDistinct | utils/file_handler.py:126-133 | each extension has its own reader |
| FileHandler.ExtractText | utils/file_handler.py:118-136 | "" without a file or for an unhandled extension; otherwise what the chosen reader returns |
| FileHandler.ValidUploadIsRead | utils/file_handler.py:118-136 | every valid upload reaches a reader |

## Left out

- TF-IDF cosine similarity and keyword extraction (sklearn) are inputs. The cosine score is a real; the keywords are the job's ranked top-20 list.
  - The ten keywords of get_matching_recommendations are taken as the first ten of that list: both lists come from the same descending sort.
- NLTK tokenisation, sentence splitting, lemmatisation and the stopword corpus are inputs. So is spaCy's entity map, and so is `preprocess_for_similarity`'s output, of which only emptiness matters.
- The e-mail regex is not modelled; its matches are an input. The experience-year regexes are not modelled; their integer captures are inputs.
  - The phone regexes and the `\b` skill pattern are modelled.
- pyresparser, the temporary file and its removal, and the exception handlers that print and return defaults are not modelled. pyresparser's dictionary is an input of the merge.
- The PDF, DOCX, DOC and TXT readers, `save_uploaded_file`, `get_file_info` and the Streamlit uploader are I/O and UI. What each reader returns is an input of `ExtractText`; the error banner is not modelled.
- The Streamlit page flow, the charts and the word cloud are presentation and are not modelled.
- Floating point is modelled as exact `real` arithmetic:
  - `round(…, 2)` on reported scores is not applied: reported scores are the exact values.
  - JobMatcher.BatchResumeRanking and JobMatcher.SortRankings sort on the exact overall score. The source sorts on the score already rounded to two decimals (models/job_matcher.py:54, 261, 266). So two resumes whose scores differ but round alike keep input order there and are ordered by exact score here.
  - The 0.7× and 0.5× products of the experience match are exact reals.
- Strings.IsDigit, Strings.IsLetter and Strings.IsWordChar are the ASCII classes `0-9`, `A-Za-z` and `[A-Za-z0-9_]`. Python's `str.isdigit`, `str.isalpha`, and `\d` and `\b` in `re`, use the Unicode classes. This affects:
  - `ScoringEngine.HasDigit` (models/scoring_engine.py:317);
  - `TextProcessing.AlphaVocabulary` and with it `unique_words` and the diversity tier (utils/text_processing.py:211), since "résumé" is alphabetic in Python but not here;
  - the phone patterns' digits and the word boundaries of the skill and phone patterns.
- Upper- and lower-casing is ASCII only, in `str.lower`, `Path.suffix.lower()` and the case-insensitive regexes. Whitespace is Python's `str.isspace` set.
- Python's `list(set(...))` has hash order. `ExtractSkills`, `ExtractEducation` and the skill-gap lists promise membership and no duplicates, not an order.
  - The model keeps first occurrences in input order (`Seqs.Dedup`).
  - `GetMatchingRecommendations` takes the order of the missing-skill list as a parameter.
- List aliasing is not modelled: `clean_parsed_data` appends the mobile number to a phone list that may be the input's own list. The model builds a new list.
- Integer and floating fields of the parsed dictionary share one `Num(real)` case; Python's `0` and `0.0` are both falsy, so truthiness agrees.
- ScoringEngine.Scorable requires the experience years to be a number, and the company and designation values to have a length. pyresparser may report `designation` or `company_names` as None. `clean_parsed_data` passes that through (models/resume_parser.py:200-206), and `calculate_experience_score` then raises a TypeError on `len(None)` (models/scoring_engine.py:212, 223). The model leaves that crash out: `Categories`, `ScoreCategories`, `CalculateOverallScore` and `GetResumeSummary` are stated only for records where the source does not raise.
- `CleanParsedData` requires the shapes the source can normalise without raising (`WellFormed`). The source raises when, for example, a truthy name is not a string.
- `ResumeParser.HeaderPatterns`: the optional trailing "s" of `certifications?`, `certificates?`, `achievements?`, `awards?` and `honors?` is dropped. An unanchored search finds the singular exactly when it finds the plural, so nothing is lost.
- `ScoringEngine.Categories` takes the job description as an `Option`. `None` and the empty description both give a job-match score of 0, as the truthiness test does.
- Windows path separators are not modelled: `FinalName` follows POSIX pathlib.
