/** The resume scorer of models/scoring_engine.py: five category scores in [0, 1], their fixed
    weighting into an overall score, the letter grade, and the two rule lists of feedback and
    improvement suggestions. The resume it scores is the normalised record of the parser. */
module ScoringEngine {
  import opened Strings
  import opened Seqs
  import Config
  import TextProcessing
  import opened ResumeParser
  import JobMatcher

  /** What the scorer reads of a normalised resume without raising: a number of years, lengths of
      the company and designation values, and a dictionary of sections. */
  predicate Scorable(parsed: CleanedResume) {
    && parsed.experienceYears.Num?
    && !parsed.companies.Null? && !parsed.companies.Num?
    && !parsed.designations.Null? && !parsed.designations.Num?
    && parsed.sections.Sections?
  }

  // ---------------------------------------------------------------------------------------------
  // calculate_completeness_score

  /** name, contact, skills, education, experience. */
  function RequiredFlags(parsed: CleanedResume): seq<bool>
    requires Scorable(parsed)
  {
    [ parsed.name != "",
      Truthy(parsed.email) || Truthy(parsed.phone),
      |parsed.skills| > 0,
      |parsed.education| > 0,
      parsed.experienceYears.x > 0.0 || Len(parsed.companies) > 0 ]
  }

  /** projects, certifications, summary: only the presence of the key counts, not its text. */
  function OptionalFlags(parsed: CleanedResume): seq<bool>
    requires parsed.sections.Sections?
  {
    var keys := parsed.sections.bodies.Keys;
    [ "projects" in keys,
      "certifications" in keys,
      "summary" in keys || "objective" in keys ]
  }

  /** 70% for the share of required parts present, 30% for the share of optional ones. */
  function CompletenessScore(parsed: CleanedResume): (r: real)
    requires Scorable(parsed)
    ensures 0.0 <= r <= 1.0
    ensures r == 1.0 <==>
      (forall i | 0 <= i < 5 :: RequiredFlags(parsed)[i]) && (forall i | 0 <= i < 3 :: OptionalFlags(parsed)[i])
    ensures r == 0.0 <==>
      (forall i | 0 <= i < 5 :: !RequiredFlags(parsed)[i]) && (forall i | 0 <= i < 3 :: !OptionalFlags(parsed)[i])
  {
    var required := CountTrue(RequiredFlags(parsed));
    var optional := CountTrue(OptionalFlags(parsed));
    (required as real) / 5.0 * 0.7 + (optional as real) / 3.0 * 0.3
  }

  /** The segmenter always reports all eight section keys, so every segmented resume earns the
      whole optional 30%. */
  lemma SegmentedSectionsFillOptional(parsed: CleanedResume)
    requires Scorable(parsed) && parsed.sections.bodies.Keys == SectionKeys
    ensures CompletenessScore(parsed) == (CountTrue(RequiredFlags(parsed)) as real) / 5.0 * 0.7 + 0.3
  {
    assert "projects" in SectionNames && "certifications" in SectionNames && "summary" in SectionNames;
    assert CountTrue(OptionalFlags(parsed)) == 3;
  }

  // ---------------------------------------------------------------------------------------------
  // calculate_content_quality_score

  function WordCountTier(n: nat): real {
    if 300 <= n <= 800 then 1.0
    else if 200 <= n < 300 || 800 < n <= 1000 then 0.8
    else if 100 <= n < 200 || 1000 < n <= 1200 then 0.6
    else 0.4
  }

  function SentenceTier(avg: real): real {
    if 10.0 <= avg <= 25.0 then 1.0
    else if 8.0 <= avg < 10.0 || 25.0 < avg <= 30.0 then 0.8
    else 0.6
  }

  function DiversityTier(unique: nat, wordCount: nat): real {
    if wordCount > 0 then
      var ratio := (unique as real) / (wordCount as real);
      if ratio >= 0.5 then 1.0
      else if ratio >= 0.4 then 0.8
      else if ratio >= 0.3 then 0.6
      else 0.4
    else 0.0
  }

  /** The mean of the word-count, sentence-length and vocabulary-diversity tiers over the text's
      statistics, 0 for an empty text. `words` and `sentences` are the text's tokens and sentences. */
  function ContentQuality(text: string, words: seq<string>, sentences: seq<string>): (r: real)
    ensures text == "" ==> r == 0.0
    ensures text != "" ==> 1.0 / 3.0 <= r <= 1.0
    ensures text != "" ==>
      (r == 1.0 <==>
        && 300 <= |words| <= 800
        && |sentences| > 0 && 10 * |sentences| <= |words| <= 25 * |sentences|
        && 2 * |TextProcessing.AlphaVocabulary(words)| >= |words|)
  {
    match TextProcessing.GetTextStatistics(text, words, sentences)
    case None => 0.0
    case Some(stats) =>
      SentenceIdeal(|words|, |sentences|, stats.avgWordsPerSentence);
      DiversityIdeal(stats.uniqueWords, stats.wordCount);
      (WordCountTier(stats.wordCount) + SentenceTier(stats.avgWordsPerSentence)
        + DiversityTier(stats.uniqueWords, stats.wordCount)) / 3.0
  }

  /** The average sentence length is ideal exactly when 10 to 25 words per sentence fit the counts. */
  lemma SentenceIdeal(words: nat, sentences: nat, avg: real)
    requires sentences > 0 ==> avg * (sentences as real) == words as real
    requires sentences == 0 ==> avg == 0.0
    ensures SentenceTier(avg) == 1.0 <==> sentences > 0 && 10 * sentences <= words <= 25 * sentences
  {
    if sentences > 0 {
      var s := sentences as real;
      ScaledBetween(avg, s, words as real, 10.0, 25.0);
      assert (10 * sentences) as real == 10.0 * s;
      assert (25 * sentences) as real == 25.0 * s;
    }
  }

  /** For a positive count s with avg · s == total, avg lies in [lo, hi] exactly when total lies in
      [lo · s, hi · s]. */
  lemma ScaledBetween(avg: real, s: real, total: real, lo: real, hi: real)
    requires s > 0.0 && avg * s == total
    ensures lo <= avg <= hi <==> lo * s <= total <= hi * s
  {
    JobMatcher.ScaleOrder(lo, avg, s);
    JobMatcher.ScaleOrder(avg, hi, s);
  }

  lemma DiversityIdeal(unique: nat, wordCount: nat)
    ensures DiversityTier(unique, wordCount) == 1.0 <==> wordCount > 0 && 2 * unique >= wordCount
  {
    if wordCount > 0 {
      JobMatcher.DivBelow(unique as real, wordCount as real, 0.5);
      assert (2 * unique) as real == 2.0 * (unique as real);
    }
  }

  // ---------------------------------------------------------------------------------------------
  // calculate_skills_relevance_score

  /** A technical skill name occurs, case-insensitively, inside the entry. */
  predicate IsTechnical(skill: string) {
    exists t | t in Config.TechnicalSkills :: Contains(Lower(skill), Lower(t))
  }

  predicate IsSoft(skill: string) {
    exists t | t in Config.SoftSkills :: Contains(Lower(skill), Lower(t))
  }

  /** The entries filed as technical, in order. */
  function TechnicalOf(skills: seq<string>): (r: seq<string>)
    ensures |r| <= |skills|
    ensures forall s :: s in r <==> s in skills && IsTechnical(s)
  {
    if skills == [] then []
    else
      var init, last := skills[..|skills| - 1], skills[|skills| - 1];
      assert forall s :: s in skills <==> s in init || s == last;
      TechnicalOf(init) + (if IsTechnical(last) then [last] else [])
  }

  /** The entries filed as soft skills: technical is tested first, so these are not technical. */
  function SoftOf(skills: seq<string>): (r: seq<string>)
    ensures |r| <= |skills|
    ensures forall s :: s in r <==> s in skills && !IsTechnical(s) && IsSoft(s)
  {
    if skills == [] then []
    else
      var init, last := skills[..|skills| - 1], skills[|skills| - 1];
      assert forall s :: s in skills <==> s in init || s == last;
      SoftOf(init) + (if !IsTechnical(last) && IsSoft(last) then [last] else [])
  }

  /** Each entry is filed at most once, so the two lists never outnumber the entries. */
  lemma {:induction false} CategoriesWithinTotal(skills: seq<string>)
    ensures |TechnicalOf(skills)| + |SoftOf(skills)| <= |skills|
  {
    if skills != [] {
      CategoriesWithinTotal(skills[..|skills| - 1]);
    }
  }

  function QuantityTier(n: nat): real {
    if 8 <= n <= 15 then 1.0
    else if 5 <= n < 8 || 15 < n <= 20 then 0.8
    else if 3 <= n < 5 || 20 < n <= 25 then 0.6
    else 0.4
  }

  function TechTier(n: nat): real {
    if n >= 5 then 1.0 else if n >= 3 then 0.8 else if n >= 1 then 0.6 else 0.2
  }

  function BalanceTier(tech: nat, soft: nat): real {
    if tech > 0 && soft > 0 then 1.0 else if tech > 0 || soft > 0 then 0.7 else 0.3
  }

  /** The mean of the quantity, technical and balance tiers; 0 without skills. */
  function SkillsRelevance(skills: seq<string>): (r: real)
    ensures skills == [] ==> r == 0.0
    ensures skills != [] ==> 0.3 <= r <= 1.0
    ensures r == 1.0 <==> 8 <= |skills| <= 15 && |TechnicalOf(skills)| >= 5 && |SoftOf(skills)| > 0
  {
    if skills == [] then 0.0
    else
      var tech, soft := |TechnicalOf(skills)|, |SoftOf(skills)|;
      (QuantityTier(|skills|) + TechTier(tech) + BalanceTier(tech, soft)) / 3.0
  }

  method CalculateSkillsRelevanceScore(parsed: CleanedResume) returns (score: real)
    ensures score == SkillsRelevance(parsed.skills)
  {
    var skills := parsed.skills;
    if skills == [] {
      return 0.0;
    }
    var technical, soft := FileSkills(skills);
    score := (QuantityTier(|skills|) + TechTier(|technical|) + BalanceTier(|technical|, |soft|)) / 3.0;
  }

  /** The filing loop: each entry goes to the technical list, else to the soft list, else nowhere. */
  method FileSkills(skills: seq<string>) returns (technical: seq<string>, soft: seq<string>)
    ensures technical == TechnicalOf(skills) && soft == SoftOf(skills)
  {
    technical, soft := [], [];
    for i := 0 to |skills|
      invariant technical == TechnicalOf(skills[..i])
      invariant soft == SoftOf(skills[..i])
    {
      FileStep(skills, i);
      var skill := skills[i];
      if IsTechnical(skill) {
        technical := technical + [skill];
      } else if IsSoft(skill) {
        soft := soft + [skill];
      }
    }
    TakeAll(skills);
  }

  /** Filing one more entry extends at most one of the two lists by that entry. */
  lemma FileStep(skills: seq<string>, i: nat)
    requires i < |skills|
    ensures TechnicalOf(skills[..i + 1]) == TechnicalOf(skills[..i]) + (if IsTechnical(skills[i]) then [skills[i]] else [])
    ensures SoftOf(skills[..i + 1])
      == SoftOf(skills[..i]) + (if !IsTechnical(skills[i]) && IsSoft(skills[i]) then [skills[i]] else [])
  {
    assert skills[..i + 1][..i] == skills[..i];
  }

  // ---------------------------------------------------------------------------------------------
  // calculate_experience_score

  function YearsTier(years: real): real {
    if years >= 5.0 then 1.0
    else if years >= 3.0 then 0.8
    else if years >= 1.0 then 0.6
    else if years > 0.0 then 0.4
    else 0.0
  }

  function CompanyTier(n: nat): real {
    if n >= 3 then 1.0 else if n >= 2 then 0.8 else if n >= 1 then 0.6 else 0.2
  }

  function ProgressionTier(n: nat): real {
    if n >= 2 then 1.0 else if n >= 1 then 0.7 else 0.3
  }

  /** The mean of the years, companies and designations tiers. */
  function ExperienceScore(years: real, companies: nat, designations: nat): (r: real)
    ensures 1.0 / 6.0 <= r <= 1.0
    ensures r == 1.0 <==> years >= 5.0 && companies >= 3 && designations >= 2
    ensures r == 1.0 / 6.0 <==> years <= 0.0 && companies == 0 && designations == 0
  {
    (YearsTier(years) + CompanyTier(companies) + ProgressionTier(designations)) / 3.0
  }

  /** More years, companies or designations never lower the score. */
  lemma ExperienceScoreMonotone(years: real, companies: nat, designations: nat,
                                years': real, companies': nat, designations': nat)
    requires years <= years' && companies <= companies' && designations <= designations'
    ensures ExperienceScore(years, companies, designations) <= ExperienceScore(years', companies', designations')
  {
    assert YearsTier(years) <= YearsTier(years');
    assert CompanyTier(companies) <= CompanyTier(companies');
    assert ProgressionTier(designations) <= ProgressionTier(designations');
  }

  function CalculateExperienceScore(parsed: CleanedResume): real
    requires Scorable(parsed)
  {
    ExperienceScore(parsed.experienceYears.x, Len(parsed.companies), Len(parsed.designations))
  }

  // ---------------------------------------------------------------------------------------------
  // get_score_grade

  /** Each grade with its inclusive lower bound, best first; below the last bound the grade is D. */
  const GradeBands: seq<(real, string)> := [
    (90.0, "A+"), (85.0, "A"), (80.0, "A-"), (75.0, "B+"), (70.0, "B"),
    (65.0, "B-"), (60.0, "C+"), (55.0, "C"), (50.0, "C-")
  ]

  function GradeOf(score: real): (g: string)
    ensures g == "D" <==> score < 50.0
    ensures forall i | 0 <= i < |GradeBands| ::
      g == GradeBands[i].1 <==> GradeBands[i].0 <= score && (i == 0 || score < GradeBands[i - 1].0)
  {
    if score >= 90.0 then "A+"
    else if score >= 85.0 then "A"
    else if score >= 80.0 then "A-"
    else if score >= 75.0 then "B+"
    else if score >= 70.0 then "B"
    else if score >= 65.0 then "B-"
    else if score >= 60.0 then "C+"
    else if score >= 55.0 then "C"
    else if score >= 50.0 then "C-"
    else "D"
  }

  /** The position of a grade from best (0) to D (9). */
  function GradePosition(g: string): nat {
    if g == "D" then 9
    else if g == "A+" then 0 else if g == "A" then 1 else if g == "A-" then 2
    else if g == "B+" then 3 else if g == "B" then 4 else if g == "B-" then 5
    else if g == "C+" then 6 else if g == "C" then 7 else 8
  }

  /** A higher score never earns a worse grade. */
  lemma GradeMonotone(a: real, b: real)
    requires a <= b
    ensures GradePosition(GradeOf(b)) <= GradePosition(GradeOf(a))
  {
  }

  /** The bounds are inclusive: 90 is already A+, just under it is A, 50 is C-, under 50 is D. */
  lemma GradeBoundaries()
    ensures GradeOf(90.0) == "A+" && GradeOf(89.999) == "A"
    ensures GradeOf(50.0) == "C-" && GradeOf(49.999) == "D"
  {
  }

  // ---------------------------------------------------------------------------------------------
  // calculate_overall_score

  datatype CategoryScores = CategoryScores(
    completeness: real,
    contentQuality: real,
    skillsRelevance: real,
    experience: real,
    jobMatch: real)

  predicate InUnit(x: real) { 0.0 <= x <= 1.0 }

  /** The weights 30/25/20/15/10 percent sum to one. */
  function Weighted(s: CategoryScores): (r: real)
    ensures (&& InUnit(s.completeness) && InUnit(s.contentQuality) && InUnit(s.skillsRelevance)
             && InUnit(s.experience) && InUnit(s.jobMatch)) ==> InUnit(r)
    ensures s == CategoryScores(1.0, 1.0, 1.0, 1.0, 1.0) ==> r == 1.0
  {
    s.completeness * 0.30 + s.contentQuality * 0.25 + s.skillsRelevance * 0.20
      + s.experience * 0.15 + s.jobMatch * 0.10
  }

  /** The five category scores; the job match is the similarity as a fraction, or 0 when there
      is no job description. */
  function Categories(parsed: CleanedResume, resume: JobMatcher.ResumeView, words: seq<string>,
                      sentences: seq<string>, job: Option<JobMatcher.JobView>, tfidf: real): (r: CategoryScores)
    requires Scorable(parsed)
    ensures (job.None? || job.value.text == "") ==> r.jobMatch == 0.0
    ensures InUnit(r.completeness) && InUnit(r.contentQuality) && InUnit(r.skillsRelevance) && InUnit(r.experience)
    ensures InUnit(tfidf) ==> InUnit(r.jobMatch)
  {
    CategoryScores(
      CompletenessScore(parsed),
      ContentQuality(resume.text, words, sentences),
      SkillsRelevance(parsed.skills),
      CalculateExperienceScore(parsed),
      if job.Some? && job.value.text != ""
      then JobMatcher.SimilaritySpec(resume, job.value, tfidf).overallScore / 100.0
      else 0.0)
  }

  datatype ScoreReport = ScoreReport(
    overallScore: real,
    categoryScores: CategoryScores,
    grade: string,
    feedback: seq<Feedback>)

  function Percent(s: CategoryScores): CategoryScores {
    CategoryScores(s.completeness * 100.0, s.contentQuality * 100.0, s.skillsRelevance * 100.0,
                   s.experience * 100.0, s.jobMatch * 100.0)
  }

  /** The five category scores as calculate_overall_score computes them, one scorer at a time. */
  method ScoreCategories(parsed: CleanedResume, resume: JobMatcher.ResumeView, words: seq<string>,
                         sentences: seq<string>, job: Option<JobMatcher.JobView>, tfidf: real)
    returns (scores: CategoryScores)
    requires Scorable(parsed)
    ensures scores == Categories(parsed, resume, words, sentences, job, tfidf)
  {
    var completeness := CompletenessScore(parsed);
    var contentQuality := ContentQuality(resume.text, words, sentences);
    var skillsRelevance := CalculateSkillsRelevanceScore(parsed);
    var experience := CalculateExperienceScore(parsed);
    var jobMatch := 0.0;
    if job.Some? && job.value.text != "" {
      var matchResult := JobMatcher.CalculateSimilarityScore(resume, job.value, tfidf);
      jobMatch := matchResult.overallScore / 100.0;
    }
    scores := CategoryScores(completeness, contentQuality, skillsRelevance, experience, jobMatch);
  }

  /** calculate_overall_score: `resume` carries the resume text, `words` and `sentences` are its
      tokens and sentences, and `tfidf` is the TF-IDF cosine similarity to the job description. */
  method CalculateOverallScore(parsed: CleanedResume, resume: JobMatcher.ResumeView, words: seq<string>,
                               sentences: seq<string>, job: Option<JobMatcher.JobView>, tfidf: real)
    returns (report: ScoreReport)
    requires Scorable(parsed)
    ensures var scores := Categories(parsed, resume, words, sentences, job, tfidf);
      && report.overallScore == Weighted(scores) * 100.0
      && report.categoryScores == Percent(scores)
      && report.grade == GradeOf(report.overallScore)
      && report.feedback == FeedbackFor(scores, MissingSections(parsed), |parsed.skills|, parsed.experienceYears.x)
    ensures InUnit(tfidf) ==> 0.0 <= report.overallScore <= 100.0
  {
    var scores := ScoreCategories(parsed, resume, words, sentences, job, tfidf);
    var overall := Weighted(scores) * 100.0;
    var grade := GradeOf(overall);
    var feedback := GenerateFeedback(scores, parsed);
    report := ScoreReport(overall, Percent(scores), grade, feedback);
  }

  // ---------------------------------------------------------------------------------------------
  // generate_feedback

  datatype Feedback =
    | MissingInformation(missing: seq<MissingPart>)
    | ImproveContent
    | AddMoreSkills
    | OptimizeSkills
    | AddExperience
    | EnhanceExperience
    | ImproveJobMatch
    | CompleteProfile
    | StrongSkillsProfile

  function FeedbackOrder(f: Feedback): int {
    match f
    case MissingInformation(_) => 0
    case ImproveContent => 1
    case AddMoreSkills => 2
    case OptimizeSkills => 3
    case AddExperience => 4
    case EnhanceExperience => 5
    case ImproveJobMatch => 6
    case CompleteProfile => 7
    case StrongSkillsProfile => 8
  }

  /** An essential part of a resume that feedback can ask for. */
  datatype MissingPart = NamePart | ContactPart | SkillsPart | EducationPart

  /** The words the feedback message uses for each part. */
  function PartLabel(p: MissingPart): string {
    match p
    case NamePart => "name"
    case ContactPart => "contact information"
    case SkillsPart => "skills section"
    case EducationPart => "education details"
  }

  /** The essential parts the resume lacks, in the order they are checked. */
  function MissingSections(parsed: CleanedResume): (r: seq<MissingPart>)
    ensures NamePart in r <==> parsed.name == ""
    ensures ContactPart in r <==> !Truthy(parsed.email) && !Truthy(parsed.phone)
    ensures SkillsPart in r <==> parsed.skills == []
    ensures EducationPart in r <==> parsed.education == []
    ensures r == [] <==>
      parsed.name != "" && (Truthy(parsed.email) || Truthy(parsed.phone)) && parsed.skills != [] && parsed.education != []
  {
    (if parsed.name == "" then [NamePart] else [])
    + (if !Truthy(parsed.email) && !Truthy(parsed.phone) then [ContactPart] else [])
    + (if parsed.skills == [] then [SkillsPart] else [])
    + (if parsed.education == [] then [EducationPart] else [])
  }

  /** The resume summary and the missing-information feedback read the same record alike: complete
      contact details mean neither the name nor the contact is reported missing, a phone means the
      contact is not, and a zero skills or education count is exactly a missing part. */
  lemma SummaryAgreesWithMissing(parsed: CleanedResume)
    requires !parsed.companies.Null? && !parsed.companies.Num? && parsed.sections.Sections?
    ensures var summary, missing := GetResumeSummary(parsed), MissingSections(parsed);
      && (summary.contactInfoComplete ==> NamePart !in missing && ContactPart !in missing)
      && (summary.hasPhone ==> ContactPart !in missing)
      && (!summary.contactInfoComplete && !summary.hasPhone ==> NamePart in missing || ContactPart in missing)
      && (summary.skillsCount == 0 <==> SkillsPart in missing)
      && (summary.educationCount == 0 <==> EducationPart in missing)
      && (missing == [] ==> summary.skillsCount > 0 && summary.educationCount > 0)
  {
  }

  /** The feedback rules in the order they are checked: each condition with its message. Within
      the skills and the experience checks the second message is the `elif`/`else` branch. */
  function FeedbackRules(scores: CategoryScores, missing: seq<MissingPart>, skillsCount: nat, years: real)
    : seq<(bool, Feedback)>
  {
    [(scores.completeness < 0.7 && missing != [], MissingInformation(missing))]
    + [(scores.contentQuality < 0.6, ImproveContent)]
    + [(scores.skillsRelevance < 0.6 && skillsCount < 5, AddMoreSkills)]
    + [(scores.skillsRelevance < 0.6 && !(skillsCount < 5) && skillsCount > 20, OptimizeSkills)]
    + [(scores.experience < 0.5 && years == 0.0, AddExperience)]
    + [(scores.experience < 0.5 && years != 0.0, EnhanceExperience)]
    + [(scores.jobMatch > 0.0 && scores.jobMatch < 0.6, ImproveJobMatch)]
    + [(scores.completeness >= 0.8, CompleteProfile)]
    + [(scores.skillsRelevance >= 0.8, StrongSkillsProfile)]
  }

  /** The feedback list: the messages of the rules that fire, in order. */
  function FeedbackFor(scores: CategoryScores, missing: seq<MissingPart>, skillsCount: nat, years: real)
    : seq<Feedback>
  {
    Fired(FeedbackRules(scores, missing, skillsCount, years))
  }

  /** The completeness and content messages appear exactly when their rules fire. */
  lemma ProfileMessages(scores: CategoryScores, missing: seq<MissingPart>, skillsCount: nat, years: real)
    ensures var f := FeedbackFor(scores, missing, skillsCount, years);
      && (MissingInformation(missing) in f <==> scores.completeness < 0.7 && missing != [])
      && (ImproveContent in f <==> scores.contentQuality < 0.6)
      && (CompleteProfile in f <==> scores.completeness >= 0.8)
  {
    FiredMembers(FeedbackRules(scores, missing, skillsCount, years));
  }

  /** The skills messages appear exactly when their rules fire. */
  lemma SkillsMessages(scores: CategoryScores, missing: seq<MissingPart>, skillsCount: nat, years: real)
    ensures var f := FeedbackFor(scores, missing, skillsCount, years);
      && (AddMoreSkills in f <==> scores.skillsRelevance < 0.6 && skillsCount < 5)
      && (OptimizeSkills in f <==> scores.skillsRelevance < 0.6 && skillsCount > 20)
      && (StrongSkillsProfile in f <==> scores.skillsRelevance >= 0.8)
  {
    FiredMembers(FeedbackRules(scores, missing, skillsCount, years));
  }

  /** The experience and job-match messages appear exactly when their rules fire. */
  lemma ExperienceMessages(scores: CategoryScores, missing: seq<MissingPart>, skillsCount: nat, years: real)
    ensures var f := FeedbackFor(scores, missing, skillsCount, years);
      && (AddExperience in f <==> scores.experience < 0.5 && years == 0.0)
      && (EnhanceExperience in f <==> scores.experience < 0.5 && years != 0.0)
      && (ImproveJobMatch in f <==> 0.0 < scores.jobMatch < 0.6)
  {
    FiredMembers(FeedbackRules(scores, missing, skillsCount, years));
  }

  /** The list follows the rule order, so no message repeats. */
  lemma FeedbackInRuleOrder(scores: CategoryScores, missing: seq<MissingPart>, skillsCount: nat, years: real)
    ensures StrictlyOrdered(FeedbackFor(scores, missing, skillsCount, years), FeedbackOrder)
  {
    FiredInOrder(FeedbackRules(scores, missing, skillsCount, years), FeedbackOrder);
  }

  /** The rule table read out rule by rule: one optional message per rule, in order. */
  lemma FeedbackUnrolled(scores: CategoryScores, missing: seq<MissingPart>, skillsCount: nat, years: real)
    ensures FeedbackFor(scores, missing, skillsCount, years) ==
      When(scores.completeness < 0.7 && missing != [], MissingInformation(missing))
      + When(scores.contentQuality < 0.6, ImproveContent)
      + When(scores.skillsRelevance < 0.6 && skillsCount < 5, AddMoreSkills)
      + When(scores.skillsRelevance < 0.6 && !(skillsCount < 5) && skillsCount > 20, OptimizeSkills)
      + When(scores.experience < 0.5 && years == 0.0, AddExperience)
      + When(scores.experience < 0.5 && years != 0.0, EnhanceExperience)
      + When(scores.jobMatch > 0.0 && scores.jobMatch < 0.6, ImproveJobMatch)
      + When(scores.completeness >= 0.8, CompleteProfile)
      + When(scores.skillsRelevance >= 0.8, StrongSkillsProfile)
  {
    var r0 := (scores.completeness < 0.7 && missing != [], MissingInformation(missing));
    var r1 := (scores.contentQuality < 0.6, ImproveContent);
    var r2 := (scores.skillsRelevance < 0.6 && skillsCount < 5, AddMoreSkills);
    var r3 := (scores.skillsRelevance < 0.6 && !(skillsCount < 5) && skillsCount > 20, OptimizeSkills);
    var r4 := (scores.experience < 0.5 && years == 0.0, AddExperience);
    var r5 := (scores.experience < 0.5 && years != 0.0, EnhanceExperience);
    var r6 := (scores.jobMatch > 0.0 && scores.jobMatch < 0.6, ImproveJobMatch);
    var r7 := (scores.completeness >= 0.8, CompleteProfile);
    var r8 := (scores.skillsRelevance >= 0.8, StrongSkillsProfile);
    assert FeedbackRules(scores, missing, skillsCount, years)
      == [r0] + [r1] + [r2] + [r3] + [r4] + [r5] + [r6] + [r7] + [r8];
    assert Fired([r0] + [r1] + [r2] + [r3] + [r4] + [r5] + [r6] + [r7] + [r8])
      == When(r0.0, r0.1) + When(r1.0, r1.1) + When(r2.0, r2.1) + When(r3.0, r3.1) + When(r4.0, r4.1)
         + When(r5.0, r5.1) + When(r6.0, r6.1) + When(r7.0, r7.1) + When(r8.0, r8.1) by {
      assert Fired([r0]) == When(r0.0, r0.1) by {
        FiredSnoc([], r0);
        assert [] + [r0] == [r0];
      }
      FiredSnoc([r0], r1);
      FiredSnoc([r0] + [r1], r2);
      FiredSnoc([r0] + [r1] + [r2], r3);
      FiredSnoc([r0] + [r1] + [r2] + [r3], r4);
      FiredSnoc([r0] + [r1] + [r2] + [r3] + [r4], r5);
      FiredSnoc([r0] + [r1] + [r2] + [r3] + [r4] + [r5], r6);
      FiredSnoc([r0] + [r1] + [r2] + [r3] + [r4] + [r5] + [r6], r7);
      FiredSnoc([r0] + [r1] + [r2] + [r3] + [r4] + [r5] + [r6] + [r7], r8);
    }
  }

  /** A profile is never called both incomplete and complete, nor short of skills and strong in
      them. */
  lemma FeedbackConsistent(scores: CategoryScores, missing: seq<MissingPart>, skillsCount: nat, years: real)
    ensures var f := FeedbackFor(scores, missing, skillsCount, years);
      && !(MissingInformation(missing) in f && CompleteProfile in f)
      && !(AddMoreSkills in f && StrongSkillsProfile in f)
      && !(AddMoreSkills in f && OptimizeSkills in f)
      && !(AddExperience in f && EnhanceExperience in f)
  {
    ProfileMessages(scores, missing, skillsCount, years);
    SkillsMessages(scores, missing, skillsCount, years);
    ExperienceMessages(scores, missing, skillsCount, years);
  }

  method CollectMissingSections(parsed: CleanedResume) returns (missingSections: seq<MissingPart>)
    ensures missingSections == MissingSections(parsed)
  {
    missingSections := [];
    if parsed.name == "" {
      missingSections := missingSections + [NamePart];
    }
    if !(Truthy(parsed.email) || Truthy(parsed.phone)) {
      missingSections := missingSections + [ContactPart];
    }
    if parsed.skills == [] {
      missingSections := missingSections + [SkillsPart];
    }
    if parsed.education == [] {
      missingSections := missingSections + [EducationPart];
    }
  }

  /** The skills block of the feedback: too few skills, or (otherwise) too many. */
  method AppendSkillsFeedback(feedback: seq<Feedback>, skillsRelevance: real, skillsCount: nat)
    returns (extended: seq<Feedback>)
    ensures extended == feedback + When(skillsRelevance < 0.6 && skillsCount < 5, AddMoreSkills)
      + When(skillsRelevance < 0.6 && !(skillsCount < 5) && skillsCount > 20, OptimizeSkills)
  {
    extended := feedback;
    if skillsRelevance < 0.6 {
      if skillsCount < 5 {
        extended := extended + [AddMoreSkills];
      } else if skillsCount > 20 {
        extended := extended + [OptimizeSkills];
      }
    }
  }

  /** The experience block of the feedback: no experience at all, or too little. */
  method AppendExperienceFeedback(feedback: seq<Feedback>, experience: real, years: real)
    returns (extended: seq<Feedback>)
    ensures extended == feedback + When(experience < 0.5 && years == 0.0, AddExperience)
      + When(experience < 0.5 && years != 0.0, EnhanceExperience)
  {
    extended := feedback;
    if experience < 0.5 {
      if years == 0.0 {
        extended := extended + [AddExperience];
      } else {
        extended := extended + [EnhanceExperience];
      }
    }
  }

  method GenerateFeedback(scores: CategoryScores, parsed: CleanedResume) returns (feedback: seq<Feedback>)
    requires parsed.experienceYears.Num?
    ensures feedback == FeedbackFor(scores, MissingSections(parsed), |parsed.skills|, parsed.experienceYears.x)
  {
    var skillsCount, years := |parsed.skills|, parsed.experienceYears.x;
    feedback := [];
    ghost var missing := MissingSections(parsed);
    if scores.completeness < 0.7 {
      var missingSections := CollectMissingSections(parsed);
      if missingSections != [] {
        feedback := feedback + [MissingInformation(missingSections)];
      }
    }
    assert feedback == When(scores.completeness < 0.7 && missing != [], MissingInformation(missing));
    ghost var before := feedback;
    if scores.contentQuality < 0.6 {
      feedback := feedback + [ImproveContent];
    }
    assert feedback == before + When(scores.contentQuality < 0.6, ImproveContent);
    feedback := AppendSkillsFeedback(feedback, scores.skillsRelevance, skillsCount);
    feedback := AppendExperienceFeedback(feedback, scores.experience, years);
    before := feedback;
    if scores.jobMatch > 0.0 && scores.jobMatch < 0.6 {
      feedback := feedback + [ImproveJobMatch];
    }
    assert feedback == before + When(scores.jobMatch > 0.0 && scores.jobMatch < 0.6, ImproveJobMatch);
    before := feedback;
    if scores.completeness >= 0.8 {
      feedback := feedback + [CompleteProfile];
    }
    assert feedback == before + When(scores.completeness >= 0.8, CompleteProfile);
    before := feedback;
    if scores.skillsRelevance >= 0.8 {
      feedback := feedback + [StrongSkillsProfile];
    }
    assert feedback == before + When(scores.skillsRelevance >= 0.8, StrongSkillsProfile);
    FeedbackUnrolled(scores, missing, skillsCount, years);
  }

  /** The message shown for each feedback item. */
  function FeedbackText(f: Feedback): string {
    match f
    case MissingInformation(missing) =>
      "\U{1F4DD} **Missing Information**: Add " + Join(seq(|missing|, i requires 0 <= i < |missing| => PartLabel(missing[i])), ", ")
    case ImproveContent => "\U{1F4C4} **Improve Content**: Resume may be too short/long or lack detail"
    case AddMoreSkills => "\U{1F3AF} **Add More Skills**: Include relevant technical and soft skills"
    case OptimizeSkills => "\U{1F3AF} **Optimize Skills**: Focus on most relevant skills (8-15 recommended)"
    case AddExperience => "\U{1F4BC} **Add Experience**: Include internships, projects, or volunteer work"
    case EnhanceExperience => "\U{1F4BC} **Enhance Experience**: Add more details about roles and achievements"
    case ImproveJobMatch => "\U{1F3AF} **Improve Job Match**: Tailor resume to better match job requirements"
    case CompleteProfile => "\U{2705} **Complete Profile**: Well-structured resume with all essential sections"
    case StrongSkillsProfile => "\U{1F31F} **Strong Skills Profile**: Good mix of relevant technical and soft skills"
  }

  // ---------------------------------------------------------------------------------------------
  // get_improvement_suggestions

  datatype Suggestion = AddNumbers | UseActionVerbs | ExpandContent | ConciseWriting | AddEmail | AddPhone

  function SuggestionOrder(s: Suggestion): int {
    match s
    case AddNumbers => 0
    case UseActionVerbs => 1
    case ExpandContent => 2
    case ConciseWriting => 3
    case AddEmail => 4
    case AddPhone => 5
  }

  const ActionVerbs: seq<string> := ["achieved", "developed", "managed", "led", "created", "improved", "increased"]

  predicate HasDigit(text: string) {
    exists i | 0 <= i < |text| :: IsDigit(text[i])
  }

  /** An action verb occurs anywhere in the lower-cased text, even inside another word. */
  predicate HasActionVerb(text: string) {
    exists v | v in ActionVerbs :: Contains(Lower(text), v)
  }

  /** The suggestion rules in the order they are checked, over the outcomes of their tests; the
      conciseness rule is the `elif` of the expansion rule. */
  function SuggestionTable(noDigit: bool, noActionVerb: bool, wordCount: nat, noEmail: bool, noPhone: bool)
    : seq<(bool, Suggestion)>
  {
    [(noDigit, AddNumbers)]
    + [(noActionVerb, UseActionVerbs)]
    + [(wordCount < 200, ExpandContent)]
    + [(!(wordCount < 200) && wordCount > 1000, ConciseWriting)]
    + [(noEmail, AddEmail)]
    + [(noPhone, AddPhone)]
  }

  /** The rules for a resume: the word count splits on whitespace. */
  function SuggestionRules(parsed: CleanedResume, text: string): seq<(bool, Suggestion)> {
    SuggestionTable(!HasDigit(text), !HasActionVerb(text), |Words(text)|, !Truthy(parsed.email), !Truthy(parsed.phone))
  }

  /** The suggestion list: the messages of the rules that fire, in order. */
  function SuggestionsFor(parsed: CleanedResume, text: string): seq<Suggestion> {
    Fired(SuggestionRules(parsed, text))
  }

  /** The writing suggestions appear exactly when their rules fire. */
  lemma WritingSuggestions(parsed: CleanedResume, text: string)
    ensures var s, wordCount := SuggestionsFor(parsed, text), |Words(text)|;
      && (AddNumbers in s <==> !HasDigit(text))
      && (UseActionVerbs in s <==> !HasActionVerb(text))
      && (ExpandContent in s <==> wordCount < 200)
      && (ConciseWriting in s <==> wordCount > 1000)
  {
    WritingRules(!HasDigit(text), !HasActionVerb(text), |Words(text)|, !Truthy(parsed.email), !Truthy(parsed.phone));
    LengthRules(!HasDigit(text), !HasActionVerb(text), |Words(text)|, !Truthy(parsed.email), !Truthy(parsed.phone));
  }

  lemma WritingRules(noDigit: bool, noActionVerb: bool, wordCount: nat, noEmail: bool, noPhone: bool)
    ensures var s := Fired(SuggestionTable(noDigit, noActionVerb, wordCount, noEmail, noPhone));
      (AddNumbers in s <==> noDigit) && (UseActionVerbs in s <==> noActionVerb)
  {
    FiredMembers(SuggestionTable(noDigit, noActionVerb, wordCount, noEmail, noPhone));
  }

  lemma LengthRules(noDigit: bool, noActionVerb: bool, wordCount: nat, noEmail: bool, noPhone: bool)
    ensures var s := Fired(SuggestionTable(noDigit, noActionVerb, wordCount, noEmail, noPhone));
      (ExpandContent in s <==> wordCount < 200) && (ConciseWriting in s <==> wordCount > 1000)
  {
    FiredMembers(SuggestionTable(noDigit, noActionVerb, wordCount, noEmail, noPhone));
  }

  /** The contact suggestions appear exactly when the parsed e-mail or phone is empty or missing. */
  lemma ContactSuggestions(parsed: CleanedResume, text: string)
    ensures var s := SuggestionsFor(parsed, text);
      && (AddEmail in s <==> !Truthy(parsed.email))
      && (AddPhone in s <==> !Truthy(parsed.phone))
  {
    ContactRules(!HasDigit(text), !HasActionVerb(text), |Words(text)|, !Truthy(parsed.email), !Truthy(parsed.phone));
  }

  lemma ContactRules(noDigit: bool, noActionVerb: bool, wordCount: nat, noEmail: bool, noPhone: bool)
    ensures var s := Fired(SuggestionTable(noDigit, noActionVerb, wordCount, noEmail, noPhone));
      && (AddEmail in s <==> noEmail)
      && (AddPhone in s <==> noPhone)
  {
    FiredMembers(SuggestionTable(noDigit, noActionVerb, wordCount, noEmail, noPhone));
  }

  /** The list follows the rule order; the two length rules exclude each other, so at most five. */
  lemma SuggestionsInRuleOrder(parsed: CleanedResume, text: string)
    ensures StrictlyOrdered(SuggestionsFor(parsed, text), SuggestionOrder)
    ensures |SuggestionsFor(parsed, text)| <= 5
  {
    var rules := SuggestionRules(parsed, text);
    FiredInOrder(rules, SuggestionOrder);
    FiredShorter(rules, if |Words(text)| < 200 then 3 else 2);
  }

  /** The rule table read out rule by rule: one optional message per rule, in order. */
  lemma SuggestionsUnrolled(parsed: CleanedResume, text: string)
    ensures var wordCount := |Words(text)|;
      SuggestionsFor(parsed, text) ==
        When(!HasDigit(text), AddNumbers)
        + When(!HasActionVerb(text), UseActionVerbs)
        + When(wordCount < 200, ExpandContent)
        + When(!(wordCount < 200) && wordCount > 1000, ConciseWriting)
        + When(!Truthy(parsed.email), AddEmail)
        + When(!Truthy(parsed.phone), AddPhone)
  {
    var wordCount := |Words(text)|;
    var r0 := (!HasDigit(text), AddNumbers);
    var r1 := (!HasActionVerb(text), UseActionVerbs);
    var r2 := (wordCount < 200, ExpandContent);
    var r3 := (!(wordCount < 200) && wordCount > 1000, ConciseWriting);
    var r4 := (!Truthy(parsed.email), AddEmail);
    var r5 := (!Truthy(parsed.phone), AddPhone);
    assert SuggestionRules(parsed, text) == [r0] + [r1] + [r2] + [r3] + [r4] + [r5];
    assert Fired([r0] + [r1] + [r2] + [r3] + [r4] + [r5])
      == When(r0.0, r0.1) + When(r1.0, r1.1) + When(r2.0, r2.1) + When(r3.0, r3.1) + When(r4.0, r4.1)
         + When(r5.0, r5.1) by {
      assert Fired([r0]) == When(r0.0, r0.1) by {
        FiredSnoc([], r0);
        assert [] + [r0] == [r0];
      }
      FiredSnoc([r0], r1);
      FiredSnoc([r0] + [r1], r2);
      FiredSnoc([r0] + [r1] + [r2], r3);
      FiredSnoc([r0] + [r1] + [r2] + [r3], r4);
      FiredSnoc([r0] + [r1] + [r2] + [r3] + [r4], r5);
    }
  }

  /** A resume with figures, an action verb, 200 to 1000 words, an e-mail and a phone number gets
      no suggestion. */
  lemma NoSuggestionsForPolishedResume(parsed: CleanedResume, text: string)
    requires HasDigit(text) && HasActionVerb(text) && 200 <= |Words(text)| <= 1000
    requires Truthy(parsed.email) && Truthy(parsed.phone)
    ensures SuggestionsFor(parsed, text) == []
  {
    SuggestionsUnrolled(parsed, text);
  }

  method GetImprovementSuggestions(parsed: CleanedResume, resumeText: string) returns (suggestions: seq<Suggestion>)
    ensures suggestions == SuggestionsFor(parsed, resumeText)
  {
    suggestions := [];
    if !HasDigit(resumeText) {
      suggestions := suggestions + [AddNumbers];
    }
    assert suggestions == When(!HasDigit(resumeText), AddNumbers);
    ghost var before := suggestions;
    if !HasActionVerb(resumeText) {
      suggestions := suggestions + [UseActionVerbs];
    }
    assert suggestions == before + When(!HasActionVerb(resumeText), UseActionVerbs);
    before := suggestions;
    var wordCount := |Words(resumeText)|;
    if wordCount < 200 {
      suggestions := suggestions + [ExpandContent];
    } else if wordCount > 1000 {
      suggestions := suggestions + [ConciseWriting];
    }
    assert suggestions == before + When(wordCount < 200, ExpandContent)
                                 + When(!(wordCount < 200) && wordCount > 1000, ConciseWriting);
    before := suggestions;
    if !Truthy(parsed.email) {
      suggestions := suggestions + [AddEmail];
    }
    assert suggestions == before + When(!Truthy(parsed.email), AddEmail);
    before := suggestions;
    if !Truthy(parsed.phone) {
      suggestions := suggestions + [AddPhone];
    }
    assert suggestions == before + When(!Truthy(parsed.phone), AddPhone);
    SuggestionsUnrolled(parsed, resumeText);
  }

  /** The message shown for each suggestion. */
  function SuggestionText(s: Suggestion): string {
    match s
    case AddNumbers => "\U{1F4CA} **Add Numbers**: Include metrics, percentages, or quantities to showcase impact"
    case UseActionVerbs => "\U{26A1} **Use Action Verbs**: Start bullet points with strong action verbs"
    case ExpandContent => "\U{1F4DD} **Expand Content**: Add more details about your experience and achievements"
    case ConciseWriting =>
      "\U{2702}\U{FE0F} **Concise Writing**: Consider reducing content to focus on most relevant information"
    case AddEmail => "\U{1F4E7} **Add Email**: Include a professional email address"
    case AddPhone => "\U{1F4F1} **Add Phone**: Include your phone number for contact"
  }
}
