/** The resume-to-job matcher of models/job_matcher.py. The TF-IDF cosine similarity, the TF-IDF
    keyword list of a job description, the text preprocessing, the regex captures of the
    experience patterns and the named entities come from outside the model as inputs. */
module JobMatcher {
  import opened Strings
  import opened Seqs
  import Config
  import TextProcessing

  /** A resume as the matcher sees it: its raw text, its preprocessed text, and the integers the
      three experience-year patterns capture in it (one list per pattern). */
  datatype ResumeView = ResumeView(text: string, processed: string, yearCaptures: seq<seq<nat>>)

  /** A findall capture of a required-experience pattern: one group, or a range tuple. */
  datatype Capture = Single(n: nat) | Range(low: nat, high: nat)

  /** A job description: its raw text, its preprocessed text, its TF-IDF keywords (best first,
      at most twenty), and the captures of the four required-experience patterns. */
  datatype JobView = JobView(text: string, processed: string, keywords: seq<string>,
                             requiredCaptures: seq<seq<Capture>>)

  datatype Similarity = Similarity(overallScore: real, methodScores: map<string, real>)

  function Min(a: nat, b: nat): nat { if a <= b then a else b }

  // ---------------------------------------------------------------------------------------------
  // keyword_matching_score

  /** How many keywords occur, case-insensitively, as substrings of the text. */
  function KeywordHits(text: string, keywords: seq<string>): (n: nat)
    ensures n <= |keywords|
    ensures n == |keywords| <==> forall k | k in keywords :: Contains(Lower(text), Lower(k))
    ensures n == 0 <==> forall k | k in keywords :: !Contains(Lower(text), Lower(k))
  {
    if keywords == [] then 0
    else
      var init := keywords[..|keywords| - 1];
      var last := keywords[|keywords| - 1];
      assert forall k :: k in keywords <==> k in init || k == last;
      KeywordHits(text, init) + (if Contains(Lower(text), Lower(last)) then 1 else 0)
  }

  /** The share of job keywords found in the resume. */
  function KeywordScore(text: string, keywords: seq<string>): (r: real)
    ensures 0.0 <= r <= 1.0
    ensures keywords == [] ==> r == 0.0
    ensures r == 1.0 <==> keywords != [] && forall k | k in keywords :: Contains(Lower(text), Lower(k))
    ensures r == 0.0 <==> forall k | k in keywords :: !Contains(Lower(text), Lower(k))
  {
    if keywords == [] then 0.0
    else
      var hits := KeywordHits(text, keywords);
      Ratio(hits, |keywords|);
      (hits as real) / (|keywords| as real)
  }

  /** A count over a positive total lies in [0, 1], is 1 exactly at the total and 0 exactly at 0. */
  lemma Ratio(part: nat, total: nat)
    requires 0 < total && part <= total
    ensures 0.0 <= (part as real) / (total as real) <= 1.0
    ensures (part as real) / (total as real) == 1.0 <==> part == total
    ensures (part as real) / (total as real) == 0.0 <==> part == 0
  {
    var q := (part as real) / (total as real);
    assert q * (total as real) == part as real;
  }

  /** Dividing by a positive quantity keeps the order. */
  lemma DivMonotone(x: real, y: real, q: real)
    requires 0.0 < q && x <= y
    ensures x / q <= y / q
  {
    assert y / q - x / q == (y - x) / q;
  }

  /** A quotient is below a bound exactly when the dividend is below the bound times the divisor. */
  lemma DivBelow(x: real, q: real, bound: real)
    requires 0.0 < q
    ensures x / q < bound <==> x < bound * q
  {
    assert (x / q) * q == x;
    ScaleOrder(bound, x / q, q);
  }

  /** Multiplying by a positive factor keeps the order. */
  lemma ScaleOrder(a: real, b: real, s: real)
    requires s > 0.0
    ensures a <= b <==> a * s <= b * s
  {
    if a <= b {
      assert (b - a) * s >= 0.0;
    } else {
      assert (a - b) * s > 0.0;
    }
  }

  method KeywordMatchingScore(resumeText: string, keywords: seq<string>) returns (score: real)
    ensures score == KeywordScore(resumeText, keywords)
  {
    if keywords == [] {
      return 0.0;
    }
    var resumeLower := Lower(resumeText);
    var matched := 0;
    for i := 0 to |keywords|
      invariant matched == KeywordHits(resumeText, keywords[..i])
    {
      assert keywords[..i + 1][..i] == keywords[..i];
      if Contains(resumeLower, Lower(keywords[i])) {
        matched := matched + 1;
      }
    }
    TakeAll(keywords);
    score := (matched as real) / (|keywords| as real);
  }

  // ---------------------------------------------------------------------------------------------
  // skills_matching_score and analyze_skill_gaps

  /** The lower-cased skills of the default list found in a text. */
  function MentionedSkills(text: string): set<string> {
    set s | s in Config.DefaultSkills && TextProcessing.SkillMentioned(text, s) :: Lower(s)
  }

  /** set(skill.lower() for skill in extract_skills(text)) */
  method SkillSet(text: string) returns (skills: set<string>)
    ensures skills == MentionedSkills(text)
  {
    var found := TextProcessing.ExtractSkills(text, Config.DefaultSkills);
    skills := set s | s in found :: Lower(s);
  }

  /** The Jaccard / coverage blend 0.4 |R∩J|/|R∪J| + 0.6 |R∩J|/|J|, 0 without job skills. */
  function SkillsScore(resumeSkills: set<string>, jobSkills: set<string>): (r: real)
    ensures jobSkills == {} ==> r == 0.0
    ensures 0.0 <= r <= 1.0
    ensures jobSkills != {} ==> (r == 1.0 <==> resumeSkills == jobSkills)
  {
    if jobSkills == {} then 0.0
    else
      var common := resumeSkills * jobSkills;
      var union := resumeSkills + jobSkills;
      SubsetCard(common, union);
      SubsetCard(common, jobSkills);
      SubsetCard(jobSkills, union);
      Ratio(|common|, |union|);
      Ratio(|common|, |jobSkills|);
      SameSkillsCards(resumeSkills, jobSkills);
      var jaccard := (|common| as real) / (|union| as real);
      var found := (|common| as real) / (|jobSkills| as real);
      0.4 * jaccard + 0.6 * found
  }

  /** The shared skills fill both the union and the job's skills exactly when the sets agree. */
  lemma SameSkillsCards(resumeSkills: set<string>, jobSkills: set<string>)
    ensures var common, union := resumeSkills * jobSkills, resumeSkills + jobSkills;
      (|common| == |union| && |common| == |jobSkills|) <==> resumeSkills == jobSkills
  {
    var common, union := resumeSkills * jobSkills, resumeSkills + jobSkills;
    if resumeSkills == jobSkills {
      assert common == jobSkills && union == jobSkills;
    } else if x :| x in jobSkills && x !in resumeSkills {
      StrictSubsetCard(common, jobSkills, x);
    } else {
      var x :| x in resumeSkills && x !in jobSkills;
      StrictSubsetCard(common, union, x);
    }
  }

  function SkillsMatchingScore(resumeText: string, jobText: string): real {
    SkillsScore(MentionedSkills(resumeText), MentionedSkills(jobText))
  }

  datatype SkillGaps = SkillGaps(
    matching: set<string>,
    missing: set<string>,
    additional: set<string>,
    matchPercentage: real)

  /** The skill-gap report of a resume's skills against a job's skills. */
  function SkillGapsOf(resumeSkills: set<string>, jobSkills: set<string>): (r: SkillGaps)
    ensures r.matching + r.missing == jobSkills
    ensures r.matching + r.additional == resumeSkills
    ensures r.matching !! r.missing && r.matching !! r.additional && r.missing !! r.additional
    ensures 0.0 <= r.matchPercentage <= 100.0
    ensures jobSkills == {} ==> r.matchPercentage == 0.0
    ensures jobSkills != {} ==> r.matchPercentage * (|jobSkills| as real) == 100.0 * (|r.matching| as real)
    ensures r.matchPercentage == 100.0 <==> jobSkills != {} && jobSkills <= resumeSkills
  {
    var matching := resumeSkills * jobSkills;
    SubsetCard(matching, jobSkills);
    if jobSkills != {} then
      Ratio(|matching|, |jobSkills|);
      AllJobSkillsCard(resumeSkills, jobSkills);
      SkillGaps(matching, jobSkills - resumeSkills, resumeSkills - jobSkills,
                (|matching| as real) / (|jobSkills| as real) * 100.0)
    else
      SkillGaps(matching, jobSkills - resumeSkills, resumeSkills - jobSkills, 0.0)
  }

  lemma AllJobSkillsCard(resumeSkills: set<string>, jobSkills: set<string>)
    ensures |resumeSkills * jobSkills| == |jobSkills| <==> jobSkills <= resumeSkills
  {
    if !(jobSkills <= resumeSkills) {
      var x :| x in jobSkills && x !in resumeSkills;
      StrictSubsetCard(resumeSkills * jobSkills, jobSkills, x);
    } else {
      assert resumeSkills * jobSkills == jobSkills;
    }
  }

  function AnalyzeSkillGaps(resumeText: string, jobText: string): SkillGaps {
    SkillGapsOf(MentionedSkills(resumeText), MentionedSkills(jobText))
  }

  // ---------------------------------------------------------------------------------------------
  // experience_matching_score and extract_required_experience

  /** The tiered experience match. The source compares with the float products 0.7·required and
      0.5·required; for whole numbers of years the exact products give the same answers. */
  function ExperienceMatch(resumeYears: nat, required: nat): (r: real)
    ensures required == 0 || resumeYears >= required ==> r == 1.0
    ensures 0 < required && resumeYears < required ==>
      && (r == 0.8 <==> resumeYears as real >= 0.7 * required as real)
      && (r == 0.6 <==> 0.5 * required as real <= resumeYears as real < 0.7 * required as real)
      && (resumeYears as real < 0.5 * required as real ==> r * required as real == resumeYears as real)
    ensures 0.0 <= r <= 1.0
  {
    if required == 0 then 1.0
    else if resumeYears >= required then 1.0
    else if resumeYears as real >= required as real * 0.7 then 0.8
    else if resumeYears as real >= required as real * 0.5 then 0.6
    else resumeYears as real / required as real
  }

  /** More experience never lowers the match. */
  lemma ExperienceMatchMonotone(a: nat, b: nat, required: nat)
    requires a <= b
    ensures ExperienceMatch(a, required) <= ExperienceMatch(b, required)
  {
    var ra, rb, q := ExperienceMatch(a, required), ExperienceMatch(b, required), required as real;
    assert (a as real) <= b as real;
    if required == 0 || b >= required {
      assert rb == 1.0;
    } else if (a as real) < q * 0.5 {
      assert ra == (a as real) / q;
      DivBelow(a as real, q, 0.5);
      if (b as real) < q * 0.5 {
        assert rb == (b as real) / q;
        DivMonotone(a as real, b as real, q);
      } else {
        assert rb >= 0.6;
      }
    } else if (a as real) < q * 0.7 {
      assert ra == 0.6;
      assert rb >= 0.6;
    } else {
      assert ra == 0.8;
      assert (b as real) >= q * 0.7;
      assert rb >= 0.8;
    }
  }

  /** Three years against five required: 3 ≥ 2.5 but 3 < 3.5, so the middle tier. */
  lemma ThreeOfFiveYears()
    ensures ExperienceMatch(3, 5) == 0.6
  {
  }

  function First(c: Capture): nat {
    match c
    case Single(n) => n
    case Range(low, _) => low
  }

  /** The number each capture contributes: the first group of a range tuple. */
  function Firsts(cs: seq<Capture>): (r: seq<nat>)
    ensures |r| == |cs| && forall i | 0 <= i < |cs| :: r[i] == First(cs[i])
  {
    seq(|cs|, i requires 0 <= i < |cs| => First(cs[i]))
  }

  /** min(xs) if xs else 0. */
  function MinOr0(xs: seq<nat>): (m: nat)
    ensures xs == [] ==> m == 0
    ensures xs != [] ==> m in xs && forall x | x in xs :: m <= x
  {
    if xs == [] then 0
    else if |xs| == 1 then xs[0]
    else
      var m := MinOr0(xs[..|xs| - 1]);
      assert forall x | x in xs :: x in xs[..|xs| - 1] || x == xs[|xs| - 1];
      if xs[|xs| - 1] < m then xs[|xs| - 1] else m
  }

  function RequiredYears(captures: seq<seq<Capture>>): nat {
    MinOr0(Firsts(Flatten(captures)))
  }

  method ExtractRequiredExperience(captures: seq<seq<Capture>>) returns (years: nat)
    ensures years == RequiredYears(captures)
    ensures forall p, c | 0 <= p < |captures| && c in captures[p] :: years <= First(c)
    ensures (forall p | 0 <= p < |captures| :: captures[p] == []) ==> years == 0
  {
    var found: seq<nat> := [];
    for p := 0 to |captures|
      invariant found == Firsts(Flatten(captures[..p]))
    {
      assert captures[..p + 1][..p] == captures[..p];
      for m := 0 to |captures[p]|
        invariant found == Firsts(Flatten(captures[..p]) + captures[p][..m])
      {
        assert captures[p][..m + 1] == captures[p][..m] + [captures[p][m]];
        found := found + [First(captures[p][m])];
      }
      TakeAll(captures[p]);
    }
    TakeAll(captures);
    years := 0;
    if found != [] {
      years := found[0];
      for k := 1 to |found|
        invariant years == MinOr0(found[..k])
      {
        assert found[..k + 1][..k] == found[..k];
        if found[k] < years {
          years := found[k];
        }
      }
      TakeAll(found);
    }
    forall p, c | 0 <= p < |captures| && c in captures[p] ensures years <= First(c) {
      var all := Flatten(captures);
      assert c in all;
      var i :| 0 <= i < |all| && all[i] == c;
      assert Firsts(all)[i] == First(c);
      assert Firsts(all)[i] in Firsts(all);
    }
    if Flatten(captures) != [] {
      assert Flatten(captures)[0] in Flatten(captures);
    }
  }

  // ---------------------------------------------------------------------------------------------
  // calculate_similarity_score

  const TfidfWeight: real := 0.4
  const KeywordWeight: real := 0.2
  const SkillsWeight: real := 0.3
  const ExperienceWeight: real := 0.1

  /** The similarity record of four method scores, each a fraction in the source's terms. */
  function Scored(tfidf: real, keyword: real, skills: real, experience: real): (r: Similarity)
    ensures r.methodScores.Keys == {"tfidf_cosine", "keyword_match", "skills_match", "experience_match"}
    ensures 0.0 <= tfidf <= 1.0 && 0.0 <= keyword <= 1.0 && 0.0 <= skills <= 1.0 && 0.0 <= experience <= 1.0
      ==> 0.0 <= r.overallScore <= 100.0 && forall m | m in r.methodScores :: 0.0 <= r.methodScores[m] <= 100.0
  {
    Similarity(
      100.0 * (TfidfWeight * tfidf + KeywordWeight * keyword + SkillsWeight * skills + ExperienceWeight * experience),
      map["tfidf_cosine" := 100.0 * tfidf, "keyword_match" := 100.0 * keyword,
          "skills_match" := 100.0 * skills, "experience_match" := 100.0 * experience])
  }

  /** The similarity record before rounding: 0 with no method scores when either preprocessed
      text is empty, otherwise the weighted sum of the four method scores, as percentages. */
  function SimilaritySpec(resume: ResumeView, job: JobView, tfidf: real): (r: Similarity)
    ensures resume.processed == "" || job.processed == "" ==> r == Similarity(0.0, map[])
    ensures resume.processed != "" && job.processed != "" ==>
      r.methodScores.Keys == {"tfidf_cosine", "keyword_match", "skills_match", "experience_match"}
    ensures 0.0 <= tfidf <= 1.0 ==> 0.0 <= r.overallScore <= 100.0
    ensures 0.0 <= tfidf <= 1.0 ==> forall m | m in r.methodScores :: 0.0 <= r.methodScores[m] <= 100.0
  {
    if resume.processed == "" || job.processed == "" then Similarity(0.0, map[])
    else
      Scored(tfidf, KeywordScore(resume.text, job.keywords), SkillsMatchingScore(resume.text, job.text),
             ExperienceMatch(TextProcessing.MaxOr0(Flatten(resume.yearCaptures)), RequiredYears(job.requiredCaptures)))
  }

  /** The weights sum to one, so four perfect method scores give exactly 100. */
  lemma PerfectScores(resume: ResumeView, job: JobView)
    requires resume.processed != "" && job.processed != ""
    requires KeywordScore(resume.text, job.keywords) == 1.0
    requires SkillsMatchingScore(resume.text, job.text) == 1.0
    requires ExperienceMatch(TextProcessing.MaxOr0(Flatten(resume.yearCaptures)), RequiredYears(job.requiredCaptures)) == 1.0
    ensures SimilaritySpec(resume, job, 1.0).overallScore == 100.0
  {
  }

  method CalculateSimilarityScore(resume: ResumeView, job: JobView, tfidf: real) returns (result: Similarity)
    ensures result == SimilaritySpec(resume, job, tfidf)
  {
    if resume.processed == "" || job.processed == "" {
      return Similarity(0.0, map[]);
    }
    var keyword := KeywordMatchingScore(resume.text, job.keywords);
    var resumeSkills := SkillSet(resume.text);
    var jobSkills := SkillSet(job.text);
    var skills := SkillsScore(resumeSkills, jobSkills);
    var resumeYears := TextProcessing.ExtractExperienceYears(resume.yearCaptures);
    var requiredYears := ExtractRequiredExperience(job.requiredCaptures);
    var experience := ExperienceMatch(resumeYears, requiredYears);
    result := Scored(tfidf, keyword, skills, experience);
  }

  // ---------------------------------------------------------------------------------------------
  // categorize_job_role

  predicate CategoryHit(text: string, keywords: seq<string>) {
    exists k | k in keywords :: Contains(Lower(text), Lower(k))
  }

  /** The first category, in table order, one of whose keywords occurs in the text. */
  function FirstCategory(text: string, categories: seq<(string, seq<string>)>): (r: string)
    ensures (forall i | 0 <= i < |categories| :: !CategoryHit(text, categories[i].1)) ==> r == "general"
    ensures forall i | 0 <= i < |categories| ::
      CategoryHit(text, categories[i].1) && (forall j | 0 <= j < i :: !CategoryHit(text, categories[j].1))
      ==> r == categories[i].0
  {
    if categories == [] then "general"
    else if CategoryHit(text, categories[0].1) then categories[0].0
    else
      var r := FirstCategory(text, categories[1..]);
      assert forall i | 1 <= i < |categories| :: categories[1..][i - 1] == categories[i];
      r
  }

  function CategorizeJobRole(jobText: string): string {
    FirstCategory(jobText, Config.JobCategories)
  }

  /** A description naming roles of two categories gets the one listed first in the table. */
  lemma FirstListedCategoryWins()
    ensures CategorizeJobRole("Data Analyst and Web Developer") == "data_science"
  {
    DataAnalystMentioned();
  }

  lemma DataAnalystMentioned()
    ensures CategoryHit("Data Analyst and Web Developer", Config.JobCategories[0].1)
  {
    var t := "Data Analyst and Web Developer";
    assert Lower(t) == "data analyst and web developer" by { DataAnalystLower(); }
    assert OccursAt(Lower(t), "data analyst", 0);
    assert Lower("data analyst") == "data analyst";
    assert "data analyst" in Config.JobCategories[0].1;
  }

  lemma DataAnalystLower()
    ensures Lower("Data Analyst and Web Developer") == "data analyst and web developer"
  {
  }

  // ---------------------------------------------------------------------------------------------
  // get_matching_recommendations

  datatype Recommendation =
    | AddMissingSkills(shown: seq<string>)
    | ExperienceGap(required: nat)
    | IncludeKeyTerms(terms: seq<string>)
    | AddCompanyNames
    | ImproveSkillRelevance

  /** The position of each rule in the list. */
  function RecommendationOrder(r: Recommendation): int {
    match r
    case AddMissingSkills(_) => 0
    case ExperienceGap(_) => 1
    case IncludeKeyTerms(_) => 2
    case AddCompanyNames => 3
    case ImproveSkillRelevance => 4
  }

  /** The message shown for each recommendation. */
  function RecommendationText(r: Recommendation): string {
    match r
    case AddMissingSkills(shown) => "\U{1F3AF} **Add missing skills**: " + Join(shown, ", ")
    case ExperienceGap(required) =>
      "\U{1F4BC} **Experience Gap**: Position requires " + NatToString(required)
      + " years, highlight relevant projects or internships"
    case IncludeKeyTerms(terms) => "\U{1F50D} **Include key terms**: " + Join(terms, ", ")
    case AddCompanyNames => "\U{1F3E2} **Add company names** to highlight work experience"
    case ImproveSkillRelevance =>
      "\U{1F4C8} **Improve skill relevance**: Focus on skills mentioned in job description"
  }

  /** The keywords, in order, that do not occur in the resume. */
  function MissingKeywords(resumeText: string, keywords: seq<string>): (r: seq<string>)
    ensures forall k :: k in r <==> k in keywords && !Contains(Lower(resumeText), Lower(k))
  {
    if keywords == [] then []
    else
      (if Contains(Lower(resumeText), Lower(keywords[0])) then [] else [keywords[0]])
      + MissingKeywords(resumeText, keywords[1..])
  }

  /** missing_keywords[:3] */
  function FirstThree(terms: seq<string>): (r: seq<string>)
    ensures r != [] <==> terms != []
    ensures |r| <= 3 && r <= terms
  {
    terms[..Min(3, |terms|)]
  }

  /** The top ten keywords of a job description: with num_keywords=10 the TF-IDF ranking keeps
      the first ten of the same list. */
  function TopTen(keywords: seq<string>): seq<string> {
    keywords[..Min(10, |keywords|)]
  }

  /** The recommendation list from the five decisions, in rule order: the first five missing
      skills, the required years when they exceed the resume's, the (at most three) missing key terms shown,
      a company-name hint when no organisation was recognised, and a relevance hint below 50%. */
  function Recommend(missingShown: seq<string>, required: nat, resumeYears: nat,
                     shownTerms: seq<string>, hasCompanies: bool, matchPercentage: real)
    : seq<Recommendation>
  {
    var r1 := if missingShown != [] then [AddMissingSkills(missingShown)] else [];
    var r2 := if required > resumeYears then r1 + [ExperienceGap(required)] else r1;
    var r3 := if shownTerms != [] then r2 + [IncludeKeyTerms(shownTerms)] else r2;
    var r4 := if !hasCompanies then r3 + [AddCompanyNames] else r3;
    if matchPercentage < 50.0 then r4 + [ImproveSkillRelevance] else r4
  }

  /** Each rule's message is in the list exactly when the rule fires, and there are at most five. */
  lemma RecommendRules(missingShown: seq<string>, required: nat, resumeYears: nat,
                       shownTerms: seq<string>, hasCompanies: bool, matchPercentage: real)
    ensures var r := Recommend(missingShown, required, resumeYears, shownTerms, hasCompanies, matchPercentage);
      && |r| <= 5
      && (AddMissingSkills(missingShown) in r <==> missingShown != [])
      && (ExperienceGap(required) in r <==> required > resumeYears)
      && (IncludeKeyTerms(shownTerms) in r <==> shownTerms != [])
      && (AddCompanyNames in r <==> !hasCompanies)
      && (ImproveSkillRelevance in r <==> matchPercentage < 50.0)
  {
  }

  /** Nothing but the five rules' messages appears. */
  lemma RecommendOnlyRules(missingShown: seq<string>, required: nat, resumeYears: nat,
                           shownTerms: seq<string>, hasCompanies: bool, matchPercentage: real)
    ensures forall x | x in Recommend(missingShown, required, resumeYears, shownTerms, hasCompanies, matchPercentage) ::
      || x == AddMissingSkills(missingShown)
      || x == ExperienceGap(required)
      || x == IncludeKeyTerms(shownTerms)
      || x == AddCompanyNames
      || x == ImproveSkillRelevance
  {
  }

  /** The list follows the rule order, so each rule contributes at most once. */
  lemma RecommendInRuleOrder(missingShown: seq<string>, required: nat, resumeYears: nat,
                             shownTerms: seq<string>, hasCompanies: bool, matchPercentage: real)
    ensures StrictlyOrdered(Recommend(missingShown, required, resumeYears, shownTerms, hasCompanies, matchPercentage),
                            RecommendationOrder)
  {
    var key := RecommendationOrder;
    var r1: seq<Recommendation> := if missingShown != [] then [AddMissingSkills(missingShown)] else [];
    var r2 := r1;
    if required > resumeYears {
      AppendInOrder(r1, ExperienceGap(required), key);
      r2 := r1 + [ExperienceGap(required)];
    }
    var r3 := r2;
    if shownTerms != [] {
      AppendInOrder(r2, IncludeKeyTerms(shownTerms), key);
      r3 := r2 + [IncludeKeyTerms(shownTerms)];
    }
    var r4 := r3;
    if !hasCompanies {
      AppendInOrder(r3, AddCompanyNames, key);
      r4 := r3 + [AddCompanyNames];
    }
    if matchPercentage < 50.0 {
      AppendInOrder(r4, ImproveSkillRelevance, key);
    }
  }

  /** A list enumerating a set is empty exactly when the set is. */
  lemma ListedSetEmpty(xs: seq<string>, s: set<string>)
    requires (set x | x in xs) == s
    ensures xs == [] <==> s == {}
  {
    if xs != [] {
      assert xs[0] in s;
    }
  }

  /** Appends the message of each rule that fires, in rule order. */
  method AppendRecommendations(missingShown: seq<string>, required: nat, resumeYears: nat,
                               shownTerms: seq<string>, hasCompanies: bool, matchPercentage: real)
    returns (recommendations: seq<Recommendation>)
    ensures recommendations == Recommend(missingShown, required, resumeYears, shownTerms, hasCompanies, matchPercentage)
  {
    recommendations := [];
    if missingShown != [] {
      recommendations := recommendations + [AddMissingSkills(missingShown)];
    }
    if required > resumeYears {
      recommendations := recommendations + [ExperienceGap(required)];
    }
    if shownTerms != [] {
      recommendations := recommendations + [IncludeKeyTerms(shownTerms)];
    }
    if !hasCompanies {
      recommendations := recommendations + [AddCompanyNames];
    }
    if matchPercentage < 50.0 {
      recommendations := recommendations + [ImproveSkillRelevance];
    }
  }

  /** `missingOrder` is the order in which list() enumerates the missing-skill set. */
  method GetMatchingRecommendations(resume: ResumeView, job: JobView, missingOrder: seq<string>,
                                    entities: map<string, seq<string>>)
    returns (recommendations: seq<Recommendation>)
    requires NoDuplicates(missingOrder)
    requires (set s | s in missingOrder) == AnalyzeSkillGaps(resume.text, job.text).missing
    ensures (missingOrder != []) == (AnalyzeSkillGaps(resume.text, job.text).missing != {})
    ensures recommendations == Recommend(
      missingOrder[..Min(5, |missingOrder|)],
      RequiredYears(job.requiredCaptures),
      TextProcessing.MaxOr0(Flatten(resume.yearCaptures)),
      FirstThree(MissingKeywords(resume.text, TopTen(job.keywords))),
      "ORG" in entities && entities["ORG"] != [],
      AnalyzeSkillGaps(resume.text, job.text).matchPercentage)
  {
    var analysis := AnalyzeSkillGaps(resume.text, job.text);
    ListedSetEmpty(missingOrder, analysis.missing);
    var resumeYears := TextProcessing.ExtractExperienceYears(resume.yearCaptures);
    var requiredYears := ExtractRequiredExperience(job.requiredCaptures);
    var missingKeywords := MissingKeywords(resume.text, TopTen(job.keywords));
    var hasCompanies := "ORG" in entities && entities["ORG"] != [];
    recommendations := AppendRecommendations(missingOrder[..Min(5, |missingOrder|)], requiredYears, resumeYears,
                                             FirstThree(missingKeywords), hasCompanies, analysis.matchPercentage);
  }

  // ---------------------------------------------------------------------------------------------
  // batch_resume_ranking

  datatype Ranking = Ranking(rank: nat, name: string, overallScore: real, methodScores: map<string, real>)

  /** x goes before y in the sorted list: a higher score, or the same score and an earlier
      position in the input (the sort is stable). */
  predicate Before(x: Ranking, y: Ranking) {
    x.overallScore > y.overallScore || (x.overallScore == y.overallScore && x.rank < y.rank)
  }

  predicate SortedByScore(s: seq<Ranking>) {
    forall i, j | 0 <= i < j < |s| :: Before(s[i], s[j])
  }

  predicate DistinctRanks(s: seq<Ranking>) {
    forall i, j | 0 <= i < j < |s| :: s[i].rank != s[j].rank
  }

  /** The ranking record of the resume at input position i, ranked i + 1. */
  function RankingOf(i: nat, resume: (string, ResumeView), job: JobView, tfidf: real): Ranking {
    var score := SimilaritySpec(resume.1, job, tfidf);
    Ranking(i + 1, resume.0, score.overallScore, score.methodScores)
  }

  /** The ranking records in input order, each with its input position plus one as rank. */
  function InitialRankings(resumes: seq<(string, ResumeView)>, job: JobView, tfidf: seq<real>): (r: seq<Ranking>)
    requires |tfidf| == |resumes|
    ensures |r| == |resumes|
    ensures forall i | 0 <= i < |r| :: r[i].rank == i + 1
  {
    seq(|resumes|, i requires 0 <= i < |resumes| => RankingOf(i, resumes[i], job, tfidf[i]))
  }

  /** rankings.sort(key=overall_score, reverse=True): a stable insertion sort. */
  method SortRankings(input: seq<Ranking>) returns (rankings: seq<Ranking>)
    requires DistinctRanks(input)
    ensures multiset(rankings) == multiset(input)
    ensures SortedByScore(rankings)
  {
    rankings := input;
    for i := 0 to |rankings|
      invariant multiset(rankings) == multiset(input)
      invariant |rankings| == |input|
      invariant DistinctRanks(rankings)
      invariant SortedByScore(rankings[..i])
    {
      var j := i;
      while j > 0 && Before(rankings[j], rankings[j - 1])
        invariant 0 <= j <= i
        invariant multiset(rankings) == multiset(input)
        invariant |rankings| == |input|
        invariant DistinctRanks(rankings)
        invariant forall a, b | 0 <= a < b <= i && a != j && b != j :: Before(rankings[a], rankings[b])
        invariant forall b | j < b <= i :: Before(rankings[j], rankings[b])
      {
        rankings := Swap(rankings, j - 1, j);
        j := j - 1;
      }
      ClosePrefix(rankings, i, j);
    }
    TakeAll(rankings);
  }

  function Swap(s: seq<Ranking>, a: nat, b: nat): (r: seq<Ranking>)
    requires a < b < |s|
    ensures |r| == |s| && r[a] == s[b] && r[b] == s[a]
    ensures forall k | 0 <= k < |s| && k != a && k != b :: r[k] == s[k]
    ensures multiset(r) == multiset(s)
  {
    s[a := s[b]][b := s[a]]
  }

  lemma ClosePrefix(s: seq<Ranking>, i: nat, j: nat)
    requires j <= i < |s| && DistinctRanks(s)
    requires forall a, b | 0 <= a < b <= i && a != j && b != j :: Before(s[a], s[b])
    requires forall b | j < b <= i :: Before(s[j], s[b])
    requires j == 0 || !Before(s[j], s[j - 1])
    ensures SortedByScore(s[..i + 1])
  {
    if j > 0 {
      assert s[j - 1].rank != s[j].rank;
      assert Before(s[j - 1], s[j]);
      forall a | 0 <= a < j ensures Before(s[a], s[j]) {
        if a < j - 1 {
          assert Before(s[a], s[j - 1]);
        }
      }
    }
  }

  /** Scores every resume in input order. */
  method ScoreAll(resumes: seq<(string, ResumeView)>, job: JobView, tfidf: seq<real>)
    returns (initial: seq<Ranking>)
    requires |tfidf| == |resumes|
    ensures initial == InitialRankings(resumes, job, tfidf)
  {
    ghost var expected := InitialRankings(resumes, job, tfidf);
    initial := [];
    for i := 0 to |resumes|
      invariant initial == expected[..i]
    {
      var ranking := RankOne(resumes, job, tfidf, i);
      assert expected[..i + 1] == expected[..i] + [expected[i]];
      initial := initial + [ranking];
    }
    TakeAll(expected);
  }

  /** The record for the i-th resume of the batch, before sorting. */
  method RankOne(resumes: seq<(string, ResumeView)>, job: JobView, tfidf: seq<real>, i: nat) returns (ranking: Ranking)
    requires |tfidf| == |resumes| && i < |resumes|
    ensures ranking == InitialRankings(resumes, job, tfidf)[i]
  {
    var scoreData := CalculateSimilarityScore(resumes[i].1, job, tfidf[i]);
    ranking := Ranking(i + 1, resumes[i].0, scoreData.overallScore, scoreData.methodScores);
  }

  /** Replaces each rank by the position in the sorted list plus one. */
  method Renumber(sorted: seq<Ranking>) returns (rankings: seq<Ranking>)
    ensures |rankings| == |sorted|
    ensures forall k | 0 <= k < |rankings| :: rankings[k] == sorted[k].(rank := k + 1)
  {
    rankings := sorted;
    for i := 0 to |rankings|
      invariant |rankings| == |sorted|
      invariant forall k | 0 <= k < |rankings| :: rankings[k] == if k < i then sorted[k].(rank := k + 1) else sorted[k]
    {
      rankings := rankings[i := rankings[i].(rank := i + 1)];
    }
  }

  /** The batch ranking: `origin[k]` is the input position of the k-th ranked resume. Scores do
      not increase down the list, and resumes with equal scores keep their input order. */
  method BatchResumeRanking(resumes: seq<(string, ResumeView)>, job: JobView, tfidf: seq<real>)
    returns (rankings: seq<Ranking>, ghost origin: seq<nat>)
    requires |tfidf| == |resumes|
    ensures |rankings| == |resumes| && |origin| == |resumes|
    ensures forall k | 0 <= k < |rankings| :: rankings[k].rank == k + 1
    ensures forall k | 0 <= k < |rankings| ::
      origin[k] < |resumes| && rankings[k] == InitialRankings(resumes, job, tfidf)[origin[k]].(rank := k + 1)
    ensures forall m | 0 <= m < |resumes| :: m in origin
    ensures forall k, l | 0 <= k < l < |rankings| :: rankings[k].overallScore >= rankings[l].overallScore
    ensures forall k, l | 0 <= k < l < |rankings| && rankings[k].overallScore == rankings[l].overallScore ::
      origin[k] < origin[l]
  {
    var initial := ScoreAll(resumes, job, tfidf);
    assert DistinctRanks(initial);
    var sorted := SortRankings(initial);
    origin := OriginOfSorted(initial, sorted);
    rankings := Renumber(sorted);
  }

  /** In the sorted list, each record's pre-sort rank locates it in the input. */
  lemma OriginOfSorted(start: seq<Ranking>, sorted: seq<Ranking>) returns (origin: seq<nat>)
    requires forall i | 0 <= i < |start| :: start[i].rank == i + 1
    requires multiset(sorted) == multiset(start)
    requires SortedByScore(sorted)
    ensures |sorted| == |start| && |origin| == |sorted|
    ensures forall k | 0 <= k < |sorted| :: origin[k] < |start| && sorted[k] == start[origin[k]]
    ensures forall m | 0 <= m < |start| :: m in origin
    ensures forall k, l | 0 <= k < l < |sorted| && sorted[k].overallScore == sorted[l].overallScore ::
      origin[k] < origin[l]
  {
    assert |multiset(sorted)| == |multiset(start)|;
    forall k | 0 <= k < |sorted| ensures 1 <= sorted[k].rank <= |start| && sorted[k] == start[sorted[k].rank - 1] {
      assert sorted[k] in multiset(start);
      var m :| 0 <= m < |start| && start[m] == sorted[k];
    }
    origin := seq(|sorted|, k requires 0 <= k < |sorted| => sorted[k].rank - 1);
    forall m | 0 <= m < |start| ensures m in origin {
      assert start[m] in multiset(sorted);
      var k :| 0 <= k < |sorted| && sorted[k] == start[m];
      assert origin[k] == m;
    }
  }
}
