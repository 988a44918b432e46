/**
 * The real-time router: skill extraction by ten whole-word patterns, the job match on top of
 * it, the dispatch of resume optimisation by kind, and the comprehensive analysis that runs
 * the job match and the optimisation depending on the requested analysis type.
 * Every AI request is an input `AiReply`; a request that raises surfaces as HTTP 500.
 */
module RealtimeRouter {
  import opened Wrappers
  import opened Text
  import opened WordPatterns
  import opened SkillMatch

  /** The alternatives of the ten `\b(...)\b` patterns of `extract_skills_from_text`, in order. */
  const SkillPatterns: seq<seq<string>> := [
    ["python", "java", "c++", "javascript", "react", "angular", "vue", "node.js"],
    ["sql", "mysql", "postgresql", "mongodb", "redis"],
    ["aws", "azure", "gcp", "docker", "kubernetes", "jenkins"],
    ["machine learning", "ai", "nlp", "computer vision", "deep learning"],
    ["html", "css", "bootstrap", "tailwind", "sass", "less"],
    ["git", "github", "gitlab", "bitbucket", "svn"],
    ["agile", "scrum", "kanban", "waterfall"],
    ["linux", "unix", "windows", "macos"],
    ["excel", "power bi", "tableau", "looker"],
    ["photoshop", "illustrator", "figma", "sketch"]]

  lemma PatternsNonEmpty()
    ensures AllNonEmpty(SkillPatterns)
  {
  }

  /** The `re.findall` hits of each pattern, pattern after pattern, as found (lower case). */
  function AllHits(textLower: string, patterns: seq<seq<string>>): seq<string>
    requires AllNonEmpty(patterns)
  {
    if |patterns| == 0 then []
    else
      var last := patterns[|patterns| - 1];
      AllHits(textLower, patterns[..|patterns| - 1]) + FindAll(textLower, last, 0)
  }

  /** The patterns yield no hit exactly when none of their alternatives stands as a whole word. */
  lemma {:induction false} AllHitsNone(textLower: string, patterns: seq<seq<string>>)
    requires AllNonEmpty(patterns)
    ensures |AllHits(textLower, patterns)| == 0 <==> NoWholeWord(textLower, patterns)
  {
    if |patterns| > 0 {
      var init := patterns[..|patterns| - 1];
      AllHitsNone(textLower, init);
      FindAllNone(textLower, patterns[|patterns| - 1], 0);
      NoWholeWordSnoc(textLower, patterns);
    }
  }

  /** Every hit is an alternative of some pattern standing in the text as a whole word. */
  lemma {:induction false} AllHitsSound(textLower: string, patterns: seq<seq<string>>, x: string)
    requires AllNonEmpty(patterns)
    requires x in AllHits(textLower, patterns)
    ensures exists p, q :: 0 <= p < |patterns| && x in patterns[p] && WholeWordAt(textLower, x, q)
  {
    var n := |patterns|;
    var init := patterns[..n - 1];
    var hits := FindAll(textLower, patterns[n - 1], 0);
    if x in AllHits(textLower, init) {
      AllHitsSound(textLower, init, x);
      var p, q :| 0 <= p < |init| && x in init[p] && WholeWordAt(textLower, x, q);
      assert patterns[p] == init[p];
    } else {
      var k :| 0 <= k < |hits| && x == hits[k];
      FindAllSound(textLower, patterns[n - 1], 0, k);
    }
  }

  /** `extract_skills_from_text`, as a value: the pattern hits without repeats. */
  function ExtractSkills(text: string): (skills: seq<string>)
    ensures NoDuplicates(skills)
    ensures |skills| == 0 <==> NoWholeWord(Lower(text), SkillPatterns)
  {
    PatternsNonEmpty();
    var hits := AllHits(Lower(text), SkillPatterns);
    AllHitsNone(Lower(text), SkillPatterns);
    assert |hits| > 0 ==> hits[0] in Dedup(hits);
    Dedup(hits)
  }

  /** `extract_skills_from_text`: `skills.extend(re.findall(...))` per pattern, then `list(set(skills))`. */
  method ExtractSkillsFromText(text: string) returns (skills: seq<string>)
    ensures skills == ExtractSkills(text)
  {
    PatternsNonEmpty();
    var hits := CollectHits(Lower(text), SkillPatterns);
    skills := Dedup(hits);
  }

  /** The loop of `extract_skills_from_text`: `skills.extend(matches)` for each pattern in turn. */
  method CollectHits(textLower: string, patterns: seq<seq<string>>) returns (hits: seq<string>)
    requires AllNonEmpty(patterns)
    ensures hits == AllHits(textLower, patterns)
  {
    hits := [];
    for p := 0 to |patterns|
      invariant hits == AllHits(textLower, patterns[..p])
    {
      var matches := FindAll(textLower, patterns[p], 0);
      hits := hits + matches;
      assert patterns[..p + 1][..p] == patterns[..p];
    }
    assert patterns[..|patterns|] == patterns;
  }

  /** Every reported skill is a pattern alternative that stands in the lower-cased text as a whole word. */
  lemma ExtractedSkillsAreWholeWords(text: string, x: string)
    requires x in ExtractSkills(text)
    ensures exists p, q :: 0 <= p < |SkillPatterns| && x in SkillPatterns[p] && WholeWordAt(Lower(text), x, q)
  {
    PatternsNonEmpty();
    AllHitsSound(Lower(text), SkillPatterns, x);
  }

  /** "java" is not reported for a text that only says "javascript". */
  lemma JavaNotReportedInsideJavascript()
    ensures "java" !in ExtractSkills("javascript")
  {
    assert Lower("javascript") == "javascript";
    if "java" in ExtractSkills("javascript") {
      ExtractedSkillsAreWholeWords("javascript", "java");
      var p, q :| 0 <= p < |SkillPatterns| && "java" in SkillPatterns[p] && WholeWordAt("javascript", "java", q);
      NoJavaWordInJavascript(q);
    }
  }

  /** "c++" is reported only where a word character directly follows it in the text. */
  lemma CppReportedOnlyBeforeWordChar(text: string)
    requires "c++" in ExtractSkills(text)
    ensures exists q :: OccursAt(Lower(text), "c++", q) && q + 3 < |text| && IsWordChar(Lower(text)[q + 3])
  {
    ExtractedSkillsAreWholeWords(text, "c++");
    var p, q :| 0 <= p < |SkillPatterns| && "c++" in SkillPatterns[p] && WholeWordAt(Lower(text), "c++", q);
    CppNeedsWordCharAfter(Lower(text), q);
  }

  /** What `match_skills_to_job` returns when it does not raise. */
  datatype SkillsJobMatch = SkillsJobMatch(
    matchScore: real, matchedSkills: seq<string>, missingSkills: seq<string>, jobSkills: seq<string>, analysis: Analysis)

  /**
   * `match_skills_to_job`: the job's skills are extracted by the same patterns; an AI request that
   * raises (or a reply that is not JSON) becomes HTTP 500.
   */
  function MatchSkillsToJob(skills: seq<string>, jobDescription: string, ai: AiReply): (r: HttpResult<SkillsJobMatch>)
    ensures ai.Raised? <==> r == HttpError(500)
    ensures r.Ok? ==>
      && r.value.jobSkills == ExtractSkills(jobDescription)
      && IsComparison(r.value.jobSkills, skills, r.value.matchedSkills, r.value.missingSkills, r.value.matchScore)
      && (ai.NoApiKey? ==> r.value.analysis == Fallback(Some(r.value.matchScore), r.value.matchedSkills, r.value.missingSkills))
      && (ai.Answered? ==> r.value.analysis == FromAi(ai.text))
  {
    var job := ExtractSkills(jobDescription);
    var matched, missing := Matched(job, skills), Missing(job, skills);
    ComparisonHolds(job, skills);
    var score := MatchScore(|matched|, |job|);
    match ai
    case Raised => HttpError(500)
    case Answered(text) => Ok(SkillsJobMatch(score, matched, missing, job, FromAi(text)))
    case NoApiKey => Ok(SkillsJobMatch(score, matched, missing, job, Fallback(Some(score), matched, missing)))
  }

  /** The `/job-matching` endpoint: the resume text's skills matched against the job description. */
  function RealtimeJobMatching(resumeText: string, jobDescription: string, ai: AiReply): (r: HttpResult<SkillsJobMatch>)
    ensures ai.Raised? <==> r == HttpError(500)
    ensures r.Ok? ==> IsComparison(r.value.jobSkills, ExtractSkills(resumeText), r.value.matchedSkills,
                                   r.value.missingSkills, r.value.matchScore)
  {
    MatchSkillsToJob(ExtractSkills(resumeText), jobDescription, ai)
  }

  /** The fields of `resume_data` the optimisation fallbacks read; each may be absent. */
  datatype ResumeData = ResumeData(
    title: Option<string>, skills: Option<seq<string>>, experience: Option<seq<string>>, name: Option<string>)

  /** Python's `s[:n]`. */
  function Take(s: seq<string>, n: nat): (r: seq<string>)
    ensures |r| == Min(|s|, n) && r == s[..|r|]
  {
    if |s| <= n then s else s[..n]
  }

  /** The result of an optimisation: the AI's reply, or the fallback of its kind. */
  datatype Optimization =
    | AiOptimization(kind: string, text: string)
    | AtsFallback(resume: ResumeData, atsScore: int, keywords: seq<string>, recommendations: seq<string>)
    | LinkedInFallback(headline: string, summary: string, experience: seq<string>, skills: seq<string>, completenessScore: int)
    | CoverLetterFallback(letter: string)

  /** `extract_keywords_from_job`: the extraction is not written, so the list is always empty. */
  function ExtractKeywordsFromJob(jobDescription: string): (keywords: seq<string>)
    ensures keywords == []
  {
    []
  }

  /** `optimize_for_ats` */
  function OptimizeForAts(resume: ResumeData, jobDescription: string, ai: AiReply): (r: HttpResult<Optimization>)
    ensures ai.Raised? <==> r == HttpError(500)
    ensures ai.NoApiKey? ==> r == Ok(AtsFallback(resume, 75, [], ["Add more keywords", "Improve formatting"]))
    ensures ai.Answered? ==> r == Ok(AiOptimization("ats", ai.text))
  {
    match ai
    case Raised => HttpError(500)
    case Answered(text) => Ok(AiOptimization("ats", text))
    case NoApiKey =>
      Ok(AtsFallback(resume, 75, ExtractKeywordsFromJob(jobDescription), ["Add more keywords", "Improve formatting"]))
  }

  /** `optimize_for_linkedin_realtime` */
  function OptimizeForLinkedIn(resume: ResumeData, ai: AiReply): (r: HttpResult<Optimization>)
    ensures ai.Raised? <==> r == HttpError(500)
    ensures ai.Answered? ==> r == Ok(AiOptimization("linkedin", ai.text))
    ensures ai.NoApiKey? ==>
      && r.Ok? && r.value.LinkedInFallback?
      && r.value.headline == resume.title.GetOr("Professional") + " | " + Join(Take(resume.skills.GetOr([]), 3), ", ")
      && r.value.skills == resume.skills.GetOr([])
      && r.value.completenessScore == 85
  {
    match ai
    case Raised => HttpError(500)
    case Answered(text) => Ok(AiOptimization("linkedin", text))
    case NoApiKey =>
      var skills := resume.skills.GetOr([]);
      Ok(LinkedInFallback(
        resume.title.GetOr("Professional") + " | " + Join(Take(skills, 3), ", "),
        "Experienced professional with expertise in " + Join(Take(skills, 5), ", "),
        resume.experience.GetOr([]),
        skills,
        85))
  }

  /** `generate_cover_letter_realtime` */
  function GenerateCoverLetter(resume: ResumeData, ai: AiReply): (r: HttpResult<Optimization>)
    ensures ai.Raised? <==> r == HttpError(500)
    ensures ai.Answered? ==> r == Ok(AiOptimization("cover_letter", ai.text))
    ensures ai.NoApiKey? ==>
      && r.Ok? && r.value.CoverLetterFallback?
      && StartsWith(r.value.letter, Greeting)
      && EndsWith(r.value.letter, "Sincerely,\n" + resume.name.GetOr("Your Name"))
  {
    match ai
    case Raised => HttpError(500)
    case Answered(text) => Ok(AiOptimization("cover_letter", text))
    case NoApiKey =>
      var skills := resume.skills.GetOr([]);
      var body := "\n\nI am excited to apply for this position. My background in "
        + Join(Take(skills, 3), ", ") + " makes me a strong candidate.\n\n";
      var tail := "Sincerely,\n" + resume.name.GetOr("Your Name");
      AffixesOfConcat(Greeting, body, tail);
      Ok(CoverLetterFallback(Greeting + body + tail))
  }

  const Greeting := "Dear Hiring Manager,"

  predicate StartsWith(s: string, prefix: string) {
    |prefix| <= |s| && s[..|prefix|] == prefix
  }

  predicate EndsWith(s: string, suffix: string) {
    |suffix| <= |s| && s[|s| - |suffix|..] == suffix
  }

  lemma AffixesOfConcat(a: string, b: string, c: string)
    ensures StartsWith(a + b + c, a) && EndsWith(a + b + c, c)
  {
    assert (a + b + c)[..|a|] == a;
    assert (a + b + c)[|a + b|..] == c;
  }

  /**
   * `optimize_resume_realtime`: "ats", "linkedin" and "cover_letter" go to their optimiser; any
   * other kind raises 400 inside the `try`, which the `except` turns into 500, as it does every
   * error of the optimisers.
   */
  function OptimizeResumeRealtime(resume: ResumeData, jobDescription: string, optimizationType: string, ai: AiReply)
    : (r: HttpResult<Optimization>)
    ensures r.HttpError? ==> r.status == 500
    ensures optimizationType !in {"ats", "linkedin", "cover_letter"} ==> r == HttpError(500)
    ensures optimizationType in {"ats", "linkedin", "cover_letter"} ==> (r.Ok? <==> !ai.Raised?)
    ensures optimizationType == "ats" ==> r == OptimizeForAts(resume, jobDescription, ai)
  {
    var inner :=
      if optimizationType == "ats" then OptimizeForAts(resume, jobDescription, ai)
      else if optimizationType == "linkedin" then OptimizeForLinkedIn(resume, ai)
      else if optimizationType == "cover_letter" then GenerateCoverLetter(resume, ai)
      else HttpError(400);
    match inner
    case Ok(v) => Ok(v)
    case HttpError(_) => HttpError(500)
  }

  /** What `analyze_skills_realtime` returns: the skills, the AI's reply if any, and the job match if asked for. */
  datatype SkillsAnalysis = SkillsAnalysis(skills: seq<string>, aiText: Option<string>, jobMatch: Option<SkillsJobMatch>)

  /** `analyze_skills_realtime`: the job match runs only for a non-empty job description. */
  function AnalyzeSkillsRealtime(text: string, jobDescription: Option<string>, aiSkills: AiReply, aiMatch: AiReply)
    : (r: HttpResult<SkillsAnalysis>)
    ensures r.HttpError? ==> r.status == 500
    ensures r.Ok? ==> r.value.skills == ExtractSkills(text)
    ensures r.Ok? ==> (r.value.jobMatch.Some? <==> jobDescription.Some? && jobDescription.value != "")
    ensures aiSkills.Raised? ==> r.HttpError?
  {
    var skills := ExtractSkills(text);
    match aiSkills
    case Raised => HttpError(500)
    case NoApiKey => WithJobMatch(skills, None, jobDescription, aiMatch)
    case Answered(text) => WithJobMatch(skills, Some(text), jobDescription, aiMatch)
  }

  /** The tail of `analyze_skills_realtime`: the job match, run only for a non-empty job description. */
  function WithJobMatch(skills: seq<string>, aiText: Option<string>, jobDescription: Option<string>, aiMatch: AiReply)
    : (r: HttpResult<SkillsAnalysis>)
    ensures r.HttpError? ==> r.status == 500
    ensures r.Ok? ==> r.value.skills == skills && r.value.aiText == aiText
    ensures r.Ok? ==> (r.value.jobMatch.Some? <==> jobDescription.Some? && jobDescription.value != "")
  {
    if jobDescription.Some? && jobDescription.value != "" then
      match MatchSkillsToJob(skills, jobDescription.value, aiMatch)
      case HttpError(_) => HttpError(500)
      case Ok(m) => Ok(SkillsAnalysis(skills, aiText, Some(m)))
    else Ok(SkillsAnalysis(skills, aiText, None))
  }

  /** What `comprehensive_analysis` returns. */
  datatype Comprehensive = Comprehensive(
    skillsAnalysis: SkillsAnalysis, jobMatching: Option<SkillsJobMatch>, optimization: Option<Optimization>)

  /** The lower-cased analysis type asks for job matching. */
  predicate WantsJobMatching(analysisType: string)
    ensures WantsJobMatching(analysisType) ==> |analysisType| >= 3
  {
    Contains(Lower(analysisType), "job")
  }

  /** The lower-cased analysis type asks for optimisation. */
  predicate WantsOptimization(analysisType: string)
    ensures WantsOptimization(analysisType) ==> |analysisType| >= 8
  {
    Contains(Lower(analysisType), "optimize")
  }

  /**
   * `comprehensive_analysis`: the skills analysis of the content, then the job match of those
   * skills against the content itself when the type mentions "job", then the ATS optimisation
   * of `{"content": ...}` when it mentions "optimize"; any failure becomes 500.
   */
  function ComprehensiveAnalysis(content: string, analysisType: string, aiSkills: AiReply, aiMatch: AiReply, aiOptimize: AiReply)
    : (r: HttpResult<Comprehensive>)
    ensures r.HttpError? ==> r.status == 500
    ensures r.Ok? ==> (r.value.jobMatching.Some? <==> WantsJobMatching(analysisType))
    ensures r.Ok? ==> (r.value.optimization.Some? <==> WantsOptimization(analysisType))
    ensures r.Ok? && r.value.jobMatching.Some? ==> r.value.jobMatching.value.jobSkills == r.value.skillsAnalysis.skills
  {
    match AnalyzeSkillsRealtime(content, None, aiSkills, aiMatch)
    case HttpError(_) => HttpError(500)
    case Ok(analysis) =>
      var job :=
        if WantsJobMatching(analysisType) then Some(MatchSkillsToJob(analysis.skills, content, aiMatch)) else None;
      var opt :=
        if WantsOptimization(analysisType) then
          Some(OptimizeResumeRealtime(ResumeData(None, None, None, None), content, "ats", aiOptimize))
        else None;
      if (job.Some? && job.value.HttpError?) || (opt.Some? && opt.value.HttpError?) then HttpError(500)
      else
        Ok(Comprehensive(
          analysis,
          if job.Some? then Some(job.value.value) else None,
          if opt.Some? then Some(opt.value.value) else None))
  }

  /**
   * The comprehensive job match compares the content's skills with the skills of the same
   * content, so nothing is ever missing, and the score is 100, or 0 when no skill was found.
   */
  lemma ComprehensiveMatchIsSelfMatch(content: string, analysisType: string, aiSkills: AiReply, aiMatch: AiReply, aiOptimize: AiReply)
    requires ComprehensiveAnalysis(content, analysisType, aiSkills, aiMatch, aiOptimize).Ok?
    requires ComprehensiveAnalysis(content, analysisType, aiSkills, aiMatch, aiOptimize).value.jobMatching.Some?
    ensures var m := ComprehensiveAnalysis(content, analysisType, aiSkills, aiMatch, aiOptimize).value.jobMatching.value;
      m.missingSkills == [] && m.matchedSkills == m.jobSkills
      && m.matchScore == (if |m.jobSkills| == 0 then 0.0 else 100.0)
  {
    var skills := ExtractSkills(content);
    NoneMissing(skills, skills);
    AllMatchedIsJob(skills, skills);
    ScoreOfComparison(skills, skills);
  }

  /** When every job skill is on the resume, the matched list is the job's list itself. */
  lemma {:induction false} AllMatchedIsJob(job: seq<string>, resume: seq<string>)
    requires forall k :: 0 <= k < |job| ==> job[k] in resume
    ensures Matched(job, resume) == job
  {
    if |job| > 0 {
      AllMatchedIsJob(job[1..], resume);
    }
  }
}
