/**
 * The skills-and-jobs router: a smaller skills lexicon scanned by plain substring search,
 * the job match built on it, and the category lookups and counts of its read endpoints.
 */
module SkillsJobsRouter {
  import opened Wrappers
  import opened Text
  import opened SkillMatch

  /** The category names of `SKILLS_DATABASE`, in dictionary order. */
  const CategoryNames: seq<string> := [
    "programming_languages", "frameworks", "databases", "cloud_platforms",
    "devops_tools", "ai_ml", "soft_skills"]

  /** The category lists of `SKILLS_DATABASE`, parallel to `CategoryNames`. */
  const SkillsDatabase: seq<seq<string>> := [
    ["Python", "Java", "JavaScript", "TypeScript", "C++", "C#", "Go", "Rust",
     "PHP", "Ruby", "Swift", "Kotlin", "Scala", "R", "MATLAB", "Perl"],
    ["React", "Angular", "Vue.js", "Node.js", "Express", "Django", "Flask",
     "Spring", "Laravel", "Ruby on Rails", "ASP.NET", "FastAPI", "Gin"],
    ["MySQL", "PostgreSQL", "MongoDB", "Redis", "Cassandra", "Oracle",
     "SQL Server", "SQLite", "Neo4j", "Elasticsearch", "DynamoDB"],
    ["AWS", "Azure", "Google Cloud", "IBM Cloud", "Oracle Cloud",
     "DigitalOcean", "Heroku", "Vercel", "Netlify"],
    ["Docker", "Kubernetes", "Jenkins", "GitLab CI", "GitHub Actions",
     "Terraform", "Ansible", "Chef", "Puppet", "Prometheus", "Grafana"],
    ["TensorFlow", "PyTorch", "Scikit-learn", "Keras", "OpenCV",
     "NLTK", "spaCy", "Hugging Face", "Pandas", "NumPy", "Matplotlib"],
    ["Leadership", "Communication", "Problem Solving", "Teamwork",
     "Time Management", "Adaptability", "Creativity", "Critical Thinking"]]

  /** `extract_skills_from_job_description`, as a value. */
  function ExtractSkills(jobDescription: string): seq<string> {
    SubstringScan(Flatten(SkillsDatabase), Lower(jobDescription))
  }

  /** `extract_skills_from_job_description`: flatten the lexicon, then keep each skill the text mentions. */
  method ExtractSkillsFromJobDescription(jobDescription: string) returns (found: seq<string>)
    ensures found == ExtractSkills(jobDescription)
  {
    found := ScanLexicon(SkillsDatabase, Lower(jobDescription));
  }

  /** The two loops, over any lexicon: `all_skills.extend(...)` per category, then the substring test per skill. */
  method ScanLexicon(db: seq<seq<string>>, textLower: string) returns (found: seq<string>)
    ensures found == SubstringScan(Flatten(db), textLower)
  {
    var allSkills: seq<string> := [];
    for c := 0 to |db|
      invariant allSkills == Flatten(db[..c])
    {
      FlattenAppend(db[..c], db[c]);
      assert db[..c] + [db[c]] == db[..c + 1];
      allSkills := allSkills + db[c];
    }
    assert db[..|db|] == db;
    found := ScanSkills(allSkills, textLower);
  }

  /** The extraction result lists lexicon skills only, in lexicon order, and each is mentioned in the text. */
  lemma ExtractSkillsInLexiconOrder(jobDescription: string)
    ensures IsSubsequence(ExtractSkills(jobDescription), Flatten(SkillsDatabase))
    ensures forall x :: x in ExtractSkills(jobDescription) <==>
      x in Flatten(SkillsDatabase) && Contains(Lower(jobDescription), Lower(x))
  {
    SubstringScanMembers(Flatten(SkillsDatabase), Lower(jobDescription));
  }

  /** No word boundary is checked: a text mentioning "javascript" is reported to ask for "Java" as well. */
  lemma JavaFoundInsideJavascript(jobDescription: string)
    requires Contains(Lower(jobDescription), "javascript")
    ensures "Java" in ExtractSkills(jobDescription) && "JavaScript" in ExtractSkills(jobDescription)
  {
    var t := Lower(jobDescription);
    var i :| 0 <= i <= |t| && OccursAt(t, "javascript", i);
    assert t[i..i + 4] == "java" by {
      assert t[i..i + 4] == t[i..i + 10][..4];
    }
    assert OccursAt(t, "java", i);
    JavaSpellings();
    ExtractSkillsInLexiconOrder(jobDescription);
  }

  lemma JavaSpellings()
    ensures Lower("Java") == "java" && Lower("JavaScript") == "javascript"
    ensures "Java" in Flatten(SkillsDatabase) && "JavaScript" in Flatten(SkillsDatabase)
  {
    assert "Java" in SkillsDatabase[0] && "JavaScript" in SkillsDatabase[0];
  }

  /** What `match_job_realtime` returns when it does not raise. */
  datatype JobMatch = JobMatch(
    matchScore: real, matchedSkills: seq<string>, missingSkills: seq<string>, extraSkills: seq<string>,
    jobSkills: seq<string>, analysis: Analysis)

  /**
   * `match_job_realtime`: the job's skills by substring scan, split against the resume's by
   * case-sensitive membership; any exception (the AI request, or its reply not being JSON)
   * becomes an HTTP 500.
   */
  function MatchJobRealtime(resumeSkills: seq<string>, jobDescription: string, ai: AiReply): (r: HttpResult<JobMatch>)
    ensures ai.Raised? <==> r == HttpError(500)
    ensures r.Ok? ==>
      && r.value.jobSkills == ExtractSkills(jobDescription)
      && IsComparison(r.value.jobSkills, resumeSkills, r.value.matchedSkills, r.value.missingSkills, r.value.matchScore)
      && (forall x :: x in r.value.extraSkills <==> x in resumeSkills && x !in r.value.jobSkills)
      && (ai.NoApiKey? ==> r.value.analysis == Fallback(Some(r.value.matchScore), r.value.matchedSkills, r.value.missingSkills))
      && (ai.Answered? ==> r.value.analysis == FromAi(ai.text))
  {
    var job := ExtractSkills(jobDescription);
    var matched, missing, extra := Matched(job, resumeSkills), Missing(job, resumeSkills), Extra(job, resumeSkills);
    ComparisonHolds(job, resumeSkills);
    var score := MatchScore(|matched|, |job|);
    match ai
    case Raised => HttpError(500)
    case Answered(text) => Ok(JobMatch(score, matched, missing, extra, job, FromAi(text)))
    case NoApiKey => Ok(JobMatch(score, matched, missing, extra, job, Fallback(Some(score), matched, missing)))
  }

  /** The index of a category name, if it is one. */
  function FindCategory(names: seq<string>, category: string): (r: Option<nat>)
    ensures r.None? <==> category !in names
    ensures r.Some? ==> r.value < |names| && names[r.value] == category
  {
    if |names| == 0 then None
    else if names[0] == category then Some(0)
    else
      match FindCategory(names[1..], category)
      case None => None
      case Some(k) => Some(k + 1)
  }

  /** What `get_skills_by_category` answers: the category, its skills and their count. */
  datatype CategorySkills = CategorySkills(category: string, skills: seq<string>, count: nat)

  /** `get_skills_by_category`: 404 for a name that is not a category. */
  function GetSkillsByCategory(category: string): (r: HttpResult<CategorySkills>)
    ensures r.HttpError? <==> category !in CategoryNames
    ensures r.HttpError? ==> r.status == 404
    ensures r.Ok? ==> exists k :: 0 <= k < |CategoryNames| && CategoryNames[k] == category
                                  && r.value.skills == SkillsDatabase[k]
    ensures r.Ok? ==> r.value.category == category && r.value.count == |r.value.skills|
  {
    match FindCategory(CategoryNames, category)
    case None => HttpError(404)
    case Some(k) => Ok(CategorySkills(category, SkillsDatabase[k], |SkillsDatabase[k]|))
  }

  /** `total_categories` of `get_all_skills` and `categories` of the health endpoint. */
  function TotalCategories(): (n: nat)
    ensures n == |CategoryNames|
  {
    |SkillsDatabase|
  }

  /** `total_skills`: the sum of the category lengths. */
  function TotalSkills(): (n: nat)
    ensures n == |Flatten(SkillsDatabase)|
  {
    FlattenLength(SkillsDatabase);
    TotalLength(SkillsDatabase)
  }

  /** The lexicon holds 79 skills in 7 categories. */
  lemma LexiconSize()
    ensures TotalCategories() == 7 && TotalSkills() == 79
  {
    assert TotalLength(SkillsDatabase[6..]) == 8;
    assert TotalLength(SkillsDatabase[5..]) == 19;
    assert TotalLength(SkillsDatabase[4..]) == 30;
    assert TotalLength(SkillsDatabase[3..]) == 39;
    assert TotalLength(SkillsDatabase[2..]) == 50;
    assert TotalLength(SkillsDatabase[1..]) == 63;
  }
}
