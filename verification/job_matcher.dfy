/**
 * The real-time job matcher of the backend: skill extraction from free text (a lexicon scan
 * that accepts four spellings of each skill, plus ten whole-word patterns whose hits are
 * title-cased), and the comparison of a resume's skills with the skills of a job description.
 * The AI service and the sentence-embedding model are inputs: what they returned, or that they raised.
 */
module JobMatcher {
  import opened Wrappers
  import opened Text
  import opened WordPatterns
  import opened SkillMatch

  const ProgrammingLanguages: seq<string> := [
    "Python", "Java", "JavaScript", "TypeScript", "C++", "C#", "Go", "Rust",
    "PHP", "Ruby", "Swift", "Kotlin", "Scala", "R", "MATLAB", "Perl", "Dart"]
  const Frameworks: seq<string> := [
    "React", "Angular", "Vue.js", "Node.js", "Express", "Django", "Flask",
    "Spring", "Laravel", "Ruby on Rails", "ASP.NET", "FastAPI", "Gin",
    "Next.js", "Nuxt.js", "Svelte", "Ember.js"]
  const Databases: seq<string> := [
    "MySQL", "PostgreSQL", "MongoDB", "Redis", "Cassandra", "Oracle",
    "SQL Server", "SQLite", "Neo4j", "Elasticsearch", "DynamoDB",
    "MariaDB", "CouchDB", "InfluxDB", "TimescaleDB"]
  const CloudPlatforms: seq<string> := [
    "AWS", "Azure", "Google Cloud", "IBM Cloud", "Oracle Cloud",
    "DigitalOcean", "Heroku", "Vercel", "Netlify", "Firebase",
    "Alibaba Cloud", "Tencent Cloud"]
  const DevopsTools: seq<string> := [
    "Docker", "Kubernetes", "Jenkins", "GitLab CI", "GitHub Actions",
    "Terraform", "Ansible", "Chef", "Puppet", "Prometheus", "Grafana",
    "ELK Stack", "Splunk", "Datadog", "New Relic"]
  const AiMl: seq<string> := [
    "TensorFlow", "PyTorch", "Scikit-learn", "Keras", "OpenCV",
    "NLTK", "spaCy", "Hugging Face", "Pandas", "NumPy", "Matplotlib",
    "Seaborn", "Plotly", "Jupyter", "MLflow", "Kubeflow"]
  const SoftSkills: seq<string> := [
    "Leadership", "Communication", "Problem Solving", "Teamwork",
    "Time Management", "Adaptability", "Creativity", "Critical Thinking",
    "Project Management", "Agile", "Scrum", "Kanban"]

  /** `SKILLS_DATABASE`, its categories in dictionary order. */
  const SkillsDatabase: seq<seq<string>> :=
    [ProgrammingLanguages, Frameworks, Databases, CloudPlatforms, DevopsTools, AiMl, SoftSkills]

  /** The alternatives of the ten `\b(...)\b` patterns, in order. */
  const SkillPatterns: seq<seq<string>> := [
    ["python", "java", "javascript", "react", "angular", "vue", "node.js"],
    ["sql", "mysql", "postgresql", "mongodb", "redis"],
    ["aws", "azure", "gcp", "docker", "kubernetes", "jenkins"],
    ["machine learning", "ai", "nlp", "computer vision", "deep learning"],
    ["html", "css", "bootstrap", "tailwind", "sass", "less"],
    ["git", "github", "gitlab", "bitbucket", "svn"],
    ["agile", "scrum", "kanban", "waterfall"],
    ["linux", "unix", "windows", "macos"],
    ["excel", "power bi", "tableau", "looker"],
    ["photoshop", "illustrator", "figma", "sketch"]]

  /** The four spellings tried for a skill: lower-cased, and with its spaces removed, or turned into '-' or '_'. */
  function Variations(skill: string): (v: seq<string>)
    ensures |v| == 4
  {
    var l := Lower(skill);
    [l, Replace(l, ' ', ""), Replace(l, ' ', "-"), Replace(l, ' ', "_")]
  }

  /** One of the skill's spellings is a substring of the (lower-cased) text; no word boundary is needed. */
  predicate LexiconHit(skill: string, textLower: string) {
    exists k :: 0 <= k < 4 && Contains(textLower, Variations(skill)[k])
  }

  /** The skills of `skills`, in order, that the text mentions under one of their spellings. */
  function LexiconScan(skills: seq<string>, textLower: string): (found: seq<string>)
    ensures |found| <= |skills|
  {
    if |skills| == 0 then []
    else
      var last := skills[|skills| - 1];
      LexiconScan(skills[..|skills| - 1], textLower) + (if LexiconHit(last, textLower) then [last] else [])
  }

  lemma LexiconScanSnoc(skills: seq<string>, skill: string, textLower: string)
    ensures LexiconScan(skills + [skill], textLower) ==
      LexiconScan(skills, textLower) + (if LexiconHit(skill, textLower) then [skill] else [])
  {
    assert (skills + [skill])[..|skills|] == skills;
  }

  /** The scan reports exactly the listed skills the text mentions, and keeps their order. */
  lemma {:induction false} LexiconScanMembers(skills: seq<string>, textLower: string)
    ensures forall x :: x in LexiconScan(skills, textLower) <==> x in skills && LexiconHit(x, textLower)
    ensures IsSubsequence(LexiconScan(skills, textLower), skills)
  {
    if |skills| > 0 {
      var init := skills[..|skills| - 1];
      LexiconScanMembers(init, textLower);
      assert skills == init + [skills[|skills| - 1]];
      assert forall x :: x in skills <==> x in init || x == skills[|skills| - 1];
      SubsequenceSnoc(LexiconScan(init, textLower), init, skills[|skills| - 1], LexiconHit(skills[|skills| - 1], textLower));
    }
  }

  /** `[match.title() for match in matches]` */
  function TitleAll(matches: seq<string>): (r: seq<string>)
    ensures |r| == |matches|
    ensures forall k :: 0 <= k < |r| ==> r[k] == Title(matches[k])
  {
    seq(|matches|, k requires 0 <= k < |matches| => Title(matches[k]))
  }

  /** The title-cased `re.findall` hits of each pattern, pattern after pattern. */
  function PatternHits(textLower: string, patterns: seq<seq<string>>): (hits: seq<string>)
    requires AllNonEmpty(patterns)
  {
    if |patterns| == 0 then []
    else
      var last := patterns[|patterns| - 1];
      PatternHits(textLower, patterns[..|patterns| - 1]) + TitleAll(FindAll(textLower, last, 0))
  }

  /** The patterns yield no hit exactly when none of their alternatives stands as a whole word. */
  lemma {:induction false} PatternHitsNone(textLower: string, patterns: seq<seq<string>>)
    requires AllNonEmpty(patterns)
    ensures |PatternHits(textLower, patterns)| == 0 <==> NoWholeWord(textLower, patterns)
  {
    if |patterns| > 0 {
      var init := patterns[..|patterns| - 1];
      PatternHitsNone(textLower, init);
      FindAllNone(textLower, patterns[|patterns| - 1], 0);
      NoWholeWordSnoc(textLower, patterns);
      assert |PatternHits(textLower, patterns)| ==
        |PatternHits(textLower, init)| + |FindAll(textLower, patterns[|patterns| - 1], 0)|;
    }
  }

  /** `x` is the title-cased form of one of the alternatives that stands in the text as a whole word. */
  ghost predicate TitledWholeWord(x: string, alts: seq<string>, textLower: string) {
    exists w, q :: w in alts && x == Title(w) && WholeWordAt(textLower, w, q)
  }

  /** Every pattern hit is the title-cased form of an alternative that occurs in the text as a whole word. */
  lemma {:induction false} PatternHitsSound(textLower: string, patterns: seq<seq<string>>, x: string)
    requires AllNonEmpty(patterns)
    requires x in PatternHits(textLower, patterns)
    ensures exists p :: 0 <= p < |patterns| && TitledWholeWord(x, patterns[p], textLower)
  {
    var n := |patterns|;
    var init := patterns[..n - 1];
    if x in PatternHits(textLower, init) {
      PatternHitsSound(textLower, init, x);
      var p :| 0 <= p < |init| && TitledWholeWord(x, init[p], textLower);
      assert patterns[p] == init[p];
    } else {
      TitledHitSound(textLower, patterns[n - 1], x);
    }
  }

  /** A title-cased hit of one pattern is the title-cased form of a whole-word alternative. */
  lemma TitledHitSound(textLower: string, alts: seq<string>, x: string)
    requires NonEmptyAlternatives(alts)
    requires x in TitleAll(FindAll(textLower, alts, 0))
    ensures TitledWholeWord(x, alts, textLower)
  {
    var hits := FindAll(textLower, alts, 0);
    var k :| 0 <= k < |hits| && x == TitleAll(hits)[k];
    FindAllSound(textLower, alts, 0, k);
    var q :| 0 <= q && WholeWordAt(textLower, hits[k], q);
    assert hits[k] in alts;
  }

  /** `extract_skills_from_text`, as a value: nothing for empty text, else the lexicon and pattern hits without repeats. */
  function ExtractSkills(text: string): (skills: seq<string>)
    ensures |text| == 0 ==> skills == []
    ensures NoDuplicates(skills)
    ensures |text| > 0 && !NoWholeWord(Lower(text), SkillPatterns) ==> |skills| > 0
  {
    if |text| == 0 then []
    else
      var textLower := Lower(text);
      var hits := SkillPatternHits(textLower);
      var all := LexiconScan(Flatten(SkillsDatabase), textLower) + hits;
      assert |hits| > 0 ==> all[|all| - 1] in Dedup(all);
      Dedup(all)
  }

  /** The title-cased hits of the matcher's own patterns: none exactly when no alternative stands as a whole word. */
  function SkillPatternHits(textLower: string): (hits: seq<string>)
    ensures |hits| == 0 <==> NoWholeWord(textLower, SkillPatterns)
  {
    PatternsNonEmpty();
    PatternHitsNone(textLower, SkillPatterns);
    PatternHits(textLower, SkillPatterns)
  }

  lemma PatternsNonEmpty()
    ensures AllNonEmpty(SkillPatterns)
  {
  }

  /** `RealTimeJobMatcher.extract_skills_from_text` */
  method ExtractSkillsFromText(text: string) returns (skills: seq<string>)
    ensures skills == ExtractSkills(text)
  {
    if |text| == 0 {
      return [];
    }
    var textLower := Lower(text);
    var found := ScanLexicon(SkillsDatabase, textLower);
    PatternsNonEmpty();
    var hits := ScanPatterns(SkillPatterns, textLower);
    skills := Dedup(found + hits);
  }

  /** The lexicon loops: category by category, skill by skill. */
  method ScanLexicon(db: seq<seq<string>>, textLower: string) returns (found: seq<string>)
    ensures found == LexiconScan(Flatten(db), textLower)
  {
    found := [];
    for c := 0 to |db|
      invariant found == LexiconScan(Flatten(db[..c]), textLower)
    {
      found := ScanCategory(found, db[c], textLower, Flatten(db[..c]));
      FlattenAppend(db[..c], db[c]);
      assert db[..c] + [db[c]] == db[..c + 1];
    }
    assert db[..|db|] == db;
  }

  /** The loop over one category, appending to what the earlier categories found. */
  method ScanCategory(found: seq<string>, category: seq<string>, textLower: string, ghost before: seq<string>)
    returns (out: seq<string>)
    requires found == LexiconScan(before, textLower)
    ensures out == LexiconScan(before + category, textLower)
  {
    out := found;
    assert before + category[..0] == before;
    for i := 0 to |category|
      invariant out == LexiconScan(before + category[..i], textLower)
    {
      var skill := category[i];
      var hit := MentionsSkill(textLower, skill);
      if hit {
        out := out + [skill];
      }
      LexiconScanSnoc(before + category[..i], skill, textLower);
      assert before + category[..i + 1] == before + category[..i] + [skill];
    }
    assert category[..|category|] == category;
  }

  /** The innermost loop: the spellings of one skill are tried in turn, stopping at the first that occurs. */
  method MentionsSkill(textLower: string, skill: string) returns (hit: bool)
    ensures hit == LexiconHit(skill, textLower)
  {
    var variations := Variations(skill);
    hit := false;
    for j := 0 to |variations|
      invariant !hit
      invariant forall k :: 0 <= k < j ==> !Contains(textLower, variations[k])
    {
      if Contains(textLower, variations[j]) {
        hit := true;
        break;
      }
    }
  }

  /** The pattern loop: each pattern's `re.findall` hits, title-cased, appended in turn. */
  method ScanPatterns(patterns: seq<seq<string>>, textLower: string) returns (found: seq<string>)
    requires AllNonEmpty(patterns)
    ensures found == PatternHits(textLower, patterns)
  {
    found := [];
    for p := 0 to |patterns|
      invariant found == PatternHits(textLower, patterns[..p])
    {
      var matches := FindAll(textLower, patterns[p], 0);
      found := found + TitleAll(matches);
      assert patterns[..p + 1][..p] == patterns[..p];
    }
    assert patterns[..|patterns|] == patterns;
  }

  /**
   * What extraction reports, for a non-empty text: each skill of the lexicon one of whose four
   * spellings occurs in the lower-cased text, and the title-cased pattern hits; never a skill twice.
   */
  lemma ExtractSkillsMembers(text: string, x: string)
    requires |text| > 0
    ensures NoDuplicates(ExtractSkills(text))
    ensures x in ExtractSkills(text) <==>
      (x in Flatten(SkillsDatabase) && LexiconHit(x, Lower(text))) || x in SkillPatternHits(Lower(text))
  {
    PatternsNonEmpty();
    LexiconScanMembers(Flatten(SkillsDatabase), Lower(text));
  }

  /** The lexicon part of the result lists skills in lexicon order. */
  lemma LexiconPartInLexiconOrder(text: string)
    ensures IsSubsequence(LexiconScan(Flatten(SkillsDatabase), Lower(text)), Flatten(SkillsDatabase))
  {
    LexiconScanMembers(Flatten(SkillsDatabase), Lower(text));
  }

  /** Empty text gives no skills. */
  lemma EmptyTextNoSkills()
    ensures ExtractSkills("") == []
  {
  }

  /** A one-letter skill such as "R" is reported for any text holding that letter in either case. */
  lemma ShortSkillHitsAnyText(text: string, i: int)
    requires 0 <= i < |text| && LowerChar(text[i]) == 'r'
    ensures "R" in ExtractSkills(text)
  {
    var t := Lower(text);
    assert t[i..i + 1] == "r";
    assert Lower("R") == "r";
    assert Variations("R")[0] == "r";
    assert Contains(t, Variations("R")[0]) by {
      assert OccursAt(t, "r", i);
    }
    assert Flatten(SkillsDatabase) == ProgrammingLanguages + Flatten(SkillsDatabase[1..]);
    assert ProgrammingLanguages[13] == "R";
    ExtractSkillsMembers(text, "R");
  }

  /**
   * When the first pattern finds "node.js", the skill is reported twice over: as the lexicon
   * entry "Node.js" and as the title-cased pattern hit "Node.Js".
   */
  lemma NodeJsReportedInTwoForms(text: string)
    requires "node.js" in FindAll(Lower(text), SkillPatterns[0], 0)
    ensures "Node.js" in ExtractSkills(text) && "Node.Js" in ExtractSkills(text)
  {
    PatternsNonEmpty();
    NodeJsLexiconHit(text);
    NodeJsPatternHit(Lower(text));
    ExtractSkillsMembers(text, "Node.js");
    ExtractSkillsMembers(text, "Node.Js");
  }

  lemma NodeJsLexiconHit(text: string)
    requires "node.js" in FindAll(Lower(text), SkillPatterns[0], 0)
    ensures |text| > 0 && "Node.js" in Flatten(SkillsDatabase) && LexiconHit("Node.js", Lower(text))
  {
    var t := Lower(text);
    PatternsNonEmpty();
    var hits := FindAll(t, SkillPatterns[0], 0);
    var k :| 0 <= k < |hits| && hits[k] == "node.js";
    FindAllSound(t, SkillPatterns[0], 0, k);
    var q :| 0 <= q && WholeWordAt(t, "node.js", q);
    NodeJsSpelling();
    assert Contains(t, Variations("Node.js")[0]);
    NodeJsInLexicon();
  }

  lemma NodeJsSpelling()
    ensures Variations("Node.js")[0] == "node.js"
  {
    FirstVariation("Node.js", "node.js");
  }

  /** The first spelling tried is the lower-cased skill. */
  lemma FirstVariation(skill: string, lower: string)
    requires |lower| == |skill| && forall i :: 0 <= i < |skill| ==> lower[i] == LowerChar(skill[i])
    ensures Variations(skill)[0] == lower
  {
  }

  lemma NodeJsInLexicon()
    ensures "Node.js" in Flatten(SkillsDatabase)
  {
    var rest := Flatten(SkillsDatabase[2..]);
    assert Flatten(SkillsDatabase) == ProgrammingLanguages + (Frameworks + rest) by {
      assert SkillsDatabase[1..][1..] == SkillsDatabase[2..];
    }
    assert "Node.js" in Frameworks;
  }

  lemma NodeJsPatternHit(t: string)
    requires AllNonEmpty(SkillPatterns)
    requires "node.js" in FindAll(t, SkillPatterns[0], 0)
    ensures "Node.Js" in PatternHits(t, SkillPatterns)
  {
    FirstPatternHit(t, SkillPatterns, "node.js");
    TitleOfNodeJs();
  }

  /** A hit of the first pattern is reported, title-cased. */
  lemma FirstPatternHit(t: string, patterns: seq<seq<string>>, hit: string)
    requires AllNonEmpty(patterns) && |patterns| > 0
    requires hit in FindAll(t, patterns[0], 0)
    ensures Title(hit) in PatternHits(t, patterns)
  {
    var hits := FindAll(t, patterns[0], 0);
    var k :| 0 <= k < |hits| && hits[k] == hit;
    assert TitleAll(hits)[k] == Title(hit);
    FirstPatternHits(t, patterns);
    PatternHitsPrefix(t, patterns, 1);
  }

  lemma FirstPatternHits(t: string, patterns: seq<seq<string>>)
    requires AllNonEmpty(patterns) && |patterns| > 0
    ensures PatternHits(t, patterns[..1]) == TitleAll(FindAll(t, patterns[0], 0))
  {
    var first := patterns[..1];
    assert first[..0] == [] && first[0] == patterns[0];
  }

  /** Python's `"node.js".title()` is "Node.Js": the letter after the dot starts a new word. */
  lemma TitleOfNodeJs()
    ensures Title("node.js") == "Node.Js"
  {
    TitleOfOdeJs();
    assert "node.js"[1..] == "ode.js";
  }

  lemma TitleOfOdeJs()
    ensures TitleFrom("ode.js", true) == "ode.Js"
  {
    TitleOfDeJs();
    assert "ode.js"[1..] == "de.js";
  }

  lemma TitleOfDeJs()
    ensures TitleFrom("de.js", true) == "de.Js"
  {
    TitleOfDotJs();
    assert TitleFrom("e.js", true) == "e.Js" by {
      assert "e.js"[1..] == ".js";
    }
    assert "de.js"[1..] == "e.js";
  }

  lemma TitleOfDotJs()
    ensures TitleFrom(".js", true) == ".Js"
  {
    assert TitleFrom("s", true) == "s";
    assert TitleFrom("js", false) == "Js" by {
      assert "js"[1..] == "s";
    }
    assert ".js"[1..] == "js";
  }

  /** The hits of a prefix of the patterns are a prefix of all the hits. */
  lemma {:induction false} PatternHitsPrefix(t: string, patterns: seq<seq<string>>, n: nat)
    requires AllNonEmpty(patterns) && n <= |patterns|
    ensures PatternHits(t, patterns[..n]) <= PatternHits(t, patterns)
    decreases |patterns|
  {
    if n < |patterns| {
      var init := patterns[..|patterns| - 1];
      PatternHitsPrefix(t, init, n);
      assert init[..n] == patterns[..n];
    } else {
      assert patterns[..n] == patterns;
    }
  }

  /** What `match_resume_to_job` returns: the full report, or the reduced record of its `except` branch. */
  datatype JobMatchResult =
    | MatchReport(
        matchScore: real, semanticScore: real, overallScore: real,
        matchedSkills: seq<string>, missingSkills: seq<string>, extraSkills: seq<string>,
        jobSkills: seq<string>, analysis: Analysis)
    | MatchFailed(matchScore: real, matchedSkills: seq<string>, missingSkills: seq<string>)

  /**
   * `RealTimeJobMatcher.match_resume_to_job`. The job's skills are those extracted from its
   * description (`analyze_job_description` reports the extracted skills whether or not its own
   * AI call fails). `similarity` is the embedding model's cosine similarity times 100, absent when
   * there is no model or the encoder raised; `ai` is the outcome of the analysis request.
   */
  function MatchResumeToJob(resumeSkills: seq<string>, jobDescription: string, similarity: Option<real>, ai: AiReply)
    : (r: JobMatchResult)
    ensures ai.Raised? ==> r == MatchFailed(0.0, [], [])
    ensures !ai.Raised? ==> r.MatchReport? && r.jobSkills == ExtractSkills(jobDescription)
    ensures r.MatchReport? ==>
      && IsComparison(r.jobSkills, resumeSkills, r.matchedSkills, r.missingSkills, r.matchScore)
      && (forall x :: x in r.extraSkills <==> x in resumeSkills && x !in r.jobSkills)
      && r.semanticScore == (if similarity.Some? && |resumeSkills| > 0 && |r.jobSkills| > 0 then similarity.value else 0.0)
      && r.overallScore == (r.matchScore + r.semanticScore) / 2.0
      && (ai.NoApiKey? ==> r.analysis == Fallback(None, r.matchedSkills, r.missingSkills))
      && (ai.Answered? ==> r.analysis == FromAi(ai.text))
  {
    var job := ExtractSkills(jobDescription);
    var matched, missing, extra := Matched(job, resumeSkills), Missing(job, resumeSkills), Extra(job, resumeSkills);
    ComparisonHolds(job, resumeSkills);
    var score := MatchScore(|matched|, |job|);
    var semantic := if similarity.Some? && |resumeSkills| > 0 && |job| > 0 then similarity.value else 0.0;
    match ai
    case Raised => MatchFailed(0.0, [], [])
    case Answered(text) => MatchReport(score, semantic, (score + semantic) / 2.0, matched, missing, extra, job, FromAi(text))
    case NoApiKey => MatchReport(score, semantic, (score + semantic) / 2.0, matched, missing, extra, job, Fallback(None, matched, missing))
  }
}
