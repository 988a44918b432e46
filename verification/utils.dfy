/**
 * The deterministic helpers of the backend's utility module: the upload-extension filter, the
 * year-span experience estimate, the job-description skill scan and the matched/missing split,
 * the skill and role enhancers of resume optimisation, and the ATS and profile-completeness scores.
 * Keyword extraction (spaCy) is an input.
 */
module Utils {
  import opened Wrappers
  import opened Text
  import opened SkillMatch

  const AllowedExtensions: set<string> := {"pdf", "docx", "txt"}

  /** `allowed_file`: a dot, and the text after the last dot, lower-cased, is an allowed extension. */
  function AllowedFile(filename: string): (ok: bool)
    ensures ok ==> '.' in filename && '.' !in Lower(AfterLast(filename, '.'))
  {
    '.' in filename && Lower(AfterLast(filename, '.')) in AllowedExtensions
  }

  /** The name ends, in any case, with "." followed by `ext`. */
  predicate EndsWithExtension(filename: string, ext: string) {
    |ext| + 1 <= |filename| && Lower(filename[|filename| - |ext| - 1..]) == "." + ext
  }

  /** A file is accepted exactly when its name ends, in any letter case, in ".pdf", ".docx" or ".txt". */
  lemma AllowedFileByEnding(filename: string)
    ensures AllowedFile(filename) <==> exists ext :: ext in AllowedExtensions && EndsWithExtension(filename, ext)
  {
    if AllowedFile(filename) {
      var ext := Lower(AfterLast(filename, '.'));
      ExtensionAfterLastDot(filename, ext);
    }
    if exists ext :: ext in AllowedExtensions && EndsWithExtension(filename, ext) {
      var ext :| ext in AllowedExtensions && EndsWithExtension(filename, ext);
      ExtensionAfterLastDot(filename, ext);
    }
  }

  /** For an extension without dots, "after the last dot, lower-cased" and "ends with a dot and it" agree. */
  lemma ExtensionAfterLastDot(f: string, ext: string)
    requires '.' !in ext
    ensures ('.' in f && Lower(AfterLast(f, '.')) == ext) <==> EndsWithExtension(f, ext)
  {
    if '.' in f && Lower(AfterLast(f, '.')) == ext {
      ExtensionGivesEnding(f, ext);
    }
    if EndsWithExtension(f, ext) {
      EndingGivesExtension(f, ext);
    }
  }

  lemma ExtensionGivesEnding(f: string, ext: string)
    requires '.' in f && Lower(AfterLast(f, '.')) == ext
    ensures EndsWithExtension(f, ext)
  {
    var r := AfterLast(f, '.');
    DotThenSuffix(f, r);
    EndingOfSuffix(f, r, ext);
  }

  lemma DotThenSuffix(f: string, r: string)
    requires |r| < |f| && r == f[|f| - |r|..] && f[|f| - |r| - 1] == '.'
    ensures f[|f| - |r| - 1..] == ['.'] + r
  {
  }

  lemma EndingOfSuffix(f: string, r: string, ext: string)
    requires |r| < |f| && f[|f| - |r| - 1..] == ['.'] + r && Lower(r) == ext
    ensures EndsWithExtension(f, ext)
  {
    LowerAfterDot(r);
  }

  lemma LowerAfterDot(r: string)
    ensures Lower(['.'] + r) == "." + Lower(r)
  {
    var dotted := ['.'] + r;
    assert Lower(dotted)[0] == LowerChar('.') == '.';
    forall i | 0 < i < |dotted|
      ensures Lower(dotted)[i] == Lower(r)[i - 1]
    {
      assert dotted[i] == r[i - 1];
    }
  }

  lemma EndingGivesExtension(f: string, ext: string)
    requires '.' !in ext && EndsWithExtension(f, ext)
    ensures '.' in f && Lower(AfterLast(f, '.')) == ext
  {
    var n := |f| - |ext| - 1;
    DotsOfEnding(f, ext);
    LastDotAt(f, n);
    assert Lower(f[n + 1..]) == Lower(f[n..])[1..];
  }

  /** A name ending in "." and a dot-free extension has its last dot right before the extension. */
  lemma DotsOfEnding(f: string, ext: string)
    requires '.' !in ext && EndsWithExtension(f, ext)
    ensures f[|f| - |ext| - 1] == '.'
    ensures forall i :: |f| - |ext| - 1 < i < |f| ==> f[i] != '.'
  {
    var n := |f| - |ext| - 1;
    var lowered := Lower(f[n..]);
    assert LowerChar(f[n]) == lowered[0] == '.';
    forall i | n < i < |f|
      ensures f[i] != '.'
    {
      assert LowerChar(f[i]) == lowered[i - n] == ext[i - n - 1];
    }
  }

  /** The text after the last dot starts right after a dot that no later dot follows. */
  lemma {:induction false} LastDotAt(f: string, n: nat)
    requires n < |f| && f[n] == '.'
    requires forall i :: n < i < |f| ==> f[i] != '.'
    ensures AfterLast(f, '.') == f[n + 1..]
  {
    if n < |f| - 1 {
      var init := f[..|f| - 1];
      LastDotAt(init, n);
      assert f[n + 1..] == init[n + 1..] + [f[|f| - 1]];
    }
  }

  /** The value of a run of decimal digits. */
  function DigitsValue(s: string): (n: nat)
    requires forall k :: 0 <= k < |s| ==> IsDigit(s[k])
  {
    if |s| == 0 then 0
    else
      assert IsDigit(s[|s| - 1]);
      DigitsValue(s[..|s| - 1]) * 10 + (s[|s| - 1] as int - '0' as int)
  }

  predicate FourDigitsAt(s: string, p: nat) {
    p + 4 <= |s| && IsDigit(s[p]) && IsDigit(s[p + 1]) && IsDigit(s[p + 2]) && IsDigit(s[p + 3])
  }

  /** `re.findall(r'(\d{4})', s[p..])` read as numbers: leftmost runs of four digits, without overlap. */
  function FourDigitGroups(s: string, p: nat): (groups: seq<int>)
    ensures 4 * |groups| <= if p <= |s| then |s| - p else 0
    decreases |s| - p
  {
    if p + 4 > |s| then []
    else if FourDigitsAt(s, p) then [DigitsValue(s[p..p + 4])] + FourDigitGroups(s, p + 4)
    else FourDigitGroups(s, p + 1)
  }

  /** The four-digit numbers of the text strictly between 1900 and 2100, in order. */
  function Years(text: string): (years: seq<int>)
    ensures forall k :: 0 <= k < |years| ==> 1900 < years[k] < 2100
  {
    var ys := Filter(y => 1900 < y < 2100, FourDigitGroups(text, 0));
    assert forall k :: 0 <= k < |ys| ==> ys[k] in ys;
    ys
  }

  function SeqMax(s: seq<int>): (m: int)
    requires |s| > 0
    ensures m in s && forall k :: 0 <= k < |s| ==> s[k] <= m
  {
    if |s| == 1 then s[0]
    else
      var m := SeqMax(s[1..]);
      assert forall k :: 1 <= k < |s| ==> s[k] == s[1..][k - 1];
      Max(s[0], m)
  }

  function SeqMin(s: seq<int>): (m: int)
    requires |s| > 0
    ensures m in s && forall k :: 0 <= k < |s| ==> m <= s[k]
  {
    if |s| == 1 then s[0]
    else
      var m := SeqMin(s[1..]);
      assert forall k :: 1 <= k < |s| ==> s[k] == s[1..][k - 1];
      Min(s[0], m)
  }

  /**
   * `extract_total_experience`: the span between the latest and the earliest year mentioned, 0
   * when fewer than two years are mentioned. It is the largest difference of two mentioned years,
   * so it is never negative and never above 2099 - 1901.
   */
  function ExtractTotalExperience(text: string): (span: int)
    ensures 0 <= span <= 198
    ensures |Years(text)| < 2 ==> span == 0
    ensures |Years(text)| >= 2 ==>
      && (exists i, j :: 0 <= i < |Years(text)| && 0 <= j < |Years(text)| && span == Years(text)[i] - Years(text)[j])
      && (forall i, j :: 0 <= i < |Years(text)| && 0 <= j < |Years(text)| ==> Years(text)[i] - Years(text)[j] <= span)
  {
    var years := Years(text);
    if |years| >= 2 then SeqMax(years) - SeqMin(years) else 0
  }

  /** The skill list `extract_skills_from_job_description` looks for. */
  const TechnicalSkills: seq<string> := [
    "Python", "Java", "JavaScript", "React", "Node.js", "SQL", "MongoDB",
    "AWS", "Docker", "Kubernetes", "Git", "Agile", "Scrum", "DevOps",
    "Machine Learning", "Data Science", "AI", "Cloud Computing"]

  /** `extract_skills_from_job_description`, as a value. */
  function JobDescriptionSkills(jobDescription: string): (skills: seq<string>)
    ensures |skills| <= |TechnicalSkills|
  {
    SubstringScan(TechnicalSkills, Lower(jobDescription))
  }

  /** `extract_skills_from_job_description`: the list entries the text mentions, in list order. */
  method ExtractSkillsFromJobDescription(jobDescription: string) returns (found: seq<string>)
    ensures found == JobDescriptionSkills(jobDescription)
  {
    found := ScanSkills(TechnicalSkills, Lower(jobDescription));
  }

  /** The result holds, in list order, exactly the entries whose lower-cased name occurs in the lower-cased text. */
  lemma JobDescriptionSkillsMembers(jobDescription: string)
    ensures IsSubsequence(JobDescriptionSkills(jobDescription), TechnicalSkills)
    ensures forall x :: x in JobDescriptionSkills(jobDescription) <==>
      x in TechnicalSkills && Contains(Lower(jobDescription), Lower(x))
  {
    SubstringScanMembers(TechnicalSkills, Lower(jobDescription));
  }

  /** No word boundary is checked: "maintain" is read as asking for "AI". */
  lemma AiFoundInsideMaintain()
    ensures "AI" in JobDescriptionSkills("maintain")
  {
    assert Lower("maintain") == "maintain";
    assert Lower("AI") == "ai";
    assert OccursAt("maintain", "ai", 1);
    assert "AI" in TechnicalSkills;
    JobDescriptionSkillsMembers("maintain");
  }

  /** `match_skills`: the job's skills split into those on the resume and those not, in job order. */
  function MatchSkills(jobSkills: seq<string>, resumeSkills: seq<string>): (r: (seq<string>, seq<string>))
    ensures IsComparison(jobSkills, resumeSkills, r.0, r.1, MatchScore(|r.0|, |jobSkills|))
    ensures |r.0| + |r.1| == |jobSkills|
  {
    ComparisonHolds(jobSkills, resumeSkills);
    MatchedMissingPartition(jobSkills, resumeSkills);
    (Matched(jobSkills, resumeSkills), Missing(jobSkills, resumeSkills))
  }

  /**
   * `enhance_skills`: the job's skills first, then the resume's own, each once, in order of
   * first appearance; every job skill comes before every resume-only skill.
   */
  method EnhanceSkills(skills: seq<string>, jobSkills: seq<string>) returns (enhanced: seq<string>)
    ensures NoDuplicates(enhanced)
    ensures forall x :: x in enhanced <==> x in jobSkills || x in skills
    ensures IsSubsequence(enhanced, jobSkills + skills)
    ensures forall i, j :: 0 <= i < |enhanced| && 0 <= j < |enhanced| && enhanced[i] in jobSkills && enhanced[j] !in jobSkills ==> i < j
  {
    assert [] + jobSkills == jobSkills;
    var fromJob := AppendUnseen([], [], jobSkills);
    enhanced := AppendUnseen(fromJob, jobSkills, skills);
  }

  /**
   * One loop of `enhance_skills`: each item not yet in the list is appended, in item order. The
   * list keeps its start, gains only items it lacked, and stays a subsequence of `base + items`
   * when it started as one of `base`.
   */
  method AppendUnseen(start: seq<string>, base: seq<string>, items: seq<string>) returns (r: seq<string>)
    requires NoDuplicates(start) && IsSubsequence(start, base)
    ensures NoDuplicates(r)
    ensures forall x :: x in r <==> x in start || x in items
    ensures IsSubsequence(r, base + items)
    ensures |start| <= |r| && r[..|start|] == start
    ensures forall i :: |start| <= i < |r| ==> r[i] !in start
  {
    r := start;
    assert base + items[..0] == base;
    for k := 0 to |items|
      invariant NoDuplicates(r)
      invariant forall x :: x in r <==> x in start || x in items[..k]
      invariant IsSubsequence(r, base + items[..k])
      invariant |start| <= |r| && r[..|start|] == start
      invariant forall i :: |start| <= i < |r| ==> r[i] !in start
    {
      var item := items[k];
      assert base + items[..k + 1] == (base + items[..k]) + [item];
      assert items[..k + 1] == items[..k] + [item];
      SubsequenceSnoc(r, base + items[..k], item, item !in r);
      if item !in r {
        r := r + [item];
      } else {
        assert r + [] == r;
      }
    }
    assert items[..|items|] == items;
  }

  /** What `enhance_role_description` builds: each keyword not yet in the lower-cased text appended as " | Keyword". */
  function EnhancedRole(role: string, keywords: seq<string>): (enhanced: string)
    ensures role <= enhanced
  {
    if |keywords| == 0 then role
    else EnhanceStep(EnhancedRole(role, keywords[..|keywords| - 1]), keywords[|keywords| - 1])
  }

  /** One keyword of the loop: appended title-cased unless the lower-cased text already contains it. */
  function EnhanceStep(prev: string, keyword: string): string {
    if Contains(Lower(prev), keyword) then prev else prev + " | " + Title(keyword)
  }

  /** `enhance_role_description` */
  method EnhanceRoleDescription(role: string, keywords: seq<string>) returns (enhanced: string)
    ensures enhanced == EnhancedRole(role, keywords)
  {
    enhanced := role;
    for k := 0 to |keywords|
      invariant enhanced == EnhancedRole(role, keywords[..k])
    {
      assert keywords[..k + 1][..k] == keywords[..k];
      if !Contains(Lower(enhanced), keywords[k]) {
        enhanced := enhanced + " | " + Title(keywords[k]);
      }
    }
    assert keywords[..|keywords|] == keywords;
  }

  /**
   * Afterwards every lower-case keyword occurs in the lower-cased description (keywords are
   * appended title-cased, so their lower-case form is found).
   */
  lemma {:induction false} EnhancedRoleCoversKeywords(role: string, keywords: seq<string>)
    ensures forall k :: 0 <= k < |keywords| && Lower(keywords[k]) == keywords[k] ==>
      Contains(Lower(EnhancedRole(role, keywords)), keywords[k])
  {
    if |keywords| > 0 {
      var init := keywords[..|keywords| - 1];
      EnhancedRoleCoversKeywords(role, init);
      forall k | 0 <= k < |keywords| && Lower(keywords[k]) == keywords[k]
        ensures Contains(Lower(EnhancedRole(role, keywords)), keywords[k])
      {
        CoveredAfterStep(role, keywords, k);
      }
    }
  }

  /** One step of the enhancement keeps earlier keywords found and finds the new one. */
  lemma CoveredAfterStep(role: string, keywords: seq<string>, k: nat)
    requires k < |keywords| && Lower(keywords[k]) == keywords[k]
    requires k < |keywords| - 1 ==> Contains(Lower(EnhancedRole(role, keywords[..|keywords| - 1])), keywords[k])
    ensures Contains(Lower(EnhancedRole(role, keywords)), keywords[k])
  {
    var prev := EnhancedRole(role, keywords[..|keywords| - 1]);
    var keyword := keywords[|keywords| - 1];
    assert EnhancedRole(role, keywords) == EnhanceStep(prev, keyword);
    if k < |keywords| - 1 {
      StepKeepsFound(prev, keyword, keywords[k]);
    } else {
      StepFindsKeyword(prev, keyword);
    }
  }

  lemma StepKeepsFound(prev: string, keyword: string, w: string)
    requires Contains(Lower(prev), w)
    ensures Contains(Lower(EnhanceStep(prev, keyword)), w)
  {
    if !Contains(Lower(prev), keyword) {
      assert EnhanceStep(prev, keyword) == prev + (" | " + Title(keyword));
      FoundAfterAppend(prev, " | " + Title(keyword), w);
    }
  }

  lemma StepFindsKeyword(prev: string, keyword: string)
    requires Lower(keyword) == keyword
    ensures Contains(Lower(EnhanceStep(prev, keyword)), keyword)
  {
    if !Contains(Lower(prev), keyword) {
      AppendedKeywordFound(prev, keyword);
    }
  }

  /** The original role stays a prefix of the enhanced one. */
  lemma {:induction false} EnhancedRoleKeepsRole(role: string, keywords: seq<string>)
    ensures role <= EnhancedRole(role, keywords)
  {
    if |keywords| > 0 {
      EnhancedRoleKeepsRole(role, keywords[..|keywords| - 1]);
    }
  }

  lemma FoundAfterAppend(prev: string, tail: string, w: string)
    requires Contains(Lower(prev), w)
    ensures Contains(Lower(prev + tail), w)
  {
    LowerConcat(prev, tail);
    ContainsInConcat(Lower(prev), Lower(tail), w);
  }

  /** A lower-case keyword appended title-cased is found in the lower-cased result. */
  lemma AppendedKeywordFound(prev: string, keyword: string)
    requires Lower(keyword) == keyword
    ensures Contains(Lower(prev + " | " + Title(keyword)), keyword)
  {
    LowerConcat(prev + " | ", Title(keyword));
    TitleLower(keyword);
    ContainsInConcat(Lower(prev + " | "), keyword, keyword);
  }

  /** A description that already mentions every keyword (lower-cased) is left as it is. */
  lemma {:induction false} EnhancedRoleUnchangedWhenCovered(role: string, keywords: seq<string>)
    requires forall k :: 0 <= k < |keywords| ==> Contains(Lower(role), keywords[k])
    ensures EnhancedRole(role, keywords) == role
  {
    if |keywords| > 0 {
      EnhancedRoleUnchangedWhenCovered(role, keywords[..|keywords| - 1]);
    }
  }

  /** One experience entry; only its role is read by the scores. */
  datatype Experience = Experience(role: Option<string>)

  /** The fields of `resume_data` the scores read; each may be absent. */
  datatype ResumeData = ResumeData(
    name: Option<string>, email: Option<string>, phone: Option<string>, summary: Option<string>,
    skills: Option<seq<string>>, experience: Option<seq<Experience>>, education: Option<seq<string>>,
    headline: Option<string>, certifications: Option<seq<string>>, recommendations: Option<seq<string>>)

  predicate TextFilled(field: Option<string>) {
    field.Some? && |field.value| > 0
  }

  predicate ListFilled<T>(field: Option<seq<T>>) {
    field.Some? && |field.value| > 0
  }

  /** `resume_data.get(section)` is truthy: the field is present and non-empty. */
  predicate Filled(data: ResumeData, section: string) {
    if section == "name" then TextFilled(data.name)
    else if section == "email" then TextFilled(data.email)
    else if section == "phone" then TextFilled(data.phone)
    else if section == "summary" then TextFilled(data.summary)
    else if section == "headline" then TextFilled(data.headline)
    else if section == "skills" then ListFilled(data.skills)
    else if section == "experience" then ListFilled(data.experience)
    else if section == "education" then ListFilled(data.education)
    else if section == "certifications" then ListFilled(data.certifications)
    else if section == "recommendations" then ListFilled(data.recommendations)
    else false
  }

  /** The sections whose absence costs 5 points of the ATS format score. */
  const RequiredSections: seq<string> := ["name", "email", "phone", "summary", "experience", "education"]

  /** How many of `sections` are not filled. */
  function MissingSections(data: ResumeData, sections: seq<string>): (n: nat)
    ensures n <= |sections|
  {
    if |sections| == 0 then 0
    else MissingSections(data, sections[..|sections| - 1]) + (if Filled(data, sections[|sections| - 1]) then 0 else 1)
  }

  /** The format part of `calculate_ats_score`: 30, less 5 per missing section. */
  method FormatScore(data: ResumeData, sections: seq<string>) returns (score: int)
    ensures score == 30 - 5 * MissingSections(data, sections)
  {
    score := 30;
    for k := 0 to |sections|
      invariant score == 30 - 5 * MissingSections(data, sections[..k])
    {
      assert sections[..k + 1][..k] == sections[..k];
      if !Filled(data, sections[k]) {
        score := score - 5;
      }
    }
    assert sections[..|sections|] == sections;
  }

  /** The lower-cased text the keywords are looked for in: summary, skills and roles joined by spaces. */
  function ResumeText(data: ResumeData): string {
    var experience := data.experience.GetOr([]);
    var roles := seq(|experience|, i requires 0 <= i < |experience| => experience[i].role.GetOr(""));
    Lower(Join([data.summary.GetOr(""), Join(data.skills.GetOr([]), " "), Join(roles, " ")], " "))
  }

  /** `count / max(1, total)` */
  function Share(count: nat, total: nat): (r: real)
    ensures count <= total ==> 0.0 <= r <= 1.0
    ensures 0 < count == total ==> r == 1.0
    ensures count == 0 ==> r == 0.0
  {
    var d := Max(1, total);
    if count <= total then FractionAtMostOne(count, d); count as real / d as real
    else count as real / d as real
  }

  /**
   * `calculate_ats_score`: up to 40 points for the share of the job's skills on the resume, up to
   * 30 for the share of the job's keywords in the resume text, 30 less 5 per missing section,
   * truncated to an integer.
   */
  function AtsScore(data: ResumeData, jobDescription: string, jobKeywords: seq<string>): (score: int)
    ensures 0 <= score <= 100
  {
    var jobSkills := JobDescriptionSkills(jobDescription);
    var matchedSkills := Matched(jobSkills, data.skills.GetOr([]));
    var text := ResumeText(data);
    var matchedKeywords := Filter(keyword => Contains(text, keyword), jobKeywords);
    var total := Share(|matchedSkills|, |jobSkills|) * 40.0 + Share(|matchedKeywords|, |jobKeywords|) * 30.0
      + (30 - 5 * MissingSections(data, RequiredSections)) as real;
    total.Floor
  }

  /** `calculate_ats_score`, with the job's keywords (found by spaCy) given. */
  method CalculateAtsScore(data: ResumeData, jobDescription: string, jobKeywords: seq<string>) returns (score: int)
    ensures score == AtsScore(data, jobDescription, jobKeywords)
  {
    var jobSkills := ExtractSkillsFromJobDescription(jobDescription);
    var matchedSkills := Matched(jobSkills, data.skills.GetOr([]));
    var skillScore := Share(|matchedSkills|, |jobSkills|) * 40.0;
    var text := ResumeText(data);
    var matchedKeywords := Filter(keyword => Contains(text, keyword), jobKeywords);
    var keywordScore := Share(|matchedKeywords|, |jobKeywords|) * 30.0;
    var formatScore := FormatScore(data, RequiredSections);
    score := (skillScore + keywordScore + formatScore as real).Floor;
  }

  /**
   * Full marks: every section filled, every skill the job asks for on the resume and every
   * keyword in the resume text, for a job with at least one skill and one keyword.
   */
  lemma AtsFullMarks(data: ResumeData, jobDescription: string, jobKeywords: seq<string>)
    requires forall k :: 0 <= k < |RequiredSections| ==> Filled(data, RequiredSections[k])
    requires |JobDescriptionSkills(jobDescription)| > 0 && |jobKeywords| > 0
    requires forall x :: x in JobDescriptionSkills(jobDescription) ==> x in data.skills.GetOr([])
    requires forall k :: 0 <= k < |jobKeywords| ==> Contains(ResumeText(data), jobKeywords[k])
    ensures AtsScore(data, jobDescription, jobKeywords) == 100
  {
    var jobSkills := JobDescriptionSkills(jobDescription);
    NoneMissing(jobSkills, data.skills.GetOr([]));
    MatchedMissingPartition(jobSkills, data.skills.GetOr([]));
    var text := ResumeText(data);
    FilterKeepsAll(keyword => Contains(text, keyword), jobKeywords);
    AllFilledNoneMissing(data, RequiredSections);
  }

  /** A job description with no listed skill and no keyword leaves only the format score. */
  lemma AtsWithoutJobTerms(data: ResumeData, jobDescription: string)
    requires |JobDescriptionSkills(jobDescription)| == 0
    ensures AtsScore(data, jobDescription, []) == 30 - 5 * MissingSections(data, RequiredSections)
    ensures AtsScore(data, jobDescription, []) <= 30
  {
  }

  lemma {:induction false} AllFilledNoneMissing(data: ResumeData, sections: seq<string>)
    requires forall k :: 0 <= k < |sections| ==> Filled(data, sections[k])
    ensures MissingSections(data, sections) == 0
  {
    if |sections| > 0 {
      AllFilledNoneMissing(data, sections[..|sections| - 1]);
    }
  }

  /** The sections `calculate_profile_completeness` weighs, with their weights. */
  const CompletenessWeights: seq<(string, nat)> := [
    ("headline", 10), ("summary", 15), ("experience", 25), ("skills", 20),
    ("education", 15), ("certifications", 10), ("recommendations", 5)]

  /** The sum of the weights of the filled sections. */
  function FilledWeight(data: ResumeData, weights: seq<(string, nat)>): nat
  {
    if |weights| == 0 then 0
    else
      var (section, weight) := weights[|weights| - 1];
      FilledWeight(data, weights[..|weights| - 1]) + (if Filled(data, section) then weight else 0)
  }

  /** The sum of all the weights. */
  function TotalWeight(weights: seq<(string, nat)>): nat
  {
    if |weights| == 0 then 0 else TotalWeight(weights[..|weights| - 1]) + weights[|weights| - 1].1
  }

  lemma {:induction false} FilledWeightBounds(data: ResumeData, weights: seq<(string, nat)>)
    ensures FilledWeight(data, weights) <= TotalWeight(weights)
    ensures (forall k :: 0 <= k < |weights| ==> Filled(data, weights[k].0)) ==> FilledWeight(data, weights) == TotalWeight(weights)
    ensures (forall k :: 0 <= k < |weights| ==> !Filled(data, weights[k].0)) ==> FilledWeight(data, weights) == 0
  {
    if |weights| > 0 {
      FilledWeightBounds(data, weights[..|weights| - 1]);
    }
  }

  /** `calculate_profile_completeness`, as a value: the filled sections' weights, capped at 100. */
  function ProfileCompleteness(data: ResumeData): (score: int)
    ensures score <= 100
  {
    Min(FilledWeight(data, CompletenessWeights), 100)
  }

  /** `calculate_profile_completeness`: `score += weight` for each filled section, then `min(score, 100)`. */
  method CalculateProfileCompleteness(data: ResumeData) returns (score: int)
    ensures score == ProfileCompleteness(data)
  {
    var sum := AddFilledWeights(data, CompletenessWeights);
    score := Min(sum, 100);
  }

  method AddFilledWeights(data: ResumeData, weights: seq<(string, nat)>) returns (sum: nat)
    ensures sum == FilledWeight(data, weights)
  {
    sum := 0;
    for k := 0 to |weights|
      invariant sum == FilledWeight(data, weights[..k])
    {
      assert weights[..k + 1][..k] == weights[..k];
      var (section, weight) := weights[k];
      if Filled(data, section) {
        sum := sum + weight;
      }
    }
    assert weights[..|weights|] == weights;
  }

  /**
   * The weights total 100, so the cap never applies: the score is the filled sections' weight,
   * between 0 and 100, 100 when every section is filled and 0 when none is.
   */
  lemma ProfileCompletenessBounds(data: ResumeData)
    ensures ProfileCompleteness(data) == FilledWeight(data, CompletenessWeights)
    ensures 0 <= ProfileCompleteness(data) <= 100
    ensures (forall k :: 0 <= k < |CompletenessWeights| ==> Filled(data, CompletenessWeights[k].0)) ==> ProfileCompleteness(data) == 100
    ensures (forall k :: 0 <= k < |CompletenessWeights| ==> !Filled(data, CompletenessWeights[k].0)) ==> ProfileCompleteness(data) == 0
  {
    FilledWeightBounds(data, CompletenessWeights);
    var w := CompletenessWeights;
    assert TotalWeight(w[..1]) == 10;
    assert TotalWeight(w[..2]) == 25 by { assert w[..2][..1] == w[..1]; }
    assert TotalWeight(w[..3]) == 50 by { assert w[..3][..2] == w[..2]; }
    assert TotalWeight(w[..4]) == 70 by { assert w[..4][..3] == w[..3]; }
    assert TotalWeight(w[..5]) == 85 by { assert w[..5][..4] == w[..4]; }
    assert TotalWeight(w[..6]) == 95 by { assert w[..6][..5] == w[..5]; }
    assert TotalWeight(w) == 100 by { assert w[..6] == w[..|w| - 1]; }
  }
}
