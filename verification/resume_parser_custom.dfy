/**
 * The stand-alone keyword resume parser: a skill list scanned by substring, degree and college
 * lines, experience and project lines turned into records, and `parse_resume`, which puts them
 * together and fails on every input because it reads the education pair as a dictionary.
 */
module ResumeParserCustom {
  import opened Wrappers
  import opened Text
  import opened SkillMatch
  import opened LineScan

  // ---------------------------------------------------------------------------------------
  // Skills

  /** The skills `extract_skills` looks for, in their canonical case. */
  const SkillsList: seq<string> := [
    "Python", "Java", "C++", "TensorFlow", "PyTorch", "React", "HTML", "CSS",
    "JavaScript", "OpenCV", "SQL", "MySQL", "Git", "LangChain", "Streamlit",
    "YOLO", "Scikit-learn", "Azure", "AWS", "NLP", "LLMs", "Prompt Engineering"]

  /** `extract_skills`: the comprehension over the list, then `list(set(...))`. */
  function Skills(text: string): (skills: seq<string>)
    ensures NoDuplicates(skills)
  {
    Dedup(SubstringScan(SkillsList, Lower(text)))
  }

  /**
   * The skills reported are exactly the list's skills, in their canonical case, whose lower-cased
   * name occurs in the lower-cased text; none is reported twice.
   */
  lemma SkillsMembers(text: string)
    ensures forall x :: x in Skills(text) <==> x in SkillsList && Contains(Lower(text), Lower(x))
    ensures |Skills(text)| <= |SkillsList|
  {
    SubstringScanMembers(SkillsList, Lower(text));
  }

  // ---------------------------------------------------------------------------------------
  // Education

  const DegreeKeywords: seq<string> := ["bca", "b.tech", "mca", "b.sc", "msc", "bachelor", "master", "phd"]
  const CollegeKeywords: seq<string> := ["university", "college", "institute", "school of"]

  /** The stripped lines whose lower-cased form mentions one of the keywords, in line order. */
  function StrippedKeywordLines(lines: seq<string>, keywords: seq<string>): (picked: seq<string>)
    ensures |picked| <= |lines|
  {
    SelectLines(lines, keywords, Lower, Strip)
  }

  /** `extract_education`, as a value: the deduplicated degree lines and college lines. */
  function Education(text: string): (education: (seq<string>, seq<string>))
    ensures NoDuplicates(education.0) && NoDuplicates(education.1)
  {
    var lines := Split(text, '\n');
    (Dedup(StrippedKeywordLines(lines, DegreeKeywords)), Dedup(StrippedKeywordLines(lines, CollegeKeywords)))
  }

  /**
   * `extract_education`: one pass over the lines; a line is matched against the degree keywords
   * and, independently, against the college keywords.
   */
  method ExtractEducation(text: string) returns (degrees: seq<string>, colleges: seq<string>)
    ensures (degrees, colleges) == Education(text)
  {
    var lines := Split(text, '\n');
    degrees, colleges := [], [];
    for i := 0 to |lines|
      invariant degrees == StrippedKeywordLines(lines[..i], DegreeKeywords)
      invariant colleges == StrippedKeywordLines(lines[..i], CollegeKeywords)
    {
      SelectLinesSnoc(lines, i, DegreeKeywords, Lower, Strip);
      SelectLinesSnoc(lines, i, CollegeKeywords, Lower, Strip);
      var lower := Lower(lines[i]);
      if MentionsAny(lower, DegreeKeywords) {
        degrees := degrees + [Strip(lines[i])];
      }
      if MentionsAny(lower, CollegeKeywords) {
        colleges := colleges + [Strip(lines[i])];
      }
    }
    assert lines[..|lines|] == lines;
    degrees, colleges := Dedup(degrees), Dedup(colleges);
  }

  /** `x` is the stripped form of one of the lines whose lower-cased form mentions a keyword. */
  predicate StrippedKeywordLine(x: string, lines: seq<string>, keywords: seq<string>) {
    exists k :: 0 <= k < |lines| && MentionsAny(Lower(lines[k]), keywords) && x == Strip(lines[k])
  }

  /** The degrees are exactly the stripped degree lines, the colleges exactly the stripped college lines. */
  lemma EducationMembers(text: string)
    ensures forall x :: x in Education(text).0 <==> StrippedKeywordLine(x, Split(text, '\n'), DegreeKeywords)
    ensures forall x :: x in Education(text).1 <==> StrippedKeywordLine(x, Split(text, '\n'), CollegeKeywords)
  {
    DedupKeywordLinesMembers(Split(text, '\n'), DegreeKeywords);
    DedupKeywordLinesMembers(Split(text, '\n'), CollegeKeywords);
  }

  lemma DedupKeywordLinesMembers(lines: seq<string>, keywords: seq<string>)
    ensures forall x :: x in Dedup(StrippedKeywordLines(lines, keywords)) <==> StrippedKeywordLine(x, lines, keywords)
  {
    SelectLinesMembers(lines, keywords, Lower, Strip);
  }

  /** The two tests are independent: a line naming both a degree and a college is in both lists. */
  lemma LineInBothLists(text: string, k: nat)
    requires k < |Split(text, '\n')|
    requires MentionsAny(Lower(Split(text, '\n')[k]), DegreeKeywords)
    requires MentionsAny(Lower(Split(text, '\n')[k]), CollegeKeywords)
    ensures Strip(Split(text, '\n')[k]) in Education(text).0 && Strip(Split(text, '\n')[k]) in Education(text).1
  {
    EducationMembers(text);
  }

  // ---------------------------------------------------------------------------------------
  // Experience and projects

  /** `{"company": None, "designation": None, "duration": None, "details": ...}` */
  datatype ExperienceRecord = ExperienceRecord(company: Option<string>, designation: Option<string>,
                                               duration: Option<string>, details: string)

  /** `{"title": None, "description": ...}` */
  datatype ProjectRecord = ProjectRecord(title: Option<string>, description: string)

  const ExperienceKeywords: seq<string> := ["worked", "experience", "company", "engineer", "developer"]
  const ProjectKeywords: seq<string> := ["project", "developed", "built", "implemented", "designed"]

  function ExperienceRecordOf(line: string): ExperienceRecord {
    ExperienceRecord(None, None, None, Strip(line))
  }

  function ProjectRecordOf(line: string): ProjectRecord {
    ProjectRecord(None, Strip(line))
  }

  /** `extract_experience`, as a value. */
  function Experience(text: string): (records: seq<ExperienceRecord>)
    ensures |records| <= |Split(text, '\n')|
  {
    SelectLines(Split(text, '\n'), ExperienceKeywords, Lower, ExperienceRecordOf)
  }

  /** `extract_experience`: a record for each line mentioning an experience keyword, any case. */
  method ExtractExperience(text: string) returns (records: seq<ExperienceRecord>)
    ensures records == Experience(text)
  {
    records := CollectLines(Split(text, '\n'), ExperienceKeywords, Lower, ExperienceRecordOf);
  }

  /**
   * One record per experience line, in line order and not deduplicated: the i-th record carries
   * the i-th such line, stripped, as its details, and no company, designation or duration.
   */
  lemma ExperienceRecords(text: string)
    ensures var picked := KeywordLines(Split(text, '\n'), ExperienceKeywords, Lower);
      && |Experience(text)| == |picked|
      && IsSubsequence(picked, Split(text, '\n'))
      && forall i :: 0 <= i < |picked| ==>
           && Experience(text)[i].details == Strip(picked[i])
           && Experience(text)[i].company.None? && Experience(text)[i].designation.None?
           && Experience(text)[i].duration.None?
  {
    SelectLinesRenders(Split(text, '\n'), ExperienceKeywords, Lower, ExperienceRecordOf);
  }

  /** `extract_projects`, as a value. */
  function Projects(text: string): (records: seq<ProjectRecord>)
    ensures |records| <= |Split(text, '\n')|
  {
    SelectLines(Split(text, '\n'), ProjectKeywords, Lower, ProjectRecordOf)
  }

  /** `extract_projects`: a record for each line mentioning a project keyword, any case. */
  method ExtractProjects(text: string) returns (records: seq<ProjectRecord>)
    ensures records == Projects(text)
  {
    records := CollectLines(Split(text, '\n'), ProjectKeywords, Lower, ProjectRecordOf);
  }

  /** One record per project line, in line order: no title, the stripped line as description. */
  lemma ProjectRecords(text: string)
    ensures var picked := KeywordLines(Split(text, '\n'), ProjectKeywords, Lower);
      && |Projects(text)| == |picked|
      && IsSubsequence(picked, Split(text, '\n'))
      && forall i :: 0 <= i < |picked| ==>
           Projects(text)[i].title.None? && Projects(text)[i].description == Strip(picked[i])
  {
    SelectLinesRenders(Split(text, '\n'), ProjectKeywords, Lower, ProjectRecordOf);
  }

  // ---------------------------------------------------------------------------------------
  // parse_resume and its helpers

  /** The helpers `parse_resume` calls that ignore their argument. */
  function ExtractName(text: string): (name: string)
    ensures name == ""
  { "" }

  function ExtractMobile(text: string): (mobile: string)
    ensures mobile == ""
  { "" }

  function ExtractTotalExperience(text: string): (years: int)
    ensures years == 0
  { 0 }


  function ExtractCertifications(text: string): seq<string> { [] }
  function ExtractLanguages(text: string): seq<string> { [] }
  function NormalizeDegrees(degrees: seq<string>): seq<string> { degrees }
  function NormalizeSkills(skills: seq<string>): seq<string> { skills }

  /** The stubs give the same answer for every text, and the normalisers change nothing. */
  lemma StubsIgnoreTheirInput(a: string, b: string, names: seq<string>)
    ensures ExtractName(a) == ExtractName(b) == "" && ExtractMobile(a) == ExtractMobile(b) == ""
    ensures ExtractTotalExperience(a) == ExtractTotalExperience(b) == 0
    ensures ExtractCertifications(a) == ExtractLanguages(b) == []
    ensures NormalizeDegrees(names) == NormalizeSkills(names) == names
  {
  }

  /** A value `parse_resume` looks an attribute up on. */
  datatype PyValue =
    | Dict(entries: map<string, seq<string>>)
    | Pair(first: seq<string>, second: seq<string>)

  /** The parsed resume `parse_resume` would return. */
  datatype ParsedResume = ParsedResume(
    name: string, email: Option<string>, mobileNumber: string,
    collegeName: seq<string>, degree: seq<string>, skills: seq<string>,
    experience: seq<ExperienceRecord>, projects: seq<ProjectRecord>,
    languages: seq<string>, totalExperience: int, certifications: seq<string>)

  datatype ParseOutcome =
    | Parsed(resume: ParsedResume)
    | AttributeError(attribute: string)   // the exception `parse_resume` raises

  /** `value.get(key, [])`: only a dictionary has `get`; a tuple raises AttributeError. */
  function GetOrEmpty(value: PyValue, key: string): (r: Result<seq<string>, string>)
    ensures value.Pair? <==> r.Failure?
    ensures r.Failure? ==> r.error == "get"
  {
    match value
    case Dict(entries) => Success(if key in entries then entries[key] else [])
    case Pair(_, _) => Failure("get")
  }

  /**
   * `parse_resume`. The extractors run first and succeed; building the result then reads
   * `education.get('college_name', [])`, but `extract_education` returned a tuple. The email found
   * by the email regular expression is an input.
   */
  function ParseResume(text: string, email: Option<string>): (outcome: ParseOutcome)
    ensures outcome.AttributeError? && outcome.attribute == "get"
  {
    var education := Education(text);
    var value := Pair(education.0, education.1);
    match GetOrEmpty(value, "college_name")
    case Failure(attr) => AttributeError(attr)
    case Success(colleges) =>
      match GetOrEmpty(value, "degree")
      case Failure(attr) => AttributeError(attr)
      case Success(degrees) =>
        Parsed(ParsedResume(ExtractName(text), email, ExtractMobile(text), colleges, NormalizeDegrees(degrees),
                            NormalizeSkills(Skills(text)), Experience(text), Projects(text),
                            ExtractLanguages(text), ExtractTotalExperience(text), ExtractCertifications(text)))
  }

  /** `parse_resume` fails on every text, with the missing attribute `get`. */
  lemma ParseResumeAlwaysFails(text: string, email: Option<string>)
    ensures ParseResume(text, email) == AttributeError("get")
  {
  }
}
