/**
 * The job-match route of the first front-end: it scores a fixed catalogue of six jobs by the
 * overlap between the candidate's skills and each job's skills, adds a random jitter of 0 to 9,
 * sorts by score, highest first, and answers with the top five.
 */
module JobMatchRoute {
  import opened Wrappers
  import opened Text

  datatype Job = Job(id: string, title: string, company: string, location: string, salary: string,
                     description: string, matchScore: int, skills: seq<string>)

  /** The catalogue `findMatchingJobs` scores: six jobs of five skills each. */
  function Catalogue(): (jobs: seq<Job>)
    ensures WellFormedCatalogue(jobs)
  {
    [CatalogueJob1(), CatalogueJob2(), CatalogueJob3(), CatalogueJob4(), CatalogueJob5(), CatalogueJob6()]
  }

  function CatalogueJob1(): (job: Job)
    ensures job.id == "1" && |job.skills| == 5
  {
    Job("1", "Senior Software Engineer", "TechCorp", "San Francisco, CA", "$120,000 - $180,000",
      "Build scalable web applications using React, Node.js, and cloud technologies.", 95,
      ["JavaScript", "React", "Node.js", "TypeScript", "AWS"])
  }

  function CatalogueJob2(): (job: Job)
    ensures job.id == "2" && |job.skills| == 5
  {
    Job("2", "Full Stack Developer", "StartupXYZ", "New York, NY", "$90,000 - $130,000",
      "Develop end-to-end solutions with modern web technologies.", 88,
      ["JavaScript", "React", "Python", "SQL", "Git"])
  }

  function CatalogueJob3(): (job: Job)
    ensures job.id == "3" && |job.skills| == 5
  {
    Job("3", "DevOps Engineer", "CloudTech", "Austin, TX", "$100,000 - $150,000",
      "Manage infrastructure and deployment pipelines.", 82,
      ["Docker", "Kubernetes", "AWS", "Git", "CI/CD"])
  }

  function CatalogueJob4(): (job: Job)
    ensures job.id == "4" && |job.skills| == 5
  {
    Job("4", "Frontend Developer", "DesignStudio", "Los Angeles, CA", "$80,000 - $120,000",
      "Create beautiful user interfaces with React and modern CSS.", 78,
      ["JavaScript", "React", "TypeScript", "CSS", "HTML"])
  }

  function CatalogueJob5(): (job: Job)
    ensures job.id == "5" && |job.skills| == 5
  {
    Job("5", "Backend Engineer", "DataFlow", "Seattle, WA", "$110,000 - $160,000",
      "Build robust APIs and database systems.", 85,
      ["Python", "Node.js", "PostgreSQL", "MongoDB", "REST APIs"])
  }

  function CatalogueJob6(): (job: Job)
    ensures job.id == "6" && |job.skills| == 5
  {
    Job("6", "Machine Learning Engineer", "AI Innovations", "Boston, MA", "$130,000 - $200,000",
      "Develop AI models and data pipelines.", 72,
      ["Python", "Machine Learning", "TensorFlow", "SQL", "AWS"])
  }

  // ---------------------------------------------------------------------------------------
  // Scoring one job

  /** A candidate skill and a job skill are related when either contains the other, ignoring case. */
  predicate Related(skill: string, jobSkill: string) {
    Contains(Lower(jobSkill), Lower(skill)) || Contains(Lower(skill), Lower(jobSkill))
  }

  /** The candidate skill is related to some skill of the job. */
  predicate RelatedToJob(jobSkills: seq<string>, skill: string) {
    exists k :: 0 <= k < |jobSkills| && Related(skill, jobSkills[k])
  }

  /** `skillMatches`: how many of the candidate's skills relate to some skill of the job. */
  function SkillMatches(skills: seq<string>, jobSkills: seq<string>): (m: nat)
    ensures m <= |skills|
    ensures m == 0 <==> forall x :: x in skills ==> !RelatedToJob(jobSkills, x)
  {
    var kept := Filter((s: string) => RelatedToJob(jobSkills, s), skills);
    assert forall x :: x in kept <==> x in skills && RelatedToJob(jobSkills, x);
    if |kept| > 0 then assert kept[0] in kept; |kept| else |kept|
  }

  /**
   * `Math.min(100, Math.round(matches / denominator * 100))`, the rounding taken half up as
   * `Math.round` does.
   */
  function BaseScore(matches: nat, denominator: nat): (score: int)
    requires denominator > 0
    ensures matches <= denominator ==> 0 <= score <= 100
    ensures matches == 0 ==> score == 0
    ensures matches == denominator ==> score == 100
  {
    RoundedShareBounds(matches, denominator);
    Min(100, (200 * matches + denominator) / (2 * denominator))
  }

  /** The bounds of the rounded share `matches / denominator * 100`, before the cap at 100. */
  lemma RoundedShareBounds(matches: nat, denominator: nat)
    requires denominator > 0
    ensures matches <= denominator ==> (200 * matches + denominator) / (2 * denominator) <= 100
    ensures matches == denominator ==> (200 * matches + denominator) / (2 * denominator) >= 100
    ensures matches == 0 ==> (200 * matches + denominator) / (2 * denominator) == 0
  {
    if matches <= denominator {
      assert 200 * matches + denominator < 101 * (2 * denominator);
      QuotientBelow(200 * matches + denominator, 2 * denominator, 101);
    }
    if matches == denominator {
      assert 100 * (2 * denominator) <= 200 * matches + denominator;
      QuotientAtLeast(200 * matches + denominator, 2 * denominator, 100);
    }
    if matches == 0 {
      QuotientBelow(denominator, 2 * denominator, 1);
    }
  }

  lemma QuotientBelow(x: nat, b: nat, a: nat)
    requires b > 0 && x < a * b
    ensures x / b < a
  {
  }

  lemma QuotientAtLeast(x: nat, b: nat, a: nat)
    requires b > 0 && a * b <= x
    ensures x / b >= a
  {
    var q := x / b;
    assert x == b * q + x % b;
    if q < a {
      MultiplyMonotone(b, q + 1, a);
      assert false;
    }
  }

  lemma MultiplyMonotone(b: nat, m: nat, n: nat)
    requires m <= n
    ensures b * m <= b * n
  {
  }

  /** The job with its score replaced: the base score plus the jitter `Math.floor(Math.random() * 10)`. */
  function Scored(job: Job, skills: seq<string>, jitter: nat): (scored: Job)
    requires |job.skills| > 0
    ensures scored == job.(matchScore := scored.matchScore)
    ensures jitter <= scored.matchScore <= 100 + jitter
  {
    var base := BaseScore(SkillMatches(skills, job.skills), Max(|skills|, |job.skills|));
    job.(matchScore := base + jitter)
  }

  /** A candidate listing no skills scores only the jitter. */
  lemma NoSkillsScoresJitter(job: Job, jitter: nat)
    requires |job.skills| > 0
    ensures Scored(job, [], jitter).matchScore == jitter
  {
  }

  lemma ContainsItself(s: string)
    ensures Contains(s, s)
  {
    assert OccursAt(s, s, 0);
  }

  /**
   * A candidate listing exactly the job's skills gets the full base score of 100, so any jitter
   * above 0 takes the reported score past 100.
   */
  lemma OwnSkillsScoreAboveHundred(job: Job, jitter: nat)
    requires |job.skills| > 0
    ensures Scored(job, job.skills, jitter).matchScore == 100 + jitter
  {
    forall k | 0 <= k < |job.skills|
      ensures RelatedToJob(job.skills, job.skills[k])
    {
      ContainsItself(Lower(job.skills[k]));
      assert Related(job.skills[k], job.skills[k]);
    }
    FilterKeepsAll((s: string) => RelatedToJob(job.skills, s), job.skills);
  }

  // ---------------------------------------------------------------------------------------
  // Sorting and the top five

  /** Non-increasing by score. */
  predicate SortedByScore(jobs: seq<Job>) {
    forall i, j :: 0 <= i < j < |jobs| ==> jobs[i].matchScore >= jobs[j].matchScore
  }

  /** `x` inserted into a sorted list ahead of the first job whose score does not exceed its own. */
  function Insert(x: Job, jobs: seq<Job>): (r: seq<Job>)
    requires SortedByScore(jobs)
    ensures |r| == |jobs| + 1
    ensures r[0] == x || (|jobs| > 0 && r[0] == jobs[0])
    ensures multiset(r) == multiset(jobs) + multiset{x}
    ensures SortedByScore(r)
  {
    if |jobs| == 0 then [x]
    else if jobs[0].matchScore <= x.matchScore then [x] + jobs
    else
      var rest := Insert(x, jobs[1..]);
      assert jobs == [jobs[0]] + jobs[1..];
      HeadDominates(jobs[0], rest);
      [jobs[0]] + rest
  }

  /** A job scoring at least the head of a sorted list may go in front of it. */
  lemma HeadDominates(head: Job, rest: seq<Job>)
    requires SortedByScore(rest)
    requires |rest| > 0 ==> head.matchScore >= rest[0].matchScore
    ensures SortedByScore([head] + rest)
  {
    var r := [head] + rest;
    forall i, j | 0 <= i < j < |r|
      ensures r[i].matchScore >= r[j].matchScore
    {
      if i == 0 && j > 1 {
        assert rest[0].matchScore >= rest[j - 1].matchScore;
      }
    }
  }

  /** `sort((a, b) => b.matchScore - a.matchScore)`: a permutation, highest score first. */
  function SortByScore(jobs: seq<Job>): (r: seq<Job>)
    ensures multiset(r) == multiset(jobs)
    ensures |r| == |jobs|
    ensures SortedByScore(r)
  {
    if |jobs| == 0 then []
    else
      assert jobs == [jobs[0]] + jobs[1..];
      var r := Insert(jobs[0], SortByScore(jobs[1..]));
      assert |r| == |multiset(r)|;
      r
  }

  /** A catalogue of six jobs, each with at least one skill, as the one above. */
  predicate WellFormedCatalogue(catalogue: seq<Job>) {
    |catalogue| == 6 && forall k :: 0 <= k < |catalogue| ==> |catalogue[k].skills| > 0
  }

  /** Random draws `Math.floor(Math.random() * 10)`, one per job. */
  predicate Jitters(catalogue: seq<Job>, jitters: seq<nat>) {
    |jitters| == |catalogue| && forall k :: 0 <= k < |jitters| ==> jitters[k] < 10
  }

  /** The scored catalogue, one jitter per job. */
  function ScoredCatalogue(catalogue: seq<Job>, skills: seq<string>, jitters: seq<nat>): (jobs: seq<Job>)
    requires WellFormedCatalogue(catalogue) && Jitters(catalogue, jitters)
    ensures |jobs| == |catalogue|
    ensures forall k :: 0 <= k < |jobs| ==> jobs[k] == Scored(catalogue[k], skills, jitters[k])
  {
    seq(|catalogue|, k requires 0 <= k < |catalogue| => Scored(catalogue[k], skills, jitters[k]))
  }

  /** `findMatchingJobs`: the scored catalogue, sorted, cut to its first five. */
  function FindMatchingJobs(catalogue: seq<Job>, skills: seq<string>, jitters: seq<nat>): (top: seq<Job>)
    requires WellFormedCatalogue(catalogue) && Jitters(catalogue, jitters)
    ensures |top| == 5
    ensures SortedByScore(top)
  {
    SortByScore(ScoredCatalogue(catalogue, skills, jitters))[..5]
  }

  /**
   * The five returned are the sorted scored catalogue without its last job, and each of them
   * scores at least as high as the job left out.
   */
  lemma FindMatchingJobsTopFive(catalogue: seq<Job>, skills: seq<string>, jitters: seq<nat>)
    requires WellFormedCatalogue(catalogue) && Jitters(catalogue, jitters)
    ensures var scored := ScoredCatalogue(catalogue, skills, jitters);
      var left := SortByScore(scored)[5];
      && multiset(FindMatchingJobs(catalogue, skills, jitters)) + multiset{left} == multiset(scored)
      && forall i :: 0 <= i < 5 ==> FindMatchingJobs(catalogue, skills, jitters)[i].matchScore >= left.matchScore
  {
    var sorted := SortByScore(ScoredCatalogue(catalogue, skills, jitters));
    assert sorted == sorted[..5] + [sorted[5]];
  }

  /**
   * Every job returned is a catalogue job with only its score changed, and that score lies
   * between 0 and 109.
   */
  lemma FindMatchingJobsFromCatalogue(catalogue: seq<Job>, skills: seq<string>, jitters: seq<nat>)
    requires WellFormedCatalogue(catalogue) && Jitters(catalogue, jitters)
    ensures forall j :: j in FindMatchingJobs(catalogue, skills, jitters) ==>
      && (exists k :: 0 <= k < |catalogue| && j == catalogue[k].(matchScore := j.matchScore))
      && 0 <= j.matchScore <= 109
  {
    var scored := ScoredCatalogue(catalogue, skills, jitters);
    var sorted := SortByScore(scored);
    forall j | j in sorted[..5]
      ensures (exists k :: 0 <= k < |catalogue| && j == catalogue[k].(matchScore := j.matchScore))
      ensures 0 <= j.matchScore <= 109
    {
      assert j in multiset(sorted);
      assert j in multiset(scored);
      var k :| 0 <= k < |scored| && scored[k] == j;
      assert j == Scored(catalogue[k], skills, jitters[k]);
    }
  }

  // ---------------------------------------------------------------------------------------
  // The route

  /** The `skills` field of the request body. */
  datatype SkillsField = Absent | NotAnArray | SkillArray(items: seq<string>)

  datatype MatchResponse = MatchResponse(jobs: seq<Job>, total: nat)

  /**
   * `POST`, scoring `catalogue` (the route's is `Catalogue()`): a body that is not JSON (`None`)
   * raises and yields 500; a missing skills field or one that is not an array yields 400;
   * otherwise the top five and their count. The `experience` field is read but not used.
   */
  function MatchJobs(catalogue: seq<Job>, body: Option<SkillsField>, jitters: seq<nat>): (r: HttpResult<MatchResponse>)
    requires WellFormedCatalogue(catalogue) && Jitters(catalogue, jitters)
    ensures body.None? <==> r == HttpError(500)
    ensures body.Some? && !body.value.SkillArray? <==> r == HttpError(400)
    ensures r.Ok? ==> r.value.total == |r.value.jobs| == 5
    ensures r.Ok? ==> r.value.jobs == FindMatchingJobs(catalogue, body.value.items, jitters)
  {
    match body
    case None => HttpError(500)
    case Some(Absent) => HttpError(400)
    case Some(NotAnArray) => HttpError(400)
    case Some(SkillArray(skills)) =>
      var jobs := FindMatchingJobs(catalogue, skills, jitters);
      Ok(MatchResponse(jobs, |jobs|))
  }
}
