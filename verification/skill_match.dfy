/**
 * The comparison every job matcher of the backend performs: the job's skills split into those
 * the resume has (matched) and those it lacks (missing), the resume's skills the job does not ask
 * for (extra), and the match score `len(matched) / max(1, len(job_skills)) * 100`.
 * Membership is exact string equality, as in Python's `in` on a list.
 */
module SkillMatch {
  import opened Wrappers
  import opened Text

  /** `[s for s in job if s in resume]` */
  function Matched(job: seq<string>, resume: seq<string>): (m: seq<string>)
    ensures |m| <= |job|
  {
    if |job| == 0 then []
    else (if job[0] in resume then [job[0]] else []) + Matched(job[1..], resume)
  }

  /** `[s for s in job if s not in resume]` */
  function Missing(job: seq<string>, resume: seq<string>): (m: seq<string>)
    ensures |m| <= |job|
  {
    if |job| == 0 then []
    else (if job[0] !in resume then [job[0]] else []) + Missing(job[1..], resume)
  }

  /** `[s for s in resume if s not in job]`: the resume's skills the job does not mention. */
  function Extra(job: seq<string>, resume: seq<string>): (e: seq<string>)
    ensures |e| <= |resume|
  {
    Missing(resume, job)
  }

  /**
   * Matched holds the job's skills that are on the resume, missing those that are not,
   * extra the resume's skills that are not in the job.
   */
  lemma {:induction false} ComparisonMembers(job: seq<string>, resume: seq<string>)
    ensures forall x :: x in Matched(job, resume) <==> x in job && x in resume
    ensures forall x :: x in Missing(job, resume) <==> x in job && x !in resume
    ensures forall x :: x in Extra(job, resume) <==> x in resume && x !in job
  {
    MissingMembers(resume, job);
    MatchedMembers(job, resume);
    MissingMembers(job, resume);
  }

  lemma {:induction false} MatchedMembers(job: seq<string>, resume: seq<string>)
    ensures forall x :: x in Matched(job, resume) <==> x in job && x in resume
  {
    if |job| > 0 {
      MatchedMembers(job[1..], resume);
      assert forall x :: x in job <==> x == job[0] || x in job[1..];
    }
  }

  lemma {:induction false} MissingMembers(job: seq<string>, resume: seq<string>)
    ensures forall x :: x in Missing(job, resume) <==> x in job && x !in resume
  {
    if |job| > 0 {
      MissingMembers(job[1..], resume);
      assert forall x :: x in job <==> x == job[0] || x in job[1..];
    }
  }

  /** Matched and missing split the job's skill list: every entry, with its multiplicity, lands in exactly one. */
  lemma MatchedMissingPartition(job: seq<string>, resume: seq<string>)
    ensures multiset(Matched(job, resume)) + multiset(Missing(job, resume)) == multiset(job)
    ensures |Matched(job, resume)| + |Missing(job, resume)| == |job|
  {
    PartitionMultiset(job, resume);
    assert |multiset(Matched(job, resume)) + multiset(Missing(job, resume))| == |multiset(job)|;
  }

  lemma {:induction false} PartitionMultiset(job: seq<string>, resume: seq<string>)
    ensures multiset(Matched(job, resume)) + multiset(Missing(job, resume)) == multiset(job)
  {
    if |job| > 0 {
      var rest := job[1..];
      PartitionMultiset(rest, resume);
      assert job == [job[0]] + rest;
      if job[0] in resume {
        assert Matched(job, resume) == [job[0]] + Matched(rest, resume);
        assert Missing(job, resume) == Missing(rest, resume);
      } else {
        assert Matched(job, resume) == Matched(rest, resume);
        assert Missing(job, resume) == [job[0]] + Missing(rest, resume);
      }
      PartitionStep(job[0], Matched(rest, resume), Missing(rest, resume), rest);
    }
  }

  /** Putting one more element in front of either part keeps the partition of the longer list. */
  lemma PartitionStep(x: string, m: seq<string>, n: seq<string>, rest: seq<string>)
    requires multiset(m) + multiset(n) == multiset(rest)
    ensures multiset([x] + m) + multiset(n) == multiset([x] + rest)
    ensures multiset(m) + multiset([x] + n) == multiset([x] + rest)
  {
    assert multiset([x] + m) == multiset{x} + multiset(m);
    assert multiset([x] + n) == multiset{x} + multiset(n);
    assert multiset([x] + rest) == multiset{x} + multiset(rest);
  }

  /** Matched keeps the job's order. */
  lemma {:induction false} MatchedInJobOrder(job: seq<string>, resume: seq<string>)
    ensures IsSubsequence(Matched(job, resume), job)
  {
    if |job| > 0 {
      MatchedInJobOrder(job[1..], resume);
      var m := Matched(job, resume);
      if job[0] in resume {
        assert m[1..] == Matched(job[1..], resume);
      } else {
        assert m == Matched(job[1..], resume);
        SubsequenceOfTail(m, job);
      }
    }
  }

  /** Missing keeps the job's order. */
  lemma {:induction false} MissingInJobOrder(job: seq<string>, resume: seq<string>)
    ensures IsSubsequence(Missing(job, resume), job)
  {
    if |job| > 0 {
      MissingInJobOrder(job[1..], resume);
      var m := Missing(job, resume);
      if job[0] !in resume {
        assert m[1..] == Missing(job[1..], resume);
      } else {
        assert m == Missing(job[1..], resume);
        SubsequenceOfTail(m, job);
      }
    }
  }

  /** `len(matched) / max(1, len(job_skills)) * 100` */
  function MatchScore(matchedCount: nat, jobCount: nat): (score: real)
    ensures jobCount == 0 ==> score == matchedCount as real * 100.0
    ensures matchedCount == 0 ==> score == 0.0
    ensures matchedCount <= jobCount ==> 0.0 <= score <= 100.0
    ensures 0 < matchedCount == jobCount ==> score == 100.0
  {
    var d := Max(1, jobCount);
    var score := matchedCount as real / d as real * 100.0;
    if matchedCount <= jobCount then FractionAtMostOne(matchedCount, d); score else score
  }

  lemma FractionAtMostOne(a: nat, b: nat)
    requires 0 < b && a <= b
    ensures 0.0 <= a as real / b as real <= 1.0
    ensures a == b ==> a as real / b as real == 1.0
  {
    var q := a as real / b as real;
    assert q * b as real == a as real;
    assert (1.0 - q) * b as real == (b - a) as real;
  }

  /** When no job skill is on the resume, nothing is matched. */
  lemma {:induction false} NoneMatched(job: seq<string>, resume: seq<string>)
    requires forall k :: 0 <= k < |job| ==> job[k] !in resume
    ensures Matched(job, resume) == []
  {
    if |job| > 0 {
      NoneMatched(job[1..], resume);
    }
  }

  /** When every job skill is on the resume, nothing is missing. */
  lemma {:induction false} NoneMissing(job: seq<string>, resume: seq<string>)
    requires forall k :: 0 <= k < |job| ==> job[k] in resume
    ensures Missing(job, resume) == []
  {
    if |job| > 0 {
      NoneMissing(job[1..], resume);
    }
  }

  /**
   * The score of a comparison lies between 0 and 100; it is 0 when the job lists no skill or
   * when none of its skills is on the resume, and 100 when every one of them is.
   */
  lemma ScoreOfComparison(job: seq<string>, resume: seq<string>)
    ensures 0.0 <= MatchScore(|Matched(job, resume)|, |job|) <= 100.0
    ensures (forall k :: 0 <= k < |job| ==> job[k] !in resume) ==> MatchScore(|Matched(job, resume)|, |job|) == 0.0
    ensures |job| > 0 && (forall k :: 0 <= k < |job| ==> job[k] in resume) ==> MatchScore(|Matched(job, resume)|, |job|) == 100.0
  {
    MatchedMissingPartition(job, resume);
    if forall k :: 0 <= k < |job| ==> job[k] !in resume {
      NoneMatched(job, resume);
    }
    if forall k :: 0 <= k < |job| ==> job[k] in resume {
      NoneMissing(job, resume);
    }
  }

  /**
   * What a comparison of a job's skills with a resume's promises: matched and missing split the
   * job's list (with multiplicity, in job order) by membership in the resume, and the score is
   * the matched share, in percent, between 0 and 100 and 0 for a job without skills.
   */
  ghost predicate IsComparison(job: seq<string>, resume: seq<string>, matched: seq<string>, missing: seq<string>, score: real)
  {
    && multiset(matched) + multiset(missing) == multiset(job)
    && IsSubsequence(matched, job) && IsSubsequence(missing, job)
    && (forall x :: x in matched <==> x in job && x in resume)
    && (forall x :: x in missing <==> x in job && x !in resume)
    && score == MatchScore(|matched|, |job|)
    && 0.0 <= score <= 100.0
    && (|job| == 0 ==> score == 0.0)
  }

  /** The comprehensions and the score formula of the matchers make a comparison. */
  lemma ComparisonHolds(job: seq<string>, resume: seq<string>)
    ensures IsComparison(job, resume, Matched(job, resume), Missing(job, resume), MatchScore(|Matched(job, resume)|, |job|))
    ensures forall x :: x in Extra(job, resume) <==> x in resume && x !in job
  {
    ComparisonMembers(job, resume);
    MatchedMissingPartition(job, resume);
    MatchedInJobOrder(job, resume);
    MissingInJobOrder(job, resume);
    ScoreOfComparison(job, resume);
  }

  /** What came back from the AI service for an analysis request. */
  datatype AiReply =
    | NoApiKey              // no API key configured: the service is not called
    | Answered(text: string) // a reply that parsed (as JSON where the caller parses it)
    | Raised                // the request or the parsing of its reply raised an exception

  /**
   * The analysis part of a match result: the AI's reply, or the fallback built when no API key
   * is configured (with the match percentage where the fallback reports one).
   */
  datatype Analysis =
    | FromAi(text: string)
    | Fallback(matchPercentage: Option<real>, strengths: seq<string>, improvements: seq<string>)

  /** The categories of a skills lexicon concatenated in order. */
  function Flatten(db: seq<seq<string>>): seq<string>
  {
    if |db| == 0 then [] else db[0] + Flatten(db[1..])
  }

  lemma {:induction false} FlattenAppend(db: seq<seq<string>>, last: seq<string>)
    ensures Flatten(db + [last]) == Flatten(db) + last
  {
    if |db| > 0 {
      assert (db + [last])[1..] == db[1..] + [last];
      FlattenAppend(db[1..], last);
    }
  }

  /** The length of the flattened lexicon is the sum of the category lengths. */
  function TotalLength(db: seq<seq<string>>): (n: nat)
  {
    if |db| == 0 then 0 else |db[0]| + TotalLength(db[1..])
  }

  lemma {:induction false} FlattenLength(db: seq<seq<string>>)
    ensures |Flatten(db)| == TotalLength(db)
  {
    if |db| > 0 {
      FlattenLength(db[1..]);
    }
  }

  /** The skills of `skills`, in order, whose lower-cased name is a substring of the text. */
  function SubstringScan(skills: seq<string>, textLower: string): (found: seq<string>)
    ensures |found| <= |skills|
  {
    if |skills| == 0 then []
    else
      var last := skills[|skills| - 1];
      SubstringScan(skills[..|skills| - 1], textLower) + (if Contains(textLower, Lower(last)) then [last] else [])
  }

  /** The loop `for skill in skills: if skill.lower() in text_lower: found.append(skill)`. */
  method ScanSkills(skills: seq<string>, textLower: string) returns (found: seq<string>)
    ensures found == SubstringScan(skills, textLower)
  {
    found := [];
    for i := 0 to |skills|
      invariant found == SubstringScan(skills[..i], textLower)
    {
      var skill := skills[i];
      if Contains(textLower, Lower(skill)) {
        found := found + [skill];
      }
      assert skills[..i + 1][..i] == skills[..i];
    }
    assert skills[..|skills|] == skills;
  }

  /**
   * The scan reports exactly the lexicon's skills whose lower-cased name occurs in the
   * lower-cased text, in lexicon order (category order, then list order).
   */
  lemma {:induction false} SubstringScanMembers(skills: seq<string>, textLower: string)
    ensures forall x :: x in SubstringScan(skills, textLower) <==> x in skills && Contains(textLower, Lower(x))
    ensures IsSubsequence(SubstringScan(skills, textLower), skills)
  {
    if |skills| > 0 {
      var init := skills[..|skills| - 1];
      var last := skills[|skills| - 1];
      SubstringScanMembers(init, textLower);
      assert skills == init + [last];
      assert forall x :: x in skills <==> x in init || x == last;
      SubsequenceSnoc(SubstringScan(init, textLower), init, last, Contains(textLower, Lower(last)));
    }
  }
}
