/**
 * The usage-tracking route of the later front-end: it checks that a user and a feature are named,
 * looks the feature's monthly limit up for the plan (-1 for unlimited), draws a mock current usage,
 * counts one more use, and reports whether that use is within the limit.
 */
module UsageTrackRoute {
  import opened Wrappers

  /** A plan's limit for each feature, in the order of the table. */
  datatype FeatureLimits = FeatureLimits(
    aiChats: int, atsAnalysis: int, coverLetterGeneration: int, resumeParsing: int,
    jobMatching: int, linkedinOptimization: int, voiceAssistant: int)

  /** The `limits` table: the plan's row, or none for a plan it does not list. */
  function PlanRow(plan: string): (row: Option<FeatureLimits>)
    ensures row.Some? <==> plan == "free" || plan == "plus" || plan == "pro"
  {
    match plan
    case "free" => Some(FeatureLimits(5, 3, 2, 0, 0, 0, 0))
    case "plus" => Some(FeatureLimits(100, 50, 25, 20, 30, 10, 0))
    case "pro" => Some(FeatureLimits(-1, -1, -1, -1, -1, -1, -1))
    case _ => None
  }

  /** The row's entry for a feature, or none for a feature it does not list. */
  function FeatureEntry(row: FeatureLimits, feature: string): (limit: Option<int>)
  {
    match feature
    case "ai_chats" => Some(row.aiChats)
    case "ats_analysis" => Some(row.atsAnalysis)
    case "cover_letter_generation" => Some(row.coverLetterGeneration)
    case "resume_parsing" => Some(row.resumeParsing)
    case "job_matching" => Some(row.jobMatching)
    case "linkedin_optimization" => Some(row.linkedinOptimization)
    case "voice_assistant" => Some(row.voiceAssistant)
    case _ => None
  }

  /** `getFeatureLimit`: the table entry, 0 when the plan or the feature is unknown (`|| 0`). */
  function FeatureLimit(feature: string, plan: string): (limit: int)
    ensures limit >= -1
    ensures PlanRow(plan).None? ==> limit == 0
    ensures PlanRow(plan).Some? && FeatureEntry(PlanRow(plan).value, feature).None? ==> limit == 0
    ensures plan == "pro" && FeatureEntry(PlanRow(plan).value, feature).Some? ==> limit == -1
  {
    match PlanRow(plan)
    case None => 0
    case Some(row) => FeatureEntry(row, feature).GetOr(0)
  }

  /** The limits in their own words: the free plan gets 5 chats, 3 analyses, 2 letters and nothing else. */
  lemma FeatureLimitTable()
    ensures FeatureLimit("ai_chats", "free") == 5 && FeatureLimit("ats_analysis", "free") == 3
    ensures FeatureLimit("cover_letter_generation", "free") == 2 && FeatureLimit("job_matching", "free") == 0
    ensures FeatureLimit("voice_assistant", "plus") == 0 && FeatureLimit("job_matching", "plus") == 30
    ensures FeatureLimit("voice_assistant", "pro") == -1 && FeatureLimit("ai_chats", "enterprise") == 0
  {
  }

  /**
   * The mock `currentUsage`: `Math.floor(Math.random() * Math.max(1, limit / 2))`, with the random
   * draw in [0, 1) as an input.
   */
  function MockUsage(limit: int, random: real): (usage: int)
    requires 0.0 <= random < 1.0
    ensures 0 <= usage
    ensures limit <= 2 ==> usage == 0
    ensures (usage as real) < (if limit as real / 2.0 > 1.0 then limit as real / 2.0 else 1.0)
  {
    var scale := if limit as real / 2.0 > 1.0 then limit as real / 2.0 else 1.0;
    assert 0.0 <= random * scale < scale;
    (random * scale).Floor
  }

  /** The fields of the request body; an absent `userPlan` means "free". */
  datatype TrackRequest = TrackRequest(userId: Option<string>, feature: Option<string>, userPlan: Option<string>)

  /** The JSON the route answers with. */
  datatype TrackResponse = TrackResponse(
    success: bool, currentUsage: int, limit: int, remaining: int, plan: string, feature: string)

  /** JavaScript's truth test on an optional string: absent and empty are both false. */
  predicate Present(s: Option<string>) {
    s.Some? && s.value != ""
  }

  /**
   * `POST`. A body that is not JSON (`None`) raises and yields 500; a missing user or feature
   * yields 400.
   */
  function Track(body: Option<TrackRequest>, random: real): (r: HttpResult<TrackResponse>)
    requires 0.0 <= random < 1.0
    ensures body.None? <==> r == HttpError(500)
    ensures body.Some? && (!Present(body.value.userId) || !Present(body.value.feature)) <==> r == HttpError(400)
    ensures r.Ok? ==> r.value.plan == body.value.userPlan.GetOr("free") && r.value.feature == body.value.feature.value
    ensures r.Ok? ==> r.value.limit == FeatureLimit(r.value.feature, r.value.plan)
  {
    match body
    case None => HttpError(500)
    case Some(req) =>
      if !Present(req.userId) || !Present(req.feature) then HttpError(400)
      else
        var plan := req.userPlan.GetOr("free");
        var limit := FeatureLimit(req.feature.value, plan);
        var newUsage := MockUsage(limit, random) + 1;
        var allowed := limit == -1 || newUsage <= limit;
        Ok(TrackResponse(allowed, newUsage, limit, if limit == -1 then -1 else Max(0, limit - newUsage),
                         plan, req.feature.value))
  }

  /**
   * The arithmetic of an answer: one use more than the drawn usage, allowed exactly when the limit
   * is -1 or not exceeded, and the remaining count -1 for unlimited, otherwise never negative and
   * zero once the limit is reached.
   */
  lemma TrackArithmetic(body: TrackRequest, random: real)
    requires 0.0 <= random < 1.0
    requires Present(body.userId) && Present(body.feature)
    ensures var r := Track(Some(body), random).value;
      && r.currentUsage == MockUsage(r.limit, random) + 1
      && (r.success <==> r.limit == -1 || r.currentUsage <= r.limit)
      && (r.limit == -1 <==> r.remaining == -1)
      && (r.limit != -1 ==> r.remaining >= 0 && r.remaining == Max(0, r.limit - r.currentUsage))
      && (r.limit == 0 ==> !r.success && r.remaining == 0)
  {
  }

  /**
   * Because the mock usage is drawn below half the limit, a tracked use is refused only for a
   * feature whose limit is 0: every positive or unlimited limit lets the use through.
   */
  lemma RefusedOnlyAtZero(body: TrackRequest, random: real)
    requires 0.0 <= random < 1.0
    requires Present(body.userId) && Present(body.feature)
    ensures var r := Track(Some(body), random).value;
      !r.success <==> r.limit == 0
  {
    var plan := body.userPlan.GetOr("free");
    var limit := FeatureLimit(body.feature.value, plan);
    var usage := MockUsage(limit, random);
    if limit >= 2 {
      assert (usage as real) < limit as real / 2.0;
      assert usage + 1 <= limit;
    }
  }
}
