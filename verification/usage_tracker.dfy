/**
 * The in-memory usage tracker of the backend: one counter per `user:feature` key, rolled over
 * when the calendar month changes. The clock is a parameter (`now`): every call reads a single
 * instant, which the source reads with `datetime.utcnow()`.
 */
module UsageTracker {
  import opened Wrappers

  /** A UTC timestamp; only the year and the month take part in the rollover rule. */
  datatype Instant = Instant(year: int, month: int, withinMonth: int)

  datatype UsageRecord = UsageRecord(userId: string, feature: string, usageCount: int, resetDate: Instant, plan: string)

  /** The answer of `check_usage_limit`; `resetDate` is absent on the first-use answer. */
  datatype LimitCheck = LimitCheck(allowed: bool, currentUsage: int, limit: int, plan: string, resetDate: Option<Instant>)

  /** One entry of the usage summary. */
  datatype FeatureStatus = FeatureStatus(name: string, available: bool, currentUsage: int, limit: int, resetDate: Instant)

  /** The six features the tracker's limit table knows. */
  const TrackedFeatures: set<string> :=
    {"ai_chat", "resume_analysis", "job_matching", "cover_letter", "linkedin_optimization", "voice_assistant"}

  /** Per-plan limits of the tracker; -1 stands for "unlimited". */
  const Limits: map<string, map<string, int>> := map[
    "free" := map["ai_chat" := 5, "resume_analysis" := 2, "job_matching" := 3,
                  "cover_letter" := 1, "linkedin_optimization" := 1, "voice_assistant" := 0],
    "plus" := map["ai_chat" := 50, "resume_analysis" := 10, "job_matching" := 15,
                  "cover_letter" := 5, "linkedin_optimization" := 5, "voice_assistant" := 10],
    "pro" := map["ai_chat" := -1, "resume_analysis" := -1, "job_matching" := -1,
                 "cover_letter" := -1, "linkedin_optimization" := -1, "voice_assistant" := -1]
  ]

  /** `get_usage_key`: the user id, a colon, the feature. */
  function UsageKey(userId: string, feature: string): (key: string)
    ensures |key| == |userId| + 1 + |feature|
    ensures userId + ":" <= key
    ensures key[|userId| + 1..] == feature
  {
    userId + ":" + feature
  }

  /** The keys the source attributes to a user: those starting with `user_id + ":"`. */
  predicate IsUserKey(key: string, userId: string) {
    userId + ":" <= key
  }

  /** Two different (user, feature) pairs can share one key, since ids may contain colons. */
  lemma KeysCollide()
    ensures UsageKey("a", "b:c") == UsageKey("a:b", "c")
  {
  }

  /** The prefix test for user "a" also picks up the keys of user "a:b". */
  lemma PrefixCatchesOtherUser()
    ensures IsUserKey(UsageKey("a:b", "c"), "a")
  {
  }

  /** Every key of a user's own records passes the prefix test. */
  lemma OwnKeyIsUserKey(userId: string, feature: string)
    ensures IsUserKey(UsageKey(userId, feature), userId)
  {
  }

  /** `_should_reset`: the stored date lies in another calendar month than `now`. */
  predicate ShouldReset(resetDate: Instant, now: Instant)
    ensures ShouldReset(resetDate, now) ==> resetDate != now
    ensures resetDate.year == now.year && resetDate.month == now.month ==> !ShouldReset(resetDate, now)
  {
    now.year != resetDate.year || now.month != resetDate.month
  }

  /** `_get_feature_limit`: the table value, 0 for an unknown plan or feature. */
  function FeatureLimit(feature: string, plan: string): (limit: int)
    ensures limit >= -1
    ensures plan !in Limits ==> limit == 0
    ensures limit == -1 ==> plan == "pro"
  {
    if plan in Limits && feature in Limits[plan] then Limits[plan][feature] else 0
  }

  /**
   * The shape of the limit table: unknown plans and features get 0, every "pro" feature is
   * unlimited (-1), the other plans have non-negative limits, and voice is closed to "free".
   */
  lemma FeatureLimitTable(feature: string, plan: string)
    ensures FeatureLimit(feature, plan) >= -1
    ensures feature !in TrackedFeatures || plan !in {"free", "plus", "pro"} ==> FeatureLimit(feature, plan) == 0
    ensures plan == "pro" && feature in TrackedFeatures ==> FeatureLimit(feature, plan) == -1
    ensures plan in {"free", "plus"} && feature in TrackedFeatures ==> FeatureLimit(feature, plan) >= 0
    ensures FeatureLimit("voice_assistant", "free") == 0
  {
  }

  /** The comparison the source uses for `allowed` and `available`; -1 is not special-cased. */
  predicate Allowed(usageCount: int, limit: int) {
    usageCount < limit
  }

  /** With the "pro" plan's -1 sentinel no record with a non-negative count is ever allowed. */
  lemma ProPlanNeverAllowed(feature: string, usageCount: nat)
    requires feature in TrackedFeatures
    ensures !Allowed(usageCount, FeatureLimit(feature, "pro"))
  {
    FeatureLimitTable(feature, "pro");
  }

  /** The month rollover applied to a record before it is counted or checked. */
  function Rolled(rec: UsageRecord, plan: string, now: Instant): (r: UsageRecord)
    ensures r.userId == rec.userId && r.feature == rec.feature
    ensures !ShouldReset(r.resetDate, now)
    ensures ShouldReset(rec.resetDate, now) ==> r.usageCount == 0 && r.resetDate == now && r.plan == plan
    ensures !ShouldReset(rec.resetDate, now) ==> r == rec
  {
    if ShouldReset(rec.resetDate, now) then rec.(usageCount := 0, resetDate := now, plan := plan) else rec
  }

  /** A record after one more use: rolled over, then its count raised by one. */
  function Counted(rec: UsageRecord, plan: string, now: Instant): (r: UsageRecord)
    ensures r.userId == rec.userId && r.feature == rec.feature && r.resetDate == Rolled(rec, plan, now).resetDate
    ensures r.usageCount == 1 + if ShouldReset(rec.resetDate, now) then 0 else rec.usageCount
  {
    var rolled := Rolled(rec, plan, now);
    rolled.(usageCount := rolled.usageCount + 1)
  }

  /** The summary entry of one (already rolled-over) record. */
  function Status(rec: UsageRecord, plan: string): (s: FeatureStatus)
    ensures s.name == rec.feature && s.currentUsage == rec.usageCount && s.resetDate == rec.resetDate
    ensures s.limit == FeatureLimit(rec.feature, plan)
    ensures s.available <==> rec.usageCount < s.limit
  {
    var limit := FeatureLimit(rec.feature, plan);
    FeatureStatus(rec.feature, Allowed(rec.usageCount, limit), rec.usageCount, limit, rec.resetDate)
  }

  class Tracker {
    /** `usage_records`, keyed by `UsageKey`. */
    var records: map<string, UsageRecord>
    /** The keys of `records` in insertion order, the order in which a Python dict is traversed. */
    var order: seq<string>

    /** Every record sits under the key of its own user and feature; `order` lists each key once. */
    ghost predicate Valid()
      reads this
    {
      WellKeyed(records) && NoDuplicates(order) && (forall k :: k in order <==> k in records)
    }

    constructor ()
      ensures Valid() && records == map[] && order == []
    {
      records := map[];
      order := [];
    }

    /**
     * `increment_usage`: create the record if missing (count 0, dated now, with the given plan),
     * apply the month rollover, then add one. The plan limit is never consulted.
     */
    method IncrementUsage(userId: string, feature: string, userPlan: string, now: Instant)
      returns (currentUsage: int, resetDate: Instant)
      requires Valid()
      modifies this
      ensures Valid()
      ensures var key := UsageKey(userId, feature);
        var before := if key in old(records) then old(records)[key] else UsageRecord(userId, feature, 0, now, userPlan);
        records == old(records)[key := Counted(before, userPlan, now)]
      ensures var key := UsageKey(userId, feature);
        order == if key in old(records) then old(order) else old(order) + [key]
      ensures var key := UsageKey(userId, feature);
        currentUsage == records[key].usageCount && resetDate == records[key].resetDate
      ensures var key := UsageKey(userId, feature);
        currentUsage == 1 + if key in old(records) && !ShouldReset(old(records)[key].resetDate, now)
                            then old(records)[key].usageCount else 0
      ensures UsageKey(userId, feature) !in old(records) ==> currentUsage == 1 && resetDate == now
    {
      var key := UsageKey(userId, feature);
      var before := if key in records then records[key] else UsageRecord(userId, feature, 0, now, userPlan);
      var rec := Counted(before, userPlan, now);
      PutKeepsKeyed(records, order, key, rec);
      if key !in records {
        order := order + [key];
      }
      records := records[key := rec];
      currentUsage, resetDate := rec.usageCount, rec.resetDate;
    }

    /**
     * `check_usage_limit`: an unseen key is allowed with usage 0 and creates nothing; a known
     * record is rolled over (and stored so) and then compared with the plan's limit.
     */
    method CheckUsageLimit(userId: string, feature: string, userPlan: string, now: Instant)
      returns (check: LimitCheck)
      requires Valid()
      modifies this
      ensures Valid() && order == old(order)
      ensures check.limit == FeatureLimit(feature, userPlan) && check.plan == userPlan
      ensures var key := UsageKey(userId, feature);
        key !in old(records) ==> records == old(records) && check.allowed && check.currentUsage == 0 && check.resetDate == None
      ensures var key := UsageKey(userId, feature);
        key in old(records) ==>
          records == old(records)[key := Rolled(old(records)[key], userPlan, now)]
          && check.currentUsage == records[key].usageCount
          && check.resetDate == Some(records[key].resetDate)
          && (check.allowed <==> records[key].usageCount < check.limit)
    {
      var key := UsageKey(userId, feature);
      if key !in records {
        return LimitCheck(true, 0, FeatureLimit(feature, userPlan), userPlan, None);
      }
      var rec := Rolled(records[key], userPlan, now);
      records := records[key := rec];
      var limit := FeatureLimit(feature, userPlan);
      check := LimitCheck(Allowed(rec.usageCount, limit), rec.usageCount, limit, userPlan, Some(rec.resetDate));
    }

    /**
     * `get_user_usage_summary`: roll over every record whose key starts with `user_id:` and
     * report it under its feature name. When two such records share a feature name the source
     * keeps the one visited last; the contract only says the entry comes from one of them.
     */
    method GetUserUsageSummary(userId: string, userPlan: string, now: Instant)
      returns (features: map<string, FeatureStatus>)
      requires Valid()
      modifies this
      ensures Valid() && order == old(order)
      ensures records.Keys == old(records).Keys
      ensures forall k :: k in records ==>
        records[k] == if IsUserKey(k, userId) then Rolled(old(records)[k], userPlan, now) else old(records)[k]
      ensures forall f :: f in features <==> exists k :: k in records && IsUserKey(k, userId) && records[k].feature == f
      ensures forall f :: f in features ==>
        exists k :: k in records && IsUserKey(k, userId) && records[k].feature == f && features[f] == Status(records[k], userPlan)
    {
      var userKeys := UserKeys(order, userId);
      FilterNoDuplicates(k => IsUserKey(k, userId), order);
      var out;
      out, features := SummarizeRecords(records, userKeys, userPlan, now);
      WellKeyedPointwise(records, out);
      records := out;
    }

    /**
     * `reset_user_usage`: with a non-empty feature, zero that one key if present; with no
     * feature (or the empty one, which Python treats as false) zero every key starting with
     * `user_id:`. The stored plan is left alone.
     */
    method ResetUserUsage(userId: string, feature: Option<string>, now: Instant)
      requires Valid()
      modifies this
      ensures Valid() && order == old(order)
      ensures records.Keys == old(records).Keys
      ensures forall k :: k in records ==>
        records[k] == if Resets(k, userId, feature) then Zeroed(old(records)[k], now) else old(records)[k]
    {
      var keys;
      if feature.Some? && feature.value != "" {
        keys := [UsageKey(userId, feature.value)];
      } else {
        keys := UserKeys(order, userId);
      }
      var out := ZeroRecords(records, keys, now);
      WellKeyedPointwise(records, out);
      records := out;
    }
  }

  /** The list `[key for key in usage_records if key.startswith(user_id + ":")]`, in dict order. */
  function UserKeys(order: seq<string>, userId: string): (keys: seq<string>)
    ensures forall k :: k in keys <==> k in order && IsUserKey(k, userId)
    ensures IsSubsequence(keys, order)
  {
    FilterIsSubsequence(k => IsUserKey(k, userId), order);
    Filter(k => IsUserKey(k, userId), order)
  }

  /** Which keys `reset_user_usage(user_id, feature)` zeroes. */
  predicate Resets(key: string, userId: string, feature: Option<string>) {
    if feature.Some? && feature.value != "" then key == UsageKey(userId, feature.value) else IsUserKey(key, userId)
  }

  /** A record as `reset_user_usage` leaves it: no usage, dated now, same owner and plan. */
  function Zeroed(rec: UsageRecord, now: Instant): (r: UsageRecord)
    ensures r.userId == rec.userId && r.feature == rec.feature && r.plan == rec.plan
    ensures r.usageCount == 0 && r.resetDate == now
  {
    rec.(usageCount := 0, resetDate := now)
  }

  /** The reset loop: zero the records under `keys`, one key at a time; keys without a record are skipped. */
  method ZeroRecords(recs: map<string, UsageRecord>, keys: seq<string>, now: Instant)
    returns (out: map<string, UsageRecord>)
    ensures out.Keys == recs.Keys
    ensures forall k :: k in recs ==> out[k] == if k in keys then Zeroed(recs[k], now) else recs[k]
  {
    out := recs;
    for i := 0 to |keys|
      invariant out.Keys == recs.Keys
      invariant forall k :: k in recs ==> out[k] == if k in keys[..i] then Zeroed(recs[k], now) else recs[k]
    {
      if keys[i] in out {
        out := out[keys[i] := Zeroed(out[keys[i]], now)];
      }
    }
    assert keys[..|keys|] == keys;
  }

  /**
   * The summary loop: roll over each record under `keys`, in order, and file its status under
   * its feature name, a later record overwriting an earlier one of the same name.
   */
  method SummarizeRecords(recs: map<string, UsageRecord>, keys: seq<string>, plan: string, now: Instant)
    returns (out: map<string, UsageRecord>, features: map<string, FeatureStatus>)
    requires forall k :: k in keys ==> k in recs
    requires NoDuplicates(keys)
    ensures out.Keys == recs.Keys
    ensures forall k :: k in recs ==> out[k] == if k in keys then Rolled(recs[k], plan, now) else recs[k]
    ensures forall f :: f in features <==> exists k :: k in keys && out[k].feature == f
    ensures forall f :: f in features ==> exists k :: k in keys && out[k].feature == f && features[f] == Status(out[k], plan)
  {
    out := recs;
    features := map[];
    ghost var done: set<string> := {};
    ghost var source: map<string, string> := map[];  // feature name -> the key whose status is filed
    for i := 0 to |keys|
      invariant done == set j | 0 <= j < i :: keys[j]
      invariant Summarized(recs, plan, now, done, out, source, features)
    {
      var k := keys[i];
      SummarizedStep(recs, plan, now, done, out, source, features, k);
      var rec := Rolled(out[k], plan, now);
      out := out[k := rec];
      features := features[rec.feature := Status(rec, plan)];
      source := source[rec.feature := k];
      done := done + {k};
    }
    assert done == set k | k in keys;
    SummarizedDone(recs, plan, now, done, out, source, features);
  }

  /**
   * The state of the summary loop after visiting the keys in `done`: exactly those records are
   * rolled over, each filed feature name points (through `source`) at a visited key whose record
   * has that name and gave the filed status, and every visited record's name is filed.
   */
  ghost predicate Summarized(recs: map<string, UsageRecord>, plan: string, now: Instant, done: set<string>,
                             out: map<string, UsageRecord>, source: map<string, string>, features: map<string, FeatureStatus>)
  {
    && done <= recs.Keys
    && out.Keys == recs.Keys
    && (forall k :: k in recs ==> out[k] == if k in done then Rolled(recs[k], plan, now) else recs[k])
    && features.Keys == source.Keys
    && (forall f :: f in source ==>
          source[f] in done && out[source[f]].feature == f && features[f] == Status(out[source[f]], plan))
    && (forall k :: k in done ==> out[k].feature in features)
  }

  /** Visiting one more key keeps the loop state summarized. */
  lemma SummarizedStep(recs: map<string, UsageRecord>, plan: string, now: Instant, done: set<string>,
                       out: map<string, UsageRecord>, source: map<string, string>, features: map<string, FeatureStatus>, k: string)
    requires Summarized(recs, plan, now, done, out, source, features) && k in recs && k !in done
    ensures k in out
    ensures var rec := Rolled(out[k], plan, now);
      Summarized(recs, plan, now, done + {k}, out[k := rec], source[rec.feature := k], features[rec.feature := Status(rec, plan)])
  {
    var rec := Rolled(out[k], plan, now);
    var out', source' := out[k := rec], source[rec.feature := k];
    var features' := features[rec.feature := Status(rec, plan)];
    forall f | f in source'
      ensures source'[f] in done + {k} && out'[source'[f]].feature == f && features'[f] == Status(out'[source'[f]], plan)
    {
      if f != rec.feature {
        assert source[f] in done;
      }
    }
    forall j | j in done + {k}
      ensures out'[j].feature in features'
    {
      if j != k {
        assert out[j].feature in features;
      }
    }
  }

  /** Once every key is visited the loop state gives the summary's contract. */
  lemma SummarizedDone(recs: map<string, UsageRecord>, plan: string, now: Instant, keys: set<string>,
                       out: map<string, UsageRecord>, source: map<string, string>, features: map<string, FeatureStatus>)
    requires Summarized(recs, plan, now, keys, out, source, features)
    ensures out.Keys == recs.Keys
    ensures forall k :: k in recs ==> out[k] == if k in keys then Rolled(recs[k], plan, now) else recs[k]
    ensures forall f :: f in features <==> exists k :: k in keys && out[k].feature == f
    ensures forall f :: f in features ==> exists k :: k in keys && out[k].feature == f && features[f] == Status(out[k], plan)
  {
    forall f | f in features
      ensures exists k :: k in keys && out[k].feature == f && features[f] == Status(out[k], plan)
    {
      var k := source[f];
      assert k in keys && out[k].feature == f && features[f] == Status(out[k], plan);
    }
  }

  /** Every record sits under the key of its own user and feature, with a non-negative count. */
  ghost predicate WellKeyed(records: map<string, UsageRecord>) {
    forall k :: k in records ==> k == UsageKey(records[k].userId, records[k].feature) && records[k].usageCount >= 0
  }

  /** Storing a record under its own key keeps the map well keyed and the key order complete. */
  lemma PutKeepsKeyed(records: map<string, UsageRecord>, order: seq<string>, key: string, rec: UsageRecord)
    requires WellKeyed(records) && NoDuplicates(order) && (forall k :: k in order <==> k in records)
    requires key == UsageKey(rec.userId, rec.feature) && rec.usageCount >= 0
    ensures var order' := if key in records then order else order + [key];
      WellKeyed(records[key := rec]) && NoDuplicates(order') && (forall k :: k in order' <==> k in records[key := rec])
  {
  }

  /** Rewriting records without changing their owner, feature or the sign of their count keeps the map well keyed. */
  lemma WellKeyedPointwise(recs: map<string, UsageRecord>, out: map<string, UsageRecord>)
    requires WellKeyed(recs) && out.Keys == recs.Keys
    requires forall k :: k in recs ==>
      out[k].userId == recs[k].userId && out[k].feature == recs[k].feature && out[k].usageCount >= 0
    ensures WellKeyed(out)
  {
    forall k | k in out
      ensures k == UsageKey(out[k].userId, out[k].feature) && out[k].usageCount >= 0
    {
      assert k in recs;
    }
  }

  /** Each record of the user's own is listed by the summary, under its feature name. */
  lemma SummaryListsOwnRecords(records: map<string, UsageRecord>, userId: string, feature: string)
    requires UsageKey(userId, feature) in records && records[UsageKey(userId, feature)].feature == feature
    ensures exists k :: k in records && IsUserKey(k, userId) && records[k].feature == feature
  {
    OwnKeyIsUserKey(userId, feature);
  }
}
