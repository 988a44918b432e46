# CareerForge AI, modelled in Dafny

CareerForge AI is a career-assistance service: a Python backend and a Next.js front-end. The
backend parses résumés, extracts skills and scores them against job descriptions, and rewrites
résumé text. It also runs subscription plans with per-feature monthly usage limits, payments
through Stripe, PayPal and Razorpay, and a multilingual voice assistant. The front-end keeps
chat, user and usage state in client-side stores, and adds a job-match route, a usage-tracking
route and a Razorpay payment panel.

This project models the deterministic core of that system and proves what it promises.
Language models, embeddings, spaCy, regular expressions, payment SDKs, clocks and random draws
are not modelled in detail: each becomes an input of the operation that uses it.

Modules, one per source file, plus shared helpers:

- `Wrappers`: Option, Result, HTTP results, filtering, deduplication and subsequences.
- `Text`: ASCII case mapping, substring search, splitting, stripping, title case and decimal
  rendering.
- `WordPatterns`: word-bounded pattern search.
- `SkillMatch`: the matched/missing/extra split and the match score, shared by the backend
  scanners.
- `LineScan`: line-selection helpers.
- `UsageTracker`: the backend usage tracker, a class over a map of records.
- `SubscriptionPlans`: the backend plan table.
- `JobMatcher`, `SkillsJobsRouter`, `RealtimeRouter`, `Utils`, `MainService`,
  `ResumeParserCustom`, `PaymentGateways` and `VoiceAssistant`: the backend modules of the same
  names.
- `UserStore`, `ChatStore` and `FixedChatStore`: the client stores.
- `UsageTrackRoute` and `JobMatchRoute`: the two API routes.
- `RazorpayPayment`: the countdown and polling logic of the payment panel.

## Model

| member | source | states |
|---|---|---|
| UsageTracker.UsageKey | Backend/usage_tracker.py:31-34 | the key is the user id, a colon and the feature: its length, its prefix and its suffix |
| UsageTracker.KeysCollide | Backend/usage_tracker.py:31-34 | two different (user, feature) pairs can produce the same key, because ids may contain colons |
| UsageTracker.PrefixCatchesOtherUser | Backend/usage_tracker.py:131 | the `user_id:` prefix test for user "a" also matches the keys of user "a:b" |
| UsageTracker.OwnKeyIsUserKey | Backend/usage_tracker.py:131 | every key built for a user passes that user's prefix test |
| UsageTracker.FeatureLimitTable | Backend/usage_tracker.py:185-215 | an unknown plan or feature gets 0; every pro feature is -1 (unlimited); free and plus limits are non-negative; voice is 0 on free |
| UsageTracker.ProPlanNeverAllowed | Backend/usage_tracker.py:100-101 | `usage_count < limit` with the pro sentinel -1 is never true for a non-negative count |
| UsageTracker.Rolled | Backend/usage_tracker.py:50-55 | the month rollover: a record from another calendar month gets count 0, date now and the caller's plan; otherwise it is unchanged; afterwards no reset is due |
| UsageTracker.ShouldReset | Backend/usage_tracker.py:180-183 | no reset is due within the same calendar month, nor against the same instant |
| UsageTracker.FeatureLimit | Backend/usage_tracker.py:185-215 | a limit is at least -1, 0 for an unknown plan, and -1 only on pro |
| UsageTracker.Status | Backend/usage_tracker.py:143-151 | a summary entry carries the record's feature, count and date, the plan's limit, and `available` iff count < limit |
| UsageTracker.Tracker.constructor | Backend/usage_tracker.py:27-29 | the tracker starts with no records |
| UsageTracker.Tracker.IncrementUsage | Backend/usage_tracker.py:36-67 | a missing record is created with count 0 and then incremented, so its first answer is 1; a due rollover zeroes the count first; the count always grows by one, and the limit is never consulted; other records are unchanged |
| UsageTracker.Counted | Backend/usage_tracker.py:50-58 | the stored record after one increment: same owner and feature, and a count one above the old count, or 1 when a reset was due |
| UsageTracker.Tracker.CheckUsageLimit | Backend/usage_tracker.py:78-109 | an unseen key is allowed with usage 0 and creates no record; a known record is rolled over, stored, and allowed iff its count is below the limit |
| UsageTracker.Tracker.GetUserUsageSummary | Backend/usage_tracker.py:121-153 | the summary lists exactly the feature names of the records whose key starts with `user_id:`; each entry is the status of one such rolled-over record; only those records are rolled over |
| UsageTracker.Tracker.ResetUserUsage | Backend/usage_tracker.py:159-178 | with a feature, only that key is zeroed, if present; without one, every key starting with `user_id:` is zeroed; plans and all other records stay as they were |
| UsageTracker.UserKeys | Backend/usage_tracker.py:131 | the user's keys are exactly the stored keys that pass the prefix test, in dictionary order |
| UsageTracker.Zeroed | Backend/usage_tracker.py:166-167 | a reset record has count 0 and date now, with the same owner, feature and plan |
| UsageTracker.ZeroRecords | Backend/usage_tracker.py:170-173 | the reset loop zeroes exactly the records under the listed keys and keeps the key set |
| UsageTracker.SummarizeRecords | Backend/usage_tracker.py:133-151 | the summary loop rolls over exactly the visited records; a feature is filed iff a visited record has that name, and its entry is that record's status |
| UsageTracker.SummarizedStep | Backend/usage_tracker.py:133-151 | one more iteration of the summary loop keeps the loop invariant |
| UsageTracker.SummarizedDone | Backend/usage_tracker.py:133-153 | once every key has been visited, the loop invariant gives the summary's contract |
| UsageTracker.WellKeyedPointwise | Backend/usage_tracker.py:41-48 | rewriting records without changing owner, feature or the sign of the count keeps every record under its own key |
| UsageTracker.SummaryListsOwnRecords | Backend/usage_tracker.py:131-145 | every record a user owns is listed in the summary under its feature name |
| SubscriptionPlans.FindPlan | Backend/subscription_plans.py:143-148 | the search returns the first plan with that id, or nothing exactly when no plan has it |
| SubscriptionPlans.GetPlan | Backend/subscription_plans.py:143-148 | a plan found is in the table and has the requested id |
| SubscriptionPlans.GetPlanTable | Backend/subscription_plans.py:40-148 | the four ids "free", "plus", "pro" and "business" find their own table entries; every other id finds nothing |
| SubscriptionPlans.GetPlanPrice | Backend/subscription_plans.py:150-160 | 0 for an unknown plan; the monthly price; or 12 months less 20% (9.6 times the monthly price) per year |
| SubscriptionPlans.YearlyIsCheaper | Backend/subscription_plans.py:150-160 | a yearly price never exceeds twelve monthly prices |
| SubscriptionPlans.GetPlanLimit | Backend/subscription_plans.py:162-168 | 0 for an unknown plan or an unlisted feature, otherwise the plan's limit |
| SubscriptionPlans.UnlimitedTable | Backend/subscription_plans.py:170-173 | a feature is unlimited iff the plan is pro or business and the feature is one of the seven metered ones |
| SubscriptionPlans.IsFeatureUnlimited | Backend/subscription_plans.py:170-173 | only a known plan has an unlimited feature |
| SubscriptionPlans.FreeLimitsNonNegative | Backend/subscription_plans.py:52-62 | the free plan has no unlimited feature |
| SubscriptionPlans.PlusLimitsNonNegative | Backend/subscription_plans.py:78-88 | the plus plan has no unlimited feature |
| SubscriptionPlans.PlansShareFeatureKeys | Backend/subscription_plans.py:40-141 | every plan lists the same seven metered features, each with a limit of -1 or more |
| SubscriptionPlans.GetPlanFeatures | Backend/subscription_plans.py:179-184 | an unknown plan has no feature list; a known plan gives its own |
| SubscriptionPlans.GetPlanLimits | Backend/subscription_plans.py:186-191 | an unknown plan gives an empty table; a known plan gives its own limit table, over the seven metered features, each entry agreeing with `get_plan_limit` |
| SubscriptionPlans.ValidatePlanAccess | Backend/subscription_plans.py:193-206 | an unknown plan is refused; an unlimited feature is granted; otherwise access iff usage is below the limit |
| SubscriptionPlans.GetRemainingUsage | Backend/subscription_plans.py:208-222 | -1 iff the feature is unlimited; 0 for an unknown plan; otherwise max(0, limit - usage) |
| SubscriptionPlans.AccessAgreesWithRemaining | Backend/subscription_plans.py:193-222 | for a known plan, access is granted iff the remaining usage is -1 or positive |
| SubscriptionPlans.UnknownPlanGrantsNothing | Backend/subscription_plans.py:193-222 | an unknown plan grants no access and has nothing left |
| JobMatcher.Variations | Backend/job_matcher.py:100-105 | four spellings are tried for each skill |
| JobMatcher.LexiconScan | Backend/job_matcher.py:97-110 | the lexicon scan reports at most one entry per listed skill |
| JobMatcher.LexiconScanSnoc | Backend/job_matcher.py:97-110 | scanning one more skill appends it iff one of its spellings occurs |
| JobMatcher.LexiconScanMembers | Backend/job_matcher.py:97-110 | the scan reports exactly the listed skills one of whose spellings is a substring of the lower-cased text, in lexicon order |
| JobMatcher.TitleAll | Backend/job_matcher.py:128 | each pattern hit is replaced by its title-cased form, in order |
| JobMatcher.PatternHitsSound | Backend/job_matcher.py:113-128 | every pattern hit is the title-cased form of an alternative that occurs in the text as a whole word |
| JobMatcher.PatternHitsNone | Backend/job_matcher.py:113-128 | the patterns yield no hit iff none of their alternatives stands as a whole word in the lower-cased text |
| JobMatcher.SkillPatternHits | Backend/job_matcher.py:113-128 | the matcher's own patterns yield no hit iff none of their alternatives stands as a whole word |
| JobMatcher.ExtractSkills | Backend/job_matcher.py:88-130 | empty text gives nothing; the result has no repeats; a text in which some pattern alternative stands as a whole word gives at least one skill |
| JobMatcher.FirstPatternHit | Backend/job_matcher.py:126-128 | a hit of the first pattern is reported in its title-cased form |
| JobMatcher.ExtractSkillsFromText | Backend/job_matcher.py:88-130 | the nested loops compute the lexicon hits and the title-cased pattern hits, deduplicated; empty text gives nothing |
| JobMatcher.ScanLexicon | Backend/job_matcher.py:97-110 | the category loop computes the lexicon scan of the flattened lexicon |
| JobMatcher.ScanCategory | Backend/job_matcher.py:98-110 | the loop over one category appends its hits to those of the earlier categories |
| JobMatcher.MentionsSkill | Backend/job_matcher.py:107-110 | the spelling loop stops at the first spelling that occurs, and finds one iff some spelling occurs |
| JobMatcher.ScanPatterns | Backend/job_matcher.py:126-128 | the pattern loop appends each pattern's title-cased hits in turn |
| JobMatcher.ExtractSkillsMembers | Backend/job_matcher.py:88-130 | for a non-empty text, a skill is reported iff it is a lexicon skill with a spelling in the text or a title-cased pattern hit; none is reported twice |
| JobMatcher.LexiconPartInLexiconOrder | Backend/job_matcher.py:97-110 | the lexicon hits come in lexicon order |
| JobMatcher.EmptyTextNoSkills | Backend/job_matcher.py:90-91 | empty text yields no skills |
| JobMatcher.ShortSkillHitsAnyText | Backend/job_matcher.py:100-110 | the one-letter skill "R" is reported for any text containing the letter r in either case, since no word boundary is required |
| JobMatcher.NodeJsReportedInTwoForms | Backend/job_matcher.py:97-130 | a text in which the first pattern finds "node.js" reports both "Node.js" (lexicon) and "Node.Js" (title-cased pattern hit) |
| JobMatcher.TitleOfNodeJs | Backend/job_matcher.py:128 | `"node.js".title()` is "Node.Js": the letter after the dot starts a new word |
| JobMatcher.PatternHitsPrefix | Backend/job_matcher.py:126-128 | the hits of the first n patterns are a prefix of all the hits |
| JobMatcher.MatchResumeToJob | Backend/job_matcher.py:198-287 | the job's skills are those extracted from the description; matched/missing partition them by membership in the résumé's skills and the score is 100·matched/max(1,job); extra are the résumé's skills not in the job; the semantic score is used only when a model answered and both lists are non-empty; the overall score is the mean; an exception yields the zero record |
| SkillMatch.Matched | Backend/job_matcher.py:206 | the matched skills are drawn from the job's list |
| SkillMatch.Missing | Backend/job_matcher.py:207 | the missing skills are drawn from the job's list |
| SkillMatch.Extra | Backend/job_matcher.py:208 | the extra skills are drawn from the résumé's list |
| SkillMatch.MatchedMembers | Backend/job_matcher.py:206 | a skill is matched iff it is in the job list and on the résumé |
| SkillMatch.MissingMembers | Backend/job_matcher.py:207 | a skill is missing iff it is in the job list and not on the résumé |
| SkillMatch.ComparisonMembers | Backend/job_matcher.py:206-208 | matched holds the job skills on the résumé; missing holds the job skills not on it; extra holds the résumé skills not in the job |
| SkillMatch.MatchedMissingPartition | Backend/job_matcher.py:206-207 | matched and missing split the job list, each entry with its multiplicity landing in exactly one |
| SkillMatch.MatchedInJobOrder | Backend/job_matcher.py:206 | matched keeps the job's order |
| SkillMatch.MissingInJobOrder | Backend/job_matcher.py:207 | missing keeps the job's order |
| SkillMatch.MatchScore | Backend/job_matcher.py:211 | the score lies between 0 and 100 when matched does not exceed the job list; it is 0 with nothing matched and 100 when all are matched |
| SkillMatch.NoneMatched | Backend/job_matcher.py:206 | with no job skill on the résumé, nothing is matched |
| SkillMatch.NoneMissing | Backend/job_matcher.py:207 | with every job skill on the résumé, nothing is missing |
| SkillMatch.ScoreOfComparison | Backend/job_matcher.py:206-211 | the score of a comparison is in [0,100]; it is 0 when nothing matches and 100 when everything does |
| SkillMatch.ComparisonHolds | Backend/job_matcher.py:206-211 | the comprehensions and the score formula together satisfy the comparison contract the matchers share |
| SkillMatch.SubstringScan | Backend/skills_jobs_router.py:262-266 | the substring scan reports at most one entry per listed skill |
| SkillMatch.ScanSkills | Backend/skills_jobs_router.py:262-266 | the scanning loop computes the substring scan |
| SkillMatch.SubstringScanMembers | Backend/skills_jobs_router.py:262-266 | the scan reports exactly the listed skills whose lower-cased name occurs in the lower-cased text, in list order |
| SkillsJobsRouter.ExtractSkillsFromJobDescription | Backend/skills_jobs_router.py:253-266 | the two loops compute the substring scan of the flattened lexicon against the lower-cased description |
| SkillsJobsRouter.ScanLexicon | Backend/skills_jobs_router.py:255-264 | over any lexicon, extending by category then testing each skill computes the substring scan of the flattened lexicon |
| SkillsJobsRouter.ExtractSkillsInLexiconOrder | Backend/skills_jobs_router.py:253-266 | the result lists lexicon skills only, in lexicon order, and a skill is reported iff its lower-cased name occurs in the lower-cased description |
| SkillsJobsRouter.JavaFoundInsideJavascript | Backend/skills_jobs_router.py:262-264 | a description mentioning "javascript" is reported to ask for both "Java" and "JavaScript", since no word boundary is required |
| SkillsJobsRouter.JavaSpellings | Backend/skills_jobs_router.py:32-33 | "Java" and "JavaScript" are lexicon skills whose lower-cased forms are "java" and "javascript" |
| SkillsJobsRouter.MatchJobRealtime | Backend/skills_jobs_router.py:191-251 | an exception yields 500 and only then; otherwise the job skills are the extracted ones, matched/missing split them by membership in the résumé's skills with score 100·matched/max(1,job), extra are the résumé skills not in the job, and the analysis is the fallback record without an API key and the model's answer with one |
| SkillsJobsRouter.FindCategory | Backend/skills_jobs_router.py:334 | the category is found iff it is a category name, and then at its index |
| SkillsJobsRouter.GetSkillsByCategory | Backend/skills_jobs_router.py:332-341 | 404 iff the name is not a category; otherwise that category's skills and their count |
| SkillsJobsRouter.TotalCategories | Backend/skills_jobs_router.py:327 | the number of categories |
| SkillsJobsRouter.TotalSkills | Backend/skills_jobs_router.py:328 | the sum of the category lengths is the length of the flattened lexicon |
| SkillsJobsRouter.LexiconSize | Backend/skills_jobs_router.py:32-89 | the lexicon holds 79 skills in 7 categories |
| RealtimeRouter.PatternsNonEmpty | Backend/realtime_router.py:113-124 | every alternative of the ten skill patterns is non-empty |
| RealtimeRouter.AllHitsSound | Backend/realtime_router.py:129-131 | every hit collected from the patterns is an alternative of one of them standing in the text as a whole word |
| RealtimeRouter.AllHitsNone | Backend/realtime_router.py:126-131 | the patterns yield no hit iff none of their alternatives stands as a whole word in the text |
| RealtimeRouter.ExtractSkills | Backend/realtime_router.py:111-133 | no skill is reported twice; no skill is reported iff no alternative of the ten patterns stands as a whole word in the lower-cased text |
| RealtimeRouter.ExtractSkillsFromText | Backend/realtime_router.py:111-133 | lower-casing, the pattern loop and the set conversion compute the deduplicated hits |
| RealtimeRouter.CollectHits | Backend/realtime_router.py:129-131 | the loop extends the list with each pattern's `findall` hits in turn |
| RealtimeRouter.ExtractedSkillsAreWholeWords | Backend/realtime_router.py:111-133 | every reported skill is a pattern alternative found as a whole word in the lower-cased text |
| RealtimeRouter.JavaNotReportedInsideJavascript | Backend/realtime_router.py:114 | the word boundaries keep "java" from being reported for "javascript" |
| RealtimeRouter.CppReportedOnlyBeforeWordChar | Backend/realtime_router.py:114 | since `+` is not a word character, `c\+\+\b` reports "c++" only where a word character follows it |
| RealtimeRouter.MatchSkillsToJob | Backend/realtime_router.py:139-195 | an exception yields 500 and only then; otherwise the job skills are extracted by the same patterns, matched/missing split them by membership in the given skills with score 100·matched/max(1,job), and the analysis is the fallback without an API key and the model's answer with one |
| RealtimeRouter.RealtimeJobMatching | Backend/realtime_router.py:359-363 | the résumé text's extracted skills are compared with the job's; 500 iff the model raised |
| RealtimeRouter.Take | Backend/realtime_router.py:291-292 | Python's slice `[:n]` is the prefix of length min(len, n) |
| RealtimeRouter.ExtractKeywordsFromJob | Backend/realtime_router.py:496-500 | the keyword list is always empty |
| RealtimeRouter.OptimizeForAts | Backend/realtime_router.py:217-260 | 500 iff the model raised; without an API key the fallback with score 75, no keywords and the two fixed recommendations; otherwise the model's answer |
| RealtimeRouter.OptimizeForLinkedIn | Backend/realtime_router.py:262-306 | 500 iff the model raised; without an API key the headline is the title (default "Professional"), a bar separator and the first three skills joined by commas, the skills are kept and the completeness score is 85 |
| RealtimeRouter.GenerateCoverLetter | Backend/realtime_router.py:308-348 | 500 iff the model raised; without an API key the letter opens with the greeting and closes with "Sincerely," and the name (default "Your Name") |
| RealtimeRouter.OptimizeResumeRealtime | Backend/realtime_router.py:201-215 | an unknown kind is answered 500 (the 400 is caught and re-raised as 500); a known kind succeeds iff the model did not raise; every error is 500 |
| RealtimeRouter.AnalyzeSkillsRealtime | Backend/realtime_router.py:61-109 | the skills are the extracted ones; the job match is present iff a non-empty job description was given; a raising model yields 500 |
| RealtimeRouter.WithJobMatch | Backend/realtime_router.py:94-105 | the job match runs iff the job description is non-empty; its failure becomes 500 |
| RealtimeRouter.ComprehensiveAnalysis | Backend/realtime_router.py:375-410 | the job match is present iff the lower-cased type contains "job", the optimisation iff it contains "optimize"; the job match compares the content's skills with the content's own skills; any failure is 500 |
| RealtimeRouter.WantsJobMatching | Backend/realtime_router.py:383 | the type can ask for job matching only if it is at least three characters long |
| RealtimeRouter.WantsOptimization | Backend/realtime_router.py:391 | the type can ask for optimisation only if it is at least eight characters long |
| RealtimeRouter.ComprehensiveMatchIsSelfMatch | Backend/realtime_router.py:383-387 | the comprehensive job match never reports a missing skill and scores 100, or 0 when the content has no skill |
| RealtimeRouter.AllMatchedIsJob | Backend/realtime_router.py:146 | when every job skill is on the list, the matched list is the job list |
| Utils.AllowedFile | Backend/utils.py:53-54 | an accepted name contains a dot and its extension (after the last dot) contains none |
| Utils.AllowedFileByEnding | Backend/utils.py:51-54 | a name is accepted iff it ends, in any letter case, in ".pdf", ".docx" or ".txt" |
| Utils.ExtensionAfterLastDot | Backend/utils.py:54 | for a dot-free extension, "the lower-cased text after the last dot is it" iff "the name ends in a dot and it" |
| Utils.EndingGivesExtension | Backend/utils.py:54 | a name ending in a dot and a dot-free extension has that extension after its last dot |
| Utils.DotsOfEnding | Backend/utils.py:54 | such a name has a dot just before the extension and none after |
| Utils.LastDotAt | Backend/utils.py:54 | `rsplit('.', 1)[1]` is the text after the dot no later dot follows |
| Utils.Years | Backend/utils.py:118 | every year kept lies strictly between 1900 and 2100 |
| Utils.FourDigitGroups | Backend/utils.py:118 | the groups are four characters each and do not overlap, so four per group fit in the rest of the text |
| Utils.SeqMax | Backend/utils.py:119 | `max` is an element no element exceeds |
| Utils.SeqMin | Backend/utils.py:119 | `min` is an element no element is below |
| Utils.ExtractTotalExperience | Backend/utils.py:117-119 | 0 with fewer than two years; otherwise the largest difference of two mentioned years, so between 0 and 198 |
| Utils.ExtractSkillsFromJobDescription | Backend/utils.py:123-139 | the loop computes the substring scan of the skill list against the lower-cased description |
| Utils.JobDescriptionSkills | Backend/utils.py:123-139 | at most one entry per listed skill |
| Utils.JobDescriptionSkillsMembers | Backend/utils.py:123-139 | the result holds, in list order, exactly the list entries whose lower-cased name occurs in the lower-cased description |
| Utils.AiFoundInsideMaintain | Backend/utils.py:135-137 | with no word boundary, "maintain" is read as asking for "AI" |
| Utils.MatchSkills | Backend/utils.py:141-144 | matched and missing split the job skills by membership in the résumé skills, keep job order, and their lengths sum to the job list's |
| Utils.EnhanceSkills | Backend/utils.py:274-288 | the result has no repeats, holds exactly the job and résumé skills, keeps first-appearance order, and puts every job skill before every résumé-only skill |
| Utils.AppendUnseen | Backend/utils.py:278-286 | one of the two loops: the items not yet present are appended in order after the start, which is kept as it was; no repeats arise |
| Utils.EnhanceRoleDescription | Backend/utils.py:312-321 | the loop appends a bar and the title-cased keyword for each keyword absent from the lower-cased growing text |
| Utils.EnhancedRole | Backend/utils.py:312-321 | the original role is a prefix of the enhanced one |
| Utils.EnhancedRoleCoversKeywords | Backend/utils.py:317-319 | afterwards every lower-case keyword occurs in the lower-cased result |
| Utils.CoveredAfterStep | Backend/utils.py:317-319 | one step keeps earlier keywords found and finds the new one |
| Utils.EnhancedRoleKeepsRole | Backend/utils.py:314-319 | the original role is a prefix of the result |
| Utils.FoundAfterAppend | Backend/utils.py:319 | appending text keeps an occurrence found |
| Utils.AppendedKeywordFound | Backend/utils.py:319 | a lower-case keyword appended title-cased is found in the lower-cased result |
| Utils.EnhancedRoleUnchangedWhenCovered | Backend/utils.py:317-319 | a role already mentioning every keyword is returned unchanged |
| Utils.MissingSections | Backend/utils.py:358-360 | at most as many sections are missing as are required |
| Utils.FormatScore | Backend/utils.py:355-360 | the loop computes 30 less 5 per missing section |
| Utils.Share | Backend/utils.py:342 | `count / max(1, total)` lies in [0,1] when count ≤ total, is 0 for no count and 1 when all are counted |
| Utils.AtsScore | Backend/utils.py:334-362 | the ATS score lies between 0 and 100 |
| Utils.CalculateAtsScore | Backend/utils.py:334-362 | skill share ×40 plus keyword share ×30 plus the format score, truncated to an integer |
| Utils.AtsFullMarks | Backend/utils.py:334-362 | every section filled, every job skill on the résumé and every keyword in its text give 100 |
| Utils.AtsWithoutJobTerms | Backend/utils.py:334-362 | a job with no listed skill and no keyword leaves only the format score, at most 30 |
| Utils.AllFilledNoneMissing | Backend/utils.py:358-360 | with every required section filled, none is missing |
| Utils.FilledWeightBounds | Backend/utils.py:491-493 | the filled weight is at most the total; all filled gives the total, none filled gives 0 |
| Utils.CalculateProfileCompleteness | Backend/utils.py:478-495 | the loop sums the weights of the filled sections, capped at 100 |
| Utils.AddFilledWeights | Backend/utils.py:491-493 | the loop adds each filled section's weight |
| Utils.ProfileCompletenessBounds | Backend/utils.py:478-495 | the weights total 100 so the cap never applies; the score lies in [0,100], is 100 with every section filled and 0 with none |
| Utils.ProfileCompleteness | Backend/utils.py:478-495 | the score never exceeds 100 |
| WordPatterns.FirstAlternative | Backend/realtime_router.py:114-130 | the alternative found at a position is the first, in pattern order, that stands there as a whole word; none is found iff no alternative does |
| WordPatterns.FindAll | Backend/realtime_router.py:130 | every `findall` hit is an alternative of the pattern |
| WordPatterns.FindAllNone | Backend/realtime_router.py:130 | there is no hit iff no alternative stands as a whole word at or after the start |
| WordPatterns.FindAllFirstHit | Backend/realtime_router.py:130 | the first hit is the first alternative, in pattern order, at the leftmost position where one stands as a whole word |
| WordPatterns.FindAllSound | Backend/realtime_router.py:130 | every hit occurs as a whole word at or after the starting position |
| WordPatterns.NoMatchBeforeWordChar | Backend/realtime_router.py:114-123 | a word ending in a word character and followed by one is not matched there |
| WordPatterns.NoJavaWordInJavascript | Backend/realtime_router.py:114 | "java" never stands as a whole word inside "javascript" |
| WordPatterns.CppNeedsWordCharAfter | Backend/realtime_router.py:114 | a whole-word match of "c++" needs a word character right after it |
| LineScan.SelectLines | Backend/resume_parser_custom.py:52-64 | at most one entry per line |
| LineScan.CollectLines | Backend/resume_parser_custom.py:55-63 | the line loop appends the rendering of each line whose probe mentions a keyword |
| LineScan.SelectLinesMembers | Backend/resume_parser_custom.py:41-48 | an entry is selected iff it renders a line whose probe mentions a keyword |
| LineScan.SelectAllLines | Backend/resume_parser_custom.py:55-63 | a text whose every line mentions a keyword gives one entry per line |
| LineScan.KeywordLines | Backend/resume_parser_custom.py:55-57 | at most one picked line per line |
| LineScan.SelectLinesRenders | Backend/resume_parser_custom.py:52-64 | the i-th entry renders the i-th picked line, and the picked lines are a subsequence of the lines |
| ResumeParserCustom.Skills | Backend/resume_parser_custom.py:26-34 | no skill is reported twice |
| ResumeParserCustom.SkillsMembers | Backend/resume_parser_custom.py:26-34 | a skill is reported iff it is on the list and its lower-cased name occurs in the lower-cased text; at most one per list entry |
| ResumeParserCustom.StrippedKeywordLines | Backend/resume_parser_custom.py:41-48 | at most one stripped line per line |
| ResumeParserCustom.Education | Backend/resume_parser_custom.py:37-49 | both lists are free of repeats |
| ResumeParserCustom.ExtractEducation | Backend/resume_parser_custom.py:37-49 | the one-pass loop with its two independent tests computes the deduplicated degree and college lines |
| ResumeParserCustom.EducationMembers | Backend/resume_parser_custom.py:37-49 | the degrees are exactly the stripped lines mentioning a degree keyword, the colleges exactly those mentioning a college keyword |
| ResumeParserCustom.DedupKeywordLinesMembers | Backend/resume_parser_custom.py:49 | deduplication keeps exactly the selected stripped lines |
| ResumeParserCustom.LineInBothLists | Backend/resume_parser_custom.py:44-48 | a line naming both a degree and a college lands in both lists |
| ResumeParserCustom.Experience | Backend/resume_parser_custom.py:52-64 | at most one record per line |
| ResumeParserCustom.ExtractExperience | Backend/resume_parser_custom.py:52-64 | the loop builds a record for each line mentioning an experience keyword in any case |
| ResumeParserCustom.ExperienceRecords | Backend/resume_parser_custom.py:52-64 | one record per experience line, in line order, with the stripped line as details and no company, designation or duration |
| ResumeParserCustom.Projects | Backend/resume_parser_custom.py:67-77 | at most one record per line |
| ResumeParserCustom.ExtractProjects | Backend/resume_parser_custom.py:67-77 | the loop builds a record for each line mentioning a project keyword in any case |
| ResumeParserCustom.ProjectRecords | Backend/resume_parser_custom.py:67-77 | one record per project line, in line order, with no title and the stripped line as description |
| ResumeParserCustom.StubsIgnoreTheirInput | Backend/resume_parser_custom.py:101-120 | the stub extractors answer the same for every text and the normalisers return their argument |
| ResumeParserCustom.ExtractName | Backend/resume_parser_custom.py:104-105 | the name is always empty |
| ResumeParserCustom.ExtractMobile | Backend/resume_parser_custom.py:107-108 | the mobile number is always empty |
| ResumeParserCustom.ExtractTotalExperience | Backend/resume_parser_custom.py:119-120 | the total experience is always 0 |
| ResumeParserCustom.GetOrEmpty | Backend/resume_parser_custom.py:90-91 | `.get` fails, with the missing attribute `get`, exactly on a tuple |
| ResumeParserCustom.ParseResumeAlwaysFails | Backend/resume_parser_custom.py:80-99 | `parse_resume` raises AttributeError on every text, because the education result is a tuple |
| ResumeParserCustom.ParseResume | Backend/resume_parser_custom.py:80-99 | the outcome is always the AttributeError on `get` |
| MainService.SeparatorsToSpaces | Backend/main.py:270 | dots, underscores and digits become spaces and every other character stays |
| MainService.CapitalizeAll | Backend/main.py:271 | each word is capitalised, in order |
| MainService.NameFromEmail | Backend/main.py:266-274 | an empty email gives no name |
| MainService.NameFromEmailNone | Backend/main.py:266-274 | no name comes out iff the email is empty or its local part holds only separators and whitespace; a name that comes out is non-empty |
| MainService.NameFromEmailChars | Backend/main.py:269-273 | a name derived from an email contains no "@" and no dot, underscore or digit |
| MainService.PartChar | Backend/main.py:269-271 | a non-letter in a capitalised word of the local part is neither "@" nor a separator |
| MainService.ExtractName | Backend/main.py:325-342 | the email-derived name wins when found; else the name near the email, looked for only with an email; else the one in the first lines |
| MainService.EmailNameWins | Backend/main.py:335-337 | an email whose local part holds a letter always yields its own derived name |
| MainService.TitledScan | Backend/main.py:359-361 | at most one entry per keyword |
| MainService.Skills | Backend/main.py:350-362 | no skill is reported twice |
| MainService.ExtractSkills | Backend/main.py:350-362 | the keyword loop and the set conversion compute the deduplicated title-cased hits |
| MainService.ScanKeywords | Backend/main.py:359-361 | the loop appends the title-cased form of each keyword found in the lower-cased text |
| MainService.TitledScanMembers | Backend/main.py:359-361 | an entry is reported iff it is the title-cased form of a keyword that occurs in the text |
| MainService.SkillsMembers | Backend/main.py:350-362 | the skills are exactly the title-cased keywords occurring in the lower-cased text |
| MainService.JavaAndJavascript | Backend/main.py:359-361 | with no word boundary, a text mentioning "javascript" lists both "Java" and "Javascript" |
| MainService.JavaInJavascript | Backend/main.py:352-353 | "java" occurs wherever "javascript" does |
| MainService.TitlesOfJava | Backend/main.py:361 | `title()` turns "java" into "Java" and "javascript" into "Javascript" |
| MainService.TitleOfJava | Backend/main.py:361 | `"java".title()` is "Java" |
| MainService.TitleOfJavascript | Backend/main.py:361 | `"javascript".title()` is "Javascript" |
| MainService.KeywordFound | Backend/main.py:359-361 | a keyword occurring in the lower-cased text has its title-cased form reported |
| MainService.ExtractExperience | Backend/main.py:364-395 | the line loop and the final flush compute the scan of the stripped lines, company and role lines given as predicates |
| MainService.ScanLine | Backend/main.py:377-389 | a blank line changes nothing; entries only grow, by at most one, and only when a company and a role were pending and a company line starts the next one |
| MainService.ScanLines | Backend/main.py:369-389 | the entries plus a pending company never outnumber the lines |
| MainService.ExperienceEntries | Backend/main.py:364-395 | there are never more entries than lines |
| MainService.ScanLineStep | Backend/main.py:370-389 | one iteration skips a blank line, flushes the pending pair and restarts on a company line, and records a role line otherwise |
| MainService.CompanyLines | Backend/main.py:373-376 | at most one company line per line |
| MainService.Companies | Backend/main.py:378-381 | the company of each entry, in order |
| MainService.ScanLinesInvariant | Backend/main.py:369-389 | after any prefix, the emitted and pending companies are in order among the company lines and every register is proper |
| MainService.ScanLineKeepsRegisters | Backend/main.py:370-389 | one line keeps every entry a company line with a role line that is not a company line |
| MainService.ScanLineKeepsTrail | Backend/main.py:370-389 | one line keeps the company trail a subsequence of the company lines |
| MainService.CompanyLinesSnoc | Backend/main.py:373-376 | a further line adds itself to the company lines iff it is a non-blank company line |
| MainService.CompanyLineKeepsTrail | Backend/main.py:377-383 | a company line extends the trail by itself, dropping a pending company that had no role |
| MainService.CompanyTrailOfCompanyLine | Backend/main.py:377-381 | flushing adds the pending company iff a role was pending |
| MainService.ExperienceEntriesProperties | Backend/main.py:364-395 | every entry pairs a company line with a role line that is not a company line; the companies appear in document order, so there are at most as many entries as company lines |
| MainService.NoCompanyNoExperience | Backend/main.py:364-395 | a text with no company line yields no entry, whatever its role lines |
| MainService.ExtractEducation | Backend/main.py:397-405 | each stripped, lower-cased line mentioning a degree keyword is kept title-cased, in order |
| MainService.EducationMembers | Backend/main.py:397-405 | at most one entry per line, and an entry is present iff it is the title-cased form of such a line |
| MainService.PasswordResets.constructor | Backend/main.py:125 | no token is pending and every token names a registered user |
| MainService.PasswordResets.ForgotPassword | Backend/main.py:512-531 | the same message for every email; a registered email gets a token expiring an hour later; users are unchanged |
| MainService.PasswordResets.ResetPassword | Backend/main.py:533-552 | an unknown token is refused with nothing changed; an expired one is deleted and refused; otherwise the user's hash is replaced and the token deleted, so no token works twice |
| PaymentGateways.Preferences | Backend/payment_gateways.py:72-89 | the preference list is never empty, and an unknown country gets the default order |
| PaymentGateways.PreferredGateway | Backend/payment_gateways.py:85-108 | a PayPal account goes to PayPal and a card to Stripe; UPI and net banking go to Razorpay in India and to the country's first preference elsewhere; a wallet goes to the country's first preference |
| PaymentGateways.PreferredGatewayChoice | Backend/payment_gateways.py:85-108 | Razorpay iff the payer is in India (any case) paying by UPI, net banking or wallet; PayPal iff a PayPal account; Stripe otherwise, cards included, in India too |
| PaymentGateways.FirstPreferenceOutsideIndia | Backend/payment_gateways.py:72-82 | every known country but India prefers Stripe first |
| PaymentGateways.PreferredGatewayExamples | Backend/payment_gateways.py:85-104 | a wallet in India goes to Razorpay, UPI given as "in" to Razorpay, UPI in the USA to Stripe, a credit card in India to Stripe |
| PaymentGateways.FrontendUrl | Backend/payment_gateways.py:384 | without the environment variable the front-end is at http://localhost:3000 |
| PaymentGateways.GatewayCreate | Backend/payment_gateways.py:167-396 | the response keeps the gateway, amount and currency; it is pending iff the SDK created the payment, with its id, and failed iff the SDK raised, with an empty id and the error message |
| PaymentGateways.PaymentRequest.constructor | Backend/payment_gateways.py:40-49 | the request defaults to currency "USD", country "US" and no gateway |
| PaymentGateways.CreatePayment | Backend/payment_gateways.py:110-137 | a request without a gateway gets the preferred one written into it, a given gateway is kept, and that gateway's creation is the response |
| PaymentGateways.ProviderStatus | Backend/payment_gateways.py:213-222 | a provider word the gateway does not know reads as FAILED |
| PaymentGateways.StatusMap | Backend/payment_gateways.py:213-416 | each gateway knows four provider words, and only Razorpay has a word that reads as refunded |
| PaymentGateways.ProviderStatusSuccess | Backend/payment_gateways.py:213-416 | success iff the word is "succeeded" (Stripe), "approved" (PayPal) or "captured" (Razorpay); refunded only for Razorpay's "refunded"; pending only for a known word |
| PaymentGateways.GatewayVerify | Backend/payment_gateways.py:205-433 | the response keeps the gateway and payment id; a raising lookup gives FAILED with amount 0 and the gateway's fallback currency; a lookup gives the mapped status and the provider's id as transaction id |
| PaymentGateways.SupportedPaymentMethodsShape | Backend/payment_gateways.py:446-467 | India is offered five methods, all through Razorpay; any other country three, through PayPal exactly for the PayPal method |
| PaymentGateways.SupportedPaymentMethods | Backend/payment_gateways.py:446-467 | five offers iff the country is India (any case), and an offer goes through Razorpay iff the country is India |
| PaymentGateways.IndianCardOffersDisagreeWithSelection | Backend/payment_gateways.py:85-101 | in India the card offer names Razorpay while a card payment is routed to Stripe |
| VoiceAssistant.AssistantNamed | Backend/voice_assistant.py:147-150 | a name other than "Gammy" and "Alex" reads Pandu's entry |
| VoiceAssistant.Entry | Backend/voice_assistant.py:151 | a known language code reads its own entry and an unknown one the English entry |
| VoiceAssistant.LanguagesDistinct | Backend/voice_assistant.py:46-85 | each language code occurs once in the tables, English first |
| VoiceAssistant.Greeting | Backend/voice_assistant.py:147-151 | the greeting is the assistant's entry for the language, or its English one for an unknown language |
| VoiceAssistant.GreetingIn | Backend/voice_assistant.py:151 | the lookup `greetings.get(language, greetings["en"])`: the entry for a known language, the English one otherwise |
| VoiceAssistant.GreetingFallbacks | Backend/voice_assistant.py:147-151 | an unknown assistant greets as Pandu; an unknown language greets in English |
| VoiceAssistant.DefaultTemplate | Backend/voice_assistant.py:154-164 | the default reply contains the assistant's name |
| VoiceAssistant.DefaultResponse | Backend/voice_assistant.py:154-166 | the default reply names the assistant, in the language's template or the English one for an unknown language |
| VoiceAssistant.FallbackResponse | Backend/voice_assistant.py:135-166 | a message whose lower-cased form contains a greeting word gets the assistant's greeting for the language; any other message gets the language's default reply, which names the assistant |
| VoiceAssistant.GreetingInsideWord | Backend/voice_assistant.py:145-151 | greeting words are matched as substrings, so "this" is answered with a greeting |
| VoiceAssistant.HiInsideThis | Backend/voice_assistant.py:140-146 | "hi" occurs in "this" |
| VoiceAssistant.AssistantResponse | Backend/voice_assistant.py:96-133 | the model's stripped reply when it answered; the fallback reply without a key or when it raised |
| VoiceAssistant.DetectLanguage | Backend/voice_assistant.py:88-94 | the detector's answer, or "en" when it raised |
| VoiceAssistant.ProcessVoiceMessage | Backend/voice_assistant.py:169-186 | an empty or "auto" language is replaced by the detected one, any other is kept; the text is the assistant's reply in that language and the confidence is 0.95 |
| UserStore.CanUpload | Front-end/store/useUserStore.ts:65-69 | no user may not upload; a pro user always may; a free user may iff the upload count is below the quota |
| UserStore.CanAsk | Front-end/store/useUserStore.ts:71-75 | no user may not ask; a pro user always may; a free user may iff credits are above 0 |
| UserStore.RemainingUploads | Front-end/store/useUserStore.ts:77-81 | 0 without a user; the quota minus the count while the count is within the quota, 0 beyond it; never negative |
| UserStore.RemainingCredits | Front-end/store/useUserStore.ts:83-87 | 0 without a user; the credits when they are not negative, 0 when they are |
| UserStore.UsagePercentage | Front-end/store/useUserStore.ts:89-94 | 0 without a user or on pro; not a finite number for a free user with a zero quota; otherwise a finite value v with v·quota = 100·count |
| UserStore.GatesMatchRemaining | Front-end/store/useUserStore.ts:65-87 | on the free plan, a user may upload iff uploads remain and may ask iff credits remain |
| UserStore.UsageWithinQuota | Front-end/store/useUserStore.ts:89-94 | with a positive quota and a count within it, the usage lies in [0,100] and is below 100 iff the user may still upload |
| UserStore.UploadUsesOne | Front-end/store/useUserStore.ts:48-50 | an upload within the quota takes one from the remaining uploads, and uploading stays allowed iff another fits |
| UserStore.DemoUserGates | Front-end/store/useUserStore.ts:104-117 | the demo user may upload and ask, has 5 uploads and 50 credits left, and has used none of the quota |
| UserStore.Store.constructor | Front-end/store/useUserStore.ts:38-40 | no user, not loading, no error |
| UserStore.Store.SetUser | Front-end/store/useUserStore.ts:42 | the user is replaced and nothing else changes |
| UserStore.Store.UpdateCredits | Front-end/store/useUserStore.ts:44-46 | the user's credits become the given number; without a user nothing changes |
| UserStore.Store.IncrementUploadCount | Front-end/store/useUserStore.ts:48-50 | the upload count grows by one and nothing else changes; without a user nothing changes |
| UserStore.Store.ResetUsage | Front-end/store/useUserStore.ts:52-58 | no uploads used and credits back at their maximum, so the whole quota remains |
| UserStore.Store.SetLoading | Front-end/store/useUserStore.ts:60 | only the loading flag changes |
| UserStore.Store.SetError | Front-end/store/useUserStore.ts:62 | only the error changes |
| UserStore.Store.InitializeDemoUser | Front-end/store/useUserStore.ts:104-117 | the demo user is signed in only when nobody is |
| ChatStore.RemoveChat | Front-end/app/context/ChatStore.ts:68 | a chat is kept iff its id differs, in the original order |
| ChatStore.Prefix20 | Front-end/app/context/ChatStore.ts:80 | at most twenty characters, a prefix of the content, and the whole content when it is that short |
| ChatStore.AddMessage | Front-end/app/context/ChatStore.ts:76-84 | each chat with the id gets the message appended and possibly its title, every other chat is unchanged |
| ChatStore.ClearMessages | Front-end/app/context/ChatStore.ts:88-91 | each chat with the id loses its messages, every other chat is unchanged |
| ChatStore.Ids | Front-end/app/context/ChatStore.ts:68-72 | the chat ids in order |
| ChatStore.AddMessageEffect | Front-end/app/context/ChatStore.ts:75-85 | ids and order are kept; a chat with the id gains the message at the end and a title of at most twenty characters, taken from a first non-empty message; other chats are unchanged |
| ChatStore.RemoveTemplate | Front-end/app/context/ChatStore.ts:95 | a template is kept iff its name differs, in order |
| ChatStore.RemoveAbsentTemplate | Front-end/app/context/ChatStore.ts:95 | removing a name no template has changes nothing |
| ChatStore.Store.constructor | Front-end/app/context/ChatStore.ts:43-53 | one empty chat "chat-1", active; free plan, GPT-3.5, no templates |
| ChatStore.Store.SetUserPlan | Front-end/app/context/ChatStore.ts:54 | only the plan changes |
| ChatStore.Store.SetModel | Front-end/app/context/ChatStore.ts:55 | only the model changes |
| ChatStore.Store.CreateChat | Front-end/app/context/ChatStore.ts:56-65 | a new empty chat with id "chat-" and the time goes in front and becomes active |
| ChatStore.Store.SwitchChat | Front-end/app/context/ChatStore.ts:66 | the active id becomes the given one, which names a chat iff some chat has that id |
| ChatStore.Store.DeleteChat | Front-end/app/context/ChatStore.ts:67-74 | the chats with the id go; if the active chat went the first remaining chat becomes active, or none; an active id that named a chat still does |
| ChatStore.Store.AddMessageToChat | Front-end/app/context/ChatStore.ts:75-85 | the chats become the message-added chats and the active id stays valid |
| ChatStore.Store.ResetChat | Front-end/app/context/ChatStore.ts:86-93 | the active chat's messages are cleared; with no active chat or an empty id nothing changes |
| ChatStore.Store.AddTemplate | Front-end/app/context/ChatStore.ts:94 | the template is appended, even when one of that name exists |
| ChatStore.Store.RemoveTemplateNamed | Front-end/app/context/ChatStore.ts:95 | the templates of that name go, the others stay in order |
| FixedChatStore.Store.constructor | Front-end/careerforge-fixed/careerforge-fixed/src/app/app/context/ChatStore.ts:26-30 | no messages, none counted, free plan, GPT-3.5, no templates |
| FixedChatStore.Store.SetUserPlan | Front-end/careerforge-fixed/careerforge-fixed/src/app/app/context/ChatStore.ts:31 | only the plan changes |
| FixedChatStore.Store.SetModel | Front-end/careerforge-fixed/careerforge-fixed/src/app/app/context/ChatStore.ts:32 | only the model changes |
| FixedChatStore.Store.AddMessage | Front-end/careerforge-fixed/careerforge-fixed/src/app/app/context/ChatStore.ts:33 | the message is appended and the free-message count does not move |
| FixedChatStore.Store.ResetChat | Front-end/careerforge-fixed/careerforge-fixed/src/app/app/context/ChatStore.ts:34 | the conversation is emptied and the free-message count kept |
| FixedChatStore.Store.AddTemplate | Front-end/careerforge-fixed/careerforge-fixed/src/app/app/context/ChatStore.ts:35 | the template is appended |
| FixedChatStore.Store.RemoveTemplateNamed | Front-end/careerforge-fixed/careerforge-fixed/src/app/app/context/ChatStore.ts:36-39 | the templates of that name go, the others stay in order |
| FixedChatStore.Store.IncrementMessageCount | Front-end/careerforge-fixed/careerforge-fixed/src/app/app/context/ChatStore.ts:40-43 | the free-message count grows by one and nothing else changes |
| UsageTrackRoute.PlanRow | Front-end/careerforge-fixed/careerforge-fixed/src/app/app/api/usage/track/route.ts:13-41 | the table has a row exactly for "free", "plus" and "pro" |
| UsageTrackRoute.FeatureLimit | Front-end/careerforge-fixed/careerforge-fixed/src/app/app/api/usage/track/route.ts:12-43 | never below -1; 0 for an unknown plan or feature; -1 for every listed feature on pro |
| UsageTrackRoute.FeatureLimitTable | Front-end/careerforge-fixed/careerforge-fixed/src/app/app/api/usage/track/route.ts:14-42 | free gets 5 chats, 3 analyses, 2 letters and no job matching; plus gets 30 job matches and no voice assistant; pro's voice assistant is unlimited; an unknown plan gets 0 |
| UsageTrackRoute.MockUsage | Front-end/careerforge-fixed/careerforge-fixed/src/app/app/api/usage/track/route.ts:46 | the drawn usage is not negative, below max(1, limit/2), and 0 for a limit of at most 2 |
| UsageTrackRoute.Track | Front-end/careerforge-fixed/careerforge-fixed/src/app/app/api/usage/track/route.ts:2-62 | a body that is not JSON yields 500 and only then; a missing or empty user or feature yields 400 and only then; otherwise the plan (default "free"), the feature and its table limit are reported |
| UsageTrackRoute.TrackArithmetic | Front-end/careerforge-fixed/careerforge-fixed/src/app/app/api/usage/track/route.ts:44-56 | the reported usage is one more than the drawn one; allowed iff the limit is -1 or not exceeded; remaining is -1 iff unlimited, otherwise max(0, limit - usage); a zero limit is refused with nothing remaining |
| UsageTrackRoute.RefusedOnlyAtZero | Front-end/careerforge-fixed/careerforge-fixed/src/app/app/api/usage/track/route.ts:46-48 | because the draw is below half the limit, a use is refused iff the feature's limit is 0 |
| JobMatchRoute.Catalogue | Front-end/app/api/job-match/route.ts:36-97 | the catalogue holds six jobs, each listing at least one skill |
| JobMatchRoute.CatalogueJob1 | Front-end/app/api/job-match/route.ts:37-46 | the first job has id "1" and five skills |
| JobMatchRoute.CatalogueJob2 | Front-end/app/api/job-match/route.ts:47-56 | the second job has id "2" and five skills |
| JobMatchRoute.CatalogueJob3 | Front-end/app/api/job-match/route.ts:57-66 | the third job has id "3" and five skills |
| JobMatchRoute.CatalogueJob4 | Front-end/app/api/job-match/route.ts:67-76 | the fourth job has id "4" and five skills |
| JobMatchRoute.CatalogueJob5 | Front-end/app/api/job-match/route.ts:77-86 | the fifth job has id "5" and five skills |
| JobMatchRoute.CatalogueJob6 | Front-end/app/api/job-match/route.ts:87-96 | the sixth job has id "6" and five skills |
| JobMatchRoute.SkillMatches | Front-end/app/api/job-match/route.ts:101-106 | the count is at most the number of given skills, and 0 iff no given skill is related to a job skill |
| JobMatchRoute.BaseScore | Front-end/app/api/job-match/route.ts:108 | the rounded percentage lies in [0,100]; 0 with no match and 100 when every skill of the larger list matches |
| JobMatchRoute.RoundedShareBounds | Front-end/app/api/job-match/route.ts:108 | `Math.round(100·m/d)` is at most 100 for m ≤ d, exactly 100 for m = d and 0 for m = 0 |
| JobMatchRoute.Scored | Front-end/app/api/job-match/route.ts:100-115 | only the score changes, and it lies between the jitter and 100 plus the jitter |
| JobMatchRoute.NoSkillsScoresJitter | Front-end/app/api/job-match/route.ts:101-113 | with no skills given, every job scores just its jitter |
| JobMatchRoute.ContainsItself | Front-end/app/api/job-match/route.ts:103-104 | every string contains itself |
| JobMatchRoute.OwnSkillsScoreAboveHundred | Front-end/app/api/job-match/route.ts:100-113 | a job matched against its own skills scores 100 plus its jitter |
| JobMatchRoute.Insert | Front-end/app/api/job-match/route.ts:118 | inserting into a sorted list adds exactly the job, keeps the list sorted, and puts either the job or the old head first |
| JobMatchRoute.HeadDominates | Front-end/app/api/job-match/route.ts:118 | a head at least as good as the next job keeps a sorted list sorted |
| JobMatchRoute.SortByScore | Front-end/app/api/job-match/route.ts:117-118 | the result is a permutation of the jobs, sorted by descending score |
| JobMatchRoute.ScoredCatalogue | Front-end/app/api/job-match/route.ts:100-115 | each catalogue job is scored with its own jitter, in catalogue order |
| JobMatchRoute.FindMatchingJobs | Front-end/app/api/job-match/route.ts:32-120 | five jobs come back, sorted by descending score |
| JobMatchRoute.FindMatchingJobsTopFive | Front-end/app/api/job-match/route.ts:117-120 | the five returned and the one left out make up the scored catalogue, and every returned job scores at least as much as the one left out |
| JobMatchRoute.FindMatchingJobsFromCatalogue | Front-end/app/api/job-match/route.ts:100-120 | every returned job is a catalogue job with only its score changed, and the score lies in [0,109] |
| JobMatchRoute.MatchJobs | Front-end/app/api/job-match/route.ts:3-30 | a body that is not JSON yields 500 and only then; absent or non-array skills yield 400 and only then; otherwise the top five jobs and their count, 5 |
| RazorpayPayment.TwoDigits | RazorpayPayment.tsx:234 | `padStart(2, '0')` gives at least two characters, exactly two iff the number is below 100 |
| RazorpayPayment.LongDecimal | RazorpayPayment.tsx:234 | a number of 100 or more has at least three digits |
| RazorpayPayment.TwoDigitsOf | RazorpayPayment.tsx:234 | a number below 100 pads to its tens digit and its units digit |
| RazorpayPayment.Clock | RazorpayPayment.tsx:231-233 | minutes and seconds are below 60 and hours, minutes and seconds add back up to the total |
| RazorpayPayment.FormatTime | RazorpayPayment.tsx:230-235 | the text is eight characters long iff the time is below 100 hours |
| RazorpayPayment.ParseTime | RazorpayPayment.tsx:230-235 | a text is read back iff it has the "hh:mm:ss" shape with minutes and seconds below 60 |
| RazorpayPayment.FormatTimeRoundTrip | RazorpayPayment.tsx:230-235 | every time below 100 hours formats to the clock shape and reads back to itself |
| RazorpayPayment.FieldsRoundTrip | RazorpayPayment.tsx:230-235 | three two-digit fields joined by colons have the clock shape and read back to the total number of seconds |
| RazorpayPayment.FieldValue | RazorpayPayment.tsx:234 | the two padded digits of a number below 100 read back to it |
| RazorpayPayment.FieldText | RazorpayPayment.tsx:234 | two digits read as a number below 100 pad back to themselves |
| RazorpayPayment.ParseTimeRoundTrip | RazorpayPayment.tsx:230-235 | every clock-shaped text reads as a time below 100 hours that formats back to the same text |
| RazorpayPayment.ClockUnique | RazorpayPayment.tsx:231-233 | the split into hours, minutes below 60 and seconds below 60 is the only one |
| RazorpayPayment.SecondsLeft | RazorpayPayment.tsx:160-165 | 0 when less than a second remains (the past included), else the whole seconds remaining |
| RazorpayPayment.CountdownEffect | RazorpayPayment.tsx:220-228 | a positive time ticks down by one, and a finished countdown regenerates the payment iff its status is pending |
| RazorpayPayment.CountdownReachesZero | RazorpayPayment.tsx:220-223 | after n ticks the time left is max(0, start - n) |
| RazorpayPayment.RunCountdown | RazorpayPayment.tsx:220-223 | the time left never grows, and it shrinks after a tick from a positive time |
| RazorpayPayment.Poll | RazorpayPayment.tsx:184-211 | polling stops iff the server reported "captured", "paid" or "failed"; otherwise nothing changes; a stop sets success with its message and notice, or failure with its message and notice |
| RazorpayPayment.PollAllFirstSettles | RazorpayPayment.tsx:184-212 | a run of polls stops iff some reply settles; the first settling reply decides the status; without one the status is unchanged |
| RazorpayPayment.PollAll | RazorpayPayment.tsx:184-212 | without a stop the status is unchanged; a stop leaves the status succeeded or failed |

## Left out

- Text: case mapping (`lower`, `upper`, `title`, `capitalize`, `toLowerCase`) and the character classes `\w`, `\d` and `\s` are ASCII only; the source uses Unicode rules.
- Strings are sequences of characters; JavaScript's UTF-16 code units are not modelled, so `Prefix20` counts characters where `substring(0, 20)` counts code units.
- Scores are exact `real` numbers rather than IEEE doubles, so rounding errors of the float arithmetic are not modelled (match scores, ATS shares, usage percentage, `Math.random() * max(1, limit / 2)`).
- Deduplication by `list(set(...))`: the model keeps first occurrences in order; Python's set order is hash-dependent, so contracts state only the members and the absence of repeats.
- Language models, sentence embeddings, spaCy entities and keyword extraction are inputs (`AiReply`, optional strings, keyword lists); their prompts and the JSON parsing of their replies are not modelled beyond "answered" or "raised".
- The regular expressions of `extract_experience` (company and role lines), the email and phone patterns, and `detect_language` are inputs; the word-bounded skill patterns are modelled by `WordPatterns`.
- Document text extraction (PDF, DOCX, TXT), file uploads, FastAPI routing, JWT access tokens and token revocation, SHA-256 hashing (a reset takes the new hash as input), e-mail sending and the database models are not part of this model.
- `users_db` in `Backend/main.py` is never defined; the model uses an explicit map from email to password hash.
- Reset tokens are drawn at random by the service; the model takes the token as a parameter. Clock readings (`datetime.utcnow`, `Date.now`, `new Date`) are parameters too.
- WebSocket connections, background tasks, the polling interval timer and the ten-minute polling cut-off are concurrency and timing, not modelled; `PollAll` models any run of poll replies.
- RazorpayPayment.SecondsLeft: an `expires_at` that `new Date` cannot parse (NaN) and an absent `expires_at` are not modelled; the expiry is an integer number of milliseconds.
- The payment creation request of the Razorpay panel, its loading flags and its QR code display are UI state, not modelled.
- The Stripe, PayPal and Razorpay SDK calls are inputs (`CreateOutcome`, `VerifyOutcome`); `int(amount * 100)` inside them, the order receipt and the metadata are not modelled.
- PaymentGateways.CreatePayment: the manager's own failure branch (a gateway missing from its table) is not reachable, since all three gateways are registered.
- The front-end stores' persistence to local storage (zustand `persist`) and the optional message timestamp are not modelled.
- UsageTrackRoute.Track: request bodies are a JSON object or not JSON at all; fields of a non-string type, and plan or feature names that are keys of the JavaScript object prototype, are not modelled.
- JobMatchRoute.MatchJobs: the skills array is a list of strings; elements of another type are not modelled. The `experience` field is read but unused by the source, and the simulated delay is not modelled.
- FindAll: its own contract states only that the hits are alternatives; FindAllNone states when there is no hit at all and FindAllFirstHit which hit comes first. A whole-word occurrence that overlaps an earlier match is skipped, as `re.findall` resumes after each match, so no lemma says which later occurrences are reported.
- JobMatchRoute.SortByScore: the stability of JavaScript's sort is not stated; the contract gives a permutation sorted by descending score.
- JobMatchRoute.MatchJobs: the job catalogue is a parameter rather than a module constant, so that proofs about matching do not unfold the six literal jobs; `Catalogue` gives those six jobs.
- ResumeParserCustom.ParseResume: the email regular expression is an input; as the function always raises, its result record is never produced.
- `usage_tracker.py` imports `get_plan_by_id` and `check_user_usage`, which `subscription_plans.py` does not define; the tracker is modelled standalone with its own limit table.
- The pricing helpers, the React pages and components, the mock API routes, the OTP rate limiter and the API client of the front-end are not part of this model.
