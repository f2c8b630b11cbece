# Repository Scorer — a verified model of the scoring core

Repository Scorer is a DevSecOps self-assessment service. A user picks a repository tool, and
optionally a CI/CD and a deployment platform. They answer a rubric of yes/no questions and get a
score out of 100, a per-pillar breakdown, an AI-written summary, an e-mail and a shareable link.

This project models the deterministic heart of that service in Dafny and proves what it
promises.

- **Weight distribution** (`BackendConfig`, `ScorerConfig`, `Grouping`, `BackendCatalog`). Each
  question's importance value becomes part of a rubric worth 100 points to within one hundredth.
  - The backend's flat variant groups the questions by pillar and shares the 100 points
    pillar → question.
  - The backend's platform variant shares them category → pillar → question.
  - The older single-pillar variant shares them directly.
  - Each variant ends with a one-shot reconciliation that moves the rounding drift onto a
    single question.
- **Score aggregation** (`Scoring`). Per-question scoring is binary. The module also covers
  the final sum and the per-pillar (earned, max) breakdown.
- **Adaptive question flow** (`ScorerOrchestrator.AssessmentOrchestrator`). A class with a
  base-question cursor, a FIFO follow-up queue, a score map and a results list.
- **Backend orchestrator** (`BackendOrchestrator`). It stores answer analyses and splits the
  answers into yes and no lists. Both lists are sorted stably by descending importance.
  It also counts importance tiers and decides readiness.
- **Session and result registry** (`BackendMain.Registry`). Covers the work-email rule, the
  expiry of sessions and of shared results, and the start, answer, complete and shared-result
  endpoints with their error paths.
- **E-mail service** (`EmailService`). Covers config validation, the summary-to-HTML
  formatter, score bands, and the early return when the config is invalid.

Modelling conventions:

- Scores are integers counting hundredths of a point, so 100 points is `FullMarks = 10000`.
  - Python's `round(x, 2)` of a real quotient becomes `Numbers.Round2`, which rounds to the
    nearest hundredth.
  - A sum of scores is already exact in hundredths, so rounding it again is the identity.
- Importance values and shares are `real`.
- Time is an integer count of seconds, passed in as `now`.
- Python dictionaries, which keep insertion order, become sequences or maps.
- Every network service is a function-typed parameter: the classifier, the relevance
  decider, the follow-up catalog, the answer analyser, the summary writer and the health
  probe.
- The SMTP outcome is a plain parameter.

Files, in dependency order:

- `wrappers.dfy`
- `numbers.dfy`
- `text.dfy`
- `scoring.dfy`
- `grouping.dfy`
- `backend_catalog.dfy`
- `backend_config.dfy`
- `scorer_config.dfy`
- `scorer_orchestrator.dfy`
- `backend_orchestrator.dfy`
- `email_service.dfy`
- `backend_main.dfy`

## Model

| member | source | states |
|---|---|---|
| Numbers.Round2 | src/repo_scorer/config.py:124 | round(x, 2) in hundredths: the result lies within half a hundredth of 100·x |
| Numbers.Round2Monotone | backend/config.py:901 | rounding to hundredths keeps the order of its arguments |
| Numbers.RoundedSumDrift | src/repo_scorer/config.py:124-131 | n rounded shares add up to within n/2 hundredths of the exact total, which is the drift reconciliation corrects |
| Numbers.NatToStringInjective | backend/config.py:728 | distinct counters give distinct decimal texts, so the `{prefix}_{n}` ids are distinct |
| Text.FindFirst | backend/main.py:133 | the position of the leftmost occurrence, with none before it; None exactly when the pattern occurs nowhere |
| Text.SplitOn | backend/email_service.py:36 | str.split always yields at least one piece |
| Text.JoinSplit | backend/email_service.py:36 | str.split loses nothing: joining the pieces with the separator gives back the text |
| Text.SplitPiecesAvoidSeparator | backend/email_service.py:43 | no piece of a split contains the separator |
| Text.SplitPiecesFromText | backend/email_service.py:43 | every character of every piece comes from the split text |
| Text.SplitAtOnlySeparator | backend/main.py:133 | a text with exactly one '@' splits into the part before it and the part after it |
| Text.Strip | backend/email_service.py:48 | str.strip(): no whitespace at either end of the result, which is empty exactly when the text is all whitespace |
| Text.TrimStartDropsBlanks | backend/email_service.py:48 | the leading cut removes a whitespace-only prefix and keeps the rest as it was |
| Text.TrimEndDropsBlanks | backend/email_service.py:48 | the trailing cut removes a whitespace-only suffix |
| Text.StripDropsOnlyBlanks | backend/email_service.py:48 | str.strip() cuts nothing but whitespace: the result is a slice s[a..b] with only whitespace in s[..a] and s[b..] |
| Text.Lower | backend/main.py:133 | str.lower() on ASCII: same length, each letter lower-cased |
| Text.Title | src/repo_scorer/config.py:114 | str.title() keeps the length and changes only letter case: each character lower-cases to what the input character does |
| Text.RemoveBoldMarkers | backend/email_service.py:53-57 | replace('**', '') never lengthens the text and deletes only asterisks: with every '*' taken out, input and output are the same text |
| Text.RemoveBoldMarkersComplete | backend/email_service.py:53-57 | after replace('**', '') no "**" is left |
| Text.JoinWithSpaceKeepsNoBold | backend/email_service.py:62 | joining marker-free texts with single spaces creates no "**" |
| Scoring.ScoreQuestion | src/repo_scorer/scoring.py:6-17 | the score is 0 or max_score, and max_score for "yes" |
| Scoring.ScoreQuestionIsBinary | src/repo_scorer/scoring.py:6-17 | the score is 0 or max_score; it is max_score exactly for "yes"; "no", "partial" and "unsure" earn 0; max_score passes through unvalidated |
| Scoring.TotalRemove | src/repo_scorer/scoring.py:30 | sum(values()) does not depend on iteration order |
| Scoring.TotalUpdate | src/repo_scorer/orchestrator.py:135 | storing v under an id moves the total by v minus the value it replaced |
| Scoring.CalculateFinalScore | src/repo_scorer/scoring.py:20-30 | the loop returns the sum of all scores, and 0 for an empty map |
| Scoring.GenerateBreakdown | src/repo_scorer/scoring.py:33-51 | one (earned, max) entry per pillar key and no other keys; empty in, empty out |
| Scoring.EarnedOnlyReadsListedIds | src/repo_scorer/scoring.py:48 | scores for unlisted ids are ignored: maps that agree on the listed ids earn the same |
| Scoring.EarnedMissingIsZero | src/repo_scorer/scoring.py:48 | listed ids missing from the scores count 0 |
| Scoring.ZeroScoresEarnNothing | src/repo_scorer/scoring.py:48 | with no scores at all a pillar earns 0 |
| Scoring.EarnedWithinMax | src/repo_scorer/scoring.py:48-49 | with binary scores and non-negative maxima, 0 <= earned <= max |
| Scoring.AllYesEarnsMax | src/repo_scorer/scoring.py:48-49 | when every listed question earned its max, earned equals max |
| Grouping.Members | backend/config.py:872-876 | every index in a pillar's group has that pillar's tag |
| Grouping.PillarOrderExact | backend/config.py:872-876 | the pillar order holds each tag of the input exactly once and nothing else |
| Grouping.MembersExact | backend/config.py:872-876 | a group holds exactly the positions carrying its tag, in increasing order |
| Grouping.GroupsDisjoint | backend/config.py:872-876 | no input position is placed in two groups or twice in one |
| Grouping.MembersNonEmpty | backend/config.py:874-876 | a tag that occurs has a non-empty group |
| Grouping.MembersEmpty | backend/config.py:874-876 | a tag that never occurs has an empty group |
| Grouping.GroupSizesSum | backend/config.py:872-876 | the group sizes add up to the number of inputs |
| Grouping.GroupByPillar | backend/config.py:872-876 | the loop's dictionary has one key per tag, in first-appearance order, each mapped to that tag's group |
| BackendCatalog.ParseTool | backend/config.py:8-13 | RepositoryTool(value) succeeds exactly for the four enum values, and then returns the member with that value |
| BackendCatalog.ParseCicd | backend/config.py:16-22 | CICDPlatform(value) succeeds exactly for the five enum values |
| BackendCatalog.ParseDeployment | backend/config.py:25-31 | DeploymentPlatform(value) succeeds exactly for the five enum values |
| BackendCatalog.RepositoryCatalog | backend/config.py:57-216 | each repository catalog has five entries, each with importance between 1 and 10 |
| BackendCatalog.CicdCatalog | backend/config.py:224-417 | each CI/CD catalog has five entries, each with importance between 1 and 10 |
| BackendCatalog.DeploymentCatalog | backend/config.py:424-616 | each deployment catalog has five entries, each with importance between 1 and 10 |
| BackendConfig.PillarImportancePositive | backend/config.py:879-881 | with positive importances, every pillar that occurs has a positive importance sum, so the divisions are defined |
| BackendConfig.OrderedPillarsPositive | backend/config.py:879-883 | the same for every pillar in the order |
| BackendConfig.BuildPillar | backend/config.py:891-917 | a pillar carries its tag and name, one question per input with that tag, and total_weight equal to the sum of its questions' max_scores |
| BackendConfig.Allocate | backend/config.py:872-917 | one pillar per weight, each weighing the sum of its questions' max_scores |
| BackendConfig.AllocatedQuestion | backend/config.py:892-908 | question m of pillar j is built from the m-th input carrying that pillar's tag, with the pillar's importance and weight |
| BackendConfig.AllocationPlacesEachItem | backend/config.py:872-908 | every input appears in the pillar named by its tag, with its own id, text and importance |
| BackendConfig.AllocationQuestionCount | backend/config.py:872-917 | the pillars hold as many questions as there were inputs |
| BackendConfig.TwoStepShare | backend/config.py:888-901 | importance/pillar_importance × (pillar_importance/total × 100) equals importance/total × 100 |
| BackendConfig.ShareMonotone | backend/config.py:901 | within a pillar, max_score is non-negative and monotone in importance |
| BackendConfig.ScoreCollapses | backend/config.py:879-901 | a flat-variant question's max_score is round2 of its importance over the grand total × 100 |
| BackendConfig.SharesOrdered | backend/config.py:901 | rounded global shares are non-negative and follow the order of importance |
| BackendConfig.NumberedItems | backend/config.py:722-764 | one numbered item per catalog entry; a well-formed catalog gives a non-empty list with positive importances |
| BackendConfig.FlatWeights | backend/config.py:886-888 | one target weight per pillar, and the unrounded targets add up to exactly 100 |
| BackendConfig.FlatAllocation | backend/config.py:878-917 | one pillar per tag, each weighing the sum of its questions' max_scores, and the allocation can always be reconciled |
| BackendConfig.ToolItems | backend/config.py:873-899 | one item per catalog entry, with positive importances for a well-formed catalog |
| BackendConfig.FlatScoreIsGlobalShare | backend/config.py:879-901 | before reconciliation every question's max_score is round2(importance / total × 100), with positive importance |
| BackendConfig.FlatScoresOrdered | backend/config.py:879-901 | before reconciliation, max_scores are non-negative and monotone in importance across the whole rubric |
| BackendConfig.PlatformItems | backend/config.py:722-764 | one item per entry of the three selected catalogs |
| BackendConfig.NumberedIdCategory | backend/config.py:802-811 | ids `repo_n`, `cicd_n` and `deploy_n` are read back as the repository, CI/CD and deployment categories |
| BackendConfig.CategoryImportance | backend/config.py:782-784 | each category's importance sum is positive |
| BackendConfig.NumberedImportances | backend/config.py:782-784 | numbering a catalog keeps its importance sum |
| BackendConfig.PlatformImportance | backend/config.py:776 | the grand importance total is positive |
| BackendConfig.PlatformImportanceSplits | backend/config.py:776-784 | the grand total is the sum of the three category totals |
| BackendConfig.CategoryWeightsSum | backend/config.py:787-791 | the three category weights add up to exactly 100 |
| BackendConfig.PlatformWeights | backend/config.py:795-814 | one weight per pillar in the order |
| BackendConfig.PillarWeight | backend/config.py:814 | every pillar's weight is positive |
| BackendConfig.PillarWeightValue | backend/config.py:799-814 | pillar weight = pillar_importance / category_importance × category_weight, with the category taken from the pillar's first question |
| BackendConfig.PlatformItemsPositive | backend/config.py:726-764 | well-formed catalogs give positive importances throughout |
| BackendConfig.PlatformAllocation | backend/config.py:793-836 | one pillar per tag, each weighing the sum of its questions' max_scores, and the allocation can always be reconciled |
| BackendConfig.PlatformItemCategory | backend/config.py:723-811 | an item's id prefix names the category of the catalog it came from, because the counter restarts per category |
| BackendConfig.ThreeStepShare | backend/config.py:786-819 | the category → pillar → question product of shares collapses to importance / total × 100 |
| BackendConfig.PlatformScoreCollapses | backend/config.py:786-824 | a platform-variant question's max_score is round2 of its global share |
| BackendConfig.PlatformScoreIsGlobalShare | backend/config.py:776-824 | before reconciliation every question's max_score is round2(importance / total × 100) |
| BackendConfig.PlatformScoresOrdered | backend/config.py:776-824 | before reconciliation, max_scores are non-negative and monotone in importance across all three categories |
| BackendConfig.ArgMax | backend/config.py:923-924 | max(…, key=…) returns the first position holding the largest value |
| BackendConfig.NeedsReconcile | backend/config.py:921 | reconciliation fires exactly when the pillar weights total below 99.99 or above 100.01 |
| BackendConfig.Reconciled | backend/config.py:919-927 | reconciliation changes nothing when the total is within 0.01 of 100 |
| BackendConfig.ReconciledTotal | backend/config.py:919-927 | afterwards the pillar weights sum to within 0.01 of 100, and to exactly 100.00 when reconciliation fired |
| BackendConfig.ReconciledChangesOnlyLargest | backend/config.py:922-927 | when it fires, only the first largest question of the first largest pillar, and that pillar's weight, change, both by 100 − total |
| BackendConfig.ReconciledKeepsConsistent | backend/config.py:911-927 | each pillar's total_weight stays the sum of its questions' max_scores |
| BackendConfig.ReconciledShape | backend/config.py:919-927 | reconciliation keeps every pillar's key, name and question count |
| BackendConfig.AdjustLargest | backend/config.py:919-927 | the in-place adjustment yields the reconciled rubric |
| BackendConfig.AllocationReconcilable | backend/config.py:891-923 | a non-empty allocation never hits max() of an empty sequence |
| BackendConfig.NumberEntries | backend/config.py:722-736 | the numbering loop yields the numbered items |
| BackendConfig.AllocatedPillar | backend/config.py:892-917 | pillar j is built from the j-th tag with the j-th weight |
| BackendConfig.BuildPillars | backend/config.py:891-917 | the pillar-building loop yields the rounded allocation |
| BackendConfig.DistributeFlat | backend/config.py:878-927 | weights, pillars and reconciliation together give the reconciled flat allocation |
| BackendConfig.GetQuestionsForTool | backend/config.py:851-929 | get_questions_for_tool returns the reconciled flat allocation of the tool's catalog |
| BackendConfig.GroupCategory | backend/config.py:801-811 | the first question of a pillar's group decides the pillar's category |
| BackendConfig.PlatformPillarWeights | backend/config.py:794-814 | the weight loop yields each pillar's category-scaled weight |
| BackendConfig.DistributePlatforms | backend/config.py:766-846 | grouping, weighting, building and reconciling give the reconciled platform allocation |
| BackendConfig.GetQuestionsForPlatforms | backend/config.py:675-848 | get_questions_for_platforms returns the reconciled platform allocation of the three selected catalogs |
| BackendConfig.FlattenAppend | backend/config.py:932-938 | flattening is pillar by pillar: flattening a concatenation concatenates the flattenings |
| BackendConfig.FlattenContents | backend/config.py:932-938 | the flat list is as long as the pillars' question counts add up to, and each tuple carries its own pillar's id and name |
| BackendConfig.GetAllQuestions | backend/config.py:932-938 | the append loop yields the pillar-then-question flattening |
| BackendConfig.ReconciledQuestionCount | backend/config.py:919-938 | reconciliation keeps the total question count |
| BackendConfig.FlatRubricComplete | backend/config.py:851-938 | the flat rubric lists one question per catalog entry |
| BackendConfig.PlatformRubricComplete | backend/config.py:675-848 | the platform rubric lists one question per entry of the three catalogs |
| BackendConfig.FlattenScoresSum | backend/config.py:909-938 | when each pillar weighs the sum of its questions, the max_scores of the flattened questions add up to the pillar weights' total |
| BackendConfig.ReconciledRubricTotals | backend/config.py:909-938 | reconciling such a rubric keeps each pillar equal to the sum of its questions, and the questions get_all_questions lists are worth 100 points within 0.01 |
| BackendConfig.FlatRubricTotals | backend/config.py:851-938 | the tool rubric is consistent pillar by pillar, and its listed questions are worth 100 points within 0.01 |
| BackendConfig.PlatformRubricTotals | backend/config.py:675-938 | the platform rubric is consistent pillar by pillar, and its listed questions are worth 100 points within 0.01 |
| ScorerConfig.ToolName | src/repo_scorer/config.py:114 | the display name has as many characters as the tool's value |
| ScorerConfig.GitHubName | src/repo_scorer/config.py:114 | "github" becomes "Github" |
| ScorerConfig.GitLabName | src/repo_scorer/config.py:114 | "gitlab" becomes "Gitlab" |
| ScorerConfig.AzureDevOpsName | src/repo_scorer/config.py:114 | "azure_devops" becomes "Azure Devops" |
| ScorerConfig.Catalog | src/repo_scorer/config.py:35-93 | each tool has fifteen questions with positive importances |
| ScorerConfig.TotalImportance | src/repo_scorer/config.py:118 | the importance total is positive |
| ScorerConfig.InitialQuestions | src/repo_scorer/config.py:120-128 | one question per catalog entry |
| ScorerConfig.InitialQuestionAt | src/repo_scorer/config.py:120-128 | question i has id `{tool}_{i+1}`, the i-th text and importance, and max_score round2(importance / total × 100) |
| ScorerConfig.InitialScoresOrdered | src/repo_scorer/config.py:124 | initial max_scores are non-negative and monotone in importance |
| ScorerConfig.InitialDrift | src/repo_scorer/config.py:124-131 | before adjustment the scores sum to within n/2 hundredths of 100 |
| ScorerConfig.QuestionIdsDistinct | src/repo_scorer/config.py:122 | different positions give different ids |
| ScorerConfig.NeedsAdjustment | src/repo_scorer/config.py:132 | the adjustment fires exactly when the scores total below 99.99 or above 100.01 |
| ScorerConfig.Adjusted | src/repo_scorer/config.py:130-135 | the adjustment keeps the number of questions |
| ScorerConfig.AdjustedChangesOnlyLast | src/repo_scorer/config.py:130-135 | only the last question's max_score can change; with total within 0.01 of 100 nothing changes |
| ScorerConfig.AdjustedTotal | src/repo_scorer/config.py:130-135 | afterwards the scores sum to within 0.01 of 100, and to exactly 100.00 when the adjustment fired |
| ScorerConfig.GetQuestionsForTool | src/repo_scorer/config.py:96-145 | exactly one pillar, keyed `{tool}_specific`, named "… - Repository & Code Management", weighing 100, holding the adjusted questions |
| ScorerConfig.ToolRubric | src/repo_scorer/config.py:96-145 | each tool's rubric has fifteen questions with ids `{tool}_{i+1}`, its own texts, and a total within 0.01 of 100 |
| ScorerConfig.FlattenSingle | src/repo_scorer/config.py:148-154 | flattening one pillar lists its questions in order, each with the pillar's id and name |
| ScorerConfig.GetAllQuestions | src/repo_scorer/config.py:148-154 | the append loop yields the flattening |
| ScorerOrchestrator.BaseIdIsPrefix | src/repo_scorer/orchestrator.py:146 | split("_followup_")[0] is a prefix without the marker; for a follow-up id the marker follows it, otherwise it is the whole id |
| ScorerOrchestrator.IndexOf | src/repo_scorer/orchestrator.py:74-79 | the first position holding the id; None exactly when the id is absent |
| ScorerOrchestrator.Search | src/repo_scorer/orchestrator.py:74-79 | the search loop with `break` finds that first position |
| ScorerOrchestrator.Lookup | src/repo_scorer/orchestrator.py:73-121 | a found target carries the requested id; a rubric question always carries its pillar |
| ScorerOrchestrator.LookupFails | src/repo_scorer/orchestrator.py:73-124 | the lookup fails exactly when the id is not a rubric question and, if it is a follow-up id, is neither pending nor configured; a rubric question wins first |
| ScorerOrchestrator.ResultFor | src/repo_scorer/orchestrator.py:132-147 | the result carries the id, answer and classification, earns max_score exactly for "yes", and is a follow-up with its base id exactly when the id holds the marker |
| ScorerOrchestrator.Approved | src/repo_scorer/orchestrator.py:152-166 | only candidates the oracle approves are queued, with the pillar's id and name |
| ScorerOrchestrator.ApprovedAppend | src/repo_scorer/orchestrator.py:155-166 | approval is candidate by candidate, in candidate order |
| ScorerOrchestrator.ApprovedComplete | src/repo_scorer/orchestrator.py:155-166 | every approved candidate is queued |
| ScorerOrchestrator.ApprovedKeepsDuplicates | src/repo_scorer/orchestrator.py:164-166 | there is no de-duplication: an approved candidate listed twice is queued twice |
| ScorerOrchestrator.PillarQuestionLists | src/repo_scorer/orchestrator.py:199-202 | the breakdown input is keyed by exactly the pillar names |
| ScorerOrchestrator.SinglePillarLists | src/repo_scorer/orchestrator.py:199-202 | a pillar's list holds each question's (id, max_score) in order |
| ScorerOrchestrator.AssessmentOrchestrator.constructor | src/repo_scorer/orchestrator.py:22-32 | the tool's single pillar, keyed `{tool}_specific`, named "{tool name} - Repository & Code Management", with total_weight 100 and the adjusted questions; its flattening; nothing scored, nothing queued, cursor at 0 |
| ScorerOrchestrator.AssessmentOrchestrator.GetNextQuestion | src/repo_scorer/orchestrator.py:217-234 | the queue head is returned and removed first; otherwise the question under the cursor, advancing it; otherwise None with nothing changed; the cursor never passes the end |
| ScorerOrchestrator.AssessmentOrchestrator.FindQuestion | src/repo_scorer/orchestrator.py:73-121 | the three lookup loops yield Lookup's answer |
| ScorerOrchestrator.AssessmentOrchestrator.ProcessAnswer | src/repo_scorer/orchestrator.py:54-168 | an unknown id fails with "Question … not found" and changes nothing; otherwise the score is stored under the id, exactly one result is appended, and for a rubric question the approved follow-ups are queued behind the existing entries |
| ScorerOrchestrator.AssessmentOrchestrator.EnqueueApproved | src/repo_scorer/orchestrator.py:155-166 | the queue becomes its old contents followed by the approved candidates |
| ScorerOrchestrator.AssessmentOrchestrator.FinalizeAssessment | src/repo_scorer/orchestrator.py:188-215 | the final score is the sum of the stored scores, and the breakdown is keyed by pillar name over each pillar's (id, max) list |
| ScorerOrchestrator.AssessmentOrchestrator.Reset | src/repo_scorer/orchestrator.py:236-241 | scores, results and queue are emptied and the cursor returns to 0 |
| BackendOrchestrator.TupleFor | backend/orchestrator.py:88-96 | the tuple carries the question's text and importance and the given answer or ""; the analysis is the stored one, else "No analysis available" |
| BackendOrchestrator.Buckets | backend/orchestrator.py:85-101 | a successful split holds no more tuples than there are rubric questions |
| BackendOrchestrator.BucketsSucceed | backend/orchestrator.py:85-101 | the split fails (KeyError) exactly when some answered rubric question has no classification |
| BackendOrchestrator.BucketsSizes | backend/orchestrator.py:85-101 | the yes and no lists are as long as the number of answered questions classified yes and otherwise |
| BackendOrchestrator.BucketsPlace | backend/orchestrator.py:85-101 | each answered question lands in the yes list when its classification is "yes", and in the no list otherwise |
| BackendOrchestrator.BucketsIgnoreOtherIds | backend/orchestrator.py:85-87 | answers to ids outside the rubric change nothing |
| BackendOrchestrator.BucketsFailureStays | backend/orchestrator.py:98 | once a classification is missing, later questions cannot undo the failure |
| BackendOrchestrator.InsertByImportance | backend/orchestrator.py:104-105 | insertion adds exactly one element |
| BackendOrchestrator.InsertByImportanceMultiset | backend/orchestrator.py:104-105 | insertion adds exactly the one tuple |
| BackendOrchestrator.InsertByImportanceDescending | backend/orchestrator.py:104-105 | insertion keeps a list descending by importance |
| BackendOrchestrator.InsertByImportanceStable | backend/orchestrator.py:104-105 | the new tuple goes behind every tuple of equal importance |
| BackendOrchestrator.SortByImportance | backend/orchestrator.py:104-105 | the sort keeps the number of tuples |
| BackendOrchestrator.SortByImportanceDescending | backend/orchestrator.py:104-105 | sort(key=importance, reverse=True) yields a list descending by importance |
| BackendOrchestrator.SortByImportancePermutes | backend/orchestrator.py:104-105 | the sort is a permutation |
| BackendOrchestrator.SortByImportanceStable | backend/orchestrator.py:104-105 | the sort is stable: tuples of equal importance keep their catalog order |
| BackendOrchestrator.CountTier | backend/orchestrator.py:42-45 | a tier count never exceeds the number of questions |
| BackendOrchestrator.TiersAreExclusive | backend/orchestrator.py:42-45 | no importance value lies in two tiers |
| BackendOrchestrator.TierCountsPartition | backend/orchestrator.py:42-45 | the critical, high, moderate and low counts add up to the question count |
| BackendOrchestrator.ImportanceSummary | backend/orchestrator.py:31-51 | the early return (no summary) happens exactly for a rubric without questions |
| BackendOrchestrator.ImportanceSummaryCoversRubric | backend/orchestrator.py:31-51 | a non-empty rubric's summary counts every question once |
| BackendOrchestrator.CheckReadiness | backend/orchestrator.py:119-138 | ready exactly when connected and the deployment is available; the message names the first failed check |
| BackendOrchestrator.AssessmentOrchestrator.constructor | backend/orchestrator.py:17-29 | the tool's rubric, its flattening, and empty score and analysis maps; the platform rubric when both platforms are given is the correction listed under Findings, since the source's `__init__` takes no platforms |
| BackendOrchestrator.AssessmentOrchestrator.AnalyzeAnswer | backend/orchestrator.py:53-69 | the oracle's analysis is returned and stored under the id; scores are untouched |
| BackendOrchestrator.AssessmentOrchestrator.GenerateFinalSummary | backend/orchestrator.py:71-117 | the narrative receives the yes and no lists, each sorted by importance, and the sum of all scores; a missing classification is the failure |
| EmailService.LoadConfig | backend/email_service.py:18-23 | BASE_URL defaults to http://localhost:5173; sender and password are present exactly when set in the environment |
| EmailService.ValidateConfig | backend/email_service.py:25-31 | valid exactly when both are set; a missing sender is reported before a missing password |
| EmailService.IsBulletLine | backend/email_service.py:49 | a bullet line is non-empty and its first character is not whitespace |
| EmailService.BulletItems | backend/email_service.py:47-54 | a paragraph yields no more bullet items than it has lines |
| EmailService.RegularLines | backend/email_service.py:55-58 | a paragraph yields no more regular texts than it has lines |
| EmailService.ParagraphParts | backend/email_service.py:39-71 | a paragraph contributes at most two parts, its `<p>` and its `<ul>` |
| EmailService.SummaryHtml | backend/email_service.py:33-73 | a whitespace-only summary formats to "" |
| EmailService.SortLines | backend/email_service.py:47-58 | the line loop yields the bullet items and the regular texts |
| EmailService.ListHtml | backend/email_service.py:67-70 | the list is the `<ul>` opener, one `<li>` per item in order, and `</ul>` |
| EmailService.FormatParagraph | backend/email_service.py:43-71 | one paragraph's loop yields its parts |
| EmailService.FormatSummaryToHtml | backend/email_service.py:33-73 | the paragraph loop yields the joined parts of all paragraphs |
| EmailService.RegularLinesPresent | backend/email_service.py:55-61 | there is regular text exactly when some stripped line is non-empty and not a bullet |
| EmailService.BulletItemsPresent | backend/email_service.py:49-66 | there are items exactly when some stripped line starts with a bullet marker |
| EmailService.NoBoldInItems | backend/email_service.py:53-57 | no item or regular text contains "**" |
| EmailService.ParagraphShape | backend/email_service.py:43-71 | a `<p>` is emitted exactly when there is regular text, a `<ul>` exactly when there are bullets, the `<p>` first, and no "**" in the output |
| EmailService.BlankParagraphsEmitNothing | backend/email_service.py:39-41 | whitespace-only paragraphs emit nothing |
| EmailService.BlankSummaryParagraphs | backend/email_service.py:36-41 | every paragraph of a whitespace-only summary is itself whitespace-only, so the loop skips it |
| EmailService.ScoreBand | backend/email_service.py:87-107 | Excellent exactly at 80 and above, Good in [60, 80), Needs Improvement in [40, 60), Critical below 40 |
| EmailService.ScoreBandMonotone | backend/email_service.py:87-107 | a higher score never gets a lower band |
| EmailService.BandStyle | backend/email_service.py:88-107 | each band's score, badge and badge-text colours are #rrggbb colours and its label is not empty |
| EmailService.ShareUrl | backend/email_service.py:192 | the link is the base URL, then "/shared/", then the share token |
| EmailService.SendAssessmentEmail | backend/email_service.py:184-251 | invalid config returns (False, "Email configuration error: …"); otherwise success exactly when delivery succeeds, with "Email sent successfully" |
| EmailService.MisconfiguredSendIgnoresServer | backend/email_service.py:186-189 | with invalid config the outcome does not depend on the mail server, and is a failure |
| BackendMain.ValidateWorkEmail | backend/main.py:129-138 | an accepted address is returned unchanged; an address without '@' fails with IndexError's message |
| BackendMain.WorkEmailRule | backend/main.py:96-138 | an address with one '@' is rejected exactly when its lower-cased domain is a listed personal domain, with the personal-domain message |
| BackendMain.LiveSessions | backend/main.py:189-203 | cleanup only removes sessions: every kept session is an original one, unchanged |
| BackendMain.LiveSessionsExact | backend/main.py:189-200 | cleanup keeps exactly the sessions used within the last 2 hours, unchanged, and a second cleanup changes nothing |
| BackendMain.LiveSessionsShrink | backend/main.py:189-200 | a later cleanup keeps no more sessions |
| BackendMain.LiveCache | backend/main.py:176-187 | cleanup only removes entries: every kept entry is an original one, unchanged |
| BackendMain.LiveCacheExact | backend/main.py:176-184 | cleanup keeps exactly the entries not yet expired, unchanged, and is idempotent |
| BackendMain.StoredResultLasts48Hours | backend/main.py:619-625 | a result cached at time t survives every cleanup up to t + 48 hours |
| BackendMain.ClassifyReply | backend/main.py:513 | the classification is "yes" or "no" |
| BackendMain.ClassifyReplyIgnoresCase | backend/main.py:513 | the classification ignores letter case |
| BackendMain.FirstWithId | backend/main.py:495-499 | the first rubric entry with the id; None exactly when no entry has it |
| BackendMain.FindRubricQuestion | backend/main.py:495-499 | the search loop with `break` finds that entry |
| BackendMain.Percentage | backend/main.py:568 | when 0 <= earned <= max the percentage is between 0 and 100; full marks give exactly 100; a max that is not positive gives 0 |
| BackendMain.PillarBreakdown | backend/main.py:561-576 | the summary carries the pillar's key and name and the sum of its max_scores; its percentage lies between 0 and 100 when earned lies between 0 and max, and is 100 at full marks |
| BackendMain.Breakdown | backend/main.py:561-576 | one summary per pillar |
| BackendMain.PillarBreakdownBounds | backend/main.py:561-576 | with binary scores, 0 <= earned <= max and the percentage is between 0 and 100, reaching 100 when every question scored |
| BackendMain.ComputeBreakdown | backend/main.py:561-576 | the pillar loop yields the breakdown |
| BackendMain.RecordFor | backend/main.py:593-603 | the record carries the answered id and the rubric question's text, max_score, pillar id and pillar name; a missing classification, score, answer or analysis becomes "no", 0, "" and "", a given one is kept |
| BackendMain.QuestionRecords | backend/main.py:578-603 | no more records than answers |
| BackendMain.QuestionRecordsFromRubric | backend/main.py:578-603 | every record answers a rubric question and carries that question's text, max_score and pillar |
| BackendMain.QuestionRecordsComplete | backend/main.py:578-603 | every answer to a rubric question yields its record, with the defaults "", "no", 0 and "" |
| BackendMain.CollectRecords | backend/main.py:578-603 | the answer loop yields those records |
| BackendMain.AnswerMap | backend/main.py:164 | the answer dictionary's keys are the answered ids |
| BackendMain.AnswerMapLookup | backend/main.py:164 | each answered id maps to its own answer |
| BackendMain.ResultsFor | backend/main.py:555-613 | a failure is a 500; a success has one breakdown entry per pillar and no more question results than answers |
| BackendMain.BuildResults | backend/main.py:555-613 | the results are the summed score, the breakdown, the records and the narrative; a missing classification is a 500 |
| BackendMain.InvalidTool | backend/main.py:463 | a 400 whose detail ends with the rejected tool name |
| BackendMain.ParseStart | backend/main.py:399-403 | parsing succeeds exactly when the tool is valid and each given platform is valid; an empty platform counts as not given |
| BackendMain.StartResponseCounts | backend/main.py:429-451 | the pillars' question counts add up to the number of listed questions |
| BackendMain.RubricFor | backend/main.py:406-410 | with the correction listed under Findings, the rubric a session gets is consistent pillar by pillar and worth 100 points within 0.01, with 15 questions for a platform selection and 5 otherwise |
| BackendMain.ListQuestions | backend/main.py:430-441 | the loop lists one view per rubric question |
| BackendMain.ListPillars | backend/main.py:444-451 | the loop lists one view per pillar |
| BackendMain.StartOutcomeAsWritten | backend/main.py:399-465 | as written, a request is a 400 exactly when it does not parse, and a 500 exactly when it does |
| BackendMain.StartFailsForGitHub | backend/main.py:406-410 | {"tool": "github"} parses and still gets a 500 as written |
| BackendMain.Registry.constructor | backend/main.py:79-84 | both registries start empty |
| BackendMain.Registry.CleanupExpiredCache | backend/main.py:176-187 | the cache becomes its live part; sessions are untouched |
| BackendMain.Registry.CleanupExpiredSessions | backend/main.py:189-203 | the sessions become their live part; the cache is untouched |
| BackendMain.Registry.GetSharedResults | backend/main.py:261-292 | an unknown or expired token is a 404 with its own message; an entry found expired is removed; otherwise the entry is returned |
| BackendMain.Registry.StartAssessment | backend/main.py:394-465 | an invalid selection is a 400 "Invalid tool: …"; an unready service is a 500 "503: …"; otherwise a fresh session with an unscored orchestrator for the selected rubric is stored and idle sessions are cleaned up |
| BackendMain.Registry.OpenSession | backend/main.py:421-454 | the new session is stored and survives the cleanup that follows |
| BackendMain.Registry.SubmitAnswer | backend/main.py:481-527 | an unknown session is a 404 with nothing changed; a known one is touched; an unknown question is a 404 with scores unchanged; otherwise the score is max_score for yes and 0 for no and is stored |
| BackendMain.Registry.CompleteAssessment | backend/main.py:543-665 | an unknown session is a 404, an invalid tool a 400; on success the results are cached for 48 hours under the token and the session is removed |

## Left out

- Network services are not modelled: the Azure OpenAI and Ollama clients, their prompts, retries and health probes. Classification, relevance, analysis, narrative and health are parameters.
- `get_follow_up_questions` is not part of this model. The follow-up catalog it would provide is a parameter. The same goes for `ANSWER_MAPPING`, which src/repo_scorer/orchestrator.py:13 imports but src/repo_scorer/config.py never defines.
- Follow-up questions are rebuilt in src/repo_scorer/orchestrator.py:87-91 and 109-113 as `Question(id=…, text=…, max_score=…)`. The dataclass at src/repo_scorer/config.py:16-21 gives `importance` no default, so as written that call raises TypeError, and every answer to a pending or configured follow-up fails. `ScorerOrchestrator.LookupFails` and `ScorerOrchestrator.AssessmentOrchestrator.ProcessAnswer` model the evidently intended success instead, keeping the follow-up's id, text and maximum score. It is stated here rather than as a finding because src/repo_scorer/orchestrator.py:12-13 imports `get_follow_up_questions` and `ANSWER_MAPPING`, which src/repo_scorer/config.py does not define, so it is unclear which version of that class the code ran against.
- Message construction, the plain-text and HTML template bodies and the SMTP exchange are not modelled. The exchange's outcome is a parameter (`EmailService.SmtpOutcome`). Its three failure kinds keep their own messages from backend/email_service.py:243-251: authentication failed, an SMTP error with its detail, and an unexpected error with its detail.
- `save_email` and the database layer are not modelled. Only the work-email rule it relies on is.
- Locks and the periodic cleanup task are left out. The registry is a single-threaded class, and time is an explicit `now`.
- BackendMain.Registry.CompleteAssessment: reads the clock once. The source reads it twice, once for the expiry and once for the cleanup, microseconds apart.
- BackendMain.Registry.StartAssessment: reads the clock once. The source reads it for the new session's timestamps (backend/main.py:419) and again inside the session cleanup (backend/main.py:191), microseconds apart.
- BackendMain.Registry.CompleteAssessment: requires distinct answer ids. The request's JSON object cannot hold a key twice.
- Numbers.Round2: rounds halves up on exact reals. Python's binary-float `round` is not reproduced.
- BackendConfig.NeedsReconcile, BackendConfig.Reconciled, BackendConfig.AdjustLargest, ScorerConfig.NeedsAdjustment and ScorerConfig.Adjusted: treat a total exactly one hundredth away from 100 as within tolerance. The source's float test `abs(total - 100.0) > 0.01` (backend/config.py:840 and 921, src/repo_scorer/config.py:132) normally fires there, because 100.0 − 99.99 is 0.0100000000000051 in binary floating point. For example, the backend's flat Bitbucket rubric totals 99.99: the source raises governance question 1 from 21.05 to 21.06 for a total of 100.00, while the model keeps 99.99. The src GitLab rubric and many platform selections, such as every GitLab CI one, sit at the same edge.
- Pydantic request and response models are left out. Their fields appear only as datatypes; their validation is not modelled.
- The per-question `description` and `doc_url` are left out. The source copies them through unchanged.
- Text.Lower: lower-cases ASCII letters only. Python's full Unicode `lower()` is not reproduced.
- The exact text of the TypeError depends on the Python version. `BackendMain.UnexpectedKeyword` fixes one wording.
- `run_full_assessment` (src/repo_scorer/orchestrator.py:170-186) and the src `check_readiness` are left out. The first only chains `process_answer` calls; the second is an Ollama health probe.
- The health, root and CORS preflight endpoints of backend/main.py are left out. They hold no state.
- ScorerOrchestrator.AssessmentOrchestrator.ProcessAnswer: `round(earned_score, 2)` is not modelled, because scores are already in hundredths.
- Some backend tests expect three-element catalog tuples and importance values of 9 and above. The code no longer has these, and properties follow the code.

## Findings

| source | as written | input that shows it | evidently intended | confidence | as-written member | corrected member |
|---|---|---|---|---|---|---|
| backend/main.py:406-410 | `start_assessment` passes `cicd_platform` and `deployment_platform` to `AssessmentOrchestrator`, whose `__init__` (backend/orchestrator.py:17) takes only `tool` and `api_key`; the TypeError falls to the generic handler | `{"tool": "github"}` gets a 500 | the orchestrator takes the selections and builds the platform rubric when both are given, else the tool's rubric (`BackendOrchestrator.AssessmentOrchestrator.constructor`); the request then starts a session | not executed | BackendMain.StartFailsForGitHub | BackendMain.Registry.StartAssessment |
