/**
  The web backend's assessment orchestrator (backend/orchestrator.py): it holds one
  rubric, the scores the API stores for it and the per-answer analyses, and turns the
  submitted answers into the material of the closing summary: the answered questions
  split into "yes" and the rest, each list ordered by importance, and the total score.
  The analysis and narrative services are oracles passed in as functions.
*/
module BackendOrchestrator {
  import opened Wrappers
  import opened Scoring
  import opened BackendCatalog
  import opened BackendConfig

  /** One submitted answer record: the keys "classification", "answer", "score", "analysis". */
  datatype AnswerData = AnswerData(classification: Option<string>, answer: Option<string>,
                                   score: Option<int>, analysis: Option<string>)

  /** (question text, answer, importance, analysis): one entry of the yes or no list. */
  datatype AnswerTuple = AnswerTuple(text: TextRef, answer: string, importance: real, analysis: string)

  /** The two lists of generate_final_summary. */
  datatype Split = Split(yes: seq<AnswerTuple>, no: seq<AnswerTuple>)

  const NoAnalysis: string := "No analysis available"

  /** The entry for an answered question; a question never analysed gets the default text. */
  function TupleFor(q: Question, data: AnswerData, analyses: map<string, string>): (t: AnswerTuple)
    ensures t.text == q.text && t.importance == q.importance
    ensures t.answer == (if data.answer.Some? then data.answer.value else "")
    ensures q.id !in analyses ==> t.analysis == NoAnalysis
    ensures q.id in analyses ==> t.analysis == analyses[q.id]
  {
    AnswerTuple(q.text, data.answer.GetOr(""), q.importance,
                if q.id in analyses then analyses[q.id] else NoAnalysis)
  }

  /**
    The partition loop of generate_final_summary over the rubric in order: a question not
    answered is skipped, one answered "yes" goes to the yes list, any other answer to the
    no list. An answered question without a classification stops it (the KeyError).
  */
  function Buckets(entries: seq<(PillarTag, Question, string)>, answers: map<string, AnswerData>,
                   analyses: map<string, string>): (r: Result<Split, string>)
    ensures r.Success? ==> |r.value.yes| + |r.value.no| <= |entries|
    decreases |entries|
  {
    if entries == [] then Success(Split([], []))
    else
      match Buckets(entries[..|entries| - 1], answers, analyses)
      case Failure(e) => Failure(e)
      case Success(s) =>
        var q := entries[|entries| - 1].1;
        if q.id !in answers then Success(s)
        else if answers[q.id].classification.None? then Failure("classification")
        else
          var t := TupleFor(q, answers[q.id], analyses);
          if answers[q.id].classification.value == "yes" then Success(Split(s.yes + [t], s.no))
          else Success(Split(s.yes, s.no + [t]))
  }

  /** The answered questions of a rubric prefix, by whether they were answered "yes". */
  function AnsweredCount(entries: seq<(PillarTag, Question, string)>, answers: map<string, AnswerData>, yes: bool): nat
    decreases |entries|
  {
    if entries == [] then 0
    else
      var q := entries[|entries| - 1].1;
      AnsweredCount(entries[..|entries| - 1], answers, yes)
        + (if q.id in answers && answers[q.id].classification.Some?
              && (answers[q.id].classification.value == "yes") == yes then 1 else 0)
  }

  /** The split succeeds exactly when every answered rubric question has a classification. */
  lemma {:induction false} BucketsSucceed(entries: seq<(PillarTag, Question, string)>, answers: map<string, AnswerData>,
                                          analyses: map<string, string>)
    ensures Buckets(entries, answers, analyses).Success? <==>
      forall k :: 0 <= k < |entries| && entries[k].1.id in answers ==> answers[entries[k].1.id].classification.Some?
    decreases |entries|
  {
    if entries != [] {
      var init := entries[..|entries| - 1];
      BucketsSucceed(init, answers, analyses);
      assert forall k :: 0 <= k < |init| ==> init[k] == entries[k];
    }
  }

  /** The lists hold as many entries as there are questions answered "yes" and otherwise. */
  lemma {:induction false} BucketsSizes(entries: seq<(PillarTag, Question, string)>, answers: map<string, AnswerData>,
                                        analyses: map<string, string>)
    requires Buckets(entries, answers, analyses).Success?
    ensures |Buckets(entries, answers, analyses).value.yes| == AnsweredCount(entries, answers, true)
    ensures |Buckets(entries, answers, analyses).value.no| == AnsweredCount(entries, answers, false)
    decreases |entries|
  {
    if entries != [] {
      BucketsSizes(entries[..|entries| - 1], answers, analyses);
    }
  }

  /** Each answered question lands in the list its classification picks. */
  lemma {:induction false} BucketsPlace(entries: seq<(PillarTag, Question, string)>, answers: map<string, AnswerData>,
                                        analyses: map<string, string>, k: nat)
    requires Buckets(entries, answers, analyses).Success?
    requires k < |entries| && entries[k].1.id in answers && answers[entries[k].1.id].classification.Some?
    ensures var s := Buckets(entries, answers, analyses).value;
      var q := entries[k].1;
      TupleFor(q, answers[q.id], analyses) in (if answers[q.id].classification.value == "yes" then s.yes else s.no)
    decreases |entries|
  {
    var init := entries[..|entries| - 1];
    if k < |init| {
      BucketsPlace(init, answers, analyses, k);
      assert init[k] == entries[k];
    }
  }

  /** Answers to ids outside the rubric are ignored: adding them changes nothing. */
  lemma {:induction false} BucketsIgnoreOtherIds(entries: seq<(PillarTag, Question, string)>, answers: map<string, AnswerData>,
                                                 extra: map<string, AnswerData>, analyses: map<string, string>)
    requires forall k :: 0 <= k < |entries| ==> entries[k].1.id !in extra
    ensures Buckets(entries, answers + extra, analyses) == Buckets(entries, answers, analyses)
    decreases |entries|
  {
    if entries != [] {
      BucketsIgnoreOtherIds(entries[..|entries| - 1], answers, extra, analyses);
    }
  }

  /** Once the split has failed, later questions cannot repair it. */
  lemma {:induction false} BucketsFailureStays(a: seq<(PillarTag, Question, string)>, b: seq<(PillarTag, Question, string)>,
                                               answers: map<string, AnswerData>, analyses: map<string, string>)
    requires Buckets(a, answers, analyses).Failure?
    ensures Buckets(a + b, answers, analyses) == Buckets(a, answers, analyses)
    decreases |b|
  {
    if b == [] {
      assert a + b == a;
    } else {
      assert (a + b)[..|a + b| - 1] == a + b[..|b| - 1];
      BucketsFailureStays(a, b[..|b| - 1], answers, analyses);
    }
  }

  // ---------------------------------------------------------------------------------------
  // list.sort(key=importance, reverse=True): a stable sort, highest importance first.
  // ---------------------------------------------------------------------------------------

  predicate Descending(s: seq<AnswerTuple>) {
    forall i, j :: 0 <= i < j < |s| ==> s[i].importance >= s[j].importance
  }

  /** The entries of one importance value, in order. */
  function WithImportance(s: seq<AnswerTuple>, v: real): seq<AnswerTuple>
    decreases |s|
  {
    if s == [] then []
    else (if s[0].importance == v then [s[0]] else []) + WithImportance(s[1..], v)
  }

  lemma {:induction false} WithImportanceAppend(a: seq<AnswerTuple>, b: seq<AnswerTuple>, v: real)
    ensures WithImportance(a + b, v) == WithImportance(a, v) + WithImportance(b, v)
    decreases |a|
  {
    if a == [] {
      assert a + b == b;
    } else {
      var head := if a[0].importance == v then [a[0]] else [];
      assert (a + b)[0] == a[0] && (a + b)[1..] == a[1..] + b;
      WithImportanceAppend(a[1..], b, v);
      calc {
        WithImportance(a + b, v);
        head + WithImportance(a[1..] + b, v);
        head + (WithImportance(a[1..], v) + WithImportance(b, v));
        (head + WithImportance(a[1..], v)) + WithImportance(b, v);
        WithImportance(a, v) + WithImportance(b, v);
      }
    }
  }

  /** Places t behind every entry at least as important, ahead of every less important one. */
  function InsertByImportance(sorted: seq<AnswerTuple>, t: AnswerTuple): (r: seq<AnswerTuple>)
    ensures |r| == |sorted| + 1
    decreases |sorted|
  {
    if sorted == [] then [t]
    else if sorted[0].importance >= t.importance then [sorted[0]] + InsertByImportance(sorted[1..], t)
    else [t] + sorted
  }

  lemma {:induction false} InsertByImportanceMultiset(sorted: seq<AnswerTuple>, t: AnswerTuple)
    ensures multiset(InsertByImportance(sorted, t)) == multiset(sorted) + multiset{t}
    decreases |sorted|
  {
    if sorted != [] {
      assert sorted == [sorted[0]] + sorted[1..];
      InsertByImportanceMultiset(sorted[1..], t);
    }
  }

  /** Inserting an entry no more important than a bound keeps every entry within the bound. */
  lemma {:induction false} InsertByImportanceBounded(sorted: seq<AnswerTuple>, t: AnswerTuple, bound: real)
    requires forall i :: 0 <= i < |sorted| ==> sorted[i].importance <= bound
    requires t.importance <= bound
    ensures forall i :: 0 <= i < |InsertByImportance(sorted, t)| ==> InsertByImportance(sorted, t)[i].importance <= bound
    decreases |sorted|
  {
    if sorted != [] && sorted[0].importance >= t.importance {
      InsertByImportanceBounded(sorted[1..], t, bound);
    }
  }

  lemma {:induction false} InsertByImportanceDescending(sorted: seq<AnswerTuple>, t: AnswerTuple)
    requires Descending(sorted)
    ensures Descending(InsertByImportance(sorted, t))
    decreases |sorted|
  {
    if sorted != [] && sorted[0].importance >= t.importance {
      var rest := InsertByImportance(sorted[1..], t);
      InsertByImportanceDescending(sorted[1..], t);
      InsertByImportanceBounded(sorted[1..], t, sorted[0].importance);
      assert InsertByImportance(sorted, t) == [sorted[0]] + rest;
    }
  }

  /** Stability of one insertion: t comes after every entry of its own importance. */
  lemma {:induction false} InsertByImportanceStable(sorted: seq<AnswerTuple>, t: AnswerTuple, v: real)
    requires Descending(sorted)
    ensures WithImportance(InsertByImportance(sorted, t), v)
      == WithImportance(sorted, v) + (if t.importance == v then [t] else [])
    decreases |sorted|
  {
    var r := InsertByImportance(sorted, t);
    if sorted == [] {
      assert r[1..] == [];
    } else if sorted[0].importance >= t.importance {
      var head := if sorted[0].importance == v then [sorted[0]] else [];
      assert Descending(sorted[1..]);
      InsertByImportanceStable(sorted[1..], t, v);
      assert r[0] == sorted[0] && r[1..] == InsertByImportance(sorted[1..], t);
      assert WithImportance(r, v) == head + WithImportance(r[1..], v);
      assert WithImportance(sorted, v) == head + WithImportance(sorted[1..], v);
    } else {
      assert r[0] == t && r[1..] == sorted;
      if t.importance == v {
        NoneOfImportance(sorted, v);
      }
    }
  }

  /** In a descending list that starts below v, no entry has importance v. */
  lemma {:induction false} NoneOfImportance(s: seq<AnswerTuple>, v: real)
    requires Descending(s) && |s| > 0 && s[0].importance < v
    ensures WithImportance(s, v) == []
    decreases |s|
  {
    if |s| > 1 {
      NoneOfImportance(s[1..], v);
    } else {
      assert s[1..] == [];
    }
  }

  /** The sorted list, built by inserting each entry in turn. */
  function SortByImportance(s: seq<AnswerTuple>): (r: seq<AnswerTuple>)
    ensures |r| == |s|
    decreases |s|
  {
    if s == [] then [] else InsertByImportance(SortByImportance(s[..|s| - 1]), s[|s| - 1])
  }

  /** The sort's result is ordered by importance, highest first. */
  lemma {:induction false} SortByImportanceDescending(s: seq<AnswerTuple>)
    ensures Descending(SortByImportance(s))
    decreases |s|
  {
    if s != [] {
      SortByImportanceDescending(s[..|s| - 1]);
      InsertByImportanceDescending(SortByImportance(s[..|s| - 1]), s[|s| - 1]);
    }
  }

  /** The sort's result is a permutation of its input. */
  lemma {:induction false} SortByImportancePermutes(s: seq<AnswerTuple>)
    ensures multiset(SortByImportance(s)) == multiset(s)
    decreases |s|
  {
    if s != [] {
      var init, last := s[..|s| - 1], s[|s| - 1];
      SortByImportancePermutes(init);
      InsertByImportanceMultiset(SortByImportance(init), last);
      assert s == init + [last];
    }
  }

  /** The sort is stable: the entries of each importance value keep their input order. */
  lemma {:induction false} SortByImportanceStable(s: seq<AnswerTuple>, v: real)
    ensures WithImportance(SortByImportance(s), v) == WithImportance(s, v)
    decreases |s|
  {
    if s != [] {
      var init, last := s[..|s| - 1], s[|s| - 1];
      SortByImportanceStable(init, v);
      SortByImportanceDescending(init);
      InsertByImportanceStable(SortByImportance(init), last, v);
      WithImportanceAppend(init, [last], v);
      assert [last][1..] == [];
      assert s == init + [last];
    }
  }

  // ---------------------------------------------------------------------------------------
  // _display_importance_summary
  // ---------------------------------------------------------------------------------------

  datatype Tier = Critical | High | Moderate | Low

  /** The four tier conditions, as the four generator expressions state them. */
  predicate InTier(importance: real, tier: Tier) {
    match tier
    case Critical => importance >= 9.0
    case High => 7.0 <= importance < 9.0
    case Moderate => 4.0 <= importance < 7.0
    case Low => importance < 4.0
  }

  function CountTier(importances: seq<real>, tier: Tier): (n: nat)
    ensures n <= |importances|
    decreases |importances|
  {
    if importances == [] then 0
    else CountTier(importances[..|importances| - 1], tier) + (if InTier(importances[|importances| - 1], tier) then 1 else 0)
  }

  datatype TierCounts = TierCounts(critical: nat, high: nat, moderate: nat, low: nat)

  /** The importances of every rubric question, pillar by pillar. */
  function RubricImportances(ps: seq<Pillar>): (imps: seq<real>)
    ensures |imps| == |Flatten(ps)|
  {
    var entries := Flatten(ps);
    seq(|entries|, k requires 0 <= k < |entries| => entries[k].1.importance)
  }

  /** The tier counts, or nothing for an empty rubric (the early return). */
  function ImportanceSummary(ps: seq<Pillar>): (r: Option<TierCounts>)
    ensures r.None? <==> Flatten(ps) == []
  {
    var imps := RubricImportances(ps);
    if imps == [] then None
    else Some(TierCounts(CountTier(imps, Critical), CountTier(imps, High), CountTier(imps, Moderate), CountTier(imps, Low)))
  }

  /** Every importance value lies in exactly one tier. */
  lemma TiersAreExclusive(importance: real, t1: Tier, t2: Tier)
    requires InTier(importance, t1) && InTier(importance, t2)
    ensures t1 == t2
  {
  }

  /** The four counts add up to the number of questions. */
  lemma {:induction false} TierCountsPartition(importances: seq<real>)
    ensures CountTier(importances, Critical) + CountTier(importances, High)
      + CountTier(importances, Moderate) + CountTier(importances, Low) == |importances|
    decreases |importances|
  {
    if importances != [] {
      TierCountsPartition(importances[..|importances| - 1]);
    }
  }

  /** A non-empty rubric's summary covers all its questions. */
  lemma ImportanceSummaryCoversRubric(ps: seq<Pillar>)
    requires |Flatten(ps)| > 0
    ensures ImportanceSummary(ps).Some?
    ensures var c := ImportanceSummary(ps).value; c.critical + c.high + c.moderate + c.low == |Flatten(ps)|
  {
    TierCountsPartition(RubricImportances(ps));
  }

  /**
    check_readiness on the service's health flags: ready exactly when the service is reachable
    and the deployment is available, with the message saying which check failed.
  */
  function CheckReadiness(connected: bool, available: bool, deployment: string): (r: (bool, string))
    ensures r.0 <==> connected && available
    ensures !connected ==> r.1 == "Cannot connect to Azure OpenAI service."
    ensures connected && !available ==> r.1 == "Azure OpenAI deployment '" + deployment + "' not accessible."
  {
    if !connected then (false, "Cannot connect to Azure OpenAI service.")
    else if !available then (false, "Azure OpenAI deployment '" + deployment + "' not accessible.")
    else (true, "Azure OpenAI service ready")
  }

  class AssessmentOrchestrator {
    const tool: RepositoryTool
    const pillars: seq<Pillar>
    const questions: seq<(PillarTag, Question, string)>
    var questionScores: map<string, int>
    var answerAnalyses: map<string, string>

    /** The flat question list is the rubric's; both are fixed at construction. */
    ghost predicate Valid() {
      questions == Flatten(pillars)
    }

    /**
      __init__, accepting the platform selections the API passes: with both a CI/CD and a
      deployment platform the three-catalog rubric, otherwise the tool's own rubric.
    */
    constructor(tool: RepositoryTool, cicd: Option<CicdPlatform>, deployment: Option<DeploymentPlatform>)
      ensures Valid() && this.tool == tool
      ensures cicd.Some? && deployment.Some? ==>
        pillars == Reconciled(PlatformAllocation(RepositoryCatalog(tool), CicdCatalog(cicd.value), DeploymentCatalog(deployment.value)))
      ensures cicd.None? || deployment.None? ==>
        pillars == Reconciled(FlatAllocation(ToolItems(ToolValue(tool), RepositoryCatalog(tool))))
      ensures questionScores == map[] && answerAnalyses == map[]
    {
      this.tool := tool;
      var ps;
      if cicd.Some? && deployment.Some? {
        ps := GetQuestionsForPlatforms(tool, cicd.value, deployment.value);
      } else {
        ps := GetQuestionsForTool(tool);
      }
      var qs := GetAllQuestions(ps);
      pillars := ps;
      questions := qs;
      questionScores := map[];
      answerAnalyses := map[];
    }

    /** analyze_answer: the oracle's analysis is stored under the question id and returned. */
    method AnalyzeAnswer(id: string, text: string, answer: string, importance: real,
                         analyze: (string, string, real) -> string) returns (analysis: string)
      modifies this
      ensures analysis == analyze(text, answer, importance)
      ensures answerAnalyses == old(answerAnalyses)[id := analysis]
      ensures questionScores == old(questionScores)
    {
      analysis := analyze(text, answer, importance);
      answerAnalyses := answerAnalyses[id := analysis];
    }

    /**
      generate_final_summary: the answered rubric questions split into yes and no, each list
      sorted by importance, and the sum of the stored scores, handed to the narrative oracle.
    */
    method GenerateFinalSummary(answers: map<string, AnswerData>,
                                narrate: (seq<AnswerTuple>, seq<AnswerTuple>, int) -> string)
      returns (r: Result<string, string>)
      requires Valid()
      ensures match Buckets(Flatten(pillars), answers, answerAnalyses)
        case Failure(e) => r == Failure(e)
        case Success(s) => r == Success(narrate(SortByImportance(s.yes), SortByImportance(s.no), Total(questionScores)))
    {
      var yes, no := [], [];
      var k := 0;
      while k < |questions|
        invariant 0 <= k <= |questions|
        invariant Buckets(questions[..k], answers, answerAnalyses) == Success(Split(yes, no))
      {
        assert questions[..k + 1][..k] == questions[..k];
        var q := questions[k].1;
        if q.id in answers {
          var data := answers[q.id];
          if data.classification.None? {
            BucketsFailureStays(questions[..k + 1], questions[k + 1..], answers, answerAnalyses);
            assert questions[..k + 1] + questions[k + 1..] == questions;
            return Failure("classification");
          }
          var t := TupleFor(q, data, answerAnalyses);
          if data.classification.value == "yes" {
            yes := yes + [t];
          } else {
            no := no + [t];
          }
        }
        k := k + 1;
      }
      assert questions[..|questions|] == questions;
      var total := CalculateFinalScore(questionScores);
      r := Success(narrate(SortByImportance(yes), SortByImportance(no), total));
    }
  }
}
