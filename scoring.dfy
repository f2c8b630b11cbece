/**
  The deterministic scoring engine (src/repo_scorer/scoring.py): binary per-question
  scoring, the final sum and the per-pillar (earned, max) breakdown. Scores are hundredths,
  so the source's round(…, 2) of a sum of scores is the identity here.
*/
module Scoring {
  import opened Numbers

  /** score_question: the question's full marks when the classification is "yes", else 0. */
  function ScoreQuestion(maxScore: int, classification: string): (earned: int)
    ensures earned == 0 || earned == maxScore
    ensures classification == "yes" ==> earned == maxScore
  {
    if classification == "yes" then maxScore else 0
  }

  /**
    Binary scoring, stated without the body's if: the earned score is one of the two values
    0 and maxScore, it is maxScore exactly for "yes" (or when maxScore is itself 0), and
    maxScore is passed through unvalidated, negative or not.
  */
  lemma ScoreQuestionIsBinary(maxScore: int, classification: string)
    ensures var earned := ScoreQuestion(maxScore, classification);
      && (earned == 0 || earned == maxScore)
      && (earned == maxScore <==> classification == "yes" || maxScore == 0)
      && (classification in {"no", "partial", "unsure"} ==> earned == 0)
      && (0 <= maxScore ==> 0 <= earned <= maxScore)
  {
  }

  /** Sum of the values of a score map; Python's sum(d.values()) in any iteration order. */
  ghost function Total(scores: map<string, int>): int
    decreases |scores|
  {
    if scores == map[] then 0
    else
      var k :| k in scores;
      scores[k] + Total(scores - {k})
  }

  /** Total does not depend on which key is taken out first. */
  lemma {:induction false} TotalRemove(scores: map<string, int>, k: string)
    requires k in scores
    ensures Total(scores) == scores[k] + Total(scores - {k})
    decreases |scores|
  {
    var j :| j in scores && Total(scores) == scores[j] + Total(scores - {j});
    if j != k {
      assert scores - {j} - {k} == scores - {k} - {j};
      TotalRemove(scores - {j}, k);
      TotalRemove(scores - {k}, j);
    }
  }

  /** Setting one key changes the total by the difference (question_scores[id] = score). */
  lemma TotalUpdate(scores: map<string, int>, k: string, v: int)
    ensures Total(scores[k := v]) == Total(scores) - (if k in scores then scores[k] else 0) + v
  {
    var updated := scores[k := v];
    TotalRemove(updated, k);
    assert updated - {k} == scores - {k};
    if k in scores {
      TotalRemove(scores, k);
    } else {
      assert scores - {k} == scores;
    }
  }

  /** calculate_final_score: the sum of all earned scores, 0 for an empty map. */
  method CalculateFinalScore(scores: map<string, int>) returns (total: int)
    ensures total == Total(scores)
    ensures scores == map[] ==> total == 0
  {
    total := 0;
    var rest := scores;
    while rest != map[]
      invariant rest.Keys <= scores.Keys
      invariant forall k :: k in rest ==> rest[k] == scores[k]
      invariant total + Total(rest) == Total(scores)
      decreases |rest|
    {
      var k :| k in rest;
      TotalRemove(rest, k);
      total := total + rest[k];
      rest := rest - {k};
    }
  }

  /** scores.get(id, 0.0) */
  function ScoreOf(scores: map<string, int>, id: string): int {
    if id in scores then scores[id] else 0
  }

  /** Σ scores.get(qid, 0) over a pillar's (question_id, max_score) list. */
  function Earned(scores: map<string, int>, entries: seq<(string, int)>): int {
    if entries == [] then 0
    else Earned(scores, entries[..|entries| - 1]) + ScoreOf(scores, entries[|entries| - 1].0)
  }

  /** Σ max_score over a pillar's (question_id, max_score) list. */
  function MaxTotal(entries: seq<(string, int)>): int {
    if entries == [] then 0 else MaxTotal(entries[..|entries| - 1]) + entries[|entries| - 1].1
  }

  /** generate_breakdown: one (earned, max) pair per pillar key, and no other keys. */
  function GenerateBreakdown(scores: map<string, int>, pillarQuestions: map<string, seq<(string, int)>>)
    : (breakdown: map<string, (int, int)>)
    ensures breakdown.Keys == pillarQuestions.Keys
    ensures pillarQuestions == map[] ==> breakdown == map[]
  {
    map p | p in pillarQuestions :: (Earned(scores, pillarQuestions[p]), MaxTotal(pillarQuestions[p]))
  }

  /**
    Earned looks only at the listed ids: two score maps that agree on them give the same
    earned value, whatever else they hold.
  */
  lemma {:induction false} EarnedOnlyReadsListedIds(s1: map<string, int>, s2: map<string, int>, entries: seq<(string, int)>)
    requires forall k :: 0 <= k < |entries| ==> ScoreOf(s1, entries[k].0) == ScoreOf(s2, entries[k].0)
    ensures Earned(s1, entries) == Earned(s2, entries)
    decreases |entries|
  {
    if entries != [] {
      EarnedOnlyReadsListedIds(s1, s2, entries[..|entries| - 1]);
    }
  }

  /** Listed ids without a score count as 0: with no listed id scored, nothing is earned. */
  lemma EarnedMissingIsZero(scores: map<string, int>, entries: seq<(string, int)>)
    requires forall k :: 0 <= k < |entries| ==> entries[k].0 !in scores
    ensures Earned(scores, entries) == 0
  {
    EarnedOnlyReadsListedIds(scores, map[], entries);
    ZeroScoresEarnNothing(entries);
  }

  lemma {:induction false} ZeroScoresEarnNothing(entries: seq<(string, int)>)
    ensures Earned(map[], entries) == 0
    decreases |entries|
  {
    if entries != [] {
      ZeroScoresEarnNothing(entries[..|entries| - 1]);
    }
  }

  /**
    When every listed question holds a binary score (0 or its non-negative max), the
    pillar's earned value lies between 0 and its max.
  */
  lemma {:induction false} EarnedWithinMax(scores: map<string, int>, entries: seq<(string, int)>)
    requires forall k :: 0 <= k < |entries| ==> entries[k].1 >= 0
    requires forall k :: 0 <= k < |entries| ==>
      ScoreOf(scores, entries[k].0) == 0 || ScoreOf(scores, entries[k].0) == entries[k].1
    ensures 0 <= Earned(scores, entries) <= MaxTotal(entries)
    decreases |entries|
  {
    if entries != [] {
      EarnedWithinMax(scores, entries[..|entries| - 1]);
    }
  }

  /** A pillar whose every listed question was answered "yes" earns its full max. */
  lemma {:induction false} AllYesEarnsMax(scores: map<string, int>, entries: seq<(string, int)>)
    requires forall k :: 0 <= k < |entries| ==> entries[k].0 in scores && scores[entries[k].0] == entries[k].1
    ensures Earned(scores, entries) == MaxTotal(entries)
    decreases |entries|
  {
    if entries != [] {
      AllYesEarnsMax(scores, entries[..|entries| - 1]);
    }
  }
}
