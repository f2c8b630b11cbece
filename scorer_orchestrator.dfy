/**
  The adaptive question flow of the command-line scorer (src/repo_scorer/orchestrator.py).
  An AssessmentOrchestrator walks the flattened rubric of one tool with a cursor, but first
  drains a FIFO queue of follow-up questions; answering a base question may enqueue the
  follow-ups a relevance oracle approves. The answer classifier, the relevance decision, the
  follow-up catalog and the narrative summary are oracles, passed in as functions.
*/
module ScorerOrchestrator {
  import opened Wrappers
  import opened Numbers
  import opened Text
  import opened Scoring
  import opened ScorerConfig

  /** A follow-up question as the follow-up catalog describes it. */
  datatype FollowUp = FollowUp(id: string, baseQuestionId: string, text: string, maxScore: int)

  /** Question text: a catalogued wording for rubric questions, free text for follow-ups. */
  datatype QuestionText = Catalogued(wording: Wording) | Written(text: string)

  /** What the lookup in process_answer settles on: the question data and its pillar, if known. */
  datatype Target = Target(id: string, text: QuestionText, maxScore: int,
                           pillarId: Option<string>, pillarName: Option<string>)

  /** QuestionResult (src/repo_scorer/models.py:29-39), scores in hundredths. */
  datatype QuestionResult = QuestionResult(
    questionId: string, questionText: QuestionText, userAnswer: string, classification: string,
    scoreEarned: int, maxScore: int, isFollowUp: bool, baseQuestionId: Option<string>)

  /** AssessmentResult (src/repo_scorer/models.py:42-48). */
  datatype AssessmentResult = AssessmentResult(
    finalScore: int, breakdown: map<string, (int, int)>, questionResults: seq<QuestionResult>,
    summary: string)

  /** What get_next_question hands out: a rubric question or a queued follow-up, with its pillar. */
  datatype Slot =
    | BaseSlot(pillarId: string, question: Question, pillarName: string)
    | FollowUpSlot(pillarId: string, followUp: FollowUp, pillarName: string)

  const FollowUpMarker: string := "_followup_"

  /** "_followup_" in question_id */
  predicate IsFollowUp(id: string) {
    Contains(id, FollowUpMarker)
  }

  /** question_id.split("_followup_")[0] */
  function BaseIdOf(id: string): string {
    SplitOn(id, FollowUpMarker)[0]
  }

  /**
    The base id is the text before the first marker: a prefix of the id that holds no marker,
    and the whole id when there is none.
  */
  lemma BaseIdIsPrefix(id: string)
    ensures |BaseIdOf(id)| <= |id| && BaseIdOf(id) == id[..|BaseIdOf(id)|]
    ensures !Contains(BaseIdOf(id), FollowUpMarker)
    ensures !IsFollowUp(id) ==> BaseIdOf(id) == id
    ensures IsFollowUp(id) ==> OccursAt(id, |BaseIdOf(id)|, FollowUpMarker)
  {
    SplitPiecesAvoidSeparator(id, FollowUpMarker);
  }

  /** The position of the first occurrence of id, if any (the for … break searches). */
  function IndexOf(ids: seq<string>, id: string): (r: Option<nat>)
    ensures r.Some? ==> r.value < |ids| && ids[r.value] == id
    ensures r.Some? ==> forall j :: 0 <= j < r.value ==> ids[j] != id
    ensures r.None? <==> id !in ids
    decreases |ids|
  {
    if ids == [] then None
    else if ids[0] == id then Some(0)
    else match IndexOf(ids[1..], id)
      case None => None
      case Some(k) => Some(k + 1)
  }

  /** A position whose id matches and which no earlier position matches is the one IndexOf finds. */
  lemma IndexOfIs(ids: seq<string>, id: string, k: nat)
    requires k < |ids| && ids[k] == id
    requires forall j :: 0 <= j < k ==> ids[j] != id
    ensures IndexOf(ids, id) == Some(k)
  {
    assert ids[k] in ids;
  }

  /** The search loop shared by every lookup: scan from the front, stop at the first match. */
  method Search(ids: seq<string>, id: string) returns (r: Option<nat>)
    ensures r == IndexOf(ids, id)
  {
    var k := 0;
    while k < |ids| && ids[k] != id
      invariant 0 <= k <= |ids|
      invariant forall j :: 0 <= j < k ==> ids[j] != id
    {
      k := k + 1;
    }
    if k < |ids| {
      IndexOfIs(ids, id, k);
      r := Some(k);
    } else {
      r := None;
    }
  }

  function BaseIds(questions: seq<(string, Question, string)>): (ids: seq<string>)
    ensures |ids| == |questions|
  {
    seq(|questions|, k requires 0 <= k < |questions| => questions[k].1.id)
  }

  function PendingIds(pending: seq<(string, FollowUp, string)>): (ids: seq<string>)
    ensures |ids| == |pending|
  {
    seq(|pending|, k requires 0 <= k < |pending| => pending[k].1.id)
  }

  function FollowUpIds(candidates: seq<FollowUp>): (ids: seq<string>)
    ensures |ids| == |candidates|
  {
    seq(|candidates|, k requires 0 <= k < |candidates| => candidates[k].id)
  }

  /** The configured follow-ups looked through for an id that is neither rubric nor queued. */
  function ConfiguredFollowUps(catalog: (string, string) -> seq<FollowUp>, id: string): seq<FollowUp> {
    catalog(BaseIdOf(id), "partial") + catalog(BaseIdOf(id), "no")
  }

  function FromFollowUp(f: FollowUp, pillarId: Option<string>, pillarName: Option<string>): Target {
    Target(f.id, Written(f.text), f.maxScore, pillarId, pillarName)
  }

  /**
    The question lookup of process_answer: the rubric first; then, for follow-up ids only,
    the queued follow-ups; then the configured follow-ups of the base question, whose pillar
    is taken from the rubric question they follow up.
  */
  function Lookup(questions: seq<(string, Question, string)>, pending: seq<(string, FollowUp, string)>,
                  catalog: (string, string) -> seq<FollowUp>, id: string): (t: Option<Target>)
    ensures t.Some? ==> t.value.id == id
    ensures t.Some? && !IsFollowUp(id) ==> t.value.pillarId.Some? && t.value.pillarName.Some?
  {
    match IndexOf(BaseIds(questions), id)
    case Some(k) =>
      var (pid, q, pname) := questions[k];
      Some(Target(q.id, Catalogued(q.text), q.maxScore, Some(pid), Some(pname)))
    case None =>
      if !IsFollowUp(id) then None
      else match IndexOf(PendingIds(pending), id)
        case Some(k) => Some(FromFollowUp(pending[k].1, Some(pending[k].0), Some(pending[k].2)))
        case None =>
          var candidates := ConfiguredFollowUps(catalog, id);
          match IndexOf(FollowUpIds(candidates), id)
          case None => None
          case Some(k) =>
            match IndexOf(BaseIds(questions), candidates[k].baseQuestionId)
            case Some(b) => Some(FromFollowUp(candidates[k], Some(questions[b].0), Some(questions[b].2)))
            case None => Some(FromFollowUp(candidates[k], None, None))
  }

  /**
    The ValueError case exactly: an id is unknown iff it is no rubric question and, when it
    names a follow-up, neither queued nor configured. A rubric question always wins.
  */
  lemma LookupFails(questions: seq<(string, Question, string)>, pending: seq<(string, FollowUp, string)>,
                    catalog: (string, string) -> seq<FollowUp>, id: string)
    ensures Lookup(questions, pending, catalog, id).None? <==>
      id !in BaseIds(questions) &&
      (!IsFollowUp(id) || (id !in PendingIds(pending) && id !in FollowUpIds(ConfiguredFollowUps(catalog, id))))
    ensures id in BaseIds(questions) ==>
      var k := IndexOf(BaseIds(questions), id).value;
      Lookup(questions, pending, catalog, id) ==
        Some(Target(id, Catalogued(questions[k].1.text), questions[k].1.maxScore, Some(questions[k].0), Some(questions[k].2)))
  {
  }

  /** The result recorded for an answer with the given classification. */
  function ResultFor(id: string, t: Target, answer: string, classification: string): (r: QuestionResult)
    ensures r.questionId == id && r.userAnswer == answer && r.classification == classification
    ensures r.questionText == t.text && r.maxScore == t.maxScore
    ensures r.scoreEarned == (if classification == "yes" then t.maxScore else 0)
    ensures r.isFollowUp <==> IsFollowUp(id)
    ensures r.baseQuestionId.Some? <==> IsFollowUp(id)
    ensures r.baseQuestionId.Some? ==> r.baseQuestionId.value == BaseIdOf(id)
  {
    QuestionResult(id, t.text, answer, classification, ScoreQuestion(t.maxScore, classification),
                   t.maxScore, IsFollowUp(id), if IsFollowUp(id) then Some(BaseIdOf(id)) else None)
  }

  /**
    The relevance oracle's decision for one answered question: it sees the question, the
    answer, the classification and the candidate follow-up's text.
  */
  datatype Relevance = Relevance(
    decide: (QuestionText, string, string, string) -> bool, text: QuestionText, answer: string, classification: string)
  {
    predicate Asks(f: FollowUp) {
      decide(text, answer, classification, f.text)
    }
  }

  /**
    The follow-ups the relevance oracle approves, in candidate order, each tagged with the
    answered question's pillar.
  */
  function Approved(pillarId: string, pillarName: string, candidates: seq<FollowUp>,
                    approves: Relevance): (queued: seq<(string, FollowUp, string)>)
    ensures |queued| <= |candidates|
    ensures forall x :: x in queued ==> x.0 == pillarId && x.2 == pillarName && x.1 in candidates && approves.Asks(x.1)
    decreases |candidates|
  {
    if candidates == [] then []
    else
      var last := candidates[|candidates| - 1];
      Approved(pillarId, pillarName, candidates[..|candidates| - 1], approves)
        + (if approves.Asks(last) then [(pillarId, last, pillarName)] else [])
  }

  /** Approval keeps candidate order: the approvals of a concatenation are concatenated. */
  lemma {:induction false} ApprovedAppend(pillarId: string, pillarName: string, a: seq<FollowUp>, b: seq<FollowUp>,
                                          approves: Relevance)
    ensures Approved(pillarId, pillarName, a + b, approves)
      == Approved(pillarId, pillarName, a, approves) + Approved(pillarId, pillarName, b, approves)
    decreases |b|
  {
    if b == [] {
      assert a + b == a;
    } else {
      assert (a + b)[..|a + b| - 1] == a + b[..|b| - 1];
      ApprovedAppend(pillarId, pillarName, a, b[..|b| - 1], approves);
    }
  }

  /** Every approved candidate is queued; none is dropped. */
  lemma {:induction false} ApprovedComplete(pillarId: string, pillarName: string, candidates: seq<FollowUp>,
                                            approves: Relevance, k: nat)
    requires k < |candidates| && approves.Asks(candidates[k])
    ensures (pillarId, candidates[k], pillarName) in Approved(pillarId, pillarName, candidates, approves)
    decreases |candidates|
  {
    if k < |candidates| - 1 {
      ApprovedComplete(pillarId, pillarName, candidates[..|candidates| - 1], approves, k);
    }
  }

  /** There is no de-duplication: a candidate listed twice and approved is queued twice. */
  lemma ApprovedKeepsDuplicates(pillarId: string, pillarName: string, f: FollowUp, approves: Relevance)
    requires approves.Asks(f)
    ensures Approved(pillarId, pillarName, [f, f], approves) == [(pillarId, f, pillarName), (pillarId, f, pillarName)]
  {
    assert [f, f][..1] == [f];
    assert [f][..0] == [];
  }

  /**
    The dict comprehension {pillar.name: [(q.id, q.max_score) …]}: one entry per pillar name,
    a later pillar of the same name replacing an earlier one.
  */
  function PillarQuestionLists(pillars: seq<Pillar>): (lists: map<string, seq<(string, int)>>)
    ensures lists.Keys == set k | 0 <= k < |pillars| :: pillars[k].name
    decreases |pillars|
  {
    if pillars == [] then map[]
    else
      var p := pillars[|pillars| - 1];
      var init := pillars[..|pillars| - 1];
      var lists := PillarQuestionLists(init);
      assert forall k :: 0 <= k < |init| ==> init[k] == pillars[k];
      lists[p.name := seq(|p.questions|, m requires 0 <= m < |p.questions| => (p.questions[m].id, p.questions[m].maxScore))]
  }

  /** A rubric with a single pillar breaks down into that pillar's name and its (id, max) list. */
  lemma SinglePillarLists(p: Pillar)
    ensures PillarQuestionLists([p]) ==
      map[p.name := seq(|p.questions|, m requires 0 <= m < |p.questions| => (p.questions[m].id, p.questions[m].maxScore))]
  {
    assert [p][..0] == [];
  }

  class AssessmentOrchestrator {
    const tool: Tool
    const pillars: seq<Pillar>
    const questions: seq<(string, Question, string)>
    var questionScores: map<string, int>
    var questionResults: seq<QuestionResult>
    var currentQuestionIndex: nat
    var pendingFollowUps: seq<(string, FollowUp, string)>

    /** The cursor never passes the end of the rubric. */
    ghost predicate Valid()
      reads this
    {
      currentQuestionIndex <= |questions|
    }

    /** __init__: the tool's rubric, flattened, with nothing answered and nothing queued. */
    constructor(tool: Tool)
      ensures Valid() && this.tool == tool
      ensures |pillars| == 1 && pillars[0].key == ToolValue(tool) + "_specific"
      ensures pillars[0].name == ToolName(tool) + " - Repository & Code Management"
      ensures pillars[0].totalWeight == FullMarks
      ensures pillars[0].questions == Adjusted(InitialQuestions(ToolValue(tool), Catalog(tool)))
      ensures questions == Flatten(pillars)
      ensures questionScores == map[] && questionResults == [] && currentQuestionIndex == 0 && pendingFollowUps == []
    {
      this.tool := tool;
      var ps := GetQuestionsForTool(tool);
      var qs := GetAllQuestions(ps);
      pillars := ps;
      questions := qs;
      questionScores := map[];
      questionResults := [];
      currentQuestionIndex := 0;
      pendingFollowUps := [];
    }

    /**
      get_next_question: the head of the follow-up queue if there is one; otherwise the rubric
      question under the cursor, advancing it; otherwise None, changing nothing.
    */
    method GetNextQuestion() returns (next: Option<Slot>)
      requires Valid()
      modifies this
      ensures Valid()
      ensures questionScores == old(questionScores) && questionResults == old(questionResults)
      ensures old(pendingFollowUps) != [] ==>
        var (pid, f, pname) := old(pendingFollowUps)[0];
        next == Some(FollowUpSlot(pid, f, pname)) && pendingFollowUps == old(pendingFollowUps)[1..]
        && currentQuestionIndex == old(currentQuestionIndex)
      ensures old(pendingFollowUps) == [] && old(currentQuestionIndex) < |questions| ==>
        var (pid, q, pname) := questions[old(currentQuestionIndex)];
        next == Some(BaseSlot(pid, q, pname)) && currentQuestionIndex == old(currentQuestionIndex) + 1
        && pendingFollowUps == []
      ensures old(pendingFollowUps) == [] && old(currentQuestionIndex) == |questions| ==>
        next == None && currentQuestionIndex == old(currentQuestionIndex) && pendingFollowUps == []
    {
      if pendingFollowUps != [] {
        var (pid, f, pname) := pendingFollowUps[0];
        pendingFollowUps := pendingFollowUps[1..];
        return Some(FollowUpSlot(pid, f, pname));
      }
      if currentQuestionIndex >= |questions| {
        return None;
      }
      var (pid, q, pname) := questions[currentQuestionIndex];
      currentQuestionIndex := currentQuestionIndex + 1;
      next := Some(BaseSlot(pid, q, pname));
    }

    /** The lookup loops of process_answer, over the current queue. */
    method FindQuestion(catalog: (string, string) -> seq<FollowUp>, id: string) returns (t: Option<Target>)
      ensures t == Lookup(questions, pendingFollowUps, catalog, id)
    {
      var k := Search(BaseIds(questions), id);
      if k.Some? {
        var (pid, q, pname) := questions[k.value];
        return Some(Target(q.id, Catalogued(q.text), q.maxScore, Some(pid), Some(pname)));
      }
      if !IsFollowUp(id) {
        return None;
      }
      k := Search(PendingIds(pendingFollowUps), id);
      if k.Some? {
        var (pid, f, pname) := pendingFollowUps[k.value];
        return Some(FromFollowUp(f, Some(pid), Some(pname)));
      }
      var candidates := ConfiguredFollowUps(catalog, id);
      k := Search(FollowUpIds(candidates), id);
      if k.None? {
        return None;
      }
      var f := candidates[k.value];
      var b := Search(BaseIds(questions), f.baseQuestionId);
      if b.Some? {
        t := Some(FromFollowUp(f, Some(questions[b.value].0), Some(questions[b.value].2)));
      } else {
        t := Some(FromFollowUp(f, None, None));
      }
    }

    /**
      process_answer. An unknown id fails with "Question … not found" and changes nothing.
      Otherwise the classification decides the score, which is stored under the id; exactly
      one result is appended; and, for a rubric question only, every follow-up the relevance
      oracle approves is queued behind the existing entries, in catalog order.
    */
    method ProcessAnswer(id: string, answer: string,
                         classify: (QuestionText, string) -> string,
                         catalog: (string, string) -> seq<FollowUp>,
                         relevant: (QuestionText, string, string, string) -> bool)
      returns (r: Result<QuestionResult, string>)
      requires Valid()
      modifies this
      ensures Valid()
      ensures currentQuestionIndex == old(currentQuestionIndex)
      ensures
        var t := Lookup(questions, old(pendingFollowUps), catalog, id);
        if t.None? then
          r == Failure("Question " + id + " not found")
          && questionScores == old(questionScores) && questionResults == old(questionResults)
          && pendingFollowUps == old(pendingFollowUps)
        else
          var c := classify(t.value.text, answer);
          var result := ResultFor(id, t.value, answer, c);
          r == Success(result)
          && questionScores == old(questionScores)[id := result.scoreEarned]
          && questionResults == old(questionResults) + [result]
          && pendingFollowUps == old(pendingFollowUps) +
               (if IsFollowUp(id) then []
                else Approved(t.value.pillarId.value, t.value.pillarName.value, catalog(id, c),
                              Relevance(relevant, t.value.text, answer, c)))
    {
      var t := FindQuestion(catalog, id);
      if t.None? {
        return Failure("Question " + id + " not found");
      }
      var target := t.value;
      var c := classify(target.text, answer);
      var result := ResultFor(id, target, answer, c);
      questionScores := questionScores[id := result.scoreEarned];
      questionResults := questionResults + [result];
      if !IsFollowUp(id) {
        EnqueueApproved(target.pillarId.value, target.pillarName.value, catalog(id, c),
                        Relevance(relevant, target.text, answer, c));
      }
      r := Success(result);
    }

    /** The loop of process_answer that queues each approved follow-up behind the others. */
    method EnqueueApproved(pillarId: string, pillarName: string, candidates: seq<FollowUp>, approves: Relevance)
      modifies this
      ensures pendingFollowUps == old(pendingFollowUps) + Approved(pillarId, pillarName, candidates, approves)
      ensures questionScores == old(questionScores) && questionResults == old(questionResults)
      ensures currentQuestionIndex == old(currentQuestionIndex)
    {
      var k := 0;
      while k < |candidates|
        invariant 0 <= k <= |candidates|
        invariant pendingFollowUps == old(pendingFollowUps) + Approved(pillarId, pillarName, candidates[..k], approves)
        invariant questionScores == old(questionScores) && questionResults == old(questionResults)
        invariant currentQuestionIndex == old(currentQuestionIndex)
      {
        assert candidates[..k + 1][..k] == candidates[..k];
        if approves.Asks(candidates[k]) {
          pendingFollowUps := pendingFollowUps + [(pillarId, candidates[k], pillarName)];
        }
        k := k + 1;
      }
      assert candidates[..|candidates|] == candidates;
    }

    /**
      finalize_assessment: the final score is the sum of all stored scores and the breakdown
      is taken per pillar name over that pillar's (id, max) list; the narrative is an oracle.
    */
    method FinalizeAssessment(summarize: (int, map<string, (int, int)>, seq<QuestionResult>) -> string)
      returns (result: AssessmentResult)
      ensures result.finalScore == Total(questionScores)
      ensures result.breakdown == GenerateBreakdown(questionScores, PillarQuestionLists(pillars))
      ensures result.breakdown.Keys == set k | 0 <= k < |pillars| :: pillars[k].name
      ensures result.questionResults == questionResults
      ensures result.summary == summarize(result.finalScore, result.breakdown, questionResults)
    {
      var finalScore := CalculateFinalScore(questionScores);
      var breakdown := GenerateBreakdown(questionScores, PillarQuestionLists(pillars));
      var summary := summarize(finalScore, breakdown, questionResults);
      result := AssessmentResult(finalScore, breakdown, questionResults, summary);
    }

    /** reset: nothing answered, nothing queued, cursor back at the start. */
    method Reset()
      modifies this
      ensures Valid()
      ensures questionScores == map[] && questionResults == [] && currentQuestionIndex == 0 && pendingFollowUps == []
    {
      questionScores := map[];
      questionResults := [];
      currentQuestionIndex := 0;
      pendingFollowUps := [];
    }
  }
}
