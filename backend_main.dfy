/**
  The API layer of the backend (backend/main.py): the work-email rule, the in-memory registry
  of assessment sessions and shared results with their expiry, and the registry and scoring
  logic of the start, answer, complete and shared-results endpoints. Time is a number of
  seconds passed in by the caller; session and share-token ids, the answer analyser, the
  narrative writer, the service health probe and the SMTP server are parameters.
*/
module BackendMain {
  import opened Wrappers
  import opened Numbers
  import opened Text
  import opened Scoring
  import opened BackendCatalog
  import opened BackendConfig
  import opened BackendOrchestrator
  import opened EmailService

  /** CACHE_EXPIRY_HOURS and SESSION_EXPIRY_HOURS, in seconds. */
  const CacheExpiry: int := 48 * 3600
  const SessionExpiry: int := 2 * 3600

  /** An HTTPException: status code and detail. */
  datatype HttpError = HttpError(status: int, detail: string)

  // ---------------------------------------------------------------------------------------
  // SaveEmailRequest.validate_work_email
  // ---------------------------------------------------------------------------------------

  const PersonalEmailDomains: seq<string> := [
    "gmail.com", "yahoo.com", "hotmail.com", "outlook.com",
    "aol.com", "icloud.com", "mail.com", "protonmail.com",
    "zoho.com", "yandex.com", "gmx.com", "live.com",
    "msn.com", "rediffmail.com", "inbox.com", "test.com", "test123.com",
    "example.com", "example.org", "example.net", "testxyz.com", "myemail.com",
    "email.com", "xyz.com", "abc.com", "demo.com", "sample.com", "tempmail.com",
    "disposablemail.com", "fakeemail.com", "mailinator.com", "throwawaymail.com",
    "10minutemail.com", "guerrillamail.com", "maildrop.cc", "getnada.com",
    "trashmail.com", "yopmail.com"
  ]

  const PersonalDomainRejected: string :=
    "Personal email domains are not allowed. Please use your work email address."

  /**
    validate_work_email: the lower-cased text between the first and the second '@' must not
    be a personal domain; an address without '@' fails on the index, as the source's does.
  */
  function ValidateWorkEmail(address: string): (r: Result<string, string>)
    ensures r.Success? ==> r.value == address
    ensures |SplitOn(address, "@")| < 2 ==> r == Failure("list index out of range")
  {
    var parts := SplitOn(address, "@");
    if |parts| < 2 then Failure("list index out of range")
    else if Lower(parts[1]) in PersonalEmailDomains then Failure(PersonalDomainRejected)
    else Success(address)
  }

  /**
    For an address local@domain with a single '@', the address is refused exactly when its
    domain, in any letter case, is one of the personal domains.
  */
  lemma WorkEmailRule(local: string, domain: string)
    requires '@' !in local && '@' !in domain
    ensures ValidateWorkEmail(local + "@" + domain).Failure? <==> Lower(domain) in PersonalEmailDomains
    ensures ValidateWorkEmail(local + "@" + domain).Failure? ==>
      ValidateWorkEmail(local + "@" + domain).error == PersonalDomainRejected
  {
    SplitAtOnlySeparator(local, domain, '@');
  }

  // ---------------------------------------------------------------------------------------
  // Registry entries and expiry
  // ---------------------------------------------------------------------------------------

  /** One assessment_sessions entry. */
  datatype SessionData = SessionData(orchestrator: AssessmentOrchestrator, createdAt: int, lastAccessed: int)

  /** One pillar of the completion breakdown; scores and percentage in hundredths. */
  datatype PillarSummary = PillarSummary(id: string, name: string, earned: int, max: int, percentage: int)

  /** One entry of question_results. */
  datatype QuestionRecord = QuestionRecord(questionId: string, questionText: TextRef, userAnswer: string,
                                           classification: string, scoreEarned: int, maxScore: int,
                                           analysis: string, pillarId: string, pillarName: string)

  /** The results of a completed assessment; the breakdown in pillar order. */
  datatype Results = Results(finalScore: int, breakdown: seq<PillarSummary>,
                             questionResults: seq<QuestionRecord>, summary: string)

  /** One shared_results_cache entry. */
  datatype CacheEntry = CacheEntry(results: Results, expiresAt: int, email: string, platform: string)

  /** A session survives cleanup at `now` unless it was last used more than two hours before. */
  predicate SessionLive(data: SessionData, now: int) {
    !(data.lastAccessed < now - SessionExpiry)
  }

  /** A cached result survives cleanup at `now` unless its expiry time has passed. */
  predicate EntryLive(entry: CacheEntry, now: int) {
    !(entry.expiresAt < now)
  }

  /** The sessions _cleanup_expired_sessions keeps. */
  function LiveSessions(sessions: map<string, SessionData>, now: int): (live: map<string, SessionData>)
    ensures live.Items <= sessions.Items
  {
    map sid | sid in sessions && SessionLive(sessions[sid], now) :: sessions[sid]
  }

  /** The entries _cleanup_expired_cache keeps. */
  function LiveCache(cache: map<string, CacheEntry>, now: int): (live: map<string, CacheEntry>)
    ensures live.Items <= cache.Items
  {
    map token | token in cache && EntryLive(cache[token], now) :: cache[token]
  }

  /**
    Session cleanup drops exactly the sessions idle for more than two hours, leaves the others
    untouched, and a second cleanup at the same time drops nothing more.
  */
  lemma LiveSessionsExact(sessions: map<string, SessionData>, now: int)
    ensures forall sid :: sid in LiveSessions(sessions, now) <==>
      sid in sessions && sessions[sid].lastAccessed >= now - 7200
    ensures forall sid :: sid in LiveSessions(sessions, now) ==> LiveSessions(sessions, now)[sid] == sessions[sid]
    ensures LiveSessions(LiveSessions(sessions, now), now) == LiveSessions(sessions, now)
  {
  }

  /** A later cleanup keeps no session an earlier one dropped. */
  lemma LiveSessionsShrink(sessions: map<string, SessionData>, t1: int, t2: int)
    requires t1 <= t2
    ensures LiveSessions(sessions, t2).Keys <= LiveSessions(sessions, t1).Keys
  {
  }

  /** Cache cleanup drops exactly the entries whose expiry time has passed. */
  lemma LiveCacheExact(cache: map<string, CacheEntry>, now: int)
    ensures forall token :: token in LiveCache(cache, now) <==> token in cache && cache[token].expiresAt >= now
    ensures forall token :: token in LiveCache(cache, now) ==> LiveCache(cache, now)[token] == cache[token]
    ensures LiveCache(LiveCache(cache, now), now) == LiveCache(cache, now)
  {
  }

  /** A result stored at time t stays retrievable through every cleanup up to 48 hours later. */
  lemma StoredResultLasts48Hours(cache: map<string, CacheEntry>, token: string, results: Results,
                                 email: string, platform: string, t: int, now: int)
    requires t <= now <= t + 172800
    ensures token in LiveCache(cache[token := CacheEntry(results, t + CacheExpiry, email, platform)], now)
  {
  }

  // ---------------------------------------------------------------------------------------
  // Answer normalisation, question lookup, breakdown and question results
  // ---------------------------------------------------------------------------------------

  /** The classification submit_answer gives a reply: "yes" for yes or y, in any case and padding. */
  function ClassifyReply(answer: string): (c: string)
    ensures c == "yes" || c == "no"
  {
    if Strip(Lower(answer)) in ["yes", "y"] then "yes" else "no"
  }

  /** Letter case never changes the classification of a reply. */
  lemma ClassifyReplyIgnoresCase(answer: string)
    ensures ClassifyReply(Lower(answer)) == ClassifyReply(answer)
  {
    assert Lower(Lower(answer)) == Lower(answer);
  }

  /** The first question of the flat list with the given id, with its pillar id and name. */
  function FirstWithId(questions: seq<(PillarTag, Question, string)>, id: string)
    : (r: Option<(PillarTag, Question, string)>)
    ensures r.None? <==> forall k :: 0 <= k < |questions| ==> questions[k].1.id != id
    ensures r.Some? ==> exists k :: (0 <= k < |questions| && questions[k] == r.value && r.value.1.id == id
                                     && forall j :: 0 <= j < k ==> questions[j].1.id != id)
    decreases |questions|
  {
    if questions == [] then None
    else if questions[0].1.id == id then Some(questions[0])
    else
      var rest := FirstWithId(questions[1..], id);
      assert forall k :: 0 < k < |questions| ==> questions[k] == questions[1..][k - 1];
      rest
  }

  /** The search loop of submit_answer and complete_assessment: the first question with the id. */
  method FindRubricQuestion(questions: seq<(PillarTag, Question, string)>, id: string)
    returns (found: Option<(PillarTag, Question, string)>)
    ensures found == FirstWithId(questions, id)
  {
    var k := 0;
    while k < |questions|
      invariant 0 <= k <= |questions|
      invariant FirstWithId(questions, id) == FirstWithId(questions[k..], id)
    {
      if questions[k].1.id == id {
        return Some(questions[k]);
      }
      assert questions[k..][1..] == questions[k + 1..];
      k := k + 1;
    }
    return None;
  }

  /** (id, max_score) of each of a pillar's questions. */
  function Entries(qs: seq<Question>): (entries: seq<(string, int)>)
    ensures |entries| == |qs|
  {
    seq(|qs|, k requires 0 <= k < |qs| => (qs[k].id, qs[k].maxScore))
  }

  /**
    earned / max × 100 in hundredths of a percent, and 0 when the pillar's max is not positive:
    a share of the max lies between 0 and 100 percent, and the whole max is exactly 100.
  */
  function Percentage(earned: int, max: int): (p: int)
    ensures 0 <= earned <= max ==> 0 <= p <= 10000
    ensures 0 < max == earned ==> p == 10000
    ensures max <= 0 ==> p == 0
  {
    if max > 0 then
      ShareOfMaxBounds(earned, max);
      Round2(Share(earned as real, max as real, 100.0))
    else 0
  }

  lemma ShareOfMaxBounds(earned: int, max: int)
    requires max > 0
    ensures 0 <= earned <= max ==> 0 <= Round2(Share(earned as real, max as real, 100.0)) <= 10000
    ensures earned == max ==> Round2(Share(earned as real, max as real, 100.0)) == 10000
  {
    var e, m := earned as real, max as real;
    if 0 <= earned <= max {
      assert e / m <= 1.0;
      assert Share(e, m, 100.0) <= 100.0;
      Round2Monotone(Share(e, m, 100.0), 100.0);
      Round2NonNegative(Share(e, m, 100.0));
    }
    if earned == max {
      ShareOfWhole(m, 100.0);
    }
  }

  /** One pillar of the completion breakdown. */
  function PillarBreakdown(scores: map<string, int>, p: Pillar): (s: PillarSummary)
    ensures s.id == PillarKey(p.tag) && s.name == p.name
    ensures s.max == MaxTotal(Entries(p.questions))
    ensures 0 <= s.earned <= s.max ==> 0 <= s.percentage <= 10000
    ensures 0 < s.max == s.earned ==> s.percentage == 10000
  {
    var earned := Earned(scores, Entries(p.questions));
    var max := MaxTotal(Entries(p.questions));
    PillarSummary(PillarKey(p.tag), p.name, earned, max, Percentage(earned, max))
  }

  /** The completion breakdown, one summary per pillar in pillar order. */
  function Breakdown(scores: map<string, int>, ps: seq<Pillar>): (b: seq<PillarSummary>)
    ensures |b| == |ps|
  {
    seq(|ps|, k requires 0 <= k < |ps| => PillarBreakdown(scores, ps[k]))
  }

  /**
    When each question holds 0 or its non-negative max, as submit_answer stores them, a pillar's
    earned value lies between 0 and its max and its percentage between 0 and 100; when every
    question of the pillar was answered yes, it earns its max.
  */
  lemma PillarBreakdownBounds(scores: map<string, int>, p: Pillar)
    requires forall q :: q in p.questions ==> q.maxScore >= 0
    requires forall q :: q in p.questions ==> ScoreOf(scores, q.id) == 0 || ScoreOf(scores, q.id) == q.maxScore
    ensures 0 <= PillarBreakdown(scores, p).earned <= PillarBreakdown(scores, p).max
    ensures 0 <= PillarBreakdown(scores, p).percentage <= 10000
    ensures (forall q :: q in p.questions ==> q.id in scores && scores[q.id] == q.maxScore) ==>
      PillarBreakdown(scores, p).earned == PillarBreakdown(scores, p).max
  {
    var entries := Entries(p.questions);
    assert forall k :: 0 <= k < |entries| ==> p.questions[k] in p.questions;
    EarnedWithinMax(scores, entries);
    if forall q :: q in p.questions ==> q.id in scores && scores[q.id] == q.maxScore {
      AllYesEarnsMax(scores, entries);
    }
  }

  /** The breakdown loop of complete_assessment. */
  method ComputeBreakdown(scores: map<string, int>, ps: seq<Pillar>) returns (b: seq<PillarSummary>)
    ensures b == Breakdown(scores, ps)
  {
    b := [];
    for k := 0 to |ps|
      invariant b == Breakdown(scores, ps[..k])
    {
      b := b + [PillarBreakdown(scores, ps[k])];
    }
    assert ps[..|ps|] == ps;
  }

  /** A question_results entry; absent answer fields take the source's defaults. */
  function RecordFor(found: (PillarTag, Question, string), id: string, data: AnswerData): (rec: QuestionRecord)
    ensures rec.questionId == id && rec.questionText == found.1.text && rec.maxScore == found.1.maxScore
    ensures rec.pillarId == PillarKey(found.0) && rec.pillarName == found.2
    ensures data.classification.None? ==> rec.classification == "no"
    ensures data.classification.Some? ==> rec.classification == data.classification.value
    ensures data.score.None? ==> rec.scoreEarned == 0
    ensures data.score.Some? ==> rec.scoreEarned == data.score.value
    ensures data.answer.None? ==> rec.userAnswer == ""
    ensures data.analysis.None? ==> rec.analysis == ""
  {
    QuestionRecord(id, found.1.text, data.answer.GetOr(""), data.classification.GetOr("no"),
                   data.score.GetOr(0), found.1.maxScore, data.analysis.GetOr(""),
                   PillarKey(found.0), found.2)
  }

  /** question_results: one record per answered id that is in the rubric, in answer order. */
  function QuestionRecords(questions: seq<(PillarTag, Question, string)>, answers: seq<(string, AnswerData)>)
    : (records: seq<QuestionRecord>)
    ensures |records| <= |answers|
    decreases |answers|
  {
    if answers == [] then []
    else
      var last := answers[|answers| - 1];
      QuestionRecords(questions, answers[..|answers| - 1])
        + match FirstWithId(questions, last.0)
          case None => []
          case Some(found) => [RecordFor(found, last.0, last.1)]
  }

  /**
    Every record answers one of the request's ids and carries the rubric's text and max
    score for that id.
  */
  lemma {:induction false} QuestionRecordsFromRubric(questions: seq<(PillarTag, Question, string)>,
                                                     answers: seq<(string, AnswerData)>)
    ensures forall k :: 0 <= k < |QuestionRecords(questions, answers)| ==>
      var r := QuestionRecords(questions, answers)[k];
      && (exists j :: 0 <= j < |answers| && answers[j].0 == r.questionId)
      && FirstWithId(questions, r.questionId).Some?
      && r.maxScore == FirstWithId(questions, r.questionId).value.1.maxScore
      && r.questionText == FirstWithId(questions, r.questionId).value.1.text
    decreases |answers|
  {
    if answers != [] {
      var init := answers[..|answers| - 1];
      QuestionRecordsFromRubric(questions, init);
      var rest := QuestionRecords(questions, init);
      var all := QuestionRecords(questions, answers);
      forall k | 0 <= k < |rest|
        ensures all[k] == rest[k]
        ensures exists j :: 0 <= j < |answers| && answers[j].0 == rest[k].questionId
      {
        var j :| 0 <= j < |init| && init[j].0 == rest[k].questionId;
        assert answers[j] == init[j];
      }
    }
  }

  /**
    Every answered id that names a rubric question gets its record, with the answer's fields
    and the source's defaults for the absent ones.
  */
  lemma {:induction false} QuestionRecordsComplete(questions: seq<(PillarTag, Question, string)>,
                                                   answers: seq<(string, AnswerData)>, j: nat)
    requires j < |answers| && FirstWithId(questions, answers[j].0).Some?
    ensures exists k :: (0 <= k < |QuestionRecords(questions, answers)|
                         && QuestionRecords(questions, answers)[k]
                            == RecordFor(FirstWithId(questions, answers[j].0).value, answers[j].0, answers[j].1))
    decreases |answers|
  {
    var init := answers[..|answers| - 1];
    var rest := QuestionRecords(questions, init);
    var all := QuestionRecords(questions, answers);
    if j == |answers| - 1 {
      assert all[|rest|] == RecordFor(FirstWithId(questions, answers[j].0).value, answers[j].0, answers[j].1);
    } else {
      assert init[j] == answers[j];
      QuestionRecordsComplete(questions, init, j);
      var k :| 0 <= k < |rest| && rest[k] == RecordFor(FirstWithId(questions, answers[j].0).value, answers[j].0, answers[j].1);
      assert all[k] == rest[k];
    }
  }

  /** The question_results loop of complete_assessment. */
  method CollectRecords(questions: seq<(PillarTag, Question, string)>, answers: seq<(string, AnswerData)>)
    returns (records: seq<QuestionRecord>)
    ensures records == QuestionRecords(questions, answers)
  {
    records := [];
    for k := 0 to |answers|
      invariant records == QuestionRecords(questions, answers[..k])
    {
      assert answers[..k + 1][..k] == answers[..k];
      var found := FindRubricQuestion(questions, answers[k].0);
      if found.Some? {
        records := records + [RecordFor(found.value, answers[k].0, answers[k].1)];
      }
    }
    assert answers[..|answers|] == answers;
  }

  /** The request's answers are a JSON object: no id occurs twice. */
  predicate DistinctIds(answers: seq<(string, AnswerData)>) {
    forall i, j :: 0 <= i < j < |answers| ==> answers[i].0 != answers[j].0
  }

  /** The answers as the dictionary generate_final_summary looks ids up in. */
  function AnswerMap(answers: seq<(string, AnswerData)>): (m: map<string, AnswerData>)
    ensures m.Keys == set k | 0 <= k < |answers| :: answers[k].0
    decreases |answers|
  {
    if answers == [] then map[]
    else
      var init := answers[..|answers| - 1];
      var m := AnswerMap(init);
      assert forall k :: 0 <= k < |init| ==> init[k] == answers[k];
      m[answers[|answers| - 1].0 := answers[|answers| - 1].1]
  }

  /** With distinct ids, every answer is found under its own id. */
  lemma {:induction false} AnswerMapLookup(answers: seq<(string, AnswerData)>, k: nat)
    requires DistinctIds(answers) && k < |answers|
    ensures AnswerMap(answers)[answers[k].0] == answers[k].1
    decreases |answers|
  {
    if k < |answers| - 1 {
      var init := answers[..|answers| - 1];
      AnswerMapLookup(init, k);
    }
  }

  /**
    What complete_assessment reports for a session's orchestrator state: a missing
    classification fails as a KeyError, otherwise the sum of the stored scores, the breakdown,
    the question results and the narrative.
  */
  ghost function ResultsFor(pillars: seq<Pillar>, questions: seq<(PillarTag, Question, string)>,
                            scores: map<string, int>, analyses: map<string, string>,
                            answers: seq<(string, AnswerData)>,
                            narrate: (seq<AnswerTuple>, seq<AnswerTuple>, int) -> string)
    : (r: Result<Results, HttpError>)
    ensures r.Failure? ==> r.error.status == 500
    ensures r.Success? ==> |r.value.breakdown| == |pillars| && |r.value.questionResults| <= |answers|
  {
    match Buckets(Flatten(pillars), AnswerMap(answers), analyses)
    case Failure(e) => Failure(HttpError(500, "'" + e + "'"))
    case Success(s) =>
      Success(Results(Total(scores), Breakdown(scores, pillars), QuestionRecords(questions, answers),
                      narrate(SortByImportance(s.yes), SortByImportance(s.no), Total(scores))))
  }

  /** The results part of complete_assessment; the orchestrator is only read. */
  method BuildResults(o: AssessmentOrchestrator, answers: seq<(string, AnswerData)>,
                      narrate: (seq<AnswerTuple>, seq<AnswerTuple>, int) -> string)
    returns (r: Result<Results, HttpError>)
    requires o.Valid()
    ensures r == ResultsFor(o.pillars, o.questions, o.questionScores, o.answerAnalyses, answers, narrate)
  {
    var summary := o.GenerateFinalSummary(AnswerMap(answers), narrate);
    if summary.Failure? {
      return Failure(HttpError(500, "'" + summary.error + "'"));
    }
    var breakdown := ComputeBreakdown(o.questionScores, o.pillars);
    var records := CollectRecords(o.questions, answers);
    var finalScore := CalculateFinalScore(o.questionScores);
    r := Success(Results(finalScore, breakdown, records, summary.value));
  }

  // ---------------------------------------------------------------------------------------
  // start_assessment
  // ---------------------------------------------------------------------------------------

  datatype StartRequest = StartRequest(tool: string, cicdPlatform: Option<string>, deploymentPlatform: Option<string>)

  /** One entry of the start response's question list (description and doc_url left out). */
  datatype QuestionView = QuestionView(id: string, text: TextRef, maxScore: int, importance: real,
                                       pillar: string, pillarId: string)

  /** One entry of the start response's pillar dictionary. */
  datatype PillarView = PillarView(id: string, name: string, totalWeight: int, questionCount: nat)

  datatype StartResponse = StartResponse(sessionId: string, questions: seq<QuestionView>,
                                         pillars: seq<PillarView>, message: string)

  /** The service health the readiness check reads. */
  datatype Health = Health(connected: bool, available: bool, deploymentName: string)

  /** An optional platform field counts only when it is a non-empty string. */
  predicate Given(field: Option<string>) {
    field.Some? && field.value != ""
  }

  /** The enum conversions of start_assessment; None where one raises ValueError. */
  function ParseStart(request: StartRequest)
    : (r: Option<(RepositoryTool, Option<CicdPlatform>, Option<DeploymentPlatform>)>)
    ensures r.Some? <==> (ParseTool(request.tool).Some?
                          && (Given(request.cicdPlatform) ==> ParseCicd(request.cicdPlatform.value).Some?)
                          && (Given(request.deploymentPlatform) ==> ParseDeployment(request.deploymentPlatform.value).Some?))
    ensures r.Some? ==> r.value.1.Some? == Given(request.cicdPlatform) && r.value.2.Some? == Given(request.deploymentPlatform)
  {
    var tool := ParseTool(request.tool);
    var cicd := if Given(request.cicdPlatform) then ParseCicd(request.cicdPlatform.value) else None;
    var deployment := if Given(request.deploymentPlatform) then ParseDeployment(request.deploymentPlatform.value) else None;
    if tool.None? || (Given(request.cicdPlatform) && cicd.None?)
       || (Given(request.deploymentPlatform) && deployment.None?) then None
    else Some((tool.value, cicd, deployment))
  }

  function InvalidTool(tool: string): (e: HttpError)
    ensures e.status == 400
    ensures |e.detail| >= |tool| && e.detail[|e.detail| - |tool|..] == tool
  {
    HttpError(400, "Invalid tool: " + tool)
  }

  /** The rubric an orchestrator built from these selections holds. */
  function RubricFor(tool: RepositoryTool, cicd: Option<CicdPlatform>, deployment: Option<DeploymentPlatform>)
    : (ps: seq<Pillar>)
    ensures Consistent(ps) && WorthFullMarks(ps)
    ensures |Flatten(ps)| == if cicd.Some? && deployment.Some? then 15 else 5
  {
    if cicd.Some? && deployment.Some? then
      var repo, ci, deploy := RepositoryCatalog(tool), CicdCatalog(cicd.value), DeploymentCatalog(deployment.value);
      PlatformRubricTotals(repo, ci, deploy);
      PlatformRubricComplete(repo, ci, deploy);
      Reconciled(PlatformAllocation(repo, ci, deploy))
    else
      var items := ToolItems(ToolValue(tool), RepositoryCatalog(tool));
      FlatRubricTotals(items);
      FlatRubricComplete(items);
      Reconciled(FlatAllocation(items))
  }

  function ViewOf(x: (PillarTag, Question, string)): QuestionView {
    QuestionView(x.1.id, x.1.text, x.1.maxScore, x.1.importance, x.2, PillarKey(x.0))
  }

  function QuestionViews(questions: seq<(PillarTag, Question, string)>): (views: seq<QuestionView>)
    ensures |views| == |questions|
  {
    seq(|questions|, k requires 0 <= k < |questions| => ViewOf(questions[k]))
  }

  function PillarViews(ps: seq<Pillar>): (views: seq<PillarView>)
    ensures |views| == |ps|
  {
    seq(|ps|, k requires 0 <= k < |ps| => PillarView(PillarKey(ps[k].tag), ps[k].name, ps[k].totalWeight, |ps[k].questions|))
  }

  function ViewCounts(views: seq<PillarView>): (r: seq<int>)
    ensures |r| == |views|
  {
    seq(|views|, k requires 0 <= k < |views| => views[k].questionCount as int)
  }

  /** The pillar dictionary's question counts add up to the length of the question list. */
  lemma StartResponseCounts(ps: seq<Pillar>)
    ensures Sum(ViewCounts(PillarViews(ps))) == |QuestionViews(Flatten(ps))|
  {
    FlattenContents(ps);
    assert ViewCounts(PillarViews(ps)) == QuestionCounts(ps);
  }

  /** The question-list loop of start_assessment. */
  method ListQuestions(questions: seq<(PillarTag, Question, string)>) returns (views: seq<QuestionView>)
    ensures views == QuestionViews(questions)
  {
    views := [];
    for k := 0 to |questions|
      invariant views == QuestionViews(questions[..k])
    {
      views := views + [ViewOf(questions[k])];
    }
    assert questions[..|questions|] == questions;
  }

  /** The pillar-dictionary loop of start_assessment. */
  method ListPillars(ps: seq<Pillar>) returns (views: seq<PillarView>)
    ensures views == PillarViews(ps)
  {
    views := [];
    for k := 0 to |ps|
      invariant views == PillarViews(ps[..k])
    {
      views := views + [PillarView(PillarKey(ps[k].tag), ps[k].name, ps[k].totalWeight, |ps[k].questions|)];
    }
    assert ps[..|ps|] == ps;
  }

  /** The detail of the TypeError the orchestrator's two-parameter __init__ raises. */
  const UnexpectedKeyword: string :=
    "AssessmentOrchestrator.__init__() got an unexpected keyword argument 'cicd_platform'"

  /**
    start_assessment as written: the orchestrator is called with cicd_platform and
    deployment_platform keywords its constructor does not take, so every request whose tool and
    platforms are valid ends in the generic handler's 500.
  */
  function StartOutcomeAsWritten(request: StartRequest): (e: HttpError)
    ensures e.status == 400 <==> ParseStart(request).None?
    ensures e.status == 500 <==> ParseStart(request).Some?
  {
    if ParseStart(request).None? then InvalidTool(request.tool) else HttpError(500, UnexpectedKeyword)
  }

  /** The plainest valid request, {"tool": "github"}, fails as written. */
  lemma StartFailsForGitHub()
    ensures ParseStart(StartRequest("github", None, None)) == Some((GitHub, None, None))
    ensures StartOutcomeAsWritten(StartRequest("github", None, None)).status == 500
  {
  }

  // ---------------------------------------------------------------------------------------
  // complete_assessment requests and responses
  // ---------------------------------------------------------------------------------------

  datatype AnswerRequest = AnswerRequest(sessionId: string, questionId: string, questionText: string,
                                         answer: string, importance: real)

  datatype AnswerResponse = AnswerResponse(classification: string, score: int, analysis: string)

  datatype CompleteRequest = CompleteRequest(sessionId: string, tool: string,
                                             answers: seq<(string, AnswerData)>, email: string)

  datatype CompleteResponse = CompleteResponse(results: Results, shareToken: string, emailSent: bool, emailMessage: string)

  const SessionNotFound: string := "Assessment session not found or expired"

  // ---------------------------------------------------------------------------------------
  // The registry: assessment_sessions and shared_results_cache
  // ---------------------------------------------------------------------------------------

  class Registry {
    var sessions: map<string, SessionData>
    var cache: map<string, CacheEntry>

    /** Every stored orchestrator holds the flat question list of its own rubric. */
    ghost predicate Valid()
      reads this
    {
      forall sid :: sid in sessions ==> sessions[sid].orchestrator.Valid()
    }

    constructor()
      ensures Valid() && sessions == map[] && cache == map[]
    {
      sessions := map[];
      cache := map[];
    }

    /** _cleanup_expired_cache: the expired tokens are collected, then removed one by one. */
    method CleanupExpiredCache(now: int)
      modifies this
      ensures cache == LiveCache(old(cache), now)
      ensures sessions == old(sessions)
    {
      var expired := set token | token in cache && cache[token].expiresAt < now;
      var pending := expired;
      while pending != {}
        invariant pending <= expired
        invariant forall t :: t in cache <==> t in old(cache) && (t !in expired || t in pending)
        invariant forall t :: t in cache ==> cache[t] == old(cache)[t]
        invariant sessions == old(sessions)
        decreases |pending|
      {
        var token :| token in pending;
        cache := cache - {token};
        pending := pending - {token};
      }
      assert cache.Keys == LiveCache(old(cache), now).Keys;
    }

    /** _cleanup_expired_sessions: sessions idle for more than two hours are removed. */
    method CleanupExpiredSessions(now: int)
      modifies this
      ensures sessions == LiveSessions(old(sessions), now)
      ensures cache == old(cache)
    {
      var expired := set sid | sid in sessions && sessions[sid].lastAccessed < now - SessionExpiry;
      var pending := expired;
      while pending != {}
        invariant pending <= expired
        invariant forall s :: s in sessions <==> s in old(sessions) && (s !in expired || s in pending)
        invariant forall s :: s in sessions ==> sessions[s] == old(sessions)[s]
        invariant cache == old(cache)
        decreases |pending|
      {
        var sid :| sid in pending;
        sessions := sessions - {sid};
        pending := pending - {sid};
      }
      assert sessions.Keys == LiveSessions(old(sessions), now).Keys;
    }

    /**
      get_shared_results: cleanup at `now`, then the token is looked up; an entry found expired
      at the second clock reading `later` is removed and reported as expired.
    */
    method GetSharedResults(token: string, now: int, later: int) returns (r: Result<CacheEntry, HttpError>)
      modifies this
      ensures sessions == old(sessions)
      ensures var live := LiveCache(old(cache), now);
        && (token !in live ==>
              r == Failure(HttpError(404, "Results not found or have expired. Shared links are valid for 48 hours."))
              && cache == live)
        && (token in live && live[token].expiresAt < later ==>
              r == Failure(HttpError(404, "Results have expired. Shared links are valid for 48 hours."))
              && cache == live - {token})
        && (token in live && !(live[token].expiresAt < later) ==>
              r == Success(old(cache)[token]) && cache == live)
    {
      CleanupExpiredCache(now);
      if token !in cache {
        return Failure(HttpError(404, "Results not found or have expired. Shared links are valid for 48 hours."));
      }
      var entry := cache[token];
      if entry.expiresAt < later {
        cache := cache - {token};
        return Failure(HttpError(404, "Results have expired. Shared links are valid for 48 hours."));
      }
      r := Success(entry);
    }

    /**
      start_assessment, with the platform selections handed to an orchestrator that accepts
      them: invalid enum values give 400; an unready service raises a 503 that the generic
      handler turns into a 500 whose detail is "503: " and the message; otherwise the new
      session is stored, idle sessions are cleaned up, and the questions and pillars listed.
    */
    method StartAssessment(request: StartRequest, sessionId: string, now: int, health: Health)
      returns (r: Result<StartResponse, HttpError>)
      requires Valid()
      modifies this
      ensures Valid()
      ensures cache == old(cache)
      ensures ParseStart(request).None? ==> r == Failure(InvalidTool(request.tool)) && sessions == old(sessions)
      ensures ParseStart(request).Some? && !CheckReadiness(health.connected, health.available, health.deploymentName).0 ==>
        r == Failure(HttpError(500, "503: " + CheckReadiness(health.connected, health.available, health.deploymentName).1))
        && sessions == old(sessions)
      ensures ParseStart(request).Some? && CheckReadiness(health.connected, health.available, health.deploymentName).0 ==>
        && sessionId in sessions
        && var data := sessions[sessionId];
        var (tool, cicd, deployment) := ParseStart(request).value;
        && fresh(data.orchestrator)
        && data.createdAt == now && data.lastAccessed == now
        && data.orchestrator.tool == tool
        && data.orchestrator.pillars == RubricFor(tool, cicd, deployment)
        && data.orchestrator.questionScores == map[] && data.orchestrator.answerAnalyses == map[]
        && sessions == LiveSessions(old(sessions)[sessionId := data], now)
        && r == Success(StartResponse(sessionId, QuestionViews(Flatten(data.orchestrator.pillars)),
                                      PillarViews(data.orchestrator.pillars), "Assessment started successfully"))
    {
      var parsed := ParseStart(request);
      if parsed.None? {
        return Failure(InvalidTool(request.tool));
      }
      var (tool, cicd, deployment) := parsed.value;
      var orchestrator := new AssessmentOrchestrator(tool, cicd, deployment);
      var (ready, message) := CheckReadiness(health.connected, health.available, health.deploymentName);
      if !ready {
        return Failure(HttpError(500, "503: " + message));
      }
      OpenSession(sessionId, orchestrator, now);
      var questions := ListQuestions(orchestrator.questions);
      var pillars := ListPillars(orchestrator.pillars);
      r := Success(StartResponse(sessionId, questions, pillars, "Assessment started successfully"));
    }

    /** Stores a new session used now, then cleans up idle sessions; the new one stays. */
    method OpenSession(sessionId: string, orchestrator: AssessmentOrchestrator, now: int)
      requires Valid() && orchestrator.Valid()
      modifies this
      ensures Valid()
      ensures sessions == LiveSessions(old(sessions)[sessionId := SessionData(orchestrator, now, now)], now)
      ensures sessionId in sessions && sessions[sessionId] == SessionData(orchestrator, now, now)
      ensures cache == old(cache)
    {
      sessions := sessions[sessionId := SessionData(orchestrator, now, now)];
      CleanupExpiredSessions(now);
    }

    /**
      submit_answer: an unknown session is a 404 with nothing changed; a known one is touched,
      then an unknown question id is a 404; otherwise the answer is analysed, classified and
      scored against the question's max score, and both stored on the session's orchestrator.
    */
    method SubmitAnswer(request: AnswerRequest, now: int, analyze: (string, string, real) -> string)
      returns (r: Result<AnswerResponse, HttpError>)
      requires Valid()
      modifies this, if request.sessionId in sessions then {sessions[request.sessionId].orchestrator} else {}
      ensures Valid()
      ensures cache == old(cache)
      ensures request.sessionId !in old(sessions) ==>
        r == Failure(HttpError(404, SessionNotFound)) && sessions == old(sessions)
      ensures request.sessionId in old(sessions) ==>
        var data := old(sessions[request.sessionId]);
        var o := data.orchestrator;
        && sessions == old(sessions)[request.sessionId := data.(lastAccessed := now)]
        && (FirstWithId(o.questions, request.questionId).None? ==>
              r == Failure(HttpError(404, "Question not found in assessment"))
              && o.questionScores == old(o.questionScores) && o.answerAnalyses == old(o.answerAnalyses))
        && (FirstWithId(o.questions, request.questionId).Some? ==>
              var q := FirstWithId(o.questions, request.questionId).value.1;
              var classification := ClassifyReply(request.answer);
              var analysis := analyze(request.questionText, request.answer, request.importance);
              var score := if classification == "yes" then q.maxScore else 0;
              && r == Success(AnswerResponse(classification, score, analysis))
              && o.questionScores == old(o.questionScores)[request.questionId := score]
              && o.answerAnalyses == old(o.answerAnalyses)[request.questionId := analysis])
    {
      if request.sessionId !in sessions {
        return Failure(HttpError(404, SessionNotFound));
      }
      var data := sessions[request.sessionId];
      sessions := sessions[request.sessionId := data.(lastAccessed := now)];
      var orchestrator := data.orchestrator;
      var found := FindRubricQuestion(orchestrator.questions, request.questionId);
      if found.None? {
        return Failure(HttpError(404, "Question not found in assessment"));
      }
      var analysis := orchestrator.AnalyzeAnswer(request.questionId, request.questionText, request.answer,
                                                 request.importance, analyze);
      var classification := ClassifyReply(request.answer);
      var score := if classification == "yes" then found.value.1.maxScore else 0;
      orchestrator.questionScores := orchestrator.questionScores[request.questionId := score];
      r := Success(AnswerResponse(classification, score, analysis));
    }

    /**
      complete_assessment: an unknown session is a 404, an invalid tool a 400, a missing
      classification a 500; otherwise the results are cached for 48 hours under the share
      token, expired entries are cleaned up, the e-mail outcome is recorded, and the session
      is removed before idle sessions are cleaned up.
    */
    method CompleteAssessment(request: CompleteRequest, shareToken: string, now: int,
                              narrate: (seq<AnswerTuple>, seq<AnswerTuple>, int) -> string,
                              config: EmailConfig, smtp: SmtpOutcome)
      returns (r: Result<CompleteResponse, HttpError>)
      requires Valid()
      requires DistinctIds(request.answers)
      modifies this
      ensures Valid()
      ensures request.sessionId !in old(sessions) ==>
        r == Failure(HttpError(404, SessionNotFound)) && sessions == old(sessions) && cache == old(cache)
      ensures request.sessionId in old(sessions) && ParseTool(request.tool).None? ==>
        r == Failure(InvalidTool(request.tool)) && sessions == old(sessions) && cache == old(cache)
      ensures request.sessionId in old(sessions) && ParseTool(request.tool).Some? ==>
        var o := old(sessions[request.sessionId]).orchestrator;
        match ResultsFor(o.pillars, o.questions, o.questionScores, o.answerAnalyses, request.answers, narrate)
        case Failure(e) => r == Failure(e) && sessions == old(sessions) && cache == old(cache)
        case Success(results) =>
          var entry := CacheEntry(results, now + CacheExpiry, request.email, request.tool);
          var (sent, message) := SendAssessmentEmail(config, smtp);
          && r == Success(CompleteResponse(results, shareToken, sent, if sent then "Email sent successfully" else message))
          && cache == LiveCache(old(cache)[shareToken := entry], now)
          && sessions == LiveSessions(old(sessions) - {request.sessionId}, now)
      ensures r.Success? ==>
        shareToken in cache && cache[shareToken].expiresAt == now + 172800 && request.sessionId !in sessions
    {
      if request.sessionId !in sessions {
        return Failure(HttpError(404, SessionNotFound));
      }
      var orchestrator := sessions[request.sessionId].orchestrator;
      if ParseTool(request.tool).None? {
        return Failure(InvalidTool(request.tool));
      }
      var results := BuildResults(orchestrator, request.answers, narrate);
      if results.Failure? {
        return Failure(results.error);
      }
      cache := cache[shareToken := CacheEntry(results.value, now + CacheExpiry, request.email, request.tool)];
      CleanupExpiredCache(now);
      var (sent, message) := SendAssessmentEmail(config, smtp);
      sessions := sessions - {request.sessionId};
      CleanupExpiredSessions(now);
      r := Success(CompleteResponse(results.value, shareToken, sent, if sent then "Email sent successfully" else message));
    }
  }
}
