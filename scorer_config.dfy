/**
  The single-pillar rubric of the command-line scorer (src/repo_scorer/config.py): the
  fifteen questions of one repository tool share 100 points in proportion to their
  importance, rounded to hundredths, and whatever the rounding leaves over is put on the
  last question. Scores are integer hundredths (see Numbers).
*/
module ScorerConfig {
  import opened Numbers
  import opened Text

  /** RepositoryTool (src/repo_scorer/config.py:8-12). */
  datatype Tool = GitHub | GitLab | AzureDevOps

  function ToolValue(t: Tool): string {
    match t
    case GitHub => "github"
    case GitLab => "gitlab"
    case AzureDevOps => "azure_devops"
  }

  /** The display name: the tool's value with underscores as spaces, title-cased. */
  function ToolName(t: Tool): (name: string)
    ensures |name| == |ToolValue(t)|
  {
    Title(ReplaceChar(ToolValue(t), '_', ' '))
  }

  /** The display names, as they appear in the pillar names: "Github", "Gitlab" and "Azure Devops". */
  lemma GitHubName()
    ensures ToolName(GitHub) == "Github"
  {
  }

  lemma GitLabName()
    ensures ToolName(GitLab) == "Gitlab"
  {
  }

  lemma AzureDevOpsName()
    ensures ToolName(AzureDevOps) == "Azure Devops"
  {
  }

  /** A question's wording, by tool and position in that tool's list. */
  datatype Wording = Wording(tool: Tool, position: nat)

  /** The question texts of each tool, in list order. */
  function Texts(t: Tool): seq<string> {
    match t
    case GitHub => [
      "Are repositories organized using organizations and teams, with role-based access instead of individual permissions?",
      "Is branch protection enforced (mandatory PRs, minimum reviewers, status checks)?",
      "Are CODEOWNERS files used to automatically assign reviewers for critical paths?",
      "Are Pull Request templates standardized across repositories?",
      "Is signed commits or commit verification enforced?",
      "Are secrets prevented from being committed using GitHub secret scanning?",
      "Are repository visibility policies (public/internal/private) clearly defined and enforced?",
      "Is repository naming and structure standardized across the organization?",
      "Are GitHub Actions status checks mandatory before merge?",
      "Are stale branches automatically cleaned up after merge?",
      "Is monorepo vs multirepo strategy clearly defined and documented?",
      "Are forking policies clearly defined for internal and external contributors?",
      "Is repository archival managed for inactive or deprecated projects?",
      "Are security alerts (Dependabot, CodeQL) actively monitored and acted upon?",
      "Is repository activity (PR cycle time, merge frequency) measured and reviewed periodically?"
    ]
    case GitLab => [
      "Are repositories structured using groups and subgroups aligned to teams or products?",
      "Is merge request approval rules enforced based on branch and code area?",
      "Are protected branches configured with restricted push and merge permissions?",
      "Are merge request templates standardized and mandatory?",
      "Is commit signing or verification enabled?",
      "Are push rules configured to prevent secrets, large files, or invalid commits?",
      "Are code owners defined using CODEOWNERS for approval routing?",
      "Are repository access levels (Guest, Reporter, Developer, Maintainer) clearly governed?",
      "Are merge strategies (merge commit, squash, fast-forward) standardized?",
      "Are inactive branches and repositories automatically identified and cleaned up?",
      "Is monorepo vs multirepo guidance documented and followed?",
      "Are fork workflows governed for internal and external contributions?",
      "Are repository compliance checks enforced before merge?",
      "Are security scanning results reviewed before code promotion?",
      "Are repository KPIs (MR aging, review time, merge rate) tracked and improved?"
    ]
    case AzureDevOps => [
      "Are repositories organized using projects and teams aligned to delivery units?",
      "Are branch policies enforced (minimum reviewers, build validation, comment resolution)?",
      "Are path-based policies used for critical code areas?",
      "Are pull request templates standardized?",
      "Is commit history hygiene maintained (squash/rebase strategies)?",
      "Are service hooks or policies used to prevent secret leakage?",
      "Are repository permissions managed using Azure AD groups?",
      "Are naming conventions enforced for repos and branches?",
      "Are build validations mandatory before PR completion?",
      "Are stale branches periodically cleaned up?",
      "Is there a defined repo strategy for microservices vs monoliths?",
      "Are fork-based workflows governed for partners or vendors?",
      "Are repo policies audited regularly for compliance?",
      "Are security issues in repos tracked and remediated systematically?",
      "Are repository metrics (PR throughput, reviewer load) used for process improvement?"
    ]
  }

  /** One (question_text, importance) pair of a tool's list. */
  datatype Entry = Entry(text: Wording, importance: real)

  /** Question (src/repo_scorer/config.py:15-21); maxScore in hundredths. */
  datatype Question = Question(id: string, text: Wording, maxScore: int, importance: real)

  /** Pillar (src/repo_scorer/config.py:24-29), together with the key it is stored under. */
  datatype Pillar = Pillar(key: string, name: string, totalWeight: int, questions: seq<Question>)

  /** GITHUB_QUESTIONS (src/repo_scorer/config.py:35-51). */
  const GitHubQuestions: seq<Entry> := [
    Entry(Wording(GitHub, 0), 8.0),
    Entry(Wording(GitHub, 1), 10.0),
    Entry(Wording(GitHub, 2), 7.0),
    Entry(Wording(GitHub, 3), 5.0),
    Entry(Wording(GitHub, 4), 6.0),
    Entry(Wording(GitHub, 5), 10.0),
    Entry(Wording(GitHub, 6), 9.0),
    Entry(Wording(GitHub, 7), 4.0),
    Entry(Wording(GitHub, 8), 8.0),
    Entry(Wording(GitHub, 9), 3.0),
    Entry(Wording(GitHub, 10), 6.0),
    Entry(Wording(GitHub, 11), 5.0),
    Entry(Wording(GitHub, 12), 3.0),
    Entry(Wording(GitHub, 13), 9.0),
    Entry(Wording(GitHub, 14), 4.0)
  ]

  /** GITLAB_QUESTIONS (src/repo_scorer/config.py:56-72). */
  const GitLabQuestions: seq<Entry> := [
    Entry(Wording(GitLab, 0), 7.0),
    Entry(Wording(GitLab, 1), 9.0),
    Entry(Wording(GitLab, 2), 10.0),
    Entry(Wording(GitLab, 3), 5.0),
    Entry(Wording(GitLab, 4), 6.0),
    Entry(Wording(GitLab, 5), 10.0),
    Entry(Wording(GitLab, 6), 7.0),
    Entry(Wording(GitLab, 7), 8.0),
    Entry(Wording(GitLab, 8), 4.0),
    Entry(Wording(GitLab, 9), 3.0),
    Entry(Wording(GitLab, 10), 6.0),
    Entry(Wording(GitLab, 11), 5.0),
    Entry(Wording(GitLab, 12), 8.0),
    Entry(Wording(GitLab, 13), 9.0),
    Entry(Wording(GitLab, 14), 4.0)
  ]

  /** AZURE_DEVOPS_QUESTIONS (src/repo_scorer/config.py:77-93). */
  const AzureDevOpsQuestions: seq<Entry> := [
    Entry(Wording(AzureDevOps, 0), 7.0),
    Entry(Wording(AzureDevOps, 1), 10.0),
    Entry(Wording(AzureDevOps, 2), 8.0),
    Entry(Wording(AzureDevOps, 3), 5.0),
    Entry(Wording(AzureDevOps, 4), 4.0),
    Entry(Wording(AzureDevOps, 5), 10.0),
    Entry(Wording(AzureDevOps, 6), 8.0),
    Entry(Wording(AzureDevOps, 7), 3.0),
    Entry(Wording(AzureDevOps, 8), 9.0),
    Entry(Wording(AzureDevOps, 9), 3.0),
    Entry(Wording(AzureDevOps, 10), 6.0),
    Entry(Wording(AzureDevOps, 11), 5.0),
    Entry(Wording(AzureDevOps, 12), 7.0),
    Entry(Wording(AzureDevOps, 13), 9.0),
    Entry(Wording(AzureDevOps, 14), 4.0)
  ]

  /** Every importance is positive and there is at least one question. */
  predicate Positive(entries: seq<Entry>) {
    |entries| > 0 && forall k :: 0 <= k < |entries| ==> entries[k].importance > 0.0
  }

  /** tool_questions_map (src/repo_scorer/config.py:106-112). */
  function Catalog(t: Tool): (entries: seq<Entry>)
    ensures Positive(entries) && |entries| == 15
    ensures forall k :: 0 <= k < |entries| ==> entries[k].text == Wording(t, k)
  {
    match t
    case GitHub => GitHubQuestions
    case GitLab => GitLabQuestions
    case AzureDevOps => AzureDevOpsQuestions
  }

  function Importances(entries: seq<Entry>): (r: seq<real>)
    ensures |r| == |entries|
  {
    seq(|entries|, k requires 0 <= k < |entries| => entries[k].importance)
  }

  /** total_importance: the sum of the list's importances. */
  function TotalImportance(entries: seq<Entry>): (total: real)
    requires Positive(entries)
    ensures total > 0.0
  {
    RealSumPositive(Importances(entries));
    RealSum(Importances(entries))
  }

  /** The question id of the i-th entry (counting from 0): the tool value and i + 1. */
  function QuestionId(toolValue: string, i: nat): string {
    toolValue + "_" + NatToString(i + 1)
  }

  /** The questions before adjustment: each gets its importance's share of 100 points. */
  function InitialQuestions(toolValue: string, entries: seq<Entry>): (qs: seq<Question>)
    requires Positive(entries)
    ensures |qs| == |entries|
  {
    seq(|entries|, i requires 0 <= i < |entries| =>
      Question(QuestionId(toolValue, i), entries[i].text,
               Round2(Share(entries[i].importance, TotalImportance(entries), 100.0)),
               entries[i].importance))
  }

  function Scores(qs: seq<Question>): (r: seq<int>)
    ensures |r| == |qs|
  {
    seq(|qs|, k requires 0 <= k < |qs| => qs[k].maxScore)
  }

  /** The adjustment fires when the rounded scores miss 100 points by more than 0.01. */
  predicate NeedsAdjustment(qs: seq<Question>)
    ensures NeedsAdjustment(qs) <==> Sum(Scores(qs)) < FullMarks - 1 || FullMarks + 1 < Sum(Scores(qs))
  {
    Abs(Sum(Scores(qs)) - FullMarks) > 1
  }

  /** The question list after the adjustment of the last question. */
  function Adjusted(qs: seq<Question>): (r: seq<Question>)
    requires |qs| > 0
    ensures |r| == |qs|
  {
    if NeedsAdjustment(qs) then
      var last := qs[|qs| - 1];
      qs[|qs| - 1 := last.(maxScore := last.maxScore + (FullMarks - Sum(Scores(qs))))]
    else
      qs
  }

  /** The adjustment touches the last question's score and nothing else. */
  lemma AdjustedChangesOnlyLast(qs: seq<Question>)
    requires |qs| > 0
    ensures forall k :: 0 <= k < |qs| - 1 ==> Adjusted(qs)[k] == qs[k]
    ensures Adjusted(qs)[|qs| - 1] == qs[|qs| - 1].(maxScore := Adjusted(qs)[|qs| - 1].maxScore)
    ensures !NeedsAdjustment(qs) ==> Adjusted(qs) == qs
  {
  }

  /**
    After the adjustment the scores total 100 points to within 0.01, and exactly 100 points
    whenever the adjustment fired.
  */
  lemma AdjustedTotal(qs: seq<Question>)
    requires |qs| > 0
    ensures Abs(Sum(Scores(Adjusted(qs))) - FullMarks) <= 1
    ensures NeedsAdjustment(qs) ==> Sum(Scores(Adjusted(qs))) == FullMarks
  {
    if NeedsAdjustment(qs) {
      var n := |qs| - 1;
      var v := qs[n].maxScore + (FullMarks - Sum(Scores(qs)));
      assert Scores(Adjusted(qs)) == Scores(qs)[n := v];
      SumUpdate(Scores(qs), n, v);
    }
  }

  /**
    Before adjustment the rounded scores miss 100 points by at most half a hundredth per
    question, so for fifteen questions the adjustment moves at most 0.07 points.
  */
  lemma InitialDrift(toolValue: string, entries: seq<Entry>)
    requires Positive(entries)
    ensures 2 * Abs(Sum(Scores(InitialQuestions(toolValue, entries))) - FullMarks) <= |entries|
  {
    var total := TotalImportance(entries);
    var qs := InitialQuestions(toolValue, entries);
    var xs := Shares(Importances(entries), total, 100.0);
    RoundedSumDrift(xs, Scores(qs));
    SharesSum(Importances(entries), total, 100.0);
    ShareOfWhole(total, 100.0);
  }

  /** The i-th question is numbered i + 1, keeps its wording and importance, and scores its share. */
  lemma InitialQuestionAt(toolValue: string, entries: seq<Entry>, i: nat)
    requires Positive(entries) && i < |entries|
    ensures var q := InitialQuestions(toolValue, entries)[i];
      q.id == QuestionId(toolValue, i) && q.text == entries[i].text && q.importance == entries[i].importance
      && q.maxScore == Round2(Share(q.importance, TotalImportance(entries), 100.0))
  {
  }

  /** Scores are never negative and a more important question never scores less. */
  lemma {:induction false} InitialScoresOrdered(toolValue: string, entries: seq<Entry>, i: nat, j: nat)
    requires Positive(entries) && i < |entries| && j < |entries|
    ensures InitialQuestions(toolValue, entries)[i].maxScore >= 0
    ensures entries[i].importance <= entries[j].importance ==>
      InitialQuestions(toolValue, entries)[i].maxScore <= InitialQuestions(toolValue, entries)[j].maxScore
  {
    var total := TotalImportance(entries);
    var si := Share(entries[i].importance, total, 100.0);
    var sj := Share(entries[j].importance, total, 100.0);
    assert 0.0 <= si;
    Round2NonNegative(si);
    if entries[i].importance <= entries[j].importance {
      assert si <= sj;
      Round2Monotone(si, sj);
    }
  }

  /** Distinct positions give distinct question ids. */
  lemma QuestionIdsDistinct(toolValue: string, i: nat, j: nat)
    requires i != j
    ensures QuestionId(toolValue, i) != QuestionId(toolValue, j)
  {
    NatToStringInjective(i + 1, j + 1);
    var p := |toolValue| + 1;
    assert QuestionId(toolValue, i)[p..] == NatToString(i + 1);
    assert QuestionId(toolValue, j)[p..] == NatToString(j + 1);
  }

  /** The single pillar for one tool: get_questions_for_tool's return value. */
  method GetQuestionsForTool(tool: Tool) returns (pillars: seq<Pillar>)
    ensures |pillars| == 1
    ensures pillars[0].key == ToolValue(tool) + "_specific"
    ensures pillars[0].name == ToolName(tool) + " - Repository & Code Management"
    ensures pillars[0].totalWeight == FullMarks
    ensures pillars[0].questions == Adjusted(InitialQuestions(ToolValue(tool), Catalog(tool)))
  {
    var entries := Catalog(tool);
    var questions := InitialQuestions(ToolValue(tool), entries);
    var total := Sum(Scores(questions));
    if Abs(total - FullMarks) > 1 {
      var last := questions[|questions| - 1];
      questions := questions[|questions| - 1 := last.(maxScore := last.maxScore + (FullMarks - total))];
    }
    pillars := [Pillar(ToolValue(tool) + "_specific", ToolName(tool) + " - Repository & Code Management",
                       FullMarks, questions)];
  }

  /** A tool's rubric has fifteen questions worth 100 points, to within 0.01, in list order. */
  lemma ToolRubric(tool: Tool)
    ensures var qs := Adjusted(InitialQuestions(ToolValue(tool), Catalog(tool)));
      |qs| == 15 && Abs(Sum(Scores(qs)) - FullMarks) <= 1
      && forall k :: 0 <= k < 15 ==> qs[k].id == QuestionId(ToolValue(tool), k) && qs[k].text == Wording(tool, k)
  {
    var qs := InitialQuestions(ToolValue(tool), Catalog(tool));
    AdjustedTotal(qs);
    AdjustedChangesOnlyLast(qs);
  }

  /** (pillar key, question, pillar name) for every question, pillar by pillar. */
  function Flatten(ps: seq<Pillar>): seq<(string, Question, string)> {
    if ps == [] then []
    else
      var p := ps[|ps| - 1];
      Flatten(ps[..|ps| - 1]) + seq(|p.questions|, m requires 0 <= m < |p.questions| => (p.key, p.questions[m], p.name))
  }

  /** A single pillar flattens to its own questions, in order, each tagged with the pillar. */
  lemma FlattenSingle(p: Pillar)
    ensures |Flatten([p])| == |p.questions|
    ensures forall m :: 0 <= m < |p.questions| ==> Flatten([p])[m] == (p.key, p.questions[m], p.name)
  {
    assert [p][..0] == [];
  }

  /** get_all_questions (src/repo_scorer/config.py:148-154). */
  method GetAllQuestions(ps: seq<Pillar>) returns (questions: seq<(string, Question, string)>)
    ensures questions == Flatten(ps)
  {
    questions := [];
    var j := 0;
    while j < |ps|
      invariant 0 <= j <= |ps|
      invariant questions == Flatten(ps[..j])
    {
      var p := ps[j];
      var m := 0;
      while m < |p.questions|
        invariant 0 <= m <= |p.questions|
        invariant questions == Flatten(ps[..j]) + seq(m, x requires 0 <= x < m => (p.key, p.questions[x], p.name))
      {
        questions := questions + [(p.key, p.questions[m], p.name)];
        m := m + 1;
      }
      assert ps[..j + 1][..j] == ps[..j];
      j := j + 1;
    }
    assert ps[..|ps|] == ps;
  }
}
