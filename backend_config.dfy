/**
  Weight distribution of the backend (backend/config.py): catalog importances become a
  100-point rubric, either flat (pillar share of the whole, then question share of the
  pillar) or hierarchical (category, then pillar, then question), and a one-shot
  reconciliation moves the rounding remainder onto one question. Scores are hundredths.
*/
module BackendConfig {
  import opened Numbers
  import opened Text
  import opened Grouping
  import opened BackendCatalog

  /** A question of the rubric; maxScore in hundredths. */
  datatype Question = Question(id: string, text: TextRef, maxScore: int, importance: real, pillar: PillarTag)

  /** One entry of the returned dictionary: its key `tag`, display name, weight and questions. */
  datatype Pillar = Pillar(tag: PillarTag, name: string, totalWeight: int, questions: seq<Question>)

  /** A catalog entry after it has been given its question id. */
  datatype Tagged = Tagged(id: string, entry: CatalogEntry)

  // ---------------------------------------------------------------------------------------
  // Shared building blocks

  function Tags(items: seq<Tagged>): (tags: seq<PillarTag>)
    ensures |tags| == |items|
    ensures forall k :: 0 <= k < |items| ==> tags[k] == items[k].entry.pillar
  {
    seq(|items|, k requires 0 <= k < |items| => items[k].entry.pillar)
  }

  predicate PositiveImportances(items: seq<Tagged>) {
    forall k :: 0 <= k < |items| ==> items[k].entry.importance > 0.0
  }

  function ImportancesAt(items: seq<Tagged>, ms: seq<nat>): (r: seq<real>)
    requires forall i :: 0 <= i < |ms| ==> ms[i] < |items|
    ensures |r| == |ms|
  {
    seq(|ms|, i requires 0 <= i < |ms| => items[ms[i]].entry.importance)
  }

  /** The summed importance of the questions grouped under tag t. */
  function PillarImportance(items: seq<Tagged>, t: PillarTag): real {
    RealSum(ImportancesAt(items, Members(Tags(items), t)))
  }

  lemma PillarImportancePositive(items: seq<Tagged>, t: PillarTag)
    requires PositiveImportances(items)
    requires t in PillarOrder(Tags(items))
    ensures PillarImportance(items, t) > 0.0
  {
    PillarOrderExact(Tags(items));
    MembersNonEmpty(Tags(items), t);
    RealSumPositive(ImportancesAt(items, Members(Tags(items), t)));
  }

  lemma OrderedPillarsPositive(items: seq<Tagged>)
    requires PositiveImportances(items)
    ensures forall t :: t in PillarOrder(Tags(items)) ==> PillarImportance(items, t) > 0.0
  {
    forall t | t in PillarOrder(Tags(items)) ensures PillarImportance(items, t) > 0.0 {
      PillarImportancePositive(items, t);
    }
  }

  /** One rubric question: importance / pillar importance × pillar weight, rounded to hundredths. */
  function QuestionFor(item: Tagged, pillarImportance: real, pillarWeight: real): Question
    requires pillarImportance != 0.0
  {
    Question(item.id, item.entry.text, Round2(Share(item.entry.importance, pillarImportance, pillarWeight)),
             item.entry.importance, item.entry.pillar)
  }

  /** The questions of the pillar tagged t, given the pillar's weight in points. */
  function PillarQuestions(items: seq<Tagged>, t: PillarTag, weight: real): (qs: seq<Question>)
    requires PillarImportance(items, t) != 0.0
    ensures |qs| == |Members(Tags(items), t)|
  {
    var ms := Members(Tags(items), t);
    seq(|ms|, m requires 0 <= m < |ms| => QuestionFor(items[ms[m]], PillarImportance(items, t), weight))
  }

  function Scores(qs: seq<Question>): (r: seq<int>)
    ensures |r| == |qs|
  {
    seq(|qs|, m requires 0 <= m < |qs| => qs[m].maxScore)
  }

  function Weights(ps: seq<Pillar>): (r: seq<int>)
    ensures |r| == |ps|
  {
    seq(|ps|, j requires 0 <= j < |ps| => ps[j].totalWeight)
  }

  /** Every pillar's total_weight is the sum of its questions' max scores. */
  predicate Consistent(ps: seq<Pillar>) {
    forall j :: 0 <= j < |ps| ==> ps[j].totalWeight == Sum(Scores(ps[j].questions))
  }

  /** One pillar: its tag and name, one question per item carrying the tag, weighing their sum. */
  function BuildPillar(items: seq<Tagged>, t: PillarTag, weight: real): (p: Pillar)
    requires PillarImportance(items, t) != 0.0
    ensures p.tag == t && p.name == PillarName(t)
    ensures |p.questions| == |Members(Tags(items), t)|
    ensures p.totalWeight == Sum(Scores(p.questions))
  {
    var qs := PillarQuestions(items, t, weight);
    Pillar(t, PillarName(t), Sum(Scores(qs)), qs)
  }

  /**
    The rounded allocation before reconciliation: one pillar per tag in order of first
    appearance, pillar j weighing weights[j] points.
  */
  function Allocate(items: seq<Tagged>, weights: seq<real>): (ps: seq<Pillar>)
    requires PositiveImportances(items)
    requires |weights| == |PillarOrder(Tags(items))|
    ensures |ps| == |weights|
    ensures Consistent(ps)
  {
    var order := PillarOrder(Tags(items));
    OrderedPillarsPositive(items);
    PillarOrderExact(Tags(items));
    forall t | t in order ensures |Members(Tags(items), t)| > 0 {
      MembersNonEmpty(Tags(items), t);
    }
    seq(|order|, j requires 0 <= j < |order| => BuildPillar(items, order[j], weights[j]))
  }

  /**
    Pillar j of the allocation is the group of its tag: it carries the tag and its name, and
    its m-th question is built from the m-th item of that group with the pillar's importance
    total (never zero) and weight.
  */
  lemma AllocatedQuestion(items: seq<Tagged>, weights: seq<real>, j: nat, m: nat)
    requires PositiveImportances(items)
    requires |weights| == |PillarOrder(Tags(items))|
    requires j < |weights|
    requires m < |Allocate(items, weights)[j].questions|
    ensures var t := PillarOrder(Tags(items))[j];
      && Allocate(items, weights)[j].tag == t
      && PillarImportance(items, t) > 0.0
      && m < |Members(Tags(items), t)|
      && Allocate(items, weights)[j].questions[m]
         == QuestionFor(items[Members(Tags(items), t)[m]], PillarImportance(items, t), weights[j])
  {
    var t := PillarOrder(Tags(items))[j];
    PillarOrderExact(Tags(items));
    PillarImportancePositive(items, t);
  }

  /**
    Every catalog item has a place in the allocation: a question of the pillar named by the
    item's tag, built from that item (same id, text and importance). Grouping.GroupsDisjoint
    shows no two places share an item, and AllocationQuestionCount that there are no others.
  */
  lemma AllocationPlacesEachItem(items: seq<Tagged>, weights: seq<real>, k: nat)
    requires PositiveImportances(items)
    requires |weights| == |PillarOrder(Tags(items))|
    requires k < |items|
    ensures var ps := Allocate(items, weights);
      exists j, m :: 0 <= j < |ps| && 0 <= m < |ps[j].questions|
        && ps[j].tag == items[k].entry.pillar
        && Members(Tags(items), ps[j].tag)[m] == k
        && ps[j].questions[m].id == items[k].id
        && ps[j].questions[m].text == items[k].entry.text
        && ps[j].questions[m].importance == items[k].entry.importance
  {
    var ps := Allocate(items, weights);
    var tags := Tags(items);
    var order := PillarOrder(tags);
    PillarOrderExact(tags);
    var t := items[k].entry.pillar;
    assert tags[k] == t;
    assert t in order;
    var j :| 0 <= j < |order| && order[j] == t;
    MembersExact(tags, t);
    assert k in Members(tags, t);
    var m :| 0 <= m < |Members(tags, t)| && Members(tags, t)[m] == k;
    AllocatedQuestion(items, weights, j, m);
  }

  /** Together the pillars hold exactly as many questions as there are catalog items. */
  lemma AllocationQuestionCount(items: seq<Tagged>, weights: seq<real>)
    requires PositiveImportances(items)
    requires |weights| == |PillarOrder(Tags(items))|
    ensures Sum(QuestionCounts(Allocate(items, weights))) == |items|
  {
    var ps := Allocate(items, weights);
    GroupSizesSum(Tags(items));
    assert QuestionCounts(ps) == GroupSizes(Tags(items), PillarOrder(Tags(items)));
  }

  function QuestionCounts(ps: seq<Pillar>): (r: seq<int>)
    ensures |r| == |ps|
  {
    seq(|ps|, j requires 0 <= j < |ps| => |ps[j].questions|)
  }

  /** The two-step share collapses: importance / P × (P / T × 100) is importance / T × 100. */
  lemma TwoStepShare(importance: real, pillarImportance: real, total: real)
    requires pillarImportance > 0.0 && total > 0.0
    ensures Share(importance, pillarImportance, Share(pillarImportance, total, 100.0)) == Share(importance, total, 100.0)
  {
    var a := importance / pillarImportance;
    assert a * pillarImportance == importance;
    calc {
      a * (pillarImportance / total * 100.0);
      (a * pillarImportance) / total * 100.0;
      importance / total * 100.0;
    }
  }

  /** Rounded shares are ordered as the importances are, and never negative. */
  lemma ShareMonotone(imp1: real, imp2: real, pillarImportance: real, weight: real)
    requires 0.0 < imp1 <= imp2 && pillarImportance > 0.0 && weight >= 0.0
    ensures 0 <= Round2(Share(imp1, pillarImportance, weight)) <= Round2(Share(imp2, pillarImportance, weight))
  {
    var a1, a2 := imp1 / pillarImportance, imp2 / pillarImportance;
    assert 0.0 < a1 <= a2;
    assert 0.0 <= a1 * weight <= a2 * weight by {
      assert a2 * weight - a1 * weight == (a2 - a1) * weight;
    }
    Round2NonNegative(a1 * weight);
    Round2Monotone(a1 * weight, a2 * weight);
  }

  /** A question scored against its pillar's two-step weight scores its share of the whole. */
  lemma ScoreCollapses(q: Question, item: Tagged, pillarImportance: real, weight: real, total: real)
    requires pillarImportance > 0.0 && total > 0.0
    requires weight == Share(pillarImportance, total, 100.0)
    requires q == QuestionFor(item, pillarImportance, weight)
    ensures q.maxScore == Round2(Share(q.importance, total, 100.0))
  {
    TwoStepShare(item.entry.importance, pillarImportance, total);
  }

  /** Two scores that are shares of the same total are ordered as their importances. */
  lemma SharesOrdered(s1: int, s2: int, imp1: real, imp2: real, total: real)
    requires imp1 > 0.0 && total > 0.0
    requires s1 == Round2(Share(imp1, total, 100.0)) && s2 == Round2(Share(imp2, total, 100.0))
    ensures 0 <= s1 && (imp1 <= imp2 ==> s1 <= s2)
  {
    if imp1 <= imp2 {
      ShareMonotone(imp1, imp2, total, 100.0);
    } else {
      ShareMonotone(imp1, imp1, total, 100.0);
    }
  }

  // ---------------------------------------------------------------------------------------
  // Flat variant: get_questions_for_tool

  /** Catalog entries numbered prefix1, prefix2, … by input position. */
  function NumberedItems(prefix: string, catalog: seq<CatalogEntry>): (items: seq<Tagged>)
    ensures |items| == |catalog|
    ensures WellFormed(catalog) ==> PositiveImportances(items) && |items| > 0
  {
    seq(|catalog|, k requires 0 <= k < |catalog| => Tagged(prefix + NatToString(k + 1), catalog[k]))
  }

  /** Pillar importance totals, in key order (pillar_importance_totals). */
  function PillarImportances(items: seq<Tagged>): (r: seq<real>)
    ensures |r| == |PillarOrder(Tags(items))|
  {
    var order := PillarOrder(Tags(items));
    seq(|order|, j requires 0 <= j < |order| => PillarImportance(items, order[j]))
  }

  /** total_all_importance: the sum of the pillar totals, positive for a non-empty catalog. */
  function FlatTotal(items: seq<Tagged>): (total: real)
    requires PositiveImportances(items) && |items| > 0
    ensures total > 0.0
  {
    var order := PillarOrder(Tags(items));
    PillarOrderExact(Tags(items));
    assert Tags(items)[0] in order;
    OrderedPillarsPositive(items);
    RealSumPositive(PillarImportances(items));
    RealSum(PillarImportances(items))
  }

  /** pillar_target_weights: each pillar's importance over the sum of all pillar importances, × 100. */
  function FlatWeights(items: seq<Tagged>): (ws: seq<real>)
    requires PositiveImportances(items) && |items| > 0
    ensures |ws| == |PillarOrder(Tags(items))|
    ensures RealSum(ws) == 100.0
  {
    var totals := PillarImportances(items);
    assert seq(|totals|, j requires 0 <= j < |totals| => Share(totals[j], FlatTotal(items), 100.0))
        == Shares(totals, FlatTotal(items), 100.0);
    SharesSum(totals, FlatTotal(items), 100.0);
    ShareOfWhole(FlatTotal(items), 100.0);
    seq(|totals|, j requires 0 <= j < |totals| => Share(totals[j], FlatTotal(items), 100.0))
  }

  /**
    The flat allocation, unreconciled; every pillar has a question, so reconciliation can run,
    and every pillar weighs the sum of its questions.
  */
  function FlatAllocation(items: seq<Tagged>): (ps: seq<Pillar>)
    requires PositiveImportances(items) && |items| > 0
    ensures |ps| == |PillarOrder(Tags(items))|
    ensures Reconcilable(ps) && Consistent(ps)
  {
    AllocationReconcilable(items, FlatWeights(items));
    Allocate(items, FlatWeights(items))
  }

  /** The tool's items: ids `toolValue_1`, `toolValue_2`, … by catalog position. */
  function ToolItems(toolValue: string, catalog: seq<CatalogEntry>): (items: seq<Tagged>)
    ensures |items| == |catalog|
    ensures WellFormed(catalog) ==> PositiveImportances(items) && |items| > 0
  {
    NumberedItems(toolValue + "_", catalog)
  }

  /**
    In the flat allocation every question's score is its importance's share of the whole
    catalog, round2(importance / Σ importance × 100): the pillar step cancels out.
  */
  lemma FlatScoreIsGlobalShare(items: seq<Tagged>, j: nat, m: nat)
    requires PositiveImportances(items) && |items| > 0
    requires j < |FlatAllocation(items)|
    requires m < |FlatAllocation(items)[j].questions|
    ensures var q := FlatAllocation(items)[j].questions[m];
      q.importance > 0.0 && q.maxScore == Round2(Share(q.importance, FlatTotal(items), 100.0))
  {
    var t := PillarOrder(Tags(items))[j];
    AllocatedQuestion(items, FlatWeights(items), j, m);
    assert FlatAllocation(items) == Allocate(items, FlatWeights(items));
    var q := FlatAllocation(items)[j].questions[m];
    var item := items[Members(Tags(items), t)[m]];
    var p := PillarImportance(items, t);
    var w := FlatWeights(items)[j];
    assert q == QuestionFor(item, p, w);
    assert w == Share(p, FlatTotal(items), 100.0);
    ScoreCollapses(q, item, p, w, FlatTotal(items));
  }

  /**
    Scores across the whole flat rubric are ordered as the importances are, whichever
    pillars the two questions sit in, and none is negative.
  */
  lemma FlatScoresOrdered(items: seq<Tagged>, j1: nat, m1: nat, j2: nat, m2: nat)
    requires PositiveImportances(items) && |items| > 0
    requires j1 < |FlatAllocation(items)| && m1 < |FlatAllocation(items)[j1].questions|
    requires j2 < |FlatAllocation(items)| && m2 < |FlatAllocation(items)[j2].questions|
    ensures var q1, q2 := FlatAllocation(items)[j1].questions[m1], FlatAllocation(items)[j2].questions[m2];
      0 <= q1.maxScore && (q1.importance <= q2.importance ==> q1.maxScore <= q2.maxScore)
  {
    var q1, q2 := FlatAllocation(items)[j1].questions[m1], FlatAllocation(items)[j2].questions[m2];
    FlatScoreIsGlobalShare(items, j1, m1);
    FlatScoreIsGlobalShare(items, j2, m2);
    SharesOrdered(q1.maxScore, q2.maxScore, q1.importance, q2.importance, FlatTotal(items));
  }

  // ---------------------------------------------------------------------------------------
  // Hierarchical variant: get_questions_for_platforms

  datatype Category = Repository | Cicd | Deployment

  /** The three selected catalogs, as the shipped ones are. */
  predicate WellFormedCatalogs(repo: seq<CatalogEntry>, cicd: seq<CatalogEntry>, deploy: seq<CatalogEntry>) {
    WellFormed(repo) && WellFormed(cicd) && WellFormed(deploy)
  }

  /** repo_1.., then cicd_1.., then deploy_1.., the counter restarting per category. */
  function PlatformItems(repo: seq<CatalogEntry>, cicd: seq<CatalogEntry>, deploy: seq<CatalogEntry>): (items: seq<Tagged>)
    ensures |items| == |repo| + |cicd| + |deploy|
  {
    NumberedItems("repo_", repo) + NumberedItems("cicd_", cicd) + NumberedItems("deploy_", deploy)
  }

  /** The category a pillar belongs to, read off its first question's id prefix. */
  function CategoryOfId(id: string): Category {
    if StartsWith(id, "repo_") then Repository
    else if StartsWith(id, "cicd_") then Cicd
    else Deployment
  }

  /** Ids carry their category: the prefix test recovers the catalog a question came from. */
  lemma NumberedIdCategory(n: nat)
    ensures CategoryOfId("repo_" + NatToString(n)) == Repository
    ensures CategoryOfId("cicd_" + NatToString(n)) == Cicd
    ensures CategoryOfId("deploy_" + NatToString(n)) == Deployment
  {
    var s := NatToString(n);
    assert ("repo_" + s)[..5] == "repo_";
    assert ("cicd_" + s)[..5] == "cicd_";
    assert ("deploy_" + s)[0] == 'd';
  }

  function CatalogImportance(catalog: seq<CatalogEntry>): real {
    RealSum(seq(|catalog|, k requires 0 <= k < |catalog| => catalog[k].importance))
  }

  function CategoryCatalog(repo: seq<CatalogEntry>, cicd: seq<CatalogEntry>, deploy: seq<CatalogEntry>, cat: Category)
    : seq<CatalogEntry>
  {
    match cat
    case Repository => repo
    case Cicd => cicd
    case Deployment => deploy
  }

  /** repo_importance, cicd_importance, deploy_importance. */
  function CategoryImportance(repo: seq<CatalogEntry>, cicd: seq<CatalogEntry>, deploy: seq<CatalogEntry>, cat: Category)
    : (v: real)
    requires WellFormedCatalogs(repo, cicd, deploy)
    ensures v > 0.0
  {
    var catalog := CategoryCatalog(repo, cicd, deploy, cat);
    var imps := seq(|catalog|, k requires 0 <= k < |catalog| => catalog[k].importance);
    RealSumPositive(imps);
    RealSum(imps)
  }

  function ItemImportances(items: seq<Tagged>): (r: seq<real>)
    ensures |r| == |items|
  {
    seq(|items|, k requires 0 <= k < |items| => items[k].entry.importance)
  }

  lemma NumberedImportances(prefix: string, catalog: seq<CatalogEntry>)
    ensures RealSum(ItemImportances(NumberedItems(prefix, catalog))) == CatalogImportance(catalog)
  {
    assert ItemImportances(NumberedItems(prefix, catalog))
        == seq(|catalog|, k requires 0 <= k < |catalog| => catalog[k].importance);
  }

  /** total_importance: Σ importance over all the selected questions. */
  function PlatformImportance(repo: seq<CatalogEntry>, cicd: seq<CatalogEntry>, deploy: seq<CatalogEntry>): (v: real)
    requires WellFormedCatalogs(repo, cicd, deploy)
    ensures v > 0.0
  {
    var imps := ItemImportances(PlatformItems(repo, cicd, deploy));
    PlatformItemsPositive(repo, cicd, deploy);
    RealSumPositive(imps);
    RealSum(imps)
  }

  /** The total is the three category importances added (each catalog lies in one category). */
  lemma PlatformImportanceSplits(repo: seq<CatalogEntry>, cicd: seq<CatalogEntry>, deploy: seq<CatalogEntry>)
    requires WellFormedCatalogs(repo, cicd, deploy)
    ensures PlatformImportance(repo, cicd, deploy) == CategoryImportance(repo, cicd, deploy, Repository)
      + CategoryImportance(repo, cicd, deploy, Cicd) + CategoryImportance(repo, cicd, deploy, Deployment)
  {
    var a := ItemImportances(NumberedItems("repo_", repo));
    var b := ItemImportances(NumberedItems("cicd_", cicd));
    var e := ItemImportances(NumberedItems("deploy_", deploy));
    assert ItemImportances(PlatformItems(repo, cicd, deploy)) == a + b + e;
    RealSumAppend(a + b, e);
    RealSumAppend(a, b);
    NumberedImportances("repo_", repo);
    NumberedImportances("cicd_", cicd);
    NumberedImportances("deploy_", deploy);
  }

  /** category_weights[cat]: the category's importance over the total, × 100. */
  function CategoryWeight(repo: seq<CatalogEntry>, cicd: seq<CatalogEntry>, deploy: seq<CatalogEntry>, cat: Category): real
    requires WellFormedCatalogs(repo, cicd, deploy)
  {
    Share(CategoryImportance(repo, cicd, deploy, cat), PlatformImportance(repo, cicd, deploy), 100.0)
  }

  /** The three category weights add up to exactly 100 points. */
  lemma CategoryWeightsSum(repo: seq<CatalogEntry>, cicd: seq<CatalogEntry>, deploy: seq<CatalogEntry>)
    requires WellFormedCatalogs(repo, cicd, deploy)
    ensures CategoryWeight(repo, cicd, deploy, Repository) + CategoryWeight(repo, cicd, deploy, Cicd)
      + CategoryWeight(repo, cicd, deploy, Deployment) == 100.0
  {
    var a := CategoryImportance(repo, cicd, deploy, Repository);
    var b := CategoryImportance(repo, cicd, deploy, Cicd);
    var e := CategoryImportance(repo, cicd, deploy, Deployment);
    var t := PlatformImportance(repo, cicd, deploy);
    PlatformImportanceSplits(repo, cicd, deploy);
    calc {
      a / t * 100.0 + b / t * 100.0 + e / t * 100.0;
      (a + b + e) / t * 100.0;
      { assert (a + b + e) / t == 1.0; }
      100.0;
    }
  }

  /** The category of the pillar tagged t: that of its first question. */
  function PillarCategory(items: seq<Tagged>, t: PillarTag): Category
    requires t in PillarOrder(Tags(items))
  {
    PillarOrderExact(Tags(items));
    MembersNonEmpty(Tags(items), t);
    CategoryOfId(items[Members(Tags(items), t)[0]].id)
  }

  /** pillar_weight: the pillar's share of its category's importance, × the category weight. */
  function PlatformWeights(repo: seq<CatalogEntry>, cicd: seq<CatalogEntry>, deploy: seq<CatalogEntry>): (ws: seq<real>)
    requires WellFormedCatalogs(repo, cicd, deploy)
    ensures |ws| == |PillarOrder(Tags(PlatformItems(repo, cicd, deploy)))|
  {
    var order := PillarOrder(Tags(PlatformItems(repo, cicd, deploy)));
    seq(|order|, j requires 0 <= j < |order| => PillarWeight(repo, cicd, deploy, order[j]))
  }

  /** pillar_weight for the pillar tagged t. */
  function PillarWeight(repo: seq<CatalogEntry>, cicd: seq<CatalogEntry>, deploy: seq<CatalogEntry>, t: PillarTag): (w: real)
    requires WellFormedCatalogs(repo, cicd, deploy)
    requires t in PillarOrder(Tags(PlatformItems(repo, cicd, deploy)))
    ensures w > 0.0
  {
    var items := PlatformItems(repo, cicd, deploy);
    var cat := PillarCategory(items, t);
    var pi, ci, cw := PillarImportance(items, t), CategoryImportance(repo, cicd, deploy, cat), CategoryWeight(repo, cicd, deploy, cat);
    PlatformItemsPositive(repo, cicd, deploy);
    PillarImportancePositive(items, t);
    SharePositive(ci, PlatformImportance(repo, cicd, deploy), 100.0);
    SharePositive(pi, ci, cw);
    Share(pi, ci, cw)
  }

  /** PillarWeight unfolded, for proofs whose context is too large to unfold it themselves. */
  lemma PillarWeightValue(repo: seq<CatalogEntry>, cicd: seq<CatalogEntry>, deploy: seq<CatalogEntry>, t: PillarTag)
    requires WellFormedCatalogs(repo, cicd, deploy)
    requires t in PillarOrder(Tags(PlatformItems(repo, cicd, deploy)))
    ensures PillarWeight(repo, cicd, deploy, t)
      == Share(PillarImportance(PlatformItems(repo, cicd, deploy), t),
               CategoryImportance(repo, cicd, deploy, PillarCategory(PlatformItems(repo, cicd, deploy), t)),
               CategoryWeight(repo, cicd, deploy, PillarCategory(PlatformItems(repo, cicd, deploy), t)))
  {
  }

  lemma PlatformItemsPositive(repo: seq<CatalogEntry>, cicd: seq<CatalogEntry>, deploy: seq<CatalogEntry>)
    requires WellFormedCatalogs(repo, cicd, deploy)
    ensures PositiveImportances(PlatformItems(repo, cicd, deploy))
  {
    var items := PlatformItems(repo, cicd, deploy);
    forall k | 0 <= k < |items| ensures items[k].entry.importance > 0.0 {
      if k < |repo| {
        assert items[k].entry == repo[k];
      } else if k < |repo| + |cicd| {
        assert items[k].entry == cicd[k - |repo|];
      } else {
        assert items[k].entry == deploy[k - |repo| - |cicd|];
      }
    }
  }

  /**
    The hierarchical allocation, unreconciled; reconciliation can run on it, and every pillar
    weighs the sum of its questions.
  */
  function PlatformAllocation(repo: seq<CatalogEntry>, cicd: seq<CatalogEntry>, deploy: seq<CatalogEntry>)
    : (ps: seq<Pillar>)
    requires WellFormedCatalogs(repo, cicd, deploy)
    ensures |ps| == |PillarOrder(Tags(PlatformItems(repo, cicd, deploy)))|
    ensures Reconcilable(ps) && Consistent(ps)
  {
    PlatformItemsPositive(repo, cicd, deploy);
    AllocationReconcilable(PlatformItems(repo, cicd, deploy), PlatformWeights(repo, cicd, deploy));
    Allocate(PlatformItems(repo, cicd, deploy), PlatformWeights(repo, cicd, deploy))
  }

  /** The category a question of the hierarchical allocation came from, by its input position. */
  function CategoryOfPosition(repo: seq<CatalogEntry>, cicd: seq<CatalogEntry>, k: nat): Category {
    if k < |repo| then Repository else if k < |repo| + |cicd| then Cicd else Deployment
  }

  lemma PlatformItemCategory(repo: seq<CatalogEntry>, cicd: seq<CatalogEntry>, deploy: seq<CatalogEntry>, k: nat)
    requires k < |repo| + |cicd| + |deploy|
    ensures CategoryOfId(PlatformItems(repo, cicd, deploy)[k].id) == CategoryOfPosition(repo, cicd, k)
  {
    var items := PlatformItems(repo, cicd, deploy);
    if k < |repo| {
      assert items[k].id == "repo_" + NatToString(k + 1);
      NumberedIdCategory(k + 1);
    } else if k < |repo| + |cicd| {
      assert items[k].id == "cicd_" + NatToString(k - |repo| + 1);
      NumberedIdCategory(k - |repo| + 1);
    } else {
      assert items[k].id == "deploy_" + NatToString(k - |repo| - |cicd| + 1);
      NumberedIdCategory(k - |repo| - |cicd| + 1);
    }
  }

  /** The category and pillar steps cancel: imp / P × (P / C × (C / T × 100)) is imp / T × 100. */
  lemma ThreeStepShare(importance: real, pillarImportance: real, categoryImportance: real, total: real)
    requires pillarImportance > 0.0 && categoryImportance > 0.0 && total > 0.0
    ensures Share(importance, pillarImportance, Share(pillarImportance, categoryImportance, Share(categoryImportance, total, 100.0)))
      == Share(importance, total, 100.0)
  {
    var x := importance / pillarImportance;
    var y := pillarImportance / categoryImportance;
    assert x * pillarImportance == importance;
    assert y * categoryImportance == pillarImportance;
    calc {
      x * (y * (categoryImportance / total * 100.0));
      (x * (y * categoryImportance)) / total * 100.0;
      (x * pillarImportance) / total * 100.0;
      importance / total * 100.0;
    }
  }

  /** A question scored against its pillar's three-step weight scores its share of the whole. */
  lemma PlatformScoreCollapses(q: Question, item: Tagged, pillarImportance: real, categoryImportance: real,
                               categoryWeight: real, weight: real, total: real)
    requires pillarImportance > 0.0 && categoryImportance > 0.0 && total > 0.0
    requires categoryWeight == Share(categoryImportance, total, 100.0)
    requires weight == Share(pillarImportance, categoryImportance, categoryWeight)
    requires q == QuestionFor(item, pillarImportance, weight)
    ensures q.maxScore == Round2(Share(q.importance, total, 100.0))
  {
    ThreeStepShare(item.entry.importance, pillarImportance, categoryImportance, total);
  }

  /**
    Each question's score is its importance's share of all the selected questions: the
    category and pillar steps cancel out, whichever category the pillar was assigned.
  */
  lemma PlatformScoreIsGlobalShare(repo: seq<CatalogEntry>, cicd: seq<CatalogEntry>, deploy: seq<CatalogEntry>, j: nat, m: nat)
    requires WellFormedCatalogs(repo, cicd, deploy)
    requires j < |PlatformAllocation(repo, cicd, deploy)|
    requires m < |PlatformAllocation(repo, cicd, deploy)[j].questions|
    ensures var q := PlatformAllocation(repo, cicd, deploy)[j].questions[m];
      q.importance > 0.0 && q.maxScore == Round2(Share(q.importance, PlatformImportance(repo, cicd, deploy), 100.0))
  {
    var items := PlatformItems(repo, cicd, deploy);
    var weights := PlatformWeights(repo, cicd, deploy);
    PlatformItemsPositive(repo, cicd, deploy);
    var t := PillarOrder(Tags(items))[j];
    AllocatedQuestion(items, weights, j, m);
    assert PlatformAllocation(repo, cicd, deploy) == Allocate(items, weights);
    var q := PlatformAllocation(repo, cicd, deploy)[j].questions[m];
    var item := items[Members(Tags(items), t)[m]];
    var p := PillarImportance(items, t);
    assert q == QuestionFor(item, p, weights[j]);
    var cat := PillarCategory(items, t);
    var ci := CategoryImportance(repo, cicd, deploy, cat);
    var cw := CategoryWeight(repo, cicd, deploy, cat);
    assert weights[j] == PillarWeight(repo, cicd, deploy, t);
    PillarWeightValue(repo, cicd, deploy, t);
    PlatformScoreCollapses(q, item, p, ci, cw, weights[j], PlatformImportance(repo, cicd, deploy));
  }

  /** Scores across the whole hierarchical rubric are ordered as the importances are, and none is negative. */
  lemma PlatformScoresOrdered(repo: seq<CatalogEntry>, cicd: seq<CatalogEntry>, deploy: seq<CatalogEntry>,
                              j1: nat, m1: nat, j2: nat, m2: nat)
    requires WellFormedCatalogs(repo, cicd, deploy)
    requires j1 < |PlatformAllocation(repo, cicd, deploy)| && m1 < |PlatformAllocation(repo, cicd, deploy)[j1].questions|
    requires j2 < |PlatformAllocation(repo, cicd, deploy)| && m2 < |PlatformAllocation(repo, cicd, deploy)[j2].questions|
    ensures var q1 := PlatformAllocation(repo, cicd, deploy)[j1].questions[m1];
      var q2 := PlatformAllocation(repo, cicd, deploy)[j2].questions[m2];
      0 <= q1.maxScore && (q1.importance <= q2.importance ==> q1.maxScore <= q2.maxScore)
  {
    var q1 := PlatformAllocation(repo, cicd, deploy)[j1].questions[m1];
    var q2 := PlatformAllocation(repo, cicd, deploy)[j2].questions[m2];
    PlatformScoreIsGlobalShare(repo, cicd, deploy, j1, m1);
    PlatformScoreIsGlobalShare(repo, cicd, deploy, j2, m2);
    SharesOrdered(q1.maxScore, q2.maxScore, q1.importance, q2.importance, PlatformImportance(repo, cicd, deploy));
  }

  // ---------------------------------------------------------------------------------------
  // Reconciliation

  /** The source's trigger: |Σ total_weight − 100| > 0.01, here more than one hundredth. */
  predicate NeedsReconcile(ps: seq<Pillar>)
    ensures NeedsReconcile(ps) <==> Sum(Weights(ps)) < FullMarks - 1 || FullMarks + 1 < Sum(Weights(ps))
  {
    Abs(Sum(Weights(ps)) - FullMarks) > 1
  }

  /** Python's max(…, key=…): the position of the FIRST largest value. */
  function ArgMax(s: seq<int>): (i: nat)
    requires |s| > 0
    ensures i < |s|
    ensures forall k :: 0 <= k < |s| ==> s[k] <= s[i]
    ensures forall k :: 0 <= k < i ==> s[k] < s[i]
  {
    if |s| == 1 then 0
    else
      var i := ArgMax(s[..|s| - 1]);
      if s[|s| - 1] > s[i] then |s| - 1 else i
  }

  /** max() over an empty dictionary or an empty question list raises; otherwise reconciliation runs. */
  predicate Reconcilable(ps: seq<Pillar>) {
    NeedsReconcile(ps) ==> |ps| > 0 && |ps[ArgMax(Weights(ps))].questions| > 0
  }

  /**
    The reconciled rubric: unchanged when |Σ − 100| is within a hundredth; otherwise the
    first-largest question of the first-largest pillar, and that pillar's weight, both move
    by 100 − Σ.
  */
  function Reconciled(ps: seq<Pillar>): (r: seq<Pillar>)
    requires Reconcilable(ps)
    ensures |r| == |ps|
    ensures !NeedsReconcile(ps) ==> r == ps
  {
    if !NeedsReconcile(ps) then ps
    else
      var i := ArgMax(Weights(ps));
      var j := ArgMax(Scores(ps[i].questions));
      var d := FullMarks - Sum(Weights(ps));
      var q := ps[i].questions[j];
      ps[i := ps[i].(totalWeight := ps[i].totalWeight + d,
                     questions := ps[i].questions[j := q.(maxScore := q.maxScore + d)])]
  }

  /** After reconciliation the weights sum to 100 within a hundredth, and exactly when it fired. */
  lemma ReconciledTotal(ps: seq<Pillar>)
    requires Reconcilable(ps)
    ensures Abs(Sum(Weights(Reconciled(ps))) - FullMarks) <= 1
    ensures NeedsReconcile(ps) ==> Sum(Weights(Reconciled(ps))) == FullMarks
  {
    if NeedsReconcile(ps) {
      var r := Reconciled(ps);
      var i := ArgMax(Weights(ps));
      assert Weights(r) == Weights(ps)[i := r[i].totalWeight];
      SumUpdate(Weights(ps), i, r[i].totalWeight);
    }
  }

  /**
    When reconciliation fires, exactly one question and its pillar change, both by
    d = 100 − Σ: the first question with the largest max score, in the first pillar with
    the largest weight. Every other pillar and question is left as it was.
  */
  lemma ReconciledChangesOnlyLargest(ps: seq<Pillar>)
    requires Reconcilable(ps) && NeedsReconcile(ps)
    ensures var r := Reconciled(ps);
      var i := ArgMax(Weights(ps));
      var j := ArgMax(Scores(ps[i].questions));
      var d := FullMarks - Sum(Weights(ps));
      && (forall k :: 0 <= k < |ps| ==> ps[k].totalWeight <= ps[i].totalWeight)
      && (forall k :: 0 <= k < i ==> ps[k].totalWeight < ps[i].totalWeight)
      && (forall m :: 0 <= m < |ps[i].questions| ==> ps[i].questions[m].maxScore <= ps[i].questions[j].maxScore)
      && (forall m :: 0 <= m < j ==> ps[i].questions[m].maxScore < ps[i].questions[j].maxScore)
      && (forall k :: 0 <= k < |ps| && k != i ==> r[k] == ps[k])
      && r[i].tag == ps[i].tag && r[i].name == ps[i].name
      && r[i].totalWeight == ps[i].totalWeight + d
      && |r[i].questions| == |ps[i].questions|
      && (forall m :: 0 <= m < |ps[i].questions| && m != j ==> r[i].questions[m] == ps[i].questions[m])
      && r[i].questions[j] == ps[i].questions[j].(maxScore := ps[i].questions[j].maxScore + d)
  {
    var i := ArgMax(Weights(ps));
    var j := ArgMax(Scores(ps[i].questions));
    assert forall k :: 0 <= k < |ps| ==> Weights(ps)[k] == ps[k].totalWeight;
    assert forall m :: 0 <= m < |ps[i].questions| ==> Scores(ps[i].questions)[m] == ps[i].questions[m].maxScore;
  }

  /** Reconciliation keeps each pillar's weight equal to the sum of its questions' scores. */
  lemma ReconciledKeepsConsistent(ps: seq<Pillar>)
    requires Reconcilable(ps) && Consistent(ps)
    ensures Consistent(Reconciled(ps))
  {
    if NeedsReconcile(ps) {
      var r := Reconciled(ps);
      var i := ArgMax(Weights(ps));
      var j := ArgMax(Scores(ps[i].questions));
      assert Scores(r[i].questions) == Scores(ps[i].questions)[j := r[i].questions[j].maxScore];
      SumUpdate(Scores(ps[i].questions), j, r[i].questions[j].maxScore);
      assert forall k :: 0 <= k < |ps| && k != i ==> r[k] == ps[k];
    }
  }

  /** Reconciliation keeps every pillar's key, name and number of questions. */
  lemma ReconciledShape(ps: seq<Pillar>)
    requires Reconcilable(ps)
    ensures forall k :: 0 <= k < |ps| ==>
      Reconciled(ps)[k].tag == ps[k].tag && Reconciled(ps)[k].name == ps[k].name
      && |Reconciled(ps)[k].questions| == |ps[k].questions|
  {
  }

  /** The in-place reconciliation step at the end of both allocation functions. */
  method AdjustLargest(ps: seq<Pillar>) returns (r: seq<Pillar>)
    requires Reconcilable(ps)
    ensures r == Reconciled(ps)
  {
    r := ps;
    var total := Sum(Weights(ps));
    if Abs(total - FullMarks) > 1 {
      var largestPillar := ArgMax(Weights(ps));
      var largestQuestion := ArgMax(Scores(ps[largestPillar].questions));
      var adjustment := FullMarks - total;
      var p := r[largestPillar];
      var q := p.questions[largestQuestion];
      p := p.(questions := p.questions[largestQuestion := q.(maxScore := q.maxScore + adjustment)]);
      p := p.(totalWeight := p.totalWeight + adjustment);
      r := r[largestPillar := p];
    }
  }

  /** An allocation of a non-empty catalog has pillars, each with at least one question. */
  lemma AllocationReconcilable(items: seq<Tagged>, weights: seq<real>)
    requires PositiveImportances(items) && |items| > 0
    requires |weights| == |PillarOrder(Tags(items))|
    ensures Reconcilable(Allocate(items, weights))
  {
    var ps := Allocate(items, weights);
    var order := PillarOrder(Tags(items));
    PillarOrderExact(Tags(items));
    assert Tags(items)[0] in order;
    var i := ArgMax(Weights(ps));
    MembersNonEmpty(Tags(items), order[i]);
    assert |ps[i].questions| == |Members(Tags(items), order[i])|;
  }

  // ---------------------------------------------------------------------------------------
  // The imperative procedures

  /** Numbers the entries of a catalog in input order (the counter loops and enumerate()). */
  method NumberEntries(prefix: string, catalog: seq<CatalogEntry>) returns (items: seq<Tagged>)
    ensures items == NumberedItems(prefix, catalog)
  {
    items := [];
    var counter := 1;
    while counter <= |catalog|
      invariant 1 <= counter <= |catalog| + 1
      invariant items == NumberedItems(prefix, catalog)[..counter - 1]
    {
      items := items + [Tagged(prefix + NatToString(counter), catalog[counter - 1])];
      counter := counter + 1;
    }
  }

  /** Pillar j of the allocation is the pillar built for the j-th key with the j-th weight. */
  lemma AllocatedPillar(items: seq<Tagged>, weights: seq<real>, j: nat)
    requires PositiveImportances(items)
    requires |weights| == |PillarOrder(Tags(items))|
    requires j < |weights|
    ensures PillarImportance(items, PillarOrder(Tags(items))[j]) > 0.0
    ensures Allocate(items, weights)[j] == BuildPillar(items, PillarOrder(Tags(items))[j], weights[j])
  {
    OrderedPillarsPositive(items);
  }

  /** Builds one pillar per group, appending each question of the group in turn. */
  method BuildPillars(items: seq<Tagged>, order: seq<PillarTag>, groups: map<PillarTag, seq<nat>>, weights: seq<real>)
    returns (ps: seq<Pillar>)
    requires PositiveImportances(items)
    requires order == PillarOrder(Tags(items))
    requires forall t :: t in order ==> t in groups && groups[t] == Members(Tags(items), t)
    requires |weights| == |order|
    ensures ps == Allocate(items, weights)
  {
    ps := [];
    var j := 0;
    while j < |order|
      invariant 0 <= j <= |order|
      invariant ps == Allocate(items, weights)[..j]
    {
      var t := order[j];
      var ms := groups[t];
      AllocatedPillar(items, weights, j);
      var importance := PillarImportance(items, t);
      var questions: seq<Question> := [];
      var m := 0;
      while m < |ms|
        invariant 0 <= m <= |ms|
        invariant questions == PillarQuestions(items, t, weights[j])[..m]
      {
        var q := QuestionFor(items[ms[m]], importance, weights[j]);
        PrefixExtend(questions, PillarQuestions(items, t, weights[j]), m, q);
        questions := questions + [q];
        m := m + 1;
      }
      assert questions == PillarQuestions(items, t, weights[j]);
      var p := Pillar(t, PillarName(t), Sum(Scores(questions)), questions);
      PrefixExtend(ps, Allocate(items, weights), j, p);
      ps := ps + [p];
      j := j + 1;
    }
  }

  /** get_questions_for_tool on given items: the reconciled flat allocation. */
  method DistributeFlat(items: seq<Tagged>) returns (pillars: seq<Pillar>)
    requires PositiveImportances(items) && |items| > 0
    ensures pillars == Reconciled(FlatAllocation(items))
  {
    var order, groups := GroupByPillar(Tags(items));
    // Step 1: pillar importance totals and target weights
    var totals: seq<real> := [];
    var j := 0;
    while j < |order|
      invariant 0 <= j <= |order|
      invariant totals == PillarImportances(items)[..j]
    {
      PrefixExtend(totals, PillarImportances(items), j, PillarImportance(items, order[j]));
      totals := totals + [PillarImportance(items, order[j])];
      j := j + 1;
    }
    assert totals == PillarImportances(items)[..|order|] == PillarImportances(items);
    var totalAll := RealSum(totals);
    assert totalAll == FlatTotal(items);
    var targets: seq<real> := [];
    j := 0;
    while j < |order|
      invariant 0 <= j <= |order|
      invariant targets == FlatWeights(items)[..j]
    {
      PrefixExtend(targets, FlatWeights(items), j, Share(totals[j], totalAll, 100.0));
      targets := targets + [Share(totals[j], totalAll, 100.0)];
      j := j + 1;
    }
    assert targets == FlatWeights(items)[..|order|] == FlatWeights(items);
    // Step 2: questions within each pillar
    pillars := BuildPillars(items, order, groups, targets);
    assert pillars == FlatAllocation(items);
    // Step 3: reconciliation
    pillars := AdjustLargest(pillars);
  }

  /** get_questions_for_tool: the tool's catalog, numbered and distributed flat. */
  method GetQuestionsForTool(tool: RepositoryTool) returns (pillars: seq<Pillar>)
    ensures pillars == Reconciled(FlatAllocation(ToolItems(ToolValue(tool), RepositoryCatalog(tool))))
  {
    var catalog := RepositoryCatalog(tool);
    var items := NumberEntries(ToolValue(tool) + "_", catalog);
    pillars := DistributeFlat(items);
  }

  /** The first id of the group of t names the pillar's category. */
  lemma GroupCategory(items: seq<Tagged>, t: PillarTag, group: seq<nat>)
    requires t in PillarOrder(Tags(items))
    requires group == Members(Tags(items), t)
    ensures |group| > 0 && group[0] < |items|
    ensures CategoryOfId(items[group[0]].id) == PillarCategory(items, t)
  {
    PillarOrderExact(Tags(items));
    MembersNonEmpty(Tags(items), t);
  }

  /** The j-th pillar weight, computed as the loop below does: from its first question's category. */
  lemma PlatformWeightStep(repo: seq<CatalogEntry>, cicd: seq<CatalogEntry>, deploy: seq<CatalogEntry>, j: nat, group: seq<nat>)
    requires WellFormedCatalogs(repo, cicd, deploy)
    requires j < |PillarOrder(Tags(PlatformItems(repo, cicd, deploy)))|
    requires group == Members(Tags(PlatformItems(repo, cicd, deploy)), PillarOrder(Tags(PlatformItems(repo, cicd, deploy)))[j])
    ensures |group| > 0 && group[0] < |PlatformItems(repo, cicd, deploy)|
    ensures var items := PlatformItems(repo, cicd, deploy);
      var ci := CategoryImportance(repo, cicd, deploy, CategoryOfId(items[group[0]].id));
      PlatformWeights(repo, cicd, deploy)[j]
        == Share(PillarImportance(items, PillarOrder(Tags(items))[j]), ci, Share(ci, PlatformImportance(repo, cicd, deploy), 100.0))
  {
    var items := PlatformItems(repo, cicd, deploy);
    var t := PillarOrder(Tags(items))[j];
    GroupCategory(items, t, group);
    PillarWeightValue(repo, cicd, deploy, t);
    assert PlatformWeights(repo, cicd, deploy)[j] == PillarWeight(repo, cicd, deploy, t);
  }

  /** The pillar weights of the hierarchical distribution, pillar by pillar in key order. */
  method PlatformPillarWeights(repo: seq<CatalogEntry>, cicd: seq<CatalogEntry>, deploy: seq<CatalogEntry>,
                               order: seq<PillarTag>, groups: map<PillarTag, seq<nat>>)
    returns (weights: seq<real>)
    requires WellFormedCatalogs(repo, cicd, deploy)
    requires order == PillarOrder(Tags(PlatformItems(repo, cicd, deploy)))
    requires forall t :: t in order ==> t in groups && groups[t] == Members(Tags(PlatformItems(repo, cicd, deploy)), t)
    ensures weights == PlatformWeights(repo, cicd, deploy)
  {
    var items := PlatformItems(repo, cicd, deploy);
    var total := PlatformImportance(repo, cicd, deploy);
    weights := [];
    var j := 0;
    while j < |order|
      invariant 0 <= j <= |order|
      invariant weights == PlatformWeights(repo, cicd, deploy)[..j]
    {
      var t := order[j];
      PlatformWeightStep(repo, cicd, deploy, j, groups[t]);
      var category := CategoryOfId(items[groups[t][0]].id);
      var categoryImportance := CategoryImportance(repo, cicd, deploy, category);
      var categoryWeight := Share(categoryImportance, total, 100.0);
      var pillarWeight := Share(PillarImportance(items, t), categoryImportance, categoryWeight);
      assert pillarWeight == PlatformWeights(repo, cicd, deploy)[j];
      PrefixExtend(weights, PlatformWeights(repo, cicd, deploy), j, pillarWeight);
      weights := weights + [pillarWeight];
      j := j + 1;
    }
  }

  /** get_questions_for_platforms on given catalogs: the reconciled hierarchical allocation. */
  method DistributePlatforms(repo: seq<CatalogEntry>, cicd: seq<CatalogEntry>, deploy: seq<CatalogEntry>)
    returns (pillars: seq<Pillar>)
    requires WellFormedCatalogs(repo, cicd, deploy)
    ensures pillars == Reconciled(PlatformAllocation(repo, cicd, deploy))
  {
    var repoItems := NumberEntries("repo_", repo);
    var cicdItems := NumberEntries("cicd_", cicd);
    var deployItems := NumberEntries("deploy_", deploy);
    var items := repoItems + cicdItems + deployItems;
    assert items == PlatformItems(repo, cicd, deploy);
    PlatformItemsPositive(repo, cicd, deploy);
    var order, groups := GroupByPillar(Tags(items));
    var weights := PlatformPillarWeights(repo, cicd, deploy, order, groups);
    pillars := BuildPillars(items, order, groups, weights);
    assert pillars == PlatformAllocation(repo, cicd, deploy);
    pillars := AdjustLargest(pillars);
  }

  /** get_questions_for_platforms: the three selected catalogs, distributed hierarchically. */
  method GetQuestionsForPlatforms(r: RepositoryTool, c: CicdPlatform, d: DeploymentPlatform) returns (pillars: seq<Pillar>)
    ensures pillars == Reconciled(PlatformAllocation(RepositoryCatalog(r), CicdCatalog(c), DeploymentCatalog(d)))
  {
    pillars := DistributePlatforms(RepositoryCatalog(r), CicdCatalog(c), DeploymentCatalog(d));
  }

  // ---------------------------------------------------------------------------------------
  // get_all_questions

  /** (pillar id, question, pillar name) for every question, pillar by pillar. */
  function Flatten(ps: seq<Pillar>): seq<(PillarTag, Question, string)> {
    if ps == [] then []
    else
      var p := ps[|ps| - 1];
      Flatten(ps[..|ps| - 1]) + seq(|p.questions|, m requires 0 <= m < |p.questions| => (p.tag, p.questions[m], p.name))
  }

  /** Flattening keeps pillar order: the pillars of a concatenation flatten one after the other. */
  lemma {:induction false} FlattenAppend(a: seq<Pillar>, b: seq<Pillar>)
    ensures Flatten(a + b) == Flatten(a) + Flatten(b)
    decreases |b|
  {
    if b == [] {
      assert a + b == a;
    } else {
      var init, p := b[..|b| - 1], b[|b| - 1];
      var tail := seq(|p.questions|, m requires 0 <= m < |p.questions| => (p.tag, p.questions[m], p.name));
      assert (a + b)[..|a + b| - 1] == a + init && (a + b)[|a + b| - 1] == p;
      assert Flatten(a + b) == Flatten(a + init) + tail;
      assert Flatten(b) == Flatten(init) + tail;
      FlattenAppend(a, init);
    }
  }

  /** One tuple per question, each carrying its own pillar's id and name. */
  lemma {:induction false} FlattenContents(ps: seq<Pillar>)
    ensures |Flatten(ps)| == Sum(QuestionCounts(ps))
    ensures forall x :: x in Flatten(ps) ==>
      exists j :: 0 <= j < |ps| && x.0 == ps[j].tag && x.2 == ps[j].name && x.1 in ps[j].questions
    decreases |ps|
  {
    if ps != [] {
      var init, p := ps[..|ps| - 1], ps[|ps| - 1];
      var tail := seq(|p.questions|, m requires 0 <= m < |p.questions| => (p.tag, p.questions[m], p.name));
      assert Flatten(ps) == Flatten(init) + tail;
      FlattenContents(init);
      assert QuestionCounts(init) == QuestionCounts(ps)[..|ps| - 1];
      forall x | x in Flatten(ps)
        ensures exists j :: 0 <= j < |ps| && x.0 == ps[j].tag && x.2 == ps[j].name && x.1 in ps[j].questions
      {
        if x in Flatten(init) {
          var j :| 0 <= j < |init| && x.0 == init[j].tag && x.2 == init[j].name && x.1 in init[j].questions;
          assert init[j] == ps[j];
        } else {
          var m :| 0 <= m < |tail| && tail[m] == x;
          assert x.1 == p.questions[m];
          assert ps[|ps| - 1] == p;
        }
      }
    }
  }

  /** get_all_questions, appending in pillar order, then question order. */
  method GetAllQuestions(ps: seq<Pillar>) returns (questions: seq<(PillarTag, Question, string)>)
    ensures questions == Flatten(ps)
  {
    questions := [];
    var j := 0;
    while j < |ps|
      invariant 0 <= j <= |ps|
      invariant questions == Flatten(ps[..j])
    {
      var p := ps[j];
      var m := 0;
      while m < |p.questions|
        invariant 0 <= m <= |p.questions|
        invariant questions == Flatten(ps[..j]) + seq(m, x requires 0 <= x < m => (p.tag, p.questions[x], p.name))
      {
        questions := questions + [(p.tag, p.questions[m], p.name)];
        m := m + 1;
      }
      assert ps[..j + 1][..j] == ps[..j];
      j := j + 1;
    }
    assert ps[..|ps|] == ps;
  }

  /** Reconciling keeps the questions: a rubric of n questions flattens to n tuples afterwards. */
  lemma ReconciledQuestionCount(ps: seq<Pillar>, n: int)
    requires Reconcilable(ps)
    requires Sum(QuestionCounts(ps)) == n
    ensures |Flatten(Reconciled(ps))| == n
  {
    ReconciledShape(ps);
    assert QuestionCounts(Reconciled(ps)) == QuestionCounts(ps);
    FlattenContents(Reconciled(ps));
  }

  /** A flat rubric has exactly one question per catalog entry. */
  lemma FlatRubricComplete(items: seq<Tagged>)
    requires PositiveImportances(items) && |items| > 0
    ensures |Flatten(Reconciled(FlatAllocation(items)))| == |items|
  {
    AllocationQuestionCount(items, FlatWeights(items));
    assert FlatAllocation(items) == Allocate(items, FlatWeights(items));
    ReconciledQuestionCount(FlatAllocation(items), |items|);
  }


  /** A hierarchical rubric has exactly one question per selected catalog entry. */
  lemma PlatformRubricComplete(repo: seq<CatalogEntry>, cicd: seq<CatalogEntry>, deploy: seq<CatalogEntry>)
    requires WellFormedCatalogs(repo, cicd, deploy)
    ensures |Flatten(Reconciled(PlatformAllocation(repo, cicd, deploy)))| == |repo| + |cicd| + |deploy|
  {
    var items := PlatformItems(repo, cicd, deploy);
    var ps := PlatformAllocation(repo, cicd, deploy);
    PlatformItemsPositive(repo, cicd, deploy);
    AllocationQuestionCount(items, PlatformWeights(repo, cicd, deploy));
    assert ps == Allocate(items, PlatformWeights(repo, cicd, deploy));
    ReconciledQuestionCount(ps, |repo| + |cicd| + |deploy|);
  }

  /** The max scores of the flattened questions, in order. */
  function FlatScores(xs: seq<(PillarTag, Question, string)>): (r: seq<int>)
    ensures |r| == |xs|
  {
    seq(|xs|, k requires 0 <= k < |xs| => xs[k].1.maxScore)
  }

  /** The questions of a rubric are worth 100 points within a hundredth. */
  predicate WorthFullMarks(ps: seq<Pillar>) {
    Abs(Sum(FlatScores(Flatten(ps))) - FullMarks) <= 1
  }

  /** In a consistent rubric the questions' max scores add up to the pillars' weights. */
  lemma {:induction false} FlattenScoresSum(ps: seq<Pillar>)
    requires Consistent(ps)
    ensures Sum(FlatScores(Flatten(ps))) == Sum(Weights(ps))
    decreases |ps|
  {
    if ps != [] {
      var init := ps[..|ps| - 1];
      var p := ps[|ps| - 1];
      forall j | 0 <= j < |init| ensures init[j].totalWeight == Sum(Scores(init[j].questions)) {
        assert init[j] == ps[j];
      }
      FlattenScoresSum(init);
      assert FlatScores(Flatten(ps)) == FlatScores(Flatten(init)) + Scores(p.questions);
      SumAppend(FlatScores(Flatten(init)), Scores(p.questions));
      assert Weights(init) == Weights(ps)[..|ps| - 1];
    }
  }

  /**
    A reconciled consistent rubric: each pillar still weighs the sum of its questions, and
    the questions get_all_questions returns are worth 100 points within a hundredth.
  */
  lemma ReconciledRubricTotals(ps: seq<Pillar>)
    requires Reconcilable(ps) && Consistent(ps)
    ensures Consistent(Reconciled(ps))
    ensures WorthFullMarks(Reconciled(ps))
  {
    ReconciledKeepsConsistent(ps);
    ReconciledTotal(ps);
    FlattenScoresSum(Reconciled(ps));
  }

  /** The flat rubric is consistent and its questions are worth 100 points within a hundredth. */
  lemma FlatRubricTotals(items: seq<Tagged>)
    requires PositiveImportances(items) && |items| > 0
    ensures Consistent(Reconciled(FlatAllocation(items)))
    ensures WorthFullMarks(Reconciled(FlatAllocation(items)))
  {
    ReconciledRubricTotals(FlatAllocation(items));
  }

  /** The hierarchical rubric is consistent and its questions are worth 100 points within a hundredth. */
  lemma PlatformRubricTotals(repo: seq<CatalogEntry>, cicd: seq<CatalogEntry>, deploy: seq<CatalogEntry>)
    requires WellFormedCatalogs(repo, cicd, deploy)
    ensures Consistent(Reconciled(PlatformAllocation(repo, cicd, deploy)))
    ensures WorthFullMarks(Reconciled(PlatformAllocation(repo, cicd, deploy)))
  {
    ReconciledRubricTotals(PlatformAllocation(repo, cicd, deploy));
  }
}
