/**
  The `pillar_groups` dictionary both backend allocation functions build
  (backend/config.py:767-773 and 872-876): every tagged item is appended to the list of its
  tag, and the dictionary's keys come out in order of first appearance.
*/
module Grouping {
  import opened Numbers

  /** The distinct tags, in order of first appearance (the dictionary's key order). */
  function PillarOrder<T(==)>(tags: seq<T>): seq<T> {
    if tags == [] then []
    else
      var order := PillarOrder(tags[..|tags| - 1]);
      if tags[|tags| - 1] in order then order else order + [tags[|tags| - 1]]
  }

  /** The positions holding tag t, in increasing order (the list stored under key t). */
  function Members<T(==)>(tags: seq<T>, t: T): (ms: seq<nat>)
    ensures forall k :: k in ms ==> k < |tags| && tags[k] == t
    ensures forall i :: 0 <= i < |ms| ==> ms[i] < |tags| && tags[ms[i]] == t
  {
    if tags == [] then []
    else
      var ms := Members(tags[..|tags| - 1], t);
      if tags[|tags| - 1] == t then ms + [|tags| - 1] else ms
  }

  /** Every tag that occurs is a key, no other value is, and no key is repeated. */
  lemma {:induction false} PillarOrderExact<T>(tags: seq<T>)
    ensures forall t :: t in PillarOrder(tags) <==> t in tags
    ensures forall a, b :: 0 <= a < b < |PillarOrder(tags)| ==> PillarOrder(tags)[a] != PillarOrder(tags)[b]
    decreases |tags|
  {
    if tags != [] {
      var init := tags[..|tags| - 1];
      PillarOrderExact(init);
      assert tags == init + [tags[|tags| - 1]];
    }
  }

  /**
    The list under key t holds exactly the positions whose tag is t, each once and in
    increasing order: every item lands in the group named by its tag, exactly once.
  */
  lemma {:induction false} MembersExact<T>(tags: seq<T>, t: T)
    ensures forall k: nat :: k in Members(tags, t) <==> k < |tags| && tags[k] == t
    ensures forall a, b :: 0 <= a < b < |Members(tags, t)| ==> Members(tags, t)[a] < Members(tags, t)[b]
    decreases |tags|
  {
    if tags != [] {
      var init := tags[..|tags| - 1];
      MembersExact(init, t);
      var ms := Members(init, t);
      assert forall k :: 0 <= k < |tags| - 1 ==> tags[k] == init[k];
      assert forall a :: 0 <= a < |ms| ==> ms[a] in ms && ms[a] < |tags| - 1;
    }
  }

  /**
    Groups do not overlap and hold no repeats: the m1-th member of the j1-th key's group and
    the m2-th member of the j2-th key's group are the same position only when j1 == j2 and
    m1 == m2, so no item lands in two places.
  */
  lemma GroupsDisjoint<T>(tags: seq<T>, j1: nat, m1: nat, j2: nat, m2: nat)
    requires j1 < |PillarOrder(tags)| && j2 < |PillarOrder(tags)|
    requires m1 < |Members(tags, PillarOrder(tags)[j1])| && m2 < |Members(tags, PillarOrder(tags)[j2])|
    requires Members(tags, PillarOrder(tags)[j1])[m1] == Members(tags, PillarOrder(tags)[j2])[m2]
    ensures j1 == j2 && m1 == m2
  {
    var order := PillarOrder(tags);
    PillarOrderExact(tags);
    MembersExact(tags, order[j1]);
    var pos := Members(tags, order[j1])[m1];
    assert order[j1] == tags[pos] == order[j2];
  }

  /** A tag that occurs has a non-empty group. */
  lemma MembersNonEmpty<T>(tags: seq<T>, t: T)
    requires t in tags
    ensures |Members(tags, t)| > 0
  {
    MembersExact(tags, t);
    var k :| 0 <= k < |tags| && tags[k] == t;
    assert k in Members(tags, t);
  }

  /** A tag that does not occur has an empty group. */
  lemma {:induction false} MembersEmpty<T>(tags: seq<T>, t: T)
    requires t !in tags
    ensures Members(tags, t) == []
    decreases |tags|
  {
    if tags != [] {
      var init := tags[..|tags| - 1];
      assert forall x :: x in init ==> x in tags;
      MembersEmpty(init, t);
    }
  }

  /** Group sizes, in key order. */
  function GroupSizes<T(==)>(tags: seq<T>, order: seq<T>): (sizes: seq<int>)
    ensures |sizes| == |order|
  {
    seq(|order|, j requires 0 <= j < |order| => |Members(tags, order[j])|)
  }

  /** The groups hold as many entries together as there are items. */
  lemma {:induction false} GroupSizesSum<T>(tags: seq<T>)
    ensures Sum(GroupSizes(tags, PillarOrder(tags))) == |tags|
    decreases |tags|
  {
    if tags != [] {
      var init, t := tags[..|tags| - 1], tags[|tags| - 1];
      var order := PillarOrder(init);
      GroupSizesSum(init);
      PillarOrderExact(init);
      var before := GroupSizes(init, order);
      if t in order {
        var idx :| 0 <= idx < |order| && order[idx] == t;
        assert GroupSizes(tags, order) == before[idx := before[idx] + 1];
        SumUpdate(before, idx, before[idx] + 1);
      } else {
        MembersEmpty(init, t);
        assert GroupSizes(tags, order + [t]) == before + [1];
        SumAppend(before, [1]);
      }
    }
  }

  /**
    Builds the key order and the groups in one pass, appending each position to the list
    of its tag and opening a new list the first time a tag is met.
  */
  method GroupByPillar<T(==)>(tags: seq<T>) returns (order: seq<T>, groups: map<T, seq<nat>>)
    ensures order == PillarOrder(tags)
    ensures forall t :: t in groups <==> t in order
    ensures forall t :: t in groups ==> groups[t] == Members(tags, t)
  {
    order, groups := [], map[];
    var i := 0;
    while i < |tags|
      invariant 0 <= i <= |tags|
      invariant order == PillarOrder(tags[..i])
      invariant forall t :: t in groups <==> t in order
      invariant forall t :: t in groups ==> groups[t] == Members(tags[..i], t)
      invariant forall t :: t !in groups ==> Members(tags[..i], t) == []
    {
      var t := tags[i];
      assert tags[..i + 1][..i] == tags[..i];
      forall u ensures Members(tags[..i + 1], u) == Members(tags[..i], u) + (if u == t then [i] else []) {
      }
      if t !in groups {
        order := order + [t];
        groups := groups[t := []];
      }
      groups := groups[t := groups[t] + [i]];
      i := i + 1;
    }
    assert tags[..|tags|] == tags;
  }
}
