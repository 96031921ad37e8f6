/**
 * What the structuring loop of main.py:191-206 computes: walking the sorted
 * entries, it keeps the conflict constructed from each entry that has the
 * declared shape and drops the others.
 */
module Structuring {
  import opened Outcomes
  import opened JsonValues
  import opened Schema
  import opened StableSort

  /** The conflicts kept from `s`, in order (specified from the back, as the loop appends). */
  function Structured(s: seq<Json>): (r: seq<GoalConflict>)
    ensures |r| <= |s|
  {
    if s == [] then []
    else
      Structured(s[..|s| - 1]) + match BuildConflict(s[|s| - 1]) {
        case Some(c) => [c]
        case None => []
      }
  }

  /** The positions of `s` holding an entry that constructs, in increasing order. */
  function KeptIndices(s: seq<Json>): (idx: seq<int>)
    ensures forall j :: 0 <= j < |idx| ==> 0 <= idx[j] < |s|
    ensures forall j, k :: 0 <= j < k < |idx| ==> idx[j] < idx[k]
  {
    if s == [] then []
    else KeptIndices(s[..|s| - 1]) + if BuildConflict(s[|s| - 1]).Some? then [|s| - 1] else []
  }

  /** A position is listed exactly when its entry constructs. */
  lemma {:induction false} KeptIndicesMembers(s: seq<Json>)
    ensures forall i {:trigger i in KeptIndices(s)} :: 0 <= i < |s| ==> (i in KeptIndices(s) <==> BuildConflict(s[i]).Some?)
  {
    if s != [] {
      var init := s[..|s| - 1];
      KeptIndicesMembers(init);
      forall i | 0 <= i < |s|
        ensures i in KeptIndices(s) <==> BuildConflict(s[i]).Some?
      {
        if i < |s| - 1 {
          assert s[i] == init[i];
        }
      }
    }
  }

  /**
   * The kept list is the order-preserving subsequence of exactly the entries
   * that construct: its j-th conflict is the one built from the j-th such
   * entry.
   */
  lemma {:induction false} StructuredSelectsKept(s: seq<Json>)
    ensures |Structured(s)| == |KeptIndices(s)|
    ensures forall j :: 0 <= j < |KeptIndices(s)| ==> BuildConflict(s[KeptIndices(s)[j]]) == Some(Structured(s)[j])
  {
    if s != [] {
      var init := s[..|s| - 1];
      var kept, idx := Structured(s), KeptIndices(s);
      var keptInit, idxInit := Structured(init), KeptIndices(init);
      StructuredSelectsKept(init);
      assert |kept| == |idx| by {
        assert |kept| == |keptInit| + (if BuildConflict(s[|s| - 1]).Some? then 1 else 0);
      }
      forall j | 0 <= j < |idx|
        ensures BuildConflict(s[idx[j]]) == Some(kept[j])
      {
        if j < |idxInit| {
          assert idx[j] == idxInit[j] && kept[j] == keptInit[j];
          assert s[idxInit[j]] == init[idxInit[j]];
        } else {
          assert idx[j] == |s| - 1;
        }
      }
    }
  }

  /** Walking a sequence one entry further keeps one conflict more exactly when that entry constructs. */
  lemma StructuredStep(s: seq<Json>, i: int)
    requires 0 <= i < |s|
    ensures Structured(s[..i + 1]) == Structured(s[..i]) + match BuildConflict(s[i]) {
      case Some(c) => [c]
      case None => []
    }
  {
    assert s[..i + 1][..i] == s[..i];
  }

  /**
   * When every kept entry carried its own score, the kept list of a sorted
   * sequence is non-increasing in centrality_score.
   */
  lemma ExplicitScoresKeepOrder(s: seq<Json>)
    requires NonIncreasing(s, SortKey)
    requires forall i :: 0 <= i < |s| && BuildConflict(s[i]).Some? ==> ScoreName in s[i].members
    ensures forall j, k :: 0 <= j < k < |Structured(s)| ==>
      Structured(s)[j].centralityScore >= Structured(s)[k].centralityScore
  {
    var kept, idx := Structured(s), KeptIndices(s);
    StructuredSelectsKept(s);
    forall j, k | 0 <= j < k < |kept| ensures kept[j].centralityScore >= kept[k].centralityScore {
      ConstructedScoreVersusKey(s[idx[j]]);
      ConstructedScoreVersusKey(s[idx[k]]);
    }
  }

  /**
   * The sort key and the constructed score disagree on entries without a
   * score: such an entry sorts as 0 behind an entry scored between 0 and 0.5,
   * yet is constructed with 0.5, so the kept list is not in descending
   * centrality_score order.
   */
  lemma MissingScoreCanBreakOrder(scored: Json, unscored: Json)
    requires scored.Object? && unscored.Object?
    requires BuildConflict(scored).Some? && BuildConflict(unscored).Some?
    requires ScoreName in scored.members && ScoreName !in unscored.members
    requires MissingScoreKey < SortKey(scored) < DefaultScore
    ensures Structured(SortDescending([unscored, scored], SortKey)) ==
      [BuildConflict(scored).value, BuildConflict(unscored).value]
    ensures BuildConflict(scored).value.centralityScore < BuildConflict(unscored).value.centralityScore
  {
    ConstructedScoreVersusKey(scored);
    ConstructedScoreVersusKey(unscored);
    SortPair(unscored, scored, SortKey);
    StructuredPair(scored, unscored);
  }

  /** Two entries that both construct are both kept, in order. */
  lemma StructuredPair(x: Json, y: Json)
    requires BuildConflict(x).Some? && BuildConflict(y).Some?
    ensures Structured([x, y]) == [BuildConflict(x).value, BuildConflict(y).value]
  {
    assert [x, y][..1] == [x];
    assert [x][..0] == [];
  }

  /** In a sorted sequence, the first entry that constructs has the largest key among those that do. */
  lemma FirstKeptIsMaximal(sorted: seq<Json>, p: int)
    requires NonIncreasing(sorted, SortKey) && KeptIndices(sorted) != []
    requires 0 <= p < |sorted| && BuildConflict(sorted[p]).Some?
    ensures SortKey(sorted[p]) <= SortKey(sorted[KeptIndices(sorted)[0]])
  {
    var idx := KeptIndices(sorted);
    KeptIndicesMembers(sorted);
    assert p in idx;
    FirstIndexLeast(idx, p);
    NonIncreasingAt(sorted, SortKey, idx[0], p);
  }

  /** The first element of a strictly increasing sequence is its least. */
  lemma FirstIndexLeast(idx: seq<int>, p: int)
    requires forall j, k :: 0 <= j < k < |idx| ==> idx[j] < idx[k]
    requires p in idx
    ensures idx[0] <= p
  {
    var q :| 0 <= q < |idx| && idx[q] == p;
    if q > 0 {
      assert idx[0] < idx[q];
    }
  }

  /**
   * The first kept conflict comes from an entry of the input whose sort key
   * is maximal among all entries that construct.
   */
  lemma PrimaryHasMaximalKey(items: seq<Json>)
    requires Structured(SortDescending(items, SortKey)) != []
    ensures exists e :: (e in items && BuildConflict(e) == Some(Structured(SortDescending(items, SortKey))[0]) &&
                         forall x :: x in items && BuildConflict(x).Some? ==> SortKey(x) <= SortKey(e))
  {
    var sorted := SortDescending(items, SortKey);
    SortDescendingOrdered(items, SortKey);
    StructuredSelectsKept(sorted);
    var e := sorted[KeptIndices(sorted)[0]];
    PositionIn(items, sorted, KeptIndices(sorted)[0]);
    forall x | x in items && BuildConflict(x).Some? ensures SortKey(x) <= SortKey(e) {
      var p := IndexIn(sorted, items, x);
      FirstKeptIsMaximal(sorted, p);
    }
  }
}
