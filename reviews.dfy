/** The review resource: the filtered query of `list` and the path of `get`. */
module Reviews {
  import opened Wrappers
  import opened Js
  import opened Http

  const ReviewBase := "/review"

  /**
   * The filters of `list`. Date filters are taken as already-formatted strings;
   * `limit` and `offset` are integer-valued numbers.
   */
  datatype ReviewFilters = ReviewFilters(
    taskId: Option<string>,
    reviewerId: Option<string>,
    queueKey: Option<string>,
    reviewerType: Option<string>,
    from: Option<string>,
    to: Option<string>,
    limit: Option<int>,
    offset: Option<int>)

  /** A numeric filter as a parameter value: present only when truthy (non-zero). */
  function NumberParam(n: Option<int>): (v: Option<string>)
    ensures TruthyString(v) <==> TruthyNumber(n)
    ensures TruthyNumber(n) ==> v == Some(DecimalString(n.value))
  {
    if TruthyNumber(n) then Some(DecimalString(n.value)) else None
  }

  /** The `(key, value)` candidates of `list`, in append order. */
  function ReviewCandidates(filters: Option<ReviewFilters>): seq<(string, Option<string>)> {
    var f := filters.GetOr(ReviewFilters(None, None, None, None, None, None, None, None));
    [ ("task_id", f.taskId), ("reviewer_id", f.reviewerId), ("queue_key", f.queueKey),
      ("reviewer_type", f.reviewerType), ("created_after", f.from), ("created_before", f.to),
      ("limit", NumberParam(f.limit)), ("offset", NumberParam(f.offset)) ]
  }

  /** No filter value is truthy. */
  predicate AllFalsy(filters: Option<ReviewFilters>) {
    filters.None? ||
      (var f := filters.value;
       && !TruthyString(f.taskId) && !TruthyString(f.reviewerId) && !TruthyString(f.queueKey)
       && !TruthyString(f.reviewerType) && !TruthyString(f.from) && !TruthyString(f.to)
       && !TruthyNumber(f.limit) && !TruthyNumber(f.offset))
  }

  /**
   * The path `list` requests: the truthy filters in the fixed order `task_id, reviewer_id,
   * queue_key, reviewer_type, created_after, created_before, limit, offset`, and exactly
   * `/review` (no `?`) when none is truthy.
   */
  method ListPath(filters: Option<ReviewFilters>) returns (path: string)
    ensures path == PathWithQuery(ReviewBase, KeepTruthy(ReviewCandidates(filters)))
    ensures path == ReviewBase <==> AllFalsy(filters)
  {
    var params := new SearchParams();
    var f := filters.GetOr(ReviewFilters(None, None, None, None, None, None, None, None));
    params.AppendIfTruthy("task_id", f.taskId);
    params.AppendIfTruthy("reviewer_id", f.reviewerId);
    params.AppendIfTruthy("queue_key", f.queueKey);
    params.AppendIfTruthy("reviewer_type", f.reviewerType);
    params.AppendIfTruthy("created_after", f.from);
    params.AppendIfTruthy("created_before", f.to);
    params.AppendIfTruthy("limit", NumberParam(f.limit));
    params.AppendIfTruthy("offset", NumberParam(f.offset));
    var query := params.ToString();
    path := ReviewBase + (if query != "" then "?" + query else "");

    EmitsInOrder(ReviewCandidates(filters));
    BareListPath(filters);
  }

  /** The list path is bare `/review` exactly when every filter is falsy. */
  lemma BareListPath(filters: Option<ReviewFilters>)
    ensures PathWithQuery(ReviewBase, KeepTruthy(ReviewCandidates(filters))) == ReviewBase <==> AllFalsy(filters)
  {
    var c := ReviewCandidates(filters);
    BareQueryPath(ReviewBase, c);
    FalsyCandidates(filters);
  }

  /** Every candidate of `list` is falsy exactly when every filter is. */
  lemma FalsyCandidates(filters: Option<ReviewFilters>)
    ensures (forall i :: 0 <= i < |ReviewCandidates(filters)| ==> !TruthyString(ReviewCandidates(filters)[i].1))
            <==> AllFalsy(filters)
  {
    var c := ReviewCandidates(filters);
    var f := filters.GetOr(ReviewFilters(None, None, None, None, None, None, None, None));
    assert c[0].1 == f.taskId && c[1].1 == f.reviewerId && c[2].1 == f.queueKey && c[3].1 == f.reviewerType;
    assert c[4].1 == f.from && c[5].1 == f.to && c[6].1 == NumberParam(f.limit) && c[7].1 == NumberParam(f.offset);
    if AllFalsy(filters) {
      forall i | 0 <= i < |c| ensures !TruthyString(c[i].1) {
        assert i in {0, 1, 2, 3, 4, 5, 6, 7};
      }
    }
  }

  /** The parameters of eight candidates, one candidate at a time. */
  lemma EmitsInOrder(c: seq<(string, Option<string>)>)
    requires |c| == 8
    ensures KeepTruthy(c) == [] + Emitted(c[0]) + Emitted(c[1]) + Emitted(c[2]) + Emitted(c[3])
                             + Emitted(c[4]) + Emitted(c[5]) + Emitted(c[6]) + Emitted(c[7])
  {
    EmitsFirstFour(c);
    EmitsNextFour(c);
    assert c[..8] == c;
  }

  lemma EmitsFirstFour(c: seq<(string, Option<string>)>)
    requires |c| == 8
    ensures KeepTruthy(c[..4]) == [] + Emitted(c[0]) + Emitted(c[1]) + Emitted(c[2]) + Emitted(c[3])
  {
    assert KeepTruthy(c[..0]) == [];
    KeepTruthyPrefix(c, 0);
    KeepTruthyPrefix(c, 1);
    KeepTruthyPrefix(c, 2);
    KeepTruthyPrefix(c, 3);
  }

  lemma EmitsNextFour(c: seq<(string, Option<string>)>)
    requires |c| == 8
    ensures KeepTruthy(c[..8]) == KeepTruthy(c[..4]) + Emitted(c[4]) + Emitted(c[5]) + Emitted(c[6]) + Emitted(c[7])
  {
    KeepTruthyPrefix(c, 4);
    KeepTruthyPrefix(c, 5);
    KeepTruthyPrefix(c, 6);
    KeepTruthyPrefix(c, 7);
  }

  /** The eight keys of `list` are pairwise distinct. */
  lemma ReviewKeysDistinct(filters: Option<ReviewFilters>, i: nat)
    requires i < 8
    ensures forall j :: 0 <= j < |ReviewCandidates(filters)| && j != i ==>
              ReviewCandidates(filters)[j].0 != ReviewCandidates(filters)[i].0
  {
  }

  /** A falsy filter (absent, `''` or `0`) adds no parameter under its key. */
  lemma FalsyFiltersOmitted(f: ReviewFilters)
    ensures !TruthyString(f.taskId) ==> forall v :: ("task_id", v) !in KeepTruthy(ReviewCandidates(Some(f)))
    ensures !TruthyString(f.reviewerId) ==> forall v :: ("reviewer_id", v) !in KeepTruthy(ReviewCandidates(Some(f)))
    ensures !TruthyString(f.queueKey) ==> forall v :: ("queue_key", v) !in KeepTruthy(ReviewCandidates(Some(f)))
    ensures !TruthyString(f.reviewerType) ==> forall v :: ("reviewer_type", v) !in KeepTruthy(ReviewCandidates(Some(f)))
    ensures !TruthyString(f.from) ==> forall v :: ("created_after", v) !in KeepTruthy(ReviewCandidates(Some(f)))
    ensures !TruthyString(f.to) ==> forall v :: ("created_before", v) !in KeepTruthy(ReviewCandidates(Some(f)))
    ensures !TruthyNumber(f.limit) ==> forall v :: ("limit", v) !in KeepTruthy(ReviewCandidates(Some(f)))
    ensures !TruthyNumber(f.offset) ==> forall v :: ("offset", v) !in KeepTruthy(ReviewCandidates(Some(f)))
  {
    var c := ReviewCandidates(Some(f));
    if !TruthyString(f.taskId) { ReviewKeysDistinct(Some(f), 0); KeepTruthyOmits(c, 0); }
    if !TruthyString(f.reviewerId) { ReviewKeysDistinct(Some(f), 1); KeepTruthyOmits(c, 1); }
    if !TruthyString(f.queueKey) { ReviewKeysDistinct(Some(f), 2); KeepTruthyOmits(c, 2); }
    if !TruthyString(f.reviewerType) { ReviewKeysDistinct(Some(f), 3); KeepTruthyOmits(c, 3); }
    if !TruthyString(f.from) { ReviewKeysDistinct(Some(f), 4); KeepTruthyOmits(c, 4); }
    if !TruthyString(f.to) { ReviewKeysDistinct(Some(f), 5); KeepTruthyOmits(c, 5); }
    if !TruthyNumber(f.limit) { ReviewKeysDistinct(Some(f), 6); KeepTruthyOmits(c, 6); }
    if !TruthyNumber(f.offset) { ReviewKeysDistinct(Some(f), 7); KeepTruthyOmits(c, 7); }
  }

  /** A truthy string filter (dates included) adds its parameter with the value unchanged. */
  lemma TruthyFiltersKept(f: ReviewFilters)
    ensures TruthyString(f.taskId) ==> ("task_id", f.taskId.value) in KeepTruthy(ReviewCandidates(Some(f)))
    ensures TruthyString(f.reviewerId) ==> ("reviewer_id", f.reviewerId.value) in KeepTruthy(ReviewCandidates(Some(f)))
    ensures TruthyString(f.queueKey) ==> ("queue_key", f.queueKey.value) in KeepTruthy(ReviewCandidates(Some(f)))
    ensures TruthyString(f.reviewerType) ==> ("reviewer_type", f.reviewerType.value) in KeepTruthy(ReviewCandidates(Some(f)))
    ensures TruthyString(f.from) ==> ("created_after", f.from.value) in KeepTruthy(ReviewCandidates(Some(f)))
    ensures TruthyString(f.to) ==> ("created_before", f.to.value) in KeepTruthy(ReviewCandidates(Some(f)))
  {
    var c := ReviewCandidates(Some(f));
    if TruthyString(f.taskId) { KeepTruthyKeeps(c, 0); }
    if TruthyString(f.reviewerId) { KeepTruthyKeeps(c, 1); }
    if TruthyString(f.queueKey) { KeepTruthyKeeps(c, 2); }
    if TruthyString(f.reviewerType) { KeepTruthyKeeps(c, 3); }
    if TruthyString(f.from) { KeepTruthyKeeps(c, 4); }
    if TruthyString(f.to) { KeepTruthyKeeps(c, 5); }
  }

  /** A non-zero `limit` or `offset` adds its parameter as decimal text. */
  lemma NumericFiltersKept(f: ReviewFilters)
    ensures TruthyNumber(f.limit) ==> ("limit", DecimalString(f.limit.value)) in KeepTruthy(ReviewCandidates(Some(f)))
    ensures TruthyNumber(f.offset) ==> ("offset", DecimalString(f.offset.value)) in KeepTruthy(ReviewCandidates(Some(f)))
  {
    var c := ReviewCandidates(Some(f));
    if TruthyNumber(f.limit) { KeepTruthyKeeps(c, 6); }
    if TruthyNumber(f.offset) { KeepTruthyKeeps(c, 7); }
  }

  /** `get(reviewId)` targets `/review/` followed by the id. */
  function GetPath(reviewId: string): (path: string)
    ensures |path| == |ReviewBase| + 1 + |reviewId|
    ensures path[..|ReviewBase| + 1] == ReviewBase + "/" && path[|ReviewBase| + 1..] == reviewId
  {
    ReviewBase + "/" + reviewId
  }

  /** Distinct reviews are fetched at distinct paths. */
  lemma GetPathInjective(a: string, b: string)
    requires GetPath(a) == GetPath(b)
    ensures a == b
  {
    assert a == GetPath(a)[|ReviewBase| + 1..];
  }
}
