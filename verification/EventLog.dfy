/** The run's event log as a sequence of typed entries, what its writer lets in, and the queries the
    runner asks of it. */
module EventLog {
  import opened Options
  import opened LoopDef

  datatype Confidence = High | Medium | Low | OtherConfidence(text: string)
  datatype CIResult = CIGreenResult | CIRedResult | CITimeoutResult

  datatype Review = Review(
    verdict: Verdict, confidence: Confidence, body: string, reviewId: string,
    headSha: string, reviewRound: int, inlineCount: Option<int>)

  datatype Entry =
    | ReviewSubmitted(review: Review)
    | PROpened(prNumber: string)
    | CIWaitFinished(ciResult: CIResult, fixRound: int)
    | ConflictRetry(files: seq<string>, resolved: bool, attempt: int)
    | OutOfDateRetry(attempt: int)
    | PRMerged
    | AutomergeFailed
    | AutomergeSkipped
    | StepTransition(from: Step, event: Event, to: Step, seqNo: int)

  // ----- what the writer lets in -------------------------------------------------------------

  predicate ValidReview(r: Review): (valid: bool)
    ensures valid <==>
      && r.verdict in {Approve, RequestChanges} && r.confidence in {Low, Medium, High}
      && r.reviewId != "" && r.inlineCount.Some? && 0 <= r.inlineCount.value
  {
    if r.verdict.NoVerdict? || r.verdict.OtherVerdict? then false
    else if r.confidence.OtherConfidence? then false
    else if r.reviewId == "" then false
    else if r.inlineCount.None? then false
    else r.inlineCount.value >= 0
  }

  /** Entries of the other types are not validated. */
  predicate ValidEntry(e: Entry): (valid: bool)
    ensures !valid <==>
      || (e.ReviewSubmitted? && !ValidReview(e.review)) || e == PROpened("")
      || (e.ConflictRetry? && |e.files| == 0) || (e.StepTransition? && e.seqNo <= 0)
  {
    match e
    case ReviewSubmitted(r) => ValidReview(r)
    case PROpened(n) => n != ""
    case ConflictRetry(files, _, _) => files != []
    case StepTransition(_, _, _, n) => n > 0
    case _ => true
  }

  // ----- the parts of a log the runner looks at ----------------------------------------------

  function Reviews(log: seq<Entry>): seq<Review> {
    if log == [] then []
    else
      var before, e := Reviews(log[..|log| - 1]), log[|log| - 1];
      if e.ReviewSubmitted? then before + [e.review] else before
  }

  function Transitions(log: seq<Entry>): seq<Entry> {
    if log == [] then []
    else
      var before, e := Transitions(log[..|log| - 1]), log[|log| - 1];
      if e.StepTransition? then before + [e] else before
  }

  function LastReview(log: seq<Entry>): Option<Review> {
    if Reviews(log) == [] then None else Some(Reviews(log)[|Reviews(log)| - 1])
  }

  predicate HasPROpened(log: seq<Entry>) {
    exists e :: e in log && e.PROpened?
  }

  ghost predicate ValidLog(log: seq<Entry>) {
    forall e :: e in log ==> ValidEntry(e)
  }

  /** `after` extends `before` by valid entries, none of them a review or a step transition. */
  ghost predicate Quiet(before: seq<Entry>, after: seq<Entry>) {
    && Reviews(after) == Reviews(before) && Transitions(after) == Transitions(before)
    && (ValidLog(before) ==> ValidLog(after))
  }

  /** An entry about the end of a merge phase. */
  predicate IsMergeNews(e: Entry) {
    e.PRMerged? || e.AutomergeFailed? || e.AutomergeSkipped?
  }

  function MergeNews(log: seq<Entry>): seq<Entry> {
    if log == [] then []
    else
      var before, e := MergeNews(log[..|log| - 1]), log[|log| - 1];
      if IsMergeNews(e) then before + [e] else before
  }

  lemma Appended(log: seq<Entry>, e: Entry)
    ensures MergeNews(log + [e]) == MergeNews(log) + (if IsMergeNews(e) then [e] else [])
    ensures Reviews(log + [e]) == Reviews(log) + (if e.ReviewSubmitted? then [e.review] else [])
    ensures Transitions(log + [e]) == Transitions(log) + (if e.StepTransition? then [e] else [])
  {
    assert (log + [e])[..|log|] == log;
  }

  lemma {:induction false} ReviewsAreValid(log: seq<Entry>)
    requires ValidLog(log)
    ensures forall j :: 0 <= j < |Reviews(log)| ==> ValidReview(Reviews(log)[j])
  {
    if log != [] {
      assert log[|log| - 1] in log;
      ReviewsAreValid(log[..|log| - 1]);
    }
  }

  lemma TakeOneMore(log: seq<Entry>, i: nat)
    requires i < |log|
    ensures Reviews(log[..i + 1]) == Reviews(log[..i]) + (if log[i].ReviewSubmitted? then [log[i].review] else [])
  {
    assert log[..i + 1][..i] == log[..i];
  }

  // ----- queries -----------------------------------------------------------------------------

  method CountReviewSubmittedEvents(log: seq<Entry>) returns (count: nat)
    ensures count == |Reviews(log)|
  {
    count := 0;
    for i := 0 to |log|
      invariant count == |Reviews(log[..i])|
    {
      TakeOneMore(log, i);
      if log[i].ReviewSubmitted? { count := count + 1; }
    }
    assert log[..|log|] == log;
  }

  method LastReviewSubmittedPayload(log: seq<Entry>) returns (r: Option<Review>)
    ensures r == LastReview(log)
  {
    var i := |log|;
    assert log[..i] == log;
    while i > 0
      invariant 0 <= i <= |log|
      invariant Reviews(log) == Reviews(log[..i])
    {
      i := i - 1;
      TakeOneMore(log, i);
      if log[i].ReviewSubmitted? { return Some(log[i].review); }
    }
    r := None;
  }

  method LatestReviewID(log: seq<Entry>) returns (id: Option<string>)
    ensures var last := LastReview(log);
      id == if last.Some? && last.value.reviewId != "" then Some(last.value.reviewId) else None
  {
    var r := LastReviewSubmittedPayload(log);
    if r.None? || r.value.reviewId == "" { return None; }
    id := Some(r.value.reviewId);
  }

  method LatestReviewBody(log: seq<Entry>) returns (body: Option<string>)
    ensures body == if LastReview(log).Some? then Some(LastReview(log).value.body) else None
  {
    var r := LastReviewSubmittedPayload(log);
    if r.None? { return None; }
    body := Some(r.value.body);
  }

  method LatestConfidence(log: seq<Entry>) returns (c: Option<Confidence>)
    ensures c == if LastReview(log).Some? then Some(LastReview(log).value.confidence) else None
  {
    var r := LastReviewSubmittedPayload(log);
    if r.None? { return None; }
    c := Some(r.value.confidence);
  }

  method HasPROpenedEvent(log: seq<Entry>) returns (found: bool)
    ensures ValidLog(log) ==> (found <==> HasPROpened(log))
    ensures found ==> HasPROpened(log)
  {
    var i := |log|;
    while i > 0
      invariant 0 <= i <= |log|
      invariant forall j :: i <= j < |log| ==> !log[j].PROpened?
    {
      i := i - 1;
      if log[i].PROpened? {
        assert log[i] in log;
        return ValidEntry(log[i]);
      }
    }
    found := false;
  }

  // ----- the verdict, filtered by round and head ---------------------------------------------

  /** A round that is not positive and an empty head do not filter. */
  predicate MatchesCriteria(r: Review, round: int, headSha: string): (matches: bool)
    ensures matches <==> (round <= 0 || round == r.reviewRound) && (headSha == "" || headSha == r.headSha)
  {
    if round > 0 && r.reviewRound != round then false
    else if headSha != "" && r.headSha != headSha then false
    else true
  }

  /** Review `i` is the one whose verdict counts: the last that passes the filter, with nothing
      invalid from there on. */
  ghost predicate Picks(rs: seq<Review>, i: int, round: int, headSha: string) {
    && 0 <= i < |rs| && ValidReview(rs[i]) && MatchesCriteria(rs[i], round, headSha)
    && forall j :: i < j < |rs| ==> ValidReview(rs[j]) && !MatchesCriteria(rs[j], round, headSha)
  }

  method LatestReviewVerdict(log: seq<Entry>, round: int, headSha: string) returns (v: Option<Verdict>)
    ensures v.Some? ==> exists i :: Picks(Reviews(log), i, round, headSha) && v.value == Reviews(log)[i].verdict
    ensures v.None? ==> forall i :: !Picks(Reviews(log), i, round, headSha)
  {
    var filter := round > 0 || headSha != "";
    var i := |log|;
    assert log[..i] == log;
    ghost var skipped: seq<Review> := [];
    while i > 0
      invariant 0 <= i <= |log|
      invariant Reviews(log) == Reviews(log[..i]) + skipped
      invariant forall j :: 0 <= j < |skipped| ==>
        ValidReview(skipped[j]) && !MatchesCriteria(skipped[j], round, headSha)
    {
      i := i - 1;
      TakeOneMore(log, i);
      if !log[i].ReviewSubmitted? { continue; }
      ghost var k := |Reviews(log[..i])|;
      assert Reviews(log) == Reviews(log[..i]) + ([log[i].review] + skipped);
      assert Reviews(log)[k] == log[i].review;
      assert forall j :: k < j < |Reviews(log)| ==> Reviews(log)[j] == skipped[j - k - 1];
      if !ValidReview(log[i].review) { return None; }
      if filter && !MatchesCriteria(log[i].review, round, headSha) {
        skipped := [log[i].review] + skipped;
        continue;
      }
      assert Picks(Reviews(log), k, round, headSha);
      return Some(log[i].review.verdict);
    }
    v := None;
  }

  /** The verdict is read with a filter, the body, the id and the confidence without one. They come
      from the same event exactly when the last review passes the filter. */
  lemma VerdictIsTheLastReviewsIff(rs: seq<Review>, i: int, round: int, headSha: string)
    requires Picks(rs, i, round, headSha)
    ensures i == |rs| - 1 <==> MatchesCriteria(rs[|rs| - 1], round, headSha)
  {
    if i < |rs| - 1 { assert !MatchesCriteria(rs[|rs| - 1], round, headSha); }
  }

  lemma PickIsUnique(rs: seq<Review>, i: int, k: int, round: int, headSha: string)
    requires Picks(rs, i, round, headSha) && Picks(rs, k, round, headSha)
    ensures i == k
  {
  }

  /** Among valid reviews, one counts exactly when one passes the filter. */
  lemma {:induction false} SomePickIff(rs: seq<Review>, round: int, headSha: string)
    requires forall j :: 0 <= j < |rs| ==> ValidReview(rs[j])
    ensures (exists i :: Picks(rs, i, round, headSha))
      <==> exists j :: 0 <= j < |rs| && MatchesCriteria(rs[j], round, headSha)
  {
    if rs != [] {
      var n := |rs| - 1;
      if MatchesCriteria(rs[n], round, headSha) {
        assert Picks(rs, n, round, headSha);
      } else {
        SomePickIff(rs[..n], round, headSha);
        if i :| Picks(rs[..n], i, round, headSha) {
          assert rs[..n][i] == rs[i];
          assert forall j :: i < j < n ==> rs[..n][j] == rs[j];
          assert Picks(rs, i, round, headSha);
        }
        assert forall j :: 0 <= j < n ==> rs[..n][j] == rs[j];
      }
    }
  }

  /** Without the condition they can differ: an approval of the asked round below a later review. */
  lemma VerdictCanBeAnOlderReviews(earlier: Review, later: Review)
    requires ValidReview(earlier) && ValidReview(later)
    requires earlier.verdict == Approve && earlier.reviewRound == 1
    requires later.verdict == RequestChanges && later.reviewRound == 2
    ensures Picks([earlier, later], 0, 1, "")
      && LastReview([ReviewSubmitted(earlier), ReviewSubmitted(later)]) == Some(later)
  {
    Appended([ReviewSubmitted(earlier)], ReviewSubmitted(later));
  }
}
