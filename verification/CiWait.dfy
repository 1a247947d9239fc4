/** How the check runs of a commit become one CI result. */
module CiWait {
  datatype Conclusion =
    | ConcludedSuccess | Neutral | SkippedRun
    | Failure | Cancelled | TimedOutRun | ActionRequired
    | OtherConclusion(text: string)

  datatype Bucket = Pass | Fail | Pending | Skipping | Cancel | NeedsAction | OtherBucket(text: string)

  datatype CheckRun = CheckRun(name: string, completed: bool, conclusion: Conclusion)
  datatype CheckItem = CheckItem(name: string, bucket: Bucket)

  datatype Result = Green | Red(failed: seq<CheckItem>) | StillPending

  const REQUIRED_CHECK := "verify"

  function CheckRunBucket(completed: bool, conclusion: Conclusion): Bucket {
    if !completed then Pending
    else
      match conclusion
      case ConcludedSuccess | Neutral | SkippedRun => Pass
      case Failure | Cancelled | TimedOutRun | ActionRequired => Fail
      case OtherConclusion(_) => Pending
  }

  function CategorizeBucket(b: Bucket): Bucket {
    match b
    case Pass | Skipping => Pass
    case Fail | Cancel | NeedsAction => Fail
    case _ => Pending
  }

  predicate Failed(c: CheckItem) { CategorizeBucket(c.bucket) == Fail }
  predicate Passed(c: CheckItem) { CategorizeBucket(c.bucket) == Pass }

  function FailedChecks(checks: seq<CheckItem>): seq<CheckItem> {
    if checks == [] then []
    else
      var before, c := FailedChecks(checks[..|checks| - 1]), checks[|checks| - 1];
      if Failed(c) then before + [c] else before
  }

  lemma {:induction false} FailedChecksAre(checks: seq<CheckItem>)
    ensures forall c :: c in FailedChecks(checks) <==> c in checks && Failed(c)
  {
    if checks != [] {
      FailedChecksAre(checks[..|checks| - 1]);
      assert checks == checks[..|checks| - 1] + [checks[|checks| - 1]];
    }
  }

  ghost predicate AllGreen(checks: seq<CheckItem>) {
    (forall c :: c in checks ==> Passed(c)) && exists c :: c in checks && c.name == REQUIRED_CHECK
  }

  /** Red as soon as one check failed, green only when all passed and the required one is among them. */
  method ClassifyChecks(checks: seq<CheckItem>) returns (result: Result)
    ensures result.Red? <==> exists c :: c in checks && Failed(c)
    ensures result.Red? ==> result.failed == FailedChecks(checks)
    ensures result.Green? <==> AllGreen(checks)
  {
    var failed: seq<CheckItem> := [];
    var hasPending, hasRequired := false, false;
    for i := 0 to |checks|
      invariant failed == FailedChecks(checks[..i])
      invariant hasPending <==> exists j :: 0 <= j < i && !Passed(checks[j]) && !Failed(checks[j])
      invariant hasRequired <==> exists j :: 0 <= j < i && checks[j].name == REQUIRED_CHECK
    {
      assert checks[..i + 1][..i] == checks[..i];
      if checks[i].name == REQUIRED_CHECK { hasRequired := true; }
      match CategorizeBucket(checks[i].bucket) {
        case Fail => failed := failed + [checks[i]];
        case Pending => hasPending := true;
        case _ =>
      }
    }
    assert checks[..|checks|] == checks;
    FailedChecksAre(checks);
    if failed != [] {
      assert failed[0] in failed;
      return Red(failed);
    }
    if hasPending || !hasRequired { return StillPending; }
    result := Green;
  }

  /** The check items of a reply of the check-runs query. */
  function Items(runs: seq<CheckRun>): (items: seq<CheckItem>)
    ensures |items| == |runs|
    ensures forall i :: 0 <= i < |runs| ==>
      items[i] == CheckItem(runs[i].name, CheckRunBucket(runs[i].completed, runs[i].conclusion))
  {
    if runs == [] then []
    else
      var r := runs[|runs| - 1];
      Items(runs[..|runs| - 1]) + [CheckItem(r.name, CheckRunBucket(r.completed, r.conclusion))]
  }

  /** What green says about the runs themselves: all completed, none with a bad conclusion, and the
      required one present. */
  ghost predicate RunsAreGreen(runs: seq<CheckRun>) {
    && (forall r :: r in runs ==>
      && r.completed
      && (r.conclusion.ConcludedSuccess? || r.conclusion.Neutral? || r.conclusion.SkippedRun?))
    && exists r :: r in runs && r.name == REQUIRED_CHECK
  }

  /** A run that came to an end without success, or that waits for somebody to act. */
  predicate RunFailed(r: CheckRun) {
    r.completed && r.conclusion in {Failure, Cancelled, TimedOutRun, ActionRequired}
  }

  lemma ItemFails(runs: seq<CheckRun>, i: nat)
    requires i < |runs|
    ensures Failed(Items(runs)[i]) <==> RunFailed(runs[i])
  {
  }

  /** And what red says about them: some completed run failed; a run still going, or with a conclusion
      nobody knows, does not make red. */
  lemma RedIsAboutTheRuns(runs: seq<CheckRun>)
    ensures (exists c :: c in Items(runs) && Failed(c)) <==> exists r :: r in runs && RunFailed(r)
  {
    var items := Items(runs);
    if c :| c in items && Failed(c) {
      var i :| 0 <= i < |items| && items[i] == c;
      ItemFails(runs, i);
      assert runs[i] in runs;
    }
    if r :| r in runs && RunFailed(r) {
      var i :| 0 <= i < |runs| && runs[i] == r;
      ItemFails(runs, i);
      assert items[i] in items;
    }
  }

  lemma GreenIsAboutTheRuns(runs: seq<CheckRun>)
    ensures AllGreen(Items(runs)) <==> RunsAreGreen(runs)
  {
    var items := Items(runs);
    if RunsAreGreen(runs) {
      forall c | c in items ensures Passed(c) {
        var i :| 0 <= i < |items| && items[i] == c;
        assert runs[i] in runs;
      }
      var r :| r in runs && r.name == REQUIRED_CHECK;
      var i :| 0 <= i < |runs| && runs[i] == r;
      assert items[i] in items && items[i].name == REQUIRED_CHECK;
    }
    if AllGreen(items) {
      forall r | r in runs
        ensures r.completed && (r.conclusion.ConcludedSuccess? || r.conclusion.Neutral? || r.conclusion.SkippedRun?)
      {
        var i :| 0 <= i < |runs| && runs[i] == r;
        assert Passed(items[i]);
      }
      var c :| c in items && c.name == REQUIRED_CHECK;
      var i :| 0 <= i < |items| && items[i] == c;
      assert runs[i] in runs && runs[i].name == REQUIRED_CHECK;
    }
  }
}
