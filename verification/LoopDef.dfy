/** The step machine: its transition table, as a literal list of guarded edges, and the dispatch that
    looks for the edges that match a step and an event. */
module LoopDef {
  import opened Options

  datatype Step =
    | Prepare | RunDev | SyncCI | RunReviewer | MergePR
    | Success | DevFailed | ReviewFailed | Escalated | MergeFailed | TimedOut | Stalled | Aborted | Skipped

  datatype Event =
    | Ready | NotEligible | PrepareFailed
    | DevDone | DevGateRejected | DevFailedEvent
    | CIGreen | CIFailed
    | ReviewApproved | ChangesRequested | PrecheckFailed | ReviewFailedEvent
    | Merged | MergeFailedEvent | ConflictResolved | ConflictUnresolved
    | AgentTimedOut | AgentStalled | AgentAborted

  predicate IsTerminal(s: Step) {
    !s.Prepare? && !s.RunDev? && !s.SyncCI? && !s.RunReviewer? && !s.MergePR?
  }

  /** The strings the context carries, with room for a value outside the documented ones. */
  datatype Verdict = NoVerdict | Approve | RequestChanges | OtherVerdict(text: string)
  datatype FailKind = NoKind | KindDevFailed | KindReviewFailed | KindEscalated | OtherKind(text: string)

  datatype RunContext = RunContext(
    devAttempt: int, round: int, maxRounds: int,
    resume: bool, resumeVerdict: Verdict, devRetry: bool,
    worktreeCreateFailed: bool, prepareFailKind: FailKind, prMerged: bool,
    findings: string, findingsFor: string,
    inMergeReReview: bool, mergeReReviewRound: int, maxMergeReReviewRounds: int)

  // ----- guards ------------------------------------------------------------------------------

  datatype Guard =
    | PrepareDevFailed | PrepareReviewFailed | PrepareEscalated | PrepareAborted
    | ToDev | ToReviewer | ToMerge
    | AttemptsLeft | NoAttemptsLeft
    | RoundsLeft | NoRoundsLeft | ReReviewsLeft | NoReReviewsLeft

  predicate Holds(g: Guard, rc: RunContext) {
    match g
    case PrepareDevFailed => rc.prepareFailKind == KindDevFailed
      || (rc.worktreeCreateFailed && rc.prepareFailKind == NoKind)
    case PrepareReviewFailed => rc.prepareFailKind == KindReviewFailed
    case PrepareEscalated => rc.prepareFailKind == KindEscalated
    case PrepareAborted => !rc.worktreeCreateFailed && rc.prepareFailKind == NoKind
    case ToDev => !rc.resume || rc.resumeVerdict == RequestChanges
    case ToReviewer => rc.resume && rc.resumeVerdict == NoVerdict
    case ToMerge => rc.resume && rc.resumeVerdict == Approve
    case AttemptsLeft => rc.devAttempt < 3
    case NoAttemptsLeft => rc.devAttempt >= 3
    case RoundsLeft => !rc.inMergeReReview && rc.round < rc.maxRounds
    case NoRoundsLeft => !rc.inMergeReReview && rc.round >= rc.maxRounds
    case ReReviewsLeft => rc.inMergeReReview && rc.mergeReReviewRound < rc.maxMergeReReviewRounds
    case NoReReviewsLeft => rc.inMergeReReview && rc.mergeReReviewRound >= rc.maxMergeReReviewRounds
  }

  datatype Transition = Transition(from: Step, event: Event, to: Step, guard: Option<Guard>)

  const PREPARE_EDGES: seq<Transition> := [
    Transition(Prepare, NotEligible, Skipped, None),
    Transition(Prepare, PrepareFailed, DevFailed, Some(PrepareDevFailed)),
    Transition(Prepare, PrepareFailed, ReviewFailed, Some(PrepareReviewFailed)),
    Transition(Prepare, PrepareFailed, Escalated, Some(PrepareEscalated)),
    Transition(Prepare, PrepareFailed, Aborted, Some(PrepareAborted)),
    Transition(Prepare, Ready, RunDev, Some(ToDev)),
    Transition(Prepare, Ready, RunReviewer, Some(ToReviewer)),
    Transition(Prepare, Ready, MergePR, Some(ToMerge))
  ]

  const RUN_DEV_EDGES: seq<Transition> := [
    Transition(RunDev, DevDone, SyncCI, None),
    Transition(RunDev, DevFailedEvent, DevFailed, None),
    Transition(RunDev, DevGateRejected, RunDev, Some(AttemptsLeft)),
    Transition(RunDev, DevGateRejected, DevFailed, Some(NoAttemptsLeft)),
    Transition(RunDev, AgentTimedOut, TimedOut, None),
    Transition(RunDev, AgentStalled, Stalled, None),
    Transition(RunDev, AgentAborted, Aborted, None)
  ]

  const SYNC_CI_EDGES: seq<Transition> := [
    Transition(SyncCI, CIGreen, RunReviewer, None),
    Transition(SyncCI, CIFailed, DevFailed, None),
    Transition(SyncCI, ConflictUnresolved, DevFailed, None),
    Transition(SyncCI, AgentTimedOut, TimedOut, None),
    Transition(SyncCI, AgentStalled, Stalled, None),
    Transition(SyncCI, AgentAborted, Aborted, None)
  ]

  const RUN_REVIEWER_EDGES: seq<Transition> := [
    Transition(RunReviewer, ReviewApproved, MergePR, None),
    Transition(RunReviewer, ReviewFailedEvent, ReviewFailed, None),
    Transition(RunReviewer, ChangesRequested, RunDev, Some(RoundsLeft)),
    Transition(RunReviewer, ChangesRequested, Escalated, Some(NoRoundsLeft)),
    Transition(RunReviewer, ChangesRequested, RunDev, Some(ReReviewsLeft)),
    Transition(RunReviewer, ChangesRequested, Escalated, Some(NoReReviewsLeft)),
    Transition(RunReviewer, PrecheckFailed, RunDev, Some(RoundsLeft)),
    Transition(RunReviewer, PrecheckFailed, Escalated, Some(NoRoundsLeft)),
    Transition(RunReviewer, PrecheckFailed, RunDev, Some(ReReviewsLeft)),
    Transition(RunReviewer, PrecheckFailed, Escalated, Some(NoReReviewsLeft)),
    Transition(RunReviewer, AgentTimedOut, TimedOut, None),
    Transition(RunReviewer, AgentStalled, Stalled, None),
    Transition(RunReviewer, AgentAborted, Aborted, None)
  ]

  const MERGE_PR_EDGES: seq<Transition> := [
    Transition(MergePR, Merged, Success, None),
    Transition(MergePR, MergeFailedEvent, MergeFailed, None),
    Transition(MergePR, ConflictResolved, RunReviewer, None),
    Transition(MergePR, ConflictUnresolved, DevFailed, None),
    Transition(MergePR, AgentTimedOut, TimedOut, None),
    Transition(MergePR, AgentStalled, Stalled, None),
    Transition(MergePR, AgentAborted, Aborted, None)
  ]

  const LOOP_TRANSITIONS: seq<Transition> :=
    PREPARE_EDGES + RUN_DEV_EDGES + SYNC_CI_EDGES + RUN_REVIEWER_EDGES + MERGE_PR_EDGES

  // ----- dispatch ----------------------------------------------------------------------------

  predicate IsMatch(t: Transition, step: Step, ev: Event, rc: RunContext) {
    t.from == step && t.event == ev && (t.guard.Some? ==> Holds(t.guard.value, rc))
  }

  /** The matching edges in table order. */
  function Matches(ts: seq<Transition>, step: Step, ev: Event, rc: RunContext): seq<Transition> {
    if ts == [] then []
    else
      var rest := Matches(ts[..|ts| - 1], step, ev, rc);
      if IsMatch(ts[|ts| - 1], step, ev, rc) then rest + [ts[|ts| - 1]] else rest
  }

  method CollectMatches(ts: seq<Transition>, step: Step, ev: Event, rc: RunContext) returns (matched: seq<Transition>)
    ensures matched == Matches(ts, step, ev, rc)
  {
    matched := [];
    for i := 0 to |ts|
      invariant matched == Matches(ts[..i], step, ev, rc)
    {
      assert ts[..i + 1][..i] == ts[..i];
      if ts[i].from != step || ts[i].event != ev { continue; }
      if ts[i].guard.Some? && !Holds(ts[i].guard.value, rc) { continue; }
      matched := matched + [ts[i]];
    }
    assert ts[..|ts|] == ts;
  }

  lemma {:induction false} NoMatches(ts: seq<Transition>, step: Step, ev: Event, rc: RunContext)
    requires forall j :: 0 <= j < |ts| ==> !IsMatch(ts[j], step, ev, rc)
    ensures Matches(ts, step, ev, rc) == []
  {
    if ts != [] { NoMatches(ts[..|ts| - 1], step, ev, rc); }
  }

  lemma {:induction false} OneMatch(ts: seq<Transition>, i: nat, step: Step, ev: Event, rc: RunContext)
    requires i < |ts| && forall j :: 0 <= j < |ts| ==> (IsMatch(ts[j], step, ev, rc) <==> j == i)
    ensures Matches(ts, step, ev, rc) == [ts[i]]
  {
    var rest := ts[..|ts| - 1];
    if i == |ts| - 1 {
      NoMatches(rest, step, ev, rc);
    } else {
      OneMatch(rest, i, step, ev, rc);
    }
  }

  lemma {:induction false} MatchesOfConcat(a: seq<Transition>, b: seq<Transition>, step: Step, ev: Event,
      rc: RunContext)
    ensures Matches(a + b, step, ev, rc) == Matches(a, step, ev, rc) + Matches(b, step, ev, rc)
  {
    if b == [] {
      assert a + b == a;
    } else {
      assert (a + b)[..|a + b| - 1] == a + b[..|b| - 1];
      MatchesOfConcat(a, b[..|b| - 1], step, ev, rc);
    }
  }

  // ----- what the table means ----------------------------------------------------------------

  /** The step that follows, said directly. */
  function Route(step: Step, ev: Event, rc: RunContext): Option<Step> {
    match (step, ev)
    case (Prepare, NotEligible) => Some(Skipped)
    case (Prepare, PrepareFailed) =>
      (match rc.prepareFailKind
       case NoKind => Some(if rc.worktreeCreateFailed then DevFailed else Aborted)
       case KindDevFailed => Some(DevFailed)
       case KindReviewFailed => Some(ReviewFailed)
       case KindEscalated => Some(Escalated)
       case OtherKind(_) => None)
    case (Prepare, Ready) =>
      if !rc.resume then Some(RunDev)
      else (match rc.resumeVerdict
            case NoVerdict => Some(RunReviewer)
            case Approve => Some(MergePR)
            case RequestChanges => Some(RunDev)
            case OtherVerdict(_) => None)
    case (RunDev, DevDone) => Some(SyncCI)
    case (RunDev, DevFailedEvent) => Some(DevFailed)
    case (RunDev, DevGateRejected) => Some(if rc.devAttempt < 3 then RunDev else DevFailed)
    case (SyncCI, CIGreen) => Some(RunReviewer)
    case (SyncCI, CIFailed) => Some(DevFailed)
    case (SyncCI, ConflictUnresolved) => Some(DevFailed)
    case (RunReviewer, ReviewApproved) => Some(MergePR)
    case (RunReviewer, ReviewFailedEvent) => Some(ReviewFailed)
    case (RunReviewer, ChangesRequested) => Some(if BudgetLeft(rc) then RunDev else Escalated)
    case (RunReviewer, PrecheckFailed) => Some(if BudgetLeft(rc) then RunDev else Escalated)
    case (MergePR, Merged) => Some(Success)
    case (MergePR, MergeFailedEvent) => Some(MergeFailed)
    case (MergePR, ConflictResolved) => Some(RunReviewer)
    case (MergePR, ConflictUnresolved) => Some(DevFailed)
    case (_, AgentTimedOut) => if IsTerminal(step) || step.Prepare? then None else Some(TimedOut)
    case (_, AgentStalled) => if IsTerminal(step) || step.Prepare? then None else Some(Stalled)
    case (_, AgentAborted) => if IsTerminal(step) || step.Prepare? then None else Some(Aborted)
    case _ => None
  }

  /** The budget that is asked when the reviewer is not satisfied. */
  predicate BudgetLeft(rc: RunContext) {
    if rc.inMergeReReview then rc.mergeReReviewRound < rc.maxMergeReReviewRounds else rc.round < rc.maxRounds
  }

  /** Where among the edges out of `step` the routed one stands. */
  function EdgeIndex(step: Step, ev: Event, rc: RunContext): nat {
    match (step, ev)
    case (Prepare, NotEligible) => 0
    case (Prepare, PrepareFailed) =>
      (match rc.prepareFailKind
       case NoKind => if rc.worktreeCreateFailed then 1 else 4
       case KindDevFailed => 1
       case KindReviewFailed => 2
       case _ => 3)
    case (Prepare, Ready) =>
      if !rc.resume || rc.resumeVerdict == RequestChanges then 5 else if rc.resumeVerdict == NoVerdict then 6 else 7
    case (RunDev, DevDone) => 0
    case (RunDev, DevFailedEvent) => 1
    case (RunDev, DevGateRejected) => if rc.devAttempt < 3 then 2 else 3
    case (RunDev, AgentTimedOut) => 4
    case (RunDev, AgentStalled) => 5
    case (RunDev, AgentAborted) => 6
    case (SyncCI, CIGreen) => 0
    case (SyncCI, CIFailed) => 1
    case (SyncCI, ConflictUnresolved) => 2
    case (SyncCI, AgentTimedOut) => 3
    case (SyncCI, AgentStalled) => 4
    case (SyncCI, AgentAborted) => 5
    case (RunReviewer, ReviewApproved) => 0
    case (RunReviewer, ReviewFailedEvent) => 1
    case (RunReviewer, ChangesRequested) => (if rc.inMergeReReview then 4 else 2) + (if BudgetLeft(rc) then 0 else 1)
    case (RunReviewer, PrecheckFailed) => (if rc.inMergeReReview then 8 else 6) + (if BudgetLeft(rc) then 0 else 1)
    case (RunReviewer, AgentTimedOut) => 10
    case (RunReviewer, AgentStalled) => 11
    case (RunReviewer, AgentAborted) => 12
    case (MergePR, Merged) => 0
    case (MergePR, MergeFailedEvent) => 1
    case (MergePR, ConflictResolved) => 2
    case (MergePR, ConflictUnresolved) => 3
    case (MergePR, AgentTimedOut) => 4
    case (MergePR, AgentStalled) => 5
    case _ => 6
  }

  function EdgesFrom(step: Step): seq<Transition> {
    match step
    case Prepare => PREPARE_EDGES
    case RunDev => RUN_DEV_EDGES
    case SyncCI => SYNC_CI_EDGES
    case RunReviewer => RUN_REVIEWER_EDGES
    case MergePR => MERGE_PR_EDGES
    case _ => []
  }

  /** Of the edges out of `step`, exactly the routed one matches, and none when nothing is routed. */
  ghost predicate RouteIsOnlyMatch(step: Step, ev: Event, rc: RunContext) {
    var edges, i := EdgesFrom(step), EdgeIndex(step, ev, rc);
    && (Route(step, ev, rc).Some? ==> i < |edges| && edges[i].to == Route(step, ev, rc).value)
    && forall j :: 0 <= j < |edges| ==> (IsMatch(edges[j], step, ev, rc) <==> Route(step, ev, rc).Some? && j == i)
  }

  lemma PrepareRoutes(ev: Event, rc: RunContext)
    ensures RouteIsOnlyMatch(Prepare, ev, rc)
  {
  }

  lemma RunDevRoutes(ev: Event, rc: RunContext)
    ensures RouteIsOnlyMatch(RunDev, ev, rc)
  {
  }

  lemma SyncCIRoutes(ev: Event, rc: RunContext)
    ensures RouteIsOnlyMatch(SyncCI, ev, rc)
  {
  }

  lemma ChangesRequestedRoutes(rc: RunContext)
    ensures RouteIsOnlyMatch(RunReviewer, ChangesRequested, rc)
  {
  }

  lemma PrecheckFailedRoutes(rc: RunContext)
    ensures RouteIsOnlyMatch(RunReviewer, PrecheckFailed, rc)
  {
  }

  lemma RunReviewerRoutes(ev: Event, rc: RunContext)
    ensures RouteIsOnlyMatch(RunReviewer, ev, rc)
  {
    match ev
    case ChangesRequested => ChangesRequestedRoutes(rc);
    case PrecheckFailed => PrecheckFailedRoutes(rc);
    case _ =>
  }

  lemma MergePRRoutes(ev: Event, rc: RunContext)
    ensures RouteIsOnlyMatch(MergePR, ev, rc)
  {
  }

  lemma OtherStepsDoNotMatch(from: Step, step: Step, ev: Event, rc: RunContext)
    ensures from != step ==> Matches(EdgesFrom(from), step, ev, rc) == []
  {
    if from != step {
      NoMatches(EdgesFrom(from), step, ev, rc);
    }
  }

  lemma MatchesOfFive(a: seq<Transition>, b: seq<Transition>, c: seq<Transition>, d: seq<Transition>,
      e: seq<Transition>,
      step: Step, ev: Event, rc: RunContext)
    ensures Matches(a + b + c + d + e, step, ev, rc)
      == Matches(a, step, ev, rc) + Matches(b, step, ev, rc) + Matches(c, step, ev, rc)
        + Matches(d, step, ev, rc) + Matches(e, step, ev, rc)
  {
    MatchesOfConcat(a + b + c + d, e, step, ev, rc);
    MatchesOfConcat(a + b + c, d, step, ev, rc);
    MatchesOfConcat(a + b, c, step, ev, rc);
    MatchesOfConcat(a, b, step, ev, rc);
  }

  /** Only the edges out of `step` can match there. */
  lemma MatchesAreLocal(step: Step, ev: Event, rc: RunContext)
    ensures Matches(LOOP_TRANSITIONS, step, ev, rc) == Matches(EdgesFrom(step), step, ev, rc)
  {
    MatchesOfFive(PREPARE_EDGES, RUN_DEV_EDGES, SYNC_CI_EDGES, RUN_REVIEWER_EDGES, MERGE_PR_EDGES, step, ev, rc);
    OtherStepsDoNotMatch(Prepare, step, ev, rc);
    OtherStepsDoNotMatch(RunDev, step, ev, rc);
    OtherStepsDoNotMatch(SyncCI, step, ev, rc);
    OtherStepsDoNotMatch(RunReviewer, step, ev, rc);
    OtherStepsDoNotMatch(MergePR, step, ev, rc);
  }

  /** The whole table against the routing function: one match, to the routed step, or none. */
  lemma TableIsRoute(step: Step, ev: Event, rc: RunContext)
    ensures var ms := Matches(LOOP_TRANSITIONS, step, ev, rc);
      if Route(step, ev, rc).Some? then |ms| == 1 && ms[0].to == Route(step, ev, rc).value else ms == []
  {
    MatchesAreLocal(step, ev, rc);
    match step {
      case Prepare => PrepareRoutes(ev, rc);
      case RunDev => RunDevRoutes(ev, rc);
      case SyncCI => SyncCIRoutes(ev, rc);
      case RunReviewer => RunReviewerRoutes(ev, rc);
      case MergePR => MergePRRoutes(ev, rc);
      case _ =>
    }
    if Route(step, ev, rc).Some? {
      OneMatch(EdgesFrom(step), EdgeIndex(step, ev, rc), step, ev, rc);
    } else {
      NoMatches(EdgesFrom(step), step, ev, rc);
    }
  }

  // ----- the guards are disjoint, but not total ----------------------------------------------

  /** The two strings the guards compare have one of their documented values. */
  predicate Documented(rc: RunContext) {
    !rc.prepareFailKind.OtherKind? && (rc.resume ==> !rc.resumeVerdict.OtherVerdict?)
  }

  /** The (step, event) pair of every edge has exactly one matching edge. */
  ghost predicate Total(ts: seq<Transition>, rc: RunContext) {
    forall t :: t in ts ==> |Matches(ts, t.from, t.event, rc)| == 1
  }

  lemma OneEdgeBreaksTotal(ts: seq<Transition>, t: Transition, rc: RunContext)
    requires t in ts && |Matches(ts, t.from, t.event, rc)| != 1
    ensures !Total(ts, rc)
  {
  }

  lemma EdgesStartWhereTheySay(from: Step, t: Transition)
    requires t in EdgesFrom(from)
    ensures t.from == from
  {
  }

  lemma InOneOfFive(a: seq<Transition>, b: seq<Transition>, c: seq<Transition>, d: seq<Transition>, e: seq<Transition>,
      t: Transition)
    ensures t in a + b + c + d + e <==> t in a || t in b || t in c || t in d || t in e
  {
  }

  lemma InTable(t: Transition)
    ensures t in LOOP_TRANSITIONS <==> t in EdgesFrom(t.from)
  {
    InOneOfFive(PREPARE_EDGES, RUN_DEV_EDGES, SYNC_CI_EDGES, RUN_REVIEWER_EDGES, MERGE_PR_EDGES, t);
    if t in EdgesFrom(Prepare) { EdgesStartWhereTheySay(Prepare, t); }
    if t in EdgesFrom(RunDev) { EdgesStartWhereTheySay(RunDev, t); }
    if t in EdgesFrom(SyncCI) { EdgesStartWhereTheySay(SyncCI, t); }
    if t in EdgesFrom(RunReviewer) { EdgesStartWhereTheySay(RunReviewer, t); }
    if t in EdgesFrom(MergePR) { EdgesStartWhereTheySay(MergePR, t); }
  }

  lemma EdgeRoutes(t: Transition, rc: RunContext)
    requires t in EdgesFrom(t.from) && Documented(rc)
    ensures Route(t.from, t.event, rc).Some?
  {
  }

  lemma DocumentedIsTotal(rc: RunContext)
    requires Documented(rc)
    ensures Total(LOOP_TRANSITIONS, rc)
  {
    forall t | t in LOOP_TRANSITIONS ensures |Matches(LOOP_TRANSITIONS, t.from, t.event, rc)| == 1 {
      InTable(t);
      EdgeRoutes(t, rc);
      TableIsRoute(t.from, t.event, rc);
    }
  }

  lemma UndocumentedIsNotTotal(t: Transition, rc: RunContext)
    requires t in LOOP_TRANSITIONS && Route(t.from, t.event, rc).None?
    ensures !Total(LOOP_TRANSITIONS, rc)
  {
    assert |Matches(LOOP_TRANSITIONS, t.from, t.event, rc)| == 0 by { TableIsRoute(t.from, t.event, rc); }
    OneEdgeBreaksTotal(LOOP_TRANSITIONS, t, rc);
  }

  /** The table's own comment calls the guards of each pair disjoint and total over the context. They
      are disjoint everywhere (`TableIsRoute`), and total exactly on the documented values. */
  lemma TotalIffDocumented(rc: RunContext)
    ensures Total(LOOP_TRANSITIONS, rc) <==> Documented(rc)
  {
    if Documented(rc) {
      DocumentedIsTotal(rc);
    } else {
      var t := if rc.prepareFailKind.OtherKind? then PREPARE_EDGES[1] else PREPARE_EDGES[5];
      assert t in EdgesFrom(Prepare);
      InTable(t);
      UndocumentedIsNotTotal(t, rc);
    }
  }

  lemma NotTotal(rc: RunContext)
    requires rc.resume && rc.resumeVerdict == OtherVerdict("commented")
    ensures !Total(LOOP_TRANSITIONS, rc) && Matches(LOOP_TRANSITIONS, Prepare, Ready, rc) == []
  {
    TotalIffDocumented(rc);
    TableIsRoute(Prepare, Ready, rc);
  }
}
