/** The run: the step handlers with everything they do to the worktree, the branch, the PR and the
    event log. Git, GitHub and the agents answer arbitrarily (`*`), so each contract holds for every
    answer they could give; ghost fields remember what was classified green, what was changed since
    the last review, and every attempt to merge. */
module Runner {
  import opened Options
  import opened LoopDef
  import opened EventLog
  import opened CiWait
  import opened Decimal
  import Text

  datatype Outcome = OutSuccess | OutDevFailed | OutMergeFailed | OutConflictResolved | OutConflictUnresolved

  datatype RebaseResult = Clean | FetchFailed | MergeConflict | RebaseFailed
  datatype ResolveResult = Resolved | CapExhausted | Infrastructure
  datatype SyncResult = Rebased(conflictResolved: bool) | SyncFailed(fetch: bool, capExhausted: bool)

  datatype Poll = Settled(result: Result) | PollTimeout | PollError

  datatype AgentExit = ExitCode(code: int) | ExitTimeout | ExitStalled | ExitThinkingLoop | ExitError

  datatype ReviewSubmit = ReviewSubmit(verdict: Verdict, confidence: Confidence, body: string)
  datatype ReviewerState = ReviewerState(params: Option<ReviewSubmit>, gateRejected: bool)

  datatype ReviewState = StateApproved | StateChangesRequested | StateOther
  datatype GitHubReview = GitHubReview(state: ReviewState, author: string, body: string, id: string)
  datatype PRState = Open | MergedPR | ClosedPR | UnexpectedPR

  /** What GitHub and git answer to a resumed run; `all` are the PR's submitted reviews, oldest first. */
  datatype ResumeAnswers = ResumeAnswers(prFetched: bool, state: PRState, prNumber: string, branchOk: bool,
                                         loginOk: bool, worktreeOk: bool, reviewsFetched: bool, all: seq<GitHubReview>,
                                         labels: seq<string>, inlineComments: Option<string>, reviewerReady: bool,
                                         cis: nat -> CiAnswers, repairs: nat -> RepairAnswers)

  /** `collision` is `None` when it cannot be checked for. */
  datatype PrepareAnswers = PrepareAnswers(cleaned: bool, collision: Option<bool>, created: bool, gh: ResumeAnswers)

  /** A commit: its sha, the state of the agents' work it carries, and the newest version of main it
      contains. */
  datatype Head = Head(sha: string, work: int, base: int)

  // ----- what git, GitHub and the agents answer ---------------------------------------------

  /** How an agent with write tools ended, and what it left: the PR's head, HEAD of the dev worktree,
      origin/main as last fetched, and whether a rebase is in progress. */
  datatype AgentRun = AgentRun(exit: AgentExit, head: Head, local: Head, main: int, rebasing: bool)

  datatype FetchAnswer = FetchAnswer(ok: bool, main: int)

  /** `git rebase origin/main`: whether it goes through, as which commit; if not, where HEAD stands when it
      stops (`None` when it does not begin), what `git status` prints, and where an abort leaves HEAD. */
  datatype RebaseAnswers = RebaseAnswers(fetch: FetchAnswer, clean: bool, sha: string, stopped: Option<Head>,
                                         status: Option<string>, abortedTo: Head)

  /** The check runs that each query finds (`None` when it fails), and how many more queries than one there
      are before the deadline. */
  datatype CiAnswers = CiAnswers(queries: nat -> Option<seq<CheckRun>>, ticks: nat)

  datatype PushAnswers = PushAnswers(pushed: bool, shaRead: bool, ci: CiAnswers)

  datatype RepairAnswers = RepairAnswers(shaBeforeRead: bool, agentFileOk: bool, agent: AgentRun, shaAfterRead: bool)

  /** One turn at a rebase conflict; `treeClean` is `None` when the status command fails. */
  datatype ConflictTurn = ConflictTurn(files: Option<seq<string>>, rendered: bool, agent: AgentRun,
                                       treeClean: Option<bool>, ancestorKnown: bool)

  datatype ConflictAnswers = ConflictAnswers(agentFileOk: bool, turns: nat -> ConflictTurn, abortedTo: Head)

  datatype SyncAnswers = SyncAnswers(fetch: FetchAnswer, freshnessKnown: bool, rebase: RebaseAnswers,
                                     conflict: ConflictAnswers, push: PushAnswers,
                                     cis: nat -> CiAnswers, repairs: nat -> RepairAnswers)

  datatype ResyncAnswers = ResyncAnswers(rebase: RebaseAnswers, push: PushAnswers)

  /** What the merge command answered; `Refused(true)` is the refusal of a head that is out of date. */
  datatype MergeAnswer = MergedOk | Refused(outOfDate: bool)

  datatype MergeAnswers = MergeAnswers(numberParses: bool, fetch: FetchAnswer, freshnessKnown: bool, ci: CiAnswers,
                                       rebase: RebaseAnswers, conflict: ConflictAnswers, push: PushAnswers,
                                       says: nat -> MergeAnswer, resyncs: nat -> ResyncAnswers)

  datatype CommitAnswers = CommitAnswers(staged: bool, nothingStaged: bool, committed: bool, commit: Head, pushed: bool,
                                         prNumber: Option<string>)

  /** What the broker says of the invocation: a call was accepted, with the tree unchanged since; or a
      rejected one can be recovered. */
  datatype GateAnswers = GateAnswers(accepted: bool, unchangedSince: bool, recovered: bool)

  datatype DevAnswers = DevAnswers(promptOk: bool, brokerUp: bool, agent: AgentRun, gate: GateAnswers,
                                   commit: CommitAnswers)

  /** One reviewer attempt; `precheckOk` is `None` when the precheck cannot be run. */
  datatype ReviewerTurn = ReviewerTurn(swept: bool, precheckOk: Option<bool>, exit: AgentExit,
                                       state: Option<ReviewerState>)

  /** Submitting a review: what is checked before, and the id and the number of inline comments GitHub
      gives back. */
  datatype SubmitAnswers = SubmitAnswers(ready: bool, submitted: Option<(string, int)>)

  datatype ReviewerAnswers = ReviewerAnswers(fetch: FetchAnswer, worktreeOk: bool, numberParses: bool, headRead: bool,
                                             turns: nat -> ReviewerTurn, submit: SubmitAnswers, dirty: Option<bool>,
                                             findingsLoaded: bool)

  const MAX_CI_FIX_ROUNDS := 2
  const MAX_OUT_OF_DATE_RETRIES := 3
  const MAX_REVIEWER_ATTEMPTS := 3
  const MAX_MERGE_RE_REVIEW_ROUNDS := 2

  /** What the check runs of a commit amount to. */
  ghost predicate IsResultOf(runs: seq<CheckRun>, result: Result) {
    && (result.Red? <==> exists r :: r in runs && RunFailed(r))
    && (result.Green? <==> AllGreen(Items(runs)))
  }

  ghost predicate IsPending(answer: Option<seq<CheckRun>>) {
    answer.Some? && IsResultOf(answer.value, StillPending)
  }

  /** Query `n` is the first that does not find the checks pending, and `p` says what it found. */
  ghost predicate DecidedBy(q: CiAnswers, n: nat, p: Poll) {
    && (forall j :: 0 <= j < n ==> IsPending(q.queries(j)))
    && match p
       case PollError => q.queries(n).None?
       case Settled(result) =>
         q.queries(n).Some? && IsResultOf(q.queries(n).value, result) && !result.StillPending?
       case PollTimeout => false
  }

  /** How waiting for the checks ends. */
  ghost predicate Says(q: CiAnswers, p: Poll) {
    if p.PollTimeout? then forall j :: 0 <= j <= q.ticks ==> IsPending(q.queries(j))
    else exists n :: 0 <= n <= q.ticks && DecidedBy(q, n, p)
  }

  ghost predicate SaysGreen(q: CiAnswers) {
    Says(q, Settled(Green))
  }

  /** It ends in one way only, up to the list of failed checks. */
  lemma OnePollResult(q: CiAnswers, p: Poll, p': Poll)
    requires Says(q, p) && Says(q, p')
    ensures p == p' || (p.Settled? && p'.Settled? && p.result.Red? && p'.result.Red?)
  {
    if !p.PollTimeout? { DecidedInTime(q, p); }
    if !p'.PollTimeout? { DecidedInTime(q, p'); }
    if !p.PollTimeout? && !p'.PollTimeout? {
      var n :| 0 <= n <= q.ticks && DecidedBy(q, n, p);
      var n' :| 0 <= n' <= q.ticks && DecidedBy(q, n', p');
      NotPending(q, n, p);
      NotPending(q, n', p');
      assert n == n';
    }
  }

  lemma DecidedInTime(q: CiAnswers, p: Poll)
    requires Says(q, p) && !p.PollTimeout?
    ensures !Says(q, PollTimeout)
  {
    var n :| 0 <= n <= q.ticks && DecidedBy(q, n, p);
    NotPending(q, n, p);
  }

  lemma NotPending(q: CiAnswers, n: nat, p: Poll)
    requires DecidedBy(q, n, p)
    ensures !IsPending(q.queries(n))
  {
  }

  /** The dev agent ran without a failure and pushed a head other than `before`. */
  predicate Repairs(a: RepairAnswers, before: string) {
    && a.shaBeforeRead && a.agentFileOk && a.agent.exit == ExitCode(0) && a.shaAfterRead
    && a.agent.head.sha != "" && a.agent.head.sha != before
  }

  /** The head of the PR in round `round`, when it was `sha` in the first. */
  function HeadBefore(repairs: nat -> RepairAnswers, sha: string, round: nat): string {
    if round == 0 then sha else repairs(round - 1).agent.head.sha
  }

  /** In each of the first `rounds` rounds the checks were red or overdue, and were repaired. */
  ghost predicate RepairedTo(cis: nat -> CiAnswers, repairs: nat -> RepairAnswers, sha: string, rounds: nat) {
    forall j :: 0 <= j < rounds ==>
      !SaysGreen(cis(j)) && !Says(cis(j), PollError) && Repairs(repairs(j), HeadBefore(repairs, sha, j))
  }

  /** At most one entry was appended, and it says how waiting for the checks ended. */
  ghost predicate Logged(before: seq<Entry>, after: seq<Entry>, fixRound: nat, q: CiAnswers) {
    after == before || exists r :: after == before + [CIWaitFinished(r, fixRound)] && RecordsPoll(r, q)
  }

  ghost predicate RecordsPoll(r: CIResult, q: CiAnswers) {
    match r
    case CIGreenResult => SaysGreen(q)
    case CITimeoutResult => Says(q, PollTimeout)
    case CIRedResult => !SaysGreen(q) && !Says(q, PollTimeout) && !Says(q, PollError)
  }

  lemma PollSaysWhat(q: CiAnswers, p: Poll)
    requires Says(q, p)
    ensures SaysGreen(q) <==> p == Settled(Green)
    ensures Says(q, PollError) <==> p == PollError
    ensures Says(q, PollTimeout) <==> p == PollTimeout
  {
    if SaysGreen(q) { OnePollResult(q, p, Settled(Green)); }
    if Says(q, PollError) { OnePollResult(q, p, PollError); }
    if Says(q, PollTimeout) { OnePollResult(q, p, PollTimeout); }
  }

  predicate Starts(t: ConflictTurn) {
    t.files.Some? && t.rendered
  }

  /** What is logged at the end of a merge phase: that it merged, was skipped without a try, or failed. */
  function News(out: Outcome, tried: bool): seq<Entry> {
    match out
    case OutSuccess => if tried then [PRMerged] else [AutomergeSkipped]
    case OutMergeFailed => [AutomergeFailed]
    case _ => []
  }

  /** The merge news in the log are `before` and then those of `out`, unless appending them failed. */
  ghost predicate Reported(before: seq<Entry>, after: seq<Entry>, out: Outcome, tried: bool, appendsWork: bool) {
    after == before + News(out, tried) || (!appendsWork && after == before)
  }

  /** The agent finished the rebase, left a clean tree, and HEAD contains origin/main. */
  predicate ResolvesConflict(t: ConflictTurn) {
    && t.agent.exit == ExitCode(0) && !t.agent.rebasing && t.treeClean == Some(true)
    && t.ancestorKnown && t.agent.main <= t.agent.local.base
  }

  /** The push goes through and the pushed head turns out green. */
  ghost predicate PushesGreen(a: PushAnswers) {
    a.pushed && a.shaRead && SaysGreen(a.ci)
  }

  /** Nothing stands in the way of the review: the branch is up to date and green, or it can be rebased
      without a conflict and is green as pushed. */
  ghost predicate GateOpens(a: SyncAnswers, b: Branch, rebasing: bool) {
    && a.fetch.ok && a.freshnessKnown
    && if a.fetch.main <= b.local.base then SaysGreen(a.cis(0))
       else a.rebase.fetch.ok && a.rebase.clean && !rebasing && PushesGreen(a.push)
  }

  // ----- the branch ------------------------------------------------------------------------------

  /** How things were when the last review was written, and whether an agent has been at work since. */
  datatype SinceReview = SinceReview(head: Head, local: Head, pushes: nat, changed: bool)

  /** The PR's head on GitHub, the HEAD of the dev worktree, origin/main as last fetched, whether the runner's
      last fetch since the review went through, and how many rebases and pushes there have been. */
  datatype Branch = Branch(head: Head, local: Head, main: int, fetched: bool, rebases: nat, pushes: nat,
                           since: SinceReview)

  /** The ancestor test `git merge-base --is-ancestor origin/main HEAD`, in the dev worktree. */
  predicate UpToDate(b: Branch) {
    b.main <= b.local.base
  }

  function Fetched(b: Branch, a: FetchAnswer): Branch {
    b.(main := a.main, fetched := a.ok)
  }

  /** A rebase without conflict replays the same work on origin/main. */
  function RebasedOntoMain(b: Branch, sha: string): Branch {
    b.(local := Head(sha, b.local.work, if UpToDate(b) then b.local.base else b.main), rebases := b.rebases + 1)
  }

  function Pushed(b: Branch): Branch {
    b.(head := b.local, pushes := b.pushes + 1)
  }

  /** The last review is the point from which changes count. */
  function AtReview(b: Branch): Branch {
    b.(fetched := false, since := SinceReview(b.head, b.local, b.pushes, false))
  }

  /** What an agent with write tools leaves. */
  function Edited(b: Branch, w: AgentRun): Branch {
    b.(head := w.head, local := w.local, main := w.main, since := b.since.(changed := true))
  }

  /** A line of `git status --porcelain` for a path with a conflict. */
  predicate IsUnmerged(l: string) {
    |l| >= 2 && (l[0] == 'U' || l[1] == 'U' || l[..2] == "AA" || l[..2] == "DD")
  }

  lemma UnmergedCodes(l: string)
    requires |l| >= 2
    ensures IsUnmerged(l)
      <==> l[0] == 'U' || l[1] == 'U' || (l[0] == 'A' && l[1] == 'A') || (l[0] == 'D' && l[1] == 'D')
  {
    assert l[..2] == [l[0], l[1]];
  }

  // ----- what is remembered about merging ----------------------------------------------------

  datatype GreenAt = GreenAt(sha: string, checks: seq<CheckItem>)

  /** One call of the merge command: the branch it was made on, what it answered, the last review at that
      moment, and the last green classification since the last push. */
  datatype MergeTry = MergeTry(branch: Branch, answer: MergeAnswer, review: Option<Review>, green: Option<GreenAt>) {
    predicate Ok() { answer.MergedOk? }
    predicate OutOfDate() { answer == Refused(true) }
  }

  ghost predicate IsGreenFor(g: Option<GreenAt>, head: Head) {
    g.Some? && g.value.sha == head.sha && AllGreen(g.value.checks)
  }

  predicate Approves(r: Option<Review>) {
    r.Some? && r.value.verdict == Approve
  }

  /** The last review is an approval that was written for the head the PR had then (the approval of a
      resumed run names no head), no agent has been at work since, and what was committed in the dev
      worktree then still is. */
  predicate Entitled(b: Branch, review: Option<Review>) {
    && Approves(review) && review.value.confidence != Low && review.value.headSha in {"", b.since.head.sha}
    && !b.since.changed && b.since.pushes <= b.pushes && b.local.work == b.since.local.work
  }

  /** A merge may be tried: the dev worktree's HEAD contains a freshly fetched origin/main, the PR's head is green, and
      either nothing moved since the review or the PR's head is what was pushed last. */
  ghost predicate Safe(t: MergeTry) {
    var b := t.branch;
    && Entitled(b, t.review) && b.fetched && UpToDate(b) && IsGreenFor(t.green, b.head)
    && if b.pushes == b.since.pushes then b.head == b.since.head && b.local == b.since.local else b.head == b.local
  }

  /** The PR's head carries the work of the head that was reviewed, on top of origin/main. */
  predicate MergesTheReviewed(b: Branch) {
    b.head.work == b.since.head.work && b.main <= b.head.base
  }

  /** If the run has pushed since the review, no other work was waiting unpushed in the dev worktree when
      the review was written; if not, the reviewed head contains origin/main. */
  predicate NothingHeldBack(b: Branch) {
    if b.pushes > b.since.pushes then b.since.local.work == b.since.head.work else b.main <= b.since.head.base
  }

  lemma MergesTheReviewedIff(t: MergeTry)
    requires Safe(t)
    ensures MergesTheReviewed(t.branch) <==> NothingHeldBack(t.branch)
    ensures t.branch.since.local == t.branch.since.head ==> NothingHeldBack(t.branch)
  {
  }

  /** A commit the dev agent left unpushed is merged unreviewed once main has moved: the gate before the
      review finds the worktree up to date and pushes nothing, the reviewer approves the PR's head, and
      the merge phase rebases and pushes the commit. */
  lemma UnpushedCommitIsMerged(b: Branch, w: AgentRun, main: int, sha: string, review: Review, checks: seq<CheckItem>)
    returns (t: MergeTry)
    requires b.local == b.head && UpToDate(b) && w.head == b.head && w.main == b.main
    requires w.local.work != b.head.work && w.local.base == b.head.base < main
    requires review.verdict == Approve && review.confidence != Low && review.headSha == b.head.sha && AllGreen(checks)
    ensures UpToDate(Edited(b, w))
    ensures t.branch == Pushed(RebasedOntoMain(Fetched(AtReview(Edited(b, w)), FetchAnswer(true, main)), sha))
    ensures t.Ok() && Safe(t) && t.branch.since.head == b.head && t.branch.head.work == w.local.work
    ensures !MergesTheReviewed(t.branch)
  {
    var merged := Pushed(RebasedOntoMain(Fetched(AtReview(Edited(b, w)), FetchAnswer(true, main)), sha));
    t := MergeTry(merged, MergedOk, Some(review), Some(GreenAt(sha, checks)));
  }

  /** A worktree the dev agent rebased without pushing passes the ancestor test for a PR head that lacks
      origin/main. */
  lemma StaleHeadIsMerged(b: Branch, w: AgentRun, review: Review, checks: seq<CheckItem>) returns (t: MergeTry)
    requires w.head == b.head && b.head.base < w.main <= w.local.base
    requires review.verdict == Approve && review.confidence != Low && review.headSha == b.head.sha && AllGreen(checks)
    ensures t.branch == Fetched(AtReview(Edited(b, w)), FetchAnswer(true, w.main))
    ensures t.Ok() && Safe(t) && t.branch.head == b.head && t.branch.head.base < t.branch.main
    ensures !MergesTheReviewed(t.branch)
  {
    var merged := Fetched(AtReview(Edited(b, w)), FetchAnswer(true, w.main));
    t := MergeTry(merged, MergedOk, Some(review), Some(GreenAt(b.head.sha, checks)));
  }

  /** The tries of one merge phase: all safe, only the last went through, if the phase `merged`, every
      other was refused because the head was out of date, and between each and the first one rebase and
      one push per try. */
  ghost predicate GoodTries(ts: seq<MergeTry>, merged: bool) {
    && (forall i :: 0 <= i < |ts| ==> Safe(ts[i]) && (ts[i].Ok() <==> merged && i == |ts| - 1))
    && (forall i :: 0 <= i < |ts| - 1 ==> ts[i].OutOfDate())
    && (forall i :: 0 <= i < |ts| ==> Follows(ts[0].branch, ts[i].branch, i))
  }

  /** `later` is `n` rebases and pushes after `first`, with no other review in between. */
  predicate Follows(first: Branch, later: Branch, n: nat) {
    later.rebases == first.rebases + n && later.pushes == first.pushes + n && later.since == first.since
  }

  lemma OneMoreTry(ts: seq<MergeTry>, t: MergeTry)
    requires GoodTries(ts, false) && Safe(t)
    requires ts != [] ==> Follows(ts[0].branch, t.branch, |ts|) && ts[|ts| - 1].OutOfDate()
    ensures GoodTries(ts + [t], t.Ok())
  {
  }

  /** The tries of a phase that began on branch `first`, each with its answer. */
  ghost predicate Tried(ts: seq<MergeTry>, first: Branch, says: nat -> MergeAnswer) {
    && ts != [] && GoodTries(ts, ts[|ts| - 1].Ok()) && ts[0].branch == first
    && forall i :: 0 <= i < |ts| ==> ts[i].answer == says(i)
  }

  /** The phase may go on with another try, on `b`. */
  ghost predicate MayRetry(ts: seq<MergeTry>, first: Branch, b: Branch, says: nat -> MergeAnswer) {
    if ts == [] then b == first
    else Tried(ts, first, says) && ts[|ts| - 1].OutOfDate() && Follows(first, b, |ts|)
  }

  lemma OneMoreAnswer(ts: seq<MergeTry>, t: MergeTry, first: Branch, says: nat -> MergeAnswer)
    requires MayRetry(ts, first, t.branch, says) && Safe(t) && t.answer == says(|ts|)
    ensures Tried(ts + [t], first, says) && Follows(first, t.branch, |ts|)
  {
    if ts != [] {
      OneMoreTry(ts, t);
    }
  }

  /** How often a merge phase brings the branch up to date again: after every try that was refused as out
      of date, except the last one it is allowed. */
  function ResyncsOf(ts: seq<MergeTry>): nat {
    if ts == [] then 0
    else if ts[|ts| - 1].OutOfDate() && |ts| < MAX_OUT_OF_DATE_RETRIES then |ts|
    else |ts| - 1
  }

  /** Rebase and push go through, and the pushed head turns out green. */
  ghost predicate Resyncs(a: ResyncAnswers) {
    a.rebase.fetch.ok && a.rebase.clean && PushesGreen(a.push)
  }

  /** The tries were answered in order, and they stop at a refusal for another reason, at the third, or when
      the branch cannot be brought up to date; with a `rebasing` in progress it never can. */
  ghost predicate AnsweredBy(ts: seq<MergeTry>, a: MergeAnswers, rebasing: bool) {
    && (forall i :: 0 <= i < |ts| ==> ts[i].answer == a.says(i))
    && (ts != [] && ts[|ts| - 1].OutOfDate() && |ts| < MAX_OUT_OF_DATE_RETRIES ==>
          !Resyncs(a.resyncs(|ts| - 1)) || rebasing)
  }

  /** The tries of a phase that began on branch `first` are all it makes: it ends with `out`, after `resyncs`
      resyncs. */
  ghost predicate EndsWith(out: Outcome, ts: seq<MergeTry>, first: Branch, a: MergeAnswers, resyncs: int,
                           rebasing: bool) {
    && 0 < |ts| <= MAX_OUT_OF_DATE_RETRIES && ts[0].branch == first && AnsweredBy(ts, a, rebasing)
    && (out == OutSuccess || out == OutMergeFailed) && GoodTries(ts, out == OutSuccess) && resyncs == ResyncsOf(ts)
  }

  /** How an attempt that the gate did not reject ends the round; `swept` says that earlier pending reviews
      are out of the way. */
  predicate EndsAs(t: ReviewerTurn, swept: bool, fail: Option<Event>) {
    var ran := swept && t.precheckOk == Some(true);
    && (fail == Some(PrecheckFailed) ==> swept && t.precheckOk == Some(false))
    && (fail == Some(AgentTimedOut) <==> ran && t.exit.ExitTimeout?)
    && (fail == Some(AgentStalled) <==> ran && t.exit.ExitStalled?)
    && (fail == Some(AgentAborted) <==> ran && t.exit.ExitThinkingLoop?)
    && (fail.None? <==> ran && t.exit == ExitCode(0))
  }

  /** The precheck let the reviewer run, and the gate rejected what it submitted. */
  predicate TurnRejected(t: ReviewerTurn) {
    t.precheckOk == Some(true) && t.state.Some? && t.state.value.gateRejected
  }

  // ----- what a reviewer turn does to the context -------------------------------------------

  /** The counters after a reviewer turn that left `count` reviews in the log. */
  function Reviewed(c: RunContext, count: int): RunContext {
    c.(round := count,
       mergeReReviewRound := if c.inMergeReReview then c.mergeReReviewRound + 1 else c.mergeReReviewRound)
  }

  /** The dev is sent back with findings while the budget that applies is not used up; otherwise only
      the counters change. */
  predicate SentBack(before: RunContext, after: RunContext, count: int) {
    if BudgetLeft(Reviewed(before, count)) then
      after == Reviewed(before, count)
        .(findings := after.findings, findingsFor := after.findingsFor, devRetry := true, devAttempt := 0)
    else after == Reviewed(before, count)
  }

  predicate IsDecision(ev: Event) {
    ev.ReviewApproved? || ev.ChangesRequested? || ev.PrecheckFailed?
  }

  /** What event `ev` of a reviewer turn says of the last review, and what it did to the context. */
  predicate Decided(before: RunContext, after: RunContext, ev: Event, last: Review, count: int) {
    match ev
    case ReviewApproved => last.verdict == Approve && after == Reviewed(before, count)
    case ChangesRequested =>
      && last.verdict == RequestChanges && SentBack(before, after, count)
      && (BudgetLeft(after) ==> after.findings == last.body != "" && after.findingsFor == last.reviewId)
    case PrecheckFailed => last.verdict == RequestChanges && last.confidence == Low && SentBack(before, after, count)
    case _ => false
  }

  lemma DecisionsAreRouted(before: RunContext, after: RunContext, ev: Event, last: Review, count: int)
    requires Decided(before, after, ev, last, count)
    ensures IsDecision(ev) && Route(RunReviewer, ev, after).Some? && SameLimits(before, after)
    ensures after.round == count && after.mergeReReviewRound == Reviewed(before, count).mergeReReviewRound
    ensures Route(RunReviewer, ev, after) == Some(RunDev)
      ==> BudgetLeft(after) && after.devRetry && after.devAttempt == 0
  {
  }

  // ----- how long a run can be -----------------------------------------------------------------

  function Max0(n: int): nat {
    if n > 0 then n else 0
  }

  /** How often the reviewer can still send the dev back. */
  function Trips(c: RunContext, count: int): nat {
    (if c.inMergeReReview then 0 else Max0(c.maxRounds - 1 - count))
      + Max0(c.maxMergeReReviewRounds - 1 - c.mergeReReviewRound)
  }

  /** How many steps one trip can still take from here, with three dev attempts. */
  function Rank(step: Step, devAttempt: int): nat {
    match step
    case Prepare => 7
    case RunDev => 4 + Max0(2 - devAttempt)
    case SyncCI => 3
    case RunReviewer => 2
    case MergePR => 1
    case _ => 0
  }

  function Measure(step: Step, c: RunContext, count: int): nat {
    5 * Trips(c, count) + Rank(step, c.devAttempt)
  }

  /** At most three dev attempts, counted only while the dev step repeats. */
  predicate AttemptsFit(step: Step, c: RunContext) {
    if step.RunDev? then 0 <= c.devAttempt <= 2 else !IsTerminal(step) ==> c.devAttempt == 0
  }

  /** A handler call that moved the machine: the limits stay, there is a next step the attempts fit, and the
      measure falls by at least one, except that resolving a merge conflict may raise it by one. */
  predicate Moved(step: Step, ev: Event, before: RunContext, after: RunContext, countBefore: int, countAfter: int) {
    && after.maxRounds == before.maxRounds && after.maxMergeReReviewRounds == before.maxMergeReReviewRounds
    && Route(step, ev, after).Some? && !Route(step, ev, after).value.Prepare?
    && AttemptsFit(Route(step, ev, after).value, after)
    && Measure(Route(step, ev, after).value, after, countAfter) + 1
      <= Measure(step, before, countBefore) + if ev.ConflictResolved? then 2 else 0
  }

  lemma PrepareMoves(before: RunContext, after: RunContext, ev: Event, count: nat)
    requires Fresh(before) && SameLimits(before, after) && Route(Prepare, ev, after).Some?
    requires after.mergeReReviewRound == before.mergeReReviewRound
    ensures Moved(Prepare, ev, before, after, 0, count)
  {
  }

  lemma DevMoves(before: RunContext, after: RunContext, ev: Event, count: nat)
    requires 0 <= before.devAttempt <= 2 && Route(RunDev, ev, after).Some?
    requires after == before.(devAttempt := after.devAttempt, round := after.round)
    requires after.devAttempt == if ev.DevDone? then 0 else before.devAttempt + if ev.DevGateRejected? then 1 else 0
    ensures Moved(RunDev, ev, before, after, count, count)
  {
  }

  lemma SyncMoves(c: RunContext, ev: Event, count: nat)
    requires c.devAttempt == 0 && Route(SyncCI, ev, c).Some?
    ensures Moved(SyncCI, ev, c, c, count, count)
  {
  }

  lemma DecisionMoves(before: RunContext, after: RunContext, ev: Event, last: Review, count: nat)
    requires before.devAttempt == 0 && Decided(before, after, ev, last, count + 1)
    ensures Moved(RunReviewer, ev, before, after, count, count + 1)
  {
    DecisionsAreRouted(before, after, ev, last, count + 1);
  }

  lemma FailedReviewMoves(before: RunContext, after: RunContext, ev: Event, countBefore: nat, countAfter: nat)
    requires before.devAttempt == 0 && SameLimits(before, after) && Route(RunReviewer, ev, after).Some?
      && !IsDecision(ev)
    requires countBefore <= countAfter && before.mergeReReviewRound <= after.mergeReReviewRound
    ensures Moved(RunReviewer, ev, before, after, countBefore, countAfter)
  {
  }

  lemma MergeMoves(before: RunContext, after: RunContext, ev: Event, count: nat)
    requires before.devAttempt == 0 && Route(MergePR, ev, after).Some?
    requires after == if ev.ConflictResolved? then before.(inMergeReReview := true) else before
    ensures Moved(MergePR, ev, before, after, count, count)
  {
  }

  /** The transitions of a run that stands at `step`: numbered from 1, each starting where the one
      before ended, the first at `Prepare`. */
  predicate Chained(ts: seq<Entry>, step: Step) {
    if ts == [] then step.Prepare?
    else
      var e := ts[|ts| - 1];
      e.StepTransition? && e.seqNo == |ts| && e.to == step && Chained(ts[..|ts| - 1], e.from)
  }

  lemma {:induction false} ChainAt(ts: seq<Entry>, step: Step, i: nat)
    requires Chained(ts, step) && i < |ts|
    ensures ts[i].StepTransition? && ts[i].seqNo == i + 1
    ensures if i == 0 then ts[i].from == Prepare else ts[i - 1].StepTransition? && ts[i].from == ts[i - 1].to
  {
    var rest := ts[..|ts| - 1];
    if i < |rest| {
      ChainAt(rest, ts[|ts| - 1].from, i);
    } else if i > 0 {
      assert rest[|rest| - 1] == ts[i - 1];
    }
  }

  function ResolvedConflicts(ts: seq<Entry>): nat {
    if ts == [] then 0
    else
      var e := ts[|ts| - 1];
      ResolvedConflicts(ts[..|ts| - 1]) + if e.StepTransition? && e.event.ConflictResolved? then 1 else 0
  }

  /** Every try of the run was safe, and if one went through it was the last, and the run is over. */
  ghost predicate SafeHistory(ms: seq<MergeTry>, step: Step) {
    && (forall i :: 0 <= i < |ms| ==> Safe(ms[i]))
    && (forall i :: 0 <= i < |ms| && ms[i].Ok() ==> i == |ms| - 1 && step.Success?)
  }

  lemma HistoryGrows(ms: seq<MergeTry>, tries: seq<MergeTry>, step: Step, next: Step, merged: bool)
    requires SafeHistory(ms, step) && !step.Success? && GoodTries(tries, merged) && (merged ==> next.Success?)
    ensures SafeHistory(ms + tries, next)
    ensures merged && tries != [] ==> (ms + tries)[|ms + tries| - 1].Ok()
  {
  }

  lemma OnlyMergedSucceeds(step: Step, ev: Event, c: RunContext)
    requires Route(step, ev, c).Some?
    ensures Route(step, ev, c).value.Success? <==> step.MergePR? && ev.Merged?
  {
  }

  predicate ReachedSuccess(ms: seq<MergeTry>, prMerged: bool, last: Option<Review>) {
    prMerged || SkippedForLowConfidence(last) || (ms != [] && ms[|ms| - 1].Ok())
  }

  lemma ChainGrows(ts: seq<Entry>, step: Step, ev: Event, next: Step)
    requires Chained(ts, step)
    ensures Chained(ts + [StepTransition(step, ev, next, |ts| + 1)], next)
    ensures ResolvedConflicts(ts + [StepTransition(step, ev, next, |ts| + 1)])
      == ResolvedConflicts(ts) + if ev.ConflictResolved? then 1 else 0
  {
    assert (ts + [StepTransition(step, ev, next, |ts| + 1)])[..|ts|] == ts;
  }

  predicate SkippedForLowConfidence(last: Option<Review>) {
    Approves(last) && last.value.confidence == Low
  }

  // ----- reviews on GitHub, for a resumed run -----------------------------------------------

  predicate IsBotChangeRequest(r: GitHubReview, bot: string) {
    r.state.StateChangesRequested? && r.author == bot
  }

  function Decisions(reviews: seq<GitHubReview>): seq<GitHubReview> {
    if reviews == [] then []
    else
      var before, r := Decisions(reviews[..|reviews| - 1]), reviews[|reviews| - 1];
      if r.state.StateOther? then before else before + [r]
  }

  function Synthetic(verdict: Verdict, confidence: Confidence, id: string): Review {
    Review(verdict, confidence, "", id, "", 0, Some(0))
  }

  /** The review events a resumed run writes for the bot's own earlier change requests. */
  function SyntheticRounds(reviews: seq<GitHubReview>, bot: string): seq<Review> {
    if reviews == [] then []
    else
      var before, r := SyntheticRounds(reviews[..|reviews| - 1], bot), reviews[|reviews| - 1];
      if IsBotChangeRequest(r, bot) then before + [Synthetic(RequestChanges, High, r.id)] else before
  }

  lemma {:induction false} RoundsOfPrefix(reviews: seq<GitHubReview>, n: nat, bot: string)
    requires n <= |reviews|
    ensures |SyntheticRounds(reviews[..n], bot)| <= |SyntheticRounds(reviews, bot)|
  {
    if n == |reviews| {
      assert reviews[..n] == reviews;
    } else {
      RoundsOfPrefix(reviews[..|reviews| - 1], n, bot);
      assert reviews[..|reviews| - 1][..n] == reviews[..n];
    }
  }

  /** The last review that approves or requests changes is `all[i]`. */
  predicate LastDecisionAt(all: seq<GitHubReview>, i: int) {
    && 0 <= i < |all| && !all[i].state.StateOther?
    && forall j :: i < j < |all| ==> all[j].state.StateOther?
  }

  predicate NoDecision(all: seq<GitHubReview>) {
    forall j :: 0 <= j < |all| ==> all[j].state.StateOther?
  }

  lemma {:induction false} LastOfDecisions(all: seq<GitHubReview>, i: nat)
    requires LastDecisionAt(all, i)
    ensures Decisions(all) != [] && Decisions(all)[|Decisions(all)| - 1] == all[i]
  {
    var before := all[..|all| - 1];
    if i < |before| {
      assert all[|before|].state.StateOther?;
      LastOfDecisions(before, i);
    }
  }

  lemma {:induction false} SomeLastDecision(all: seq<GitHubReview>) returns (i: nat)
    ensures if Decisions(all) == [] then NoDecision(all) else LastDecisionAt(all, i)
  {
    i := 0;
    if all != [] {
      var n := |all| - 1;
      if all[n].state.StateOther? {
        i := SomeLastDecision(all[..n]);
        assert forall j :: 0 <= j < n ==> all[..n][j] == all[j];
      } else {
        i := n;
      }
    }
  }

  lemma OneLastDecision(all: seq<GitHubReview>, i: int, j: int)
    requires LastDecisionAt(all, i) && LastDecisionAt(all, j)
    ensures i == j
  {
  }

  function LabelConfidence(name: string): Option<Confidence> {
    if name == "confidence:low" then Some(Low)
    else if name == "confidence:medium" then Some(Medium)
    else if name == "confidence:high" then Some(High)
    else None
  }

  predicate NoConfidence(labels: seq<string>) {
    forall j :: 0 <= j < |labels| ==> LabelConfidence(labels[j]).None?
  }

  /** `c` stands on the first label that names a confidence; it is low when none does. */
  ghost predicate IsConfidenceOf(labels: seq<string>, c: Confidence) {
    if NoConfidence(labels) then c == Low
    else
      exists i :: 0 <= i < |labels| && LabelConfidence(labels[i]) == Some(c) && NoConfidence(labels[..i])
  }

  method ConfidenceFromLabels(labels: seq<string>) returns (c: Confidence)
    ensures IsConfidenceOf(labels, c)
  {
    for i := 0 to |labels|
      invariant NoConfidence(labels[..i])
    {
      match labels[i] {
        case "confidence:low" => return Low;
        case "confidence:medium" => return Medium;
        case "confidence:high" => return High;
        case _ =>
      }
      assert labels[..i + 1] == labels[..i] + [labels[i]];
    }
    assert labels[..|labels|] == labels;
    c := Low;
  }

  method FilterDecisionReviews(reviews: seq<GitHubReview>) returns (out: seq<GitHubReview>)
    ensures out == Decisions(reviews)
  {
    out := [];
    for i := 0 to |reviews|
      invariant out == Decisions(reviews[..i])
    {
      assert reviews[..i + 1][..i] == reviews[..i];
      if !reviews[i].state.StateOther? { out := out + [reviews[i]]; }
    }
    assert reviews[..|reviews|] == reviews;
  }

  /** As many rounds are counted as events will be written. */
  method CountBotChangesRequestedReviews(reviews: seq<GitHubReview>, bot: string) returns (n: nat)
    ensures n == |SyntheticRounds(reviews, bot)|
  {
    n := 0;
    for i := 0 to |reviews|
      invariant n == |SyntheticRounds(reviews[..i], bot)|
    {
      assert reviews[..i + 1][..i] == reviews[..i];
      if reviews[i].state.StateChangesRequested? && reviews[i].author == bot { n := n + 1; }
    }
    assert reviews[..|reviews|] == reviews;
  }

  /** The context before the first step. */
  predicate Fresh(c: RunContext) {
    && c.devAttempt == 0 && c.resumeVerdict == NoVerdict && !c.devRetry && !c.worktreeCreateFailed
    && c.prepareFailKind == NoKind
    && !c.prMerged && !c.inMergeReReview && c.mergeReReviewRound == 0
  }

  /** Nothing but `StepMergePR` enters the merge re-review, only `StepRunDev` counts attempts up, and
      nobody changes the limits. */
  predicate SameLimits(before: RunContext, after: RunContext) {
    && after.maxRounds == before.maxRounds && after.maxMergeReReviewRounds == before.maxMergeReReviewRounds
    && after.resume == before.resume && after.inMergeReReview == before.inMergeReReview
    && (before.devAttempt == 0 ==> after.devAttempt == 0)
  }

  /** Preparing a run leaves the merge re-review alone as well. */
  predicate Prepared(before: RunContext, after: RunContext) {
    SameLimits(before, after) && after.mergeReReviewRound == before.mergeReReviewRound
  }

  class Runner {
    const maxConflictResolutionAttempts: int
    const botLogin: string
    /** Every append to the event log goes through; otherwise any of them may fail. */
    const appendsWork: bool

    var ctx: RunContext
    var log: seq<Entry>
    var branch: Branch
    var rebasing: bool

    ghost var green: Option<GreenAt>
    ghost var merges: seq<MergeTry>
    ghost var conflictAgents: nat
    ghost var ciAgents: nat
    ghost var reviewerAgents: nat
    ghost var resyncs: nat

    ghost predicate HeadIsGreen()
      reads `green, `branch
    {
      IsGreenFor(green, branch.head)
    }

    /** The last review was written for the branch as it is. */
    ghost predicate JustReviewed()
      reads `branch
    {
      branch == AtReview(branch)
    }

    /** The last review is an approval of the branch as it is. */
    ghost predicate Approved()
      reads `log, `branch
    {
      Approves(LastReview(log)) && JustReviewed() && LastReview(log).value.headSha in {"", branch.head.sha}
    }

    ghost predicate MayRebase()
      reads `log, `branch
    {
      Entitled(branch, LastReview(log))
    }

    ghost predicate MayMerge()
      reads `log, `branch, `green
    {
      Safe(MergeTry(branch, MergedOk, LastReview(log), green))
    }

    // ----- the event log -----------------------------------------------------------------------

    /** Appends a valid entry, unless the append itself fails; an invalid one never gets in. */
    method Write(e: Entry) returns (ok: bool)
      modifies `log
      ensures ok ==> ValidEntry(e) && log == old(log) + [e]
      ensures appendsWork && ValidEntry(e) ==> ok
      ensures old(log) <= log
      ensures MergeNews(log) == old(MergeNews(log)) + if ok && IsMergeNews(e) then [e] else []
      ensures !ok ==> log == old(log)
      ensures ValidLog(old(log)) ==> ValidLog(log)
      ensures ok && e.ReviewSubmitted? ==>
        && Reviews(log) == old(Reviews(log)) + [e.review]
        && Transitions(log) == old(Transitions(log))
      ensures !e.ReviewSubmitted? && !e.StepTransition? ==> Quiet(old(log), log)
      ensures ok && e.PROpened? ==> HasPROpened(log)
    {
      Appended(log, e);
      ok := *;
      if !appendsWork && !ok { return; }
      ok := ValidEntry(e);
      if !ok { return; }
      log := log + [e];
      assert e in log;
      assert forall x :: x in old(log) ==> x in log;
    }

    method WriteReview(r: Review) returns (ok: bool)
      requires ValidLog(log)
      modifies `log, `branch
      ensures old(log) <= log
      ensures ValidLog(log) && Transitions(log) == old(Transitions(log))
      ensures ok ==> Reviews(log) == old(Reviews(log)) + [r] && branch == AtReview(old(branch)) && ValidReview(r)
      ensures !ok ==> log == old(log) && branch == old(branch)
      ensures appendsWork && ValidReview(r) ==> ok
    {
      ok := Write(ReviewSubmitted(r));
      if ok { branch := AtReview(branch); }
    }

    /** The number is read from the last pr_opened entry; parsing it may fail. */
    method GetPRNumber(parses: bool) returns (ok: bool)
      requires ValidLog(log)
      ensures ok <==> HasPROpened(log) && parses
    {
      var recorded := HasPROpenedEvent(log);
      ok := recorded && parses;
    }

    // ----- agents, git and GitHub ----------------------------------------------------------------

    /** An agent with write tools: it may commit, push, fetch, and start or finish a rebase. */
    method AgentEdits(w: AgentRun)
      modifies `branch, `rebasing, `green
      ensures branch == Edited(old(branch), w) && rebasing == w.rebasing && green.None?
    {
      branch, rebasing, green := Edited(branch, w), w.rebasing, None;
    }

    /** Whatever HEAD was before the rebase is HEAD again. */
    method RebaseAbort(head: Head)
      modifies `branch, `rebasing
      ensures !rebasing && branch == if old(rebasing) then old(branch).(local := head) else old(branch)
    {
      if rebasing { branch := branch.(local := head); }
      rebasing := false;
    }

    /** Some line of the status has a `U` among its two codes, or is `AA` or `DD`. */
    method HasUnmergedPaths(status: string) returns (unmerged: bool)
      ensures unmerged <==> exists l :: l in Text.Split(status, '\n') && IsUnmerged(l)
    {
      var lines := Text.Split(status, '\n');
      for i := 0 to |lines|
        invariant forall j :: 0 <= j < i ==> !IsUnmerged(lines[j])
      {
        if |lines[i]| < 2 { continue; }
        var x, y := lines[i][0], lines[i][1];
        UnmergedCodes(lines[i]);
        assert lines[i] in lines;
        if x == 'U' || y == 'U' || (x == 'A' && y == 'A') || (x == 'D' && y == 'D') { return true; }
      }
      unmerged := false;
    }

    method IsBranchUpToDate(known: bool) returns (ok: bool, upToDate: bool)
      ensures ok == known && (ok ==> upToDate == UpToDate(branch))
    {
      ok, upToDate := known, UpToDate(branch);
    }

    /** A fetch may bring a new origin/main. */
    method FetchOrigin(a: FetchAnswer) returns (ok: bool)
      modifies `branch
      ensures ok == a.ok && branch == Fetched(old(branch), a)
    {
      branch := Fetched(branch, a);
      ok := a.ok;
    }

    /** A conflict leaves the rebase in progress for the agent, any other failure aborts it. */
    method RebaseBranch(a: RebaseAnswers) returns (r: RebaseResult)
      modifies `branch, `rebasing
      ensures r.FetchFailed? <==> !a.fetch.ok
      ensures r.Clean? <==> a.fetch.ok && a.clean && !old(rebasing)
      ensures r.MergeConflict? <==>
        && a.fetch.ok && !(a.clean && !old(rebasing))
        && a.status.Some? && exists l :: l in Text.Split(a.status.value, '\n') && IsUnmerged(l)
      ensures r.Clean? ==> !rebasing && branch == RebasedOntoMain(Fetched(old(branch), a.fetch), a.sha)
      ensures r.FetchFailed? ==> rebasing == old(rebasing) && branch == Fetched(old(branch), a.fetch)
      ensures r.RebaseFailed? ==> !rebasing
      ensures r.MergeConflict? ==> rebasing == (old(rebasing) || a.stopped.Some?)
      ensures !r.Clean? ==> branch == Fetched(old(branch), a.fetch).(local := branch.local)
      ensures r.RebaseFailed? ==>
        branch.local == if old(rebasing) || a.stopped.Some? then a.abortedTo else old(branch).local
    {
      var fetched := FetchOrigin(a.fetch);
      if !fetched { return FetchFailed; }
      if rebasing || !a.clean {
        if a.stopped.Some? { branch, rebasing := branch.(local := a.stopped.value), true; }
        if a.status.Some? {
          var unmerged := HasUnmergedPaths(a.status.value);
          if unmerged { return MergeConflict; }
        }
        RebaseAbort(a.abortedTo);
        return RebaseFailed;
      }
      branch := RebasedOntoMain(branch, a.sha);
      r := Clean;
    }

    /** After a push nothing is known to be green until it is classified again. */
    method ForcePushBranch(accepted: bool) returns (ok: bool)
      modifies `branch, `green
      ensures ok == accepted
      ensures if ok then branch == Pushed(old(branch)) && green.None? else branch == old(branch) && green == old(green)
    {
      ok := accepted;
      if ok {
        branch, green := Pushed(branch), None;
      }
    }

    method GetLocalHeadSHA(read: bool) returns (ok: bool, sha: string)
      ensures ok == read && sha == branch.local.sha
    {
      ok, sha := read, branch.local.sha;
    }

    /** One attempt to squash-merge. It may only be made on an approval that still stands, with the
        current head green. */
    method SquashMerge(says: MergeAnswer) returns (answer: MergeAnswer)
      requires MayMerge()
      modifies `merges
      ensures answer == says && merges == old(merges) + [MergeTry(branch, answer, LastReview(log), green)]
      ensures Safe(merges[|merges| - 1])
    {
      answer := says;
      merges := merges + [MergeTry(branch, answer, LastReview(log), green)];
    }

    // ----- CI --------------------------------------------------------------------------------------

    ghost predicate IsGreenOn(sha: Option<string>)
      reads `green, `branch
    {
      IsGreenFor(green, if sha.Some? then branch.head.(sha := sha.value) else branch.head)
    }

    /** One query for the checks of `sha`, or of the PR's head at this moment. An empty answer is pending. */
    method QueryChecks(sha: Option<string>, answer: Option<seq<CheckRun>>) returns (ok: bool, result: Result)
      modifies `green
      ensures ok <==> answer.Some?
      ensures ok ==> IsResultOf(answer.value, result)
      ensures ok && result.Green? ==> IsGreenOn(sha)
    {
      var asked := if sha.Some? then sha.value else branch.head.sha;
      ok, result := answer.Some?, StillPending;
      if !ok { return; }
      RedIsAboutTheRuns(answer.value);
      var checks := Items(answer.value);
      if |checks| == 0 { return; }
      result := ClassifyChecks(checks);
      green := if result.Green? then Some(GreenAt(asked, checks)) else None;
    }

    /** Asks until the answer is settled or the deadline has come; the first answer that is an error, green
        or red decides. */
    method PollUntilSettled(sha: Option<string>, q: CiAnswers) returns (p: Poll)
      modifies `green
      ensures p == Settled(Green) ==> IsGreenOn(sha)
      ensures Says(q, p)
    {
      var ok, result := QueryChecks(sha, q.queries(0));
      if !ok {
        assert DecidedBy(q, 0, PollError);
        return PollError;
      }
      if !result.StillPending? {
        assert DecidedBy(q, 0, Settled(result));
        return Settled(result);
      }
      var tick := 0;
      while tick < q.ticks
        invariant tick <= q.ticks
        invariant forall j :: 0 <= j <= tick ==> IsPending(q.queries(j))
      {
        tick := tick + 1;
        ok, result := QueryChecks(sha, q.queries(tick));
        if !ok {
          assert DecidedBy(q, tick, PollError);
          return PollError;
        }
        if !result.StillPending? {
          assert DecidedBy(q, tick, Settled(result));
          return Settled(result);
        }
      }
      p := PollTimeout;
    }

    /** Runs the dev agent to repair a failed CI run and wants to see a new remote head. */
    method OnCICheckFailed(fixRound: nat, a: RepairAnswers) returns (goOn: bool)
      modifies `branch, `rebasing, `green, `ciAgents
      ensures var ran := fixRound < MAX_CI_FIX_ROUNDS && a.shaBeforeRead && a.agentFileOk;
        && branch == (if ran then Edited(old(branch), a.agent) else old(branch))
        && ciAgents == old(ciAgents) + if ran then 1 else 0
      ensures goOn <==> fixRound < MAX_CI_FIX_ROUNDS && Repairs(a, old(branch).head.sha)
    {
      if fixRound >= MAX_CI_FIX_ROUNDS { return false; }
      if !a.shaBeforeRead { return false; }
      var shaBefore := branch.head.sha;
      if !a.agentFileOk { return false; }
      AgentEdits(a.agent);
      ciAgents := ciAgents + 1;
      if a.agent.exit != ExitCode(0) { return false; }
      goOn := a.shaAfterRead && branch.head.sha != "" && branch.head.sha != shaBefore;
    }

    /** One round of the CI gate; `None` means that a repair has pushed a new head, to be checked in turn. */
    method CIGateRound(fixRound: nat, q: CiAnswers, a: RepairAnswers) returns (out: Option<Outcome>)
      requires ValidLog(log)
      modifies `log, `branch, `rebasing, `green, `ciAgents
      ensures old(log) <= log
      ensures Quiet(old(log), log) && ValidLog(log) && Logged(old(log), log, fixRound, q)
      ensures out in {None, Some(OutSuccess), Some(OutDevFailed)}
      ensures out == Some(OutSuccess) <==> SaysGreen(q)
      ensures out == Some(OutSuccess) ==> HeadIsGreen() && branch == old(branch) && ciAgents == old(ciAgents)
      ensures out.None? <==>
        !SaysGreen(q) && !Says(q, PollError) && fixRound < MAX_CI_FIX_ROUNDS && Repairs(a, old(branch).head.sha)
      ensures out.None? ==> branch == Edited(old(branch), a.agent) && ciAgents == old(ciAgents) + 1
      ensures branch == (if ciAgents > old(ciAgents) then Edited(old(branch), a.agent) else old(branch))
      ensures old(ciAgents) <= ciAgents <= old(ciAgents) + if fixRound < MAX_CI_FIX_ROUNDS then 1 else 0
    {
      var p := PollUntilSettled(None, q);
      PollSaysWhat(q, p);
      if p.PollError? { return Some(OutDevFailed); }
      var written := Write(CIWaitFinished(
        if p.PollTimeout? then CITimeoutResult
        else if p.result.Green? then CIGreenResult else CIRedResult, fixRound));
      if p == Settled(Green) { return Some(OutSuccess); }
      var goOn := OnCICheckFailed(fixRound, a);
      out := if goOn then None else Some(OutDevFailed);
    }

    /** The CI gate on the PR's head, with at most two repairs by the dev agent. It succeeds in the first
        round that finds the head green, if every round before it ended with a repair that pushed a new
        head. */
    method RunCIGate(cis: nat -> CiAnswers, repairs: nat -> RepairAnswers) returns (out: Outcome, ghost rounds: nat)
      requires ValidLog(log)
      modifies `log, `branch, `rebasing, `green, `ciAgents
      ensures old(log) <= log
      ensures Quiet(old(log), log) && ValidLog(log)
      ensures out == OutSuccess || out == OutDevFailed
      ensures rounds <= MAX_CI_FIX_ROUNDS && RepairedTo(cis, repairs, old(branch).head.sha, rounds)
      ensures out == OutSuccess <==> SaysGreen(cis(rounds))
      ensures out == OutDevFailed ==>
        || Says(cis(rounds), PollError) || rounds == MAX_CI_FIX_ROUNDS
        || !Repairs(repairs(rounds), HeadBefore(repairs, old(branch).head.sha, rounds))
      ensures out == OutSuccess ==> HeadIsGreen() && ciAgents == old(ciAgents) + rounds
      ensures old(ciAgents) <= ciAgents <= old(ciAgents) + MAX_CI_FIX_ROUNDS
      ensures ciAgents == old(ciAgents) ==> branch == old(branch)
    {
      rounds := 0;
      for fixRound := 0 to MAX_CI_FIX_ROUNDS + 1
        invariant old(log) <= log && Quiet(old(log), log) && ValidLog(log) && rounds == fixRound <= MAX_CI_FIX_ROUNDS
        invariant ciAgents == old(ciAgents) + fixRound
        invariant RepairedTo(cis, repairs, old(branch).head.sha, fixRound)
        invariant branch.head.sha == HeadBefore(repairs, old(branch).head.sha, fixRound)
        invariant fixRound == 0 ==> branch == old(branch)
      {
        var r := CIGateRound(fixRound, cis(fixRound), repairs(fixRound));
        if r.Some? { return r.value, rounds; }
        rounds := rounds + 1;
      }
      out := OutDevFailed;
    }

    // ----- rebase conflicts --------------------------------------------------------------------------

    function ConflictCap(): (c: nat)
      ensures c >= 1
    {
      if maxConflictResolutionAttempts <= 0 then 2 else maxConflictResolutionAttempts
    }

    /** The rebase is over, the tree is clean, and origin/main is contained. */
    method VerifyRebaseComplete(treeClean: Option<bool>, ancestorKnown: bool) returns (ok: bool)
      ensures ok <==> !rebasing && treeClean == Some(true) && ancestorKnown && UpToDate(branch)
    {
      if rebasing { return false; }
      if treeClean != Some(true) { return false; }
      var known, upToDate := IsBranchUpToDate(ancestorKnown);
      ok := known && upToDate;
    }

    /** One turn of the dev agent at the conflicts; an infrastructure failure before it aborts the rebase. */
    method ConflictAttempt(turn: ConflictTurn, attempt: nat, abortedTo: Head) returns (ran: bool, resolved: bool)
      requires ValidLog(log)
      modifies `log, `branch, `rebasing, `green, `conflictAgents
      ensures Quiet(old(log), log) && ValidLog(log)
      ensures (ran <==> Starts(turn)) && MergeNews(log) == old(MergeNews(log))
      ensures ran ==>
        && conflictAgents == old(conflictAgents) + 1 && branch == Edited(old(branch), turn.agent)
        && rebasing == turn.agent.rebasing
      ensures !ran ==>
        !resolved && !rebasing && conflictAgents == old(conflictAgents) && branch == old(branch).(local := branch.local)
      ensures resolved <==> ran && ResolvesConflict(turn)
      ensures resolved ==> !rebasing && UpToDate(branch)
      ensures ran ==> log == old(log) || log == old(log) + [ConflictRetry(turn.files.value, resolved, attempt)]
    {
      ran, resolved := false, false;
      if turn.files.None? || !turn.rendered {
        RebaseAbort(abortedTo);
        return;
      }
      AgentEdits(turn.agent);
      ran, conflictAgents := true, conflictAgents + 1;
      if turn.agent.exit == ExitCode(0) { resolved := VerifyRebaseComplete(turn.treeClean, turn.ancestorKnown); }
      var written := Write(ConflictRetry(turn.files.value, resolved, attempt));
    }

    /** Lets the dev agent resolve the conflicts, at most as often as configured. However it ends, the
        rebase is over: finished by the agent or aborted. The first turn that resolves them is the last. */
    method ResolveRebaseConflictWithAgent(a: ConflictAnswers) returns (r: ResolveResult)
      requires ValidLog(log)
      modifies `log, `branch, `rebasing, `green, `conflictAgents
      ensures Quiet(old(log), log) && ValidLog(log) && MergeNews(log) == old(MergeNews(log))
      ensures !rebasing
      ensures old(conflictAgents) <= conflictAgents <= old(conflictAgents) + ConflictCap()
      ensures var n := conflictAgents - old(conflictAgents);
        && (forall k :: 0 < k < n ==> !ResolvesConflict(a.turns(k)))
        && (r.Resolved? <==> n > 0 && ResolvesConflict(a.turns(n)))
        && (r.CapExhausted? <==> n == ConflictCap() && !ResolvesConflict(a.turns(n)))
        && (r.Infrastructure? ==> !a.agentFileOk || !Starts(a.turns(n + 1)))
        && (!a.agentFileOk ==> n == 0 && r.Infrastructure?)
      ensures r.Resolved? ==> UpToDate(branch)
      ensures conflictAgents > old(conflictAgents) ==> branch.since.changed
      ensures conflictAgents == old(conflictAgents) ==> branch == old(branch).(local := branch.local)
    {
      var cap := maxConflictResolutionAttempts;
      if cap <= 0 { cap := 2; }
      if !a.agentFileOk {
        RebaseAbort(a.abortedTo);
        return Infrastructure;
      }
      for attempt := 1 to cap + 1
        invariant Quiet(old(log), log) && ValidLog(log) && MergeNews(log) == old(MergeNews(log))
        invariant conflictAgents == old(conflictAgents) + attempt - 1
        invariant attempt > 1 ==> branch.since.changed
        invariant attempt == 1 ==> branch == old(branch)
        invariant forall k :: 0 < k < attempt ==> !ResolvesConflict(a.turns(k))
      {
        var ran, resolved := ConflictAttempt(a.turns(attempt), attempt, a.abortedTo);
        if !ran { return Infrastructure; }
        if resolved { return Resolved; }
        if attempt >= cap {
          RebaseAbort(a.abortedTo);
          return CapExhausted;
        }
      }
      RebaseAbort(a.abortedTo);
      r := CapExhausted;
    }

    /** Unless the fetch before it fails, no rebase is left in progress. */
    method RebaseAndResolve(a: RebaseAnswers, conflict: ConflictAnswers) returns (r: SyncResult)
      requires ValidLog(log)
      modifies `log, `branch, `rebasing, `green, `conflictAgents
      ensures Quiet(old(log), log) && ValidLog(log) && MergeNews(log) == old(MergeNews(log))
      ensures r.SyncFailed? && r.fetch <==> !a.fetch.ok
      ensures r.SyncFailed? && r.fetch ==> rebasing == old(rebasing) && !r.capExhausted
      ensures a.fetch.ok ==> !rebasing
      ensures old(conflictAgents) <= conflictAgents <= old(conflictAgents) + ConflictCap()
      ensures r.SyncFailed? && r.capExhausted <==>
        conflictAgents == old(conflictAgents) + ConflictCap() && !ResolvesConflict(conflict.turns(ConflictCap()))
      ensures conflictAgents > old(conflictAgents) ==> branch.since.changed
      ensures conflictAgents == old(conflictAgents) ==>
        branch == old(branch).(main := branch.main, fetched := branch.fetched, local := branch.local,
                               rebases := branch.rebases)
      ensures r.Rebased? ==> UpToDate(branch) && (r.conflictResolved <==> conflictAgents > old(conflictAgents))
      ensures r == Rebased(false) <==> a.fetch.ok && a.clean && !old(rebasing)
      ensures r == Rebased(false) ==> branch == RebasedOntoMain(Fetched(old(branch), a.fetch), a.sha)
      ensures r == Rebased(true) ==> ResolvesConflict(conflict.turns(conflictAgents - old(conflictAgents)))
    {
      var rebased := RebaseBranch(a);
      match rebased {
        case Clean => r := Rebased(false);
        case FetchFailed => r := SyncFailed(true, false);
        case RebaseFailed => r := SyncFailed(false, false);
        case MergeConflict =>
          var resolved := ResolveRebaseConflictWithAgent(conflict);
          r := if resolved.Resolved? then Rebased(true) else SyncFailed(false, resolved.CapExhausted?);
      }
    }

    // ----- before the review: sync and CI ------------------------------------------------------------

    method PreReviewPushAndCI(a: PushAnswers) returns (out: Outcome)
      modifies `branch, `green
      ensures out == if PushesGreen(a) then OutSuccess else OutDevFailed
      ensures branch == if a.pushed then Pushed(old(branch)) else old(branch)
      ensures out == OutSuccess ==> HeadIsGreen()
    {
      var pushed := ForcePushBranch(a.pushed);
      if !pushed { return OutDevFailed; }
      var shaOk, pushedSHA := GetLocalHeadSHA(a.shaRead);
      if !shaOk { return OutDevFailed; }
      var p := PollUntilSettled(Some(pushedSHA), a.ci);
      PollSaysWhat(a.ci, p);
      out := if p == Settled(Green) then OutSuccess else OutDevFailed;
    }

    /** A branch that contains the freshly fetched origin/main goes through the CI gate as it is; any other is
        rebased, pushed, and must be green as pushed. */
    method RunPreReviewSyncGate(a: SyncAnswers) returns (out: Outcome)
      requires ValidLog(log)
      modifies `log, `branch, `rebasing, `green, `conflictAgents, `ciAgents
      ensures Quiet(old(log), log) && ValidLog(log)
      ensures out == OutSuccess || out == OutDevFailed || out == OutConflictUnresolved
      ensures out == OutSuccess ==> HeadIsGreen() && a.fetch.ok && a.freshnessKnown
      ensures out == OutSuccess && ciAgents == old(ciAgents) ==> UpToDate(branch)
      ensures GateOpens(a, old(branch), old(rebasing)) ==> out == OutSuccess
      ensures out == OutSuccess && a.fetch.main > old(branch).local.base ==>
        a.rebase.fetch.ok && PushesGreen(a.push) && branch.head == branch.local && UpToDate(branch)
      ensures out == OutConflictUnresolved <==>
        conflictAgents == old(conflictAgents) + ConflictCap() && !ResolvesConflict(a.conflict.turns(ConflictCap()))
      ensures out == OutConflictUnresolved ==> !rebasing
      ensures old(conflictAgents) <= conflictAgents <= old(conflictAgents) + ConflictCap()
        && ciAgents <= old(ciAgents) + MAX_CI_FIX_ROUNDS
    {
      var fetched := FetchOrigin(a.fetch);
      if !fetched { return OutDevFailed; }
      var ok, upToDate := IsBranchUpToDate(a.freshnessKnown);
      if !ok { return OutDevFailed; }
      if upToDate {
        ghost var rounds;
        out, rounds := RunCIGate(a.cis, a.repairs);
        return;
      }
      var sync := RebaseAndResolve(a.rebase, a.conflict);
      if sync.SyncFailed? {
        return if sync.capExhausted then OutConflictUnresolved else OutDevFailed;
      }
      out := PreReviewPushAndCI(a.push);
    }

    // ----- merging -------------------------------------------------------------------------------------

    ghost predicate Told(before: seq<Entry>, out: Outcome, tried: bool)
      reads this`log
    {
      Reported(before, MergeNews(log), out, tried, appendsWork)
    }

    method FailMerge() returns (out: Outcome)
      modifies `log
      ensures Quiet(old(log), log) && out == OutMergeFailed
      ensures Told(old(MergeNews(log)), OutMergeFailed, true)
    {
      var written := Write(AutomergeFailed);
      out := OutMergeFailed;
    }

    /** Rebase, push, and green on the pushed head. */
    method ResyncForOODRetry(a: ResyncAnswers) returns (ok: bool)
      requires MayRebase()
      modifies `log, `branch, `rebasing, `green, `resyncs
      ensures Quiet(old(log), log) && resyncs == old(resyncs) + 1
      ensures if ok then MergeNews(log) == old(MergeNews(log)) else Told(old(MergeNews(log)), OutMergeFailed, true)
      ensures ok <==> Resyncs(a) && !old(rebasing)
      ensures ok ==> MayMerge() && !rebasing && Follows(old(branch), branch, 1)
      ensures rebasing ==> old(rebasing)
    {
      resyncs := resyncs + 1;
      var rebased := RebaseBranch(a.rebase);
      var out: Outcome;
      if rebased != Clean {
        if rebased == MergeConflict { RebaseAbort(a.rebase.abortedTo); }
        out := FailMerge();
        return false;
      }
      var pushed := ForcePushBranch(a.push.pushed);
      if !pushed { out := FailMerge(); return false; }
      var shaOk, pushedSHA := GetLocalHeadSHA(a.push.shaRead);
      if !shaOk { out := FailMerge(); return false; }
      var p := PollUntilSettled(Some(pushedSHA), a.push.ci);
      PollSaysWhat(a.push.ci, p);
      if p != Settled(Green) { out := FailMerge(); return false; }
      ok := true;
    }

    method PrepareRetry(attempt: nat, a: ResyncAnswers) returns (synced: bool)
      requires MayRebase()
      modifies `log, `branch, `rebasing, `green, `resyncs
      ensures Quiet(old(log), log) && resyncs == old(resyncs) + 1
      ensures if synced then MergeNews(log) == old(MergeNews(log)) else Told(old(MergeNews(log)), OutMergeFailed, true)
      ensures synced <==> Resyncs(a) && !old(rebasing)
      ensures synced ==> MayMerge() && !rebasing && Follows(old(branch), branch, 1)
      ensures rebasing ==> old(rebasing)
    {
      var written := Write(OutOfDateRetry(attempt));
      synced := ResyncForOODRetry(a);
    }

    /** One more try of a merge phase that has made `tries`. */
    method TryMerge(attempt: nat, says: nat -> MergeAnswer,
                    ghost first: Branch, ghost before: seq<MergeTry>, ghost tries: seq<MergeTry>)
      returns (answer: MergeAnswer, ghost more: seq<MergeTry>)
      requires MayMerge() && MayRetry(tries, first, branch, says) && merges == before + tries && attempt == |tries| + 1
      modifies `merges
      ensures |more| == attempt && more[|tries|].answer == answer
      ensures merges == before + more && Tried(more, first, says) && Follows(first, branch, |tries|)
    {
      answer := SquashMerge(says(attempt - 1));
      OneMoreAnswer(tries, merges[|merges| - 1], first, says);
      more := tries + [merges[|merges| - 1]];
    }

    /** What follows a try that was answered with `answer`: `None` means that the head was out of date, and
        that the branch is up to date again for another try, if there is one left. */
    method AfterTry(answer: MergeAnswer, attempt: nat, sync: ResyncAnswers)
      returns (out: Option<Outcome>)
      requires MayRebase() && 0 < attempt <= MAX_OUT_OF_DATE_RETRIES
      modifies `log, `branch, `rebasing, `green, `resyncs
      ensures Quiet(old(log), log) && (rebasing ==> old(rebasing))
      ensures if out.None? then MergeNews(log) == old(MergeNews(log)) else Told(old(MergeNews(log)), out.value, true)
      ensures out.Some? ==> out.value == if answer.MergedOk? then OutSuccess else OutMergeFailed
      ensures var mayResync := answer == Refused(true) && attempt < MAX_OUT_OF_DATE_RETRIES;
        && resyncs == old(resyncs) + (if mayResync then 1 else 0)
        && (out.None? <==> if mayResync then Resyncs(sync) && !old(rebasing) else answer == Refused(true))
        && (out.None? && mayResync ==> MayMerge() && Follows(old(branch), branch, 1))
    {
      if answer.MergedOk? {
        var written := Write(PRMerged);
        return Some(OutSuccess);
      }
      if !answer.outOfDate {
        var failed := FailMerge();
        return Some(failed);
      }
      if attempt == MAX_OUT_OF_DATE_RETRIES { return None; }
      var synced := PrepareRetry(attempt, sync);
      out := if synced then None else Some(OutMergeFailed);
    }

    /** One turn of the retry loop. */
    method MergeAttempt(attempt: nat, a: MergeAnswers,
                        ghost first: Branch, ghost before: seq<MergeTry>, ghost tries: seq<MergeTry>)
      returns (out: Option<Outcome>, ghost more: seq<MergeTry>)
      requires MayMerge() && MayRetry(tries, first, branch, a.says) && merges == before + tries
      requires attempt == |tries| + 1 <= MAX_OUT_OF_DATE_RETRIES
      modifies `log, `branch, `rebasing, `green, `merges, `resyncs
      ensures Quiet(old(log), log) && (rebasing ==> old(rebasing))
      ensures if out.None? then MergeNews(log) == old(MergeNews(log)) else Told(old(MergeNews(log)), out.value, true)
      ensures |more| == attempt && merges == before + more
      ensures out.Some? ==> EndsWith(out.value, more, first, a, |tries| + resyncs - old(resyncs), old(rebasing))
      ensures out.None? && attempt == MAX_OUT_OF_DATE_RETRIES ==>
        EndsWith(OutMergeFailed, more, first, a, |tries| + resyncs - old(resyncs), old(rebasing))
      ensures out.None? && attempt < MAX_OUT_OF_DATE_RETRIES ==>
        MayMerge() && MayRetry(more, first, branch, a.says) && resyncs == old(resyncs) + 1
    {
      var answer;
      answer, more := TryMerge(attempt, a.says, first, before, tries);
      out := AfterTry(answer, attempt, a.resyncs(attempt - 1));
    }

    /** At most three tries, a rebase, a push and a green run between one and the next, and only the
        last can have gone through. Exactly a refusal because the head is out of date leads to another try,
        if the branch can be brought up to date. */
    method MergeWithOutOfDateRetry(a: MergeAnswers) returns (out: Outcome, ghost tries: seq<MergeTry>)
      requires MayMerge()
      modifies `log, `branch, `rebasing, `green, `merges, `resyncs
      ensures Quiet(old(log), log) && Told(old(MergeNews(log)), out, true)
      ensures merges == old(merges) + tries
      ensures EndsWith(out, tries, old(branch), a, resyncs - old(resyncs), old(rebasing))
      ensures rebasing ==> old(rebasing)
    {
      tries := [];
      for attempt := 1 to MAX_OUT_OF_DATE_RETRIES + 1
        invariant Quiet(old(log), log) && MayMerge() && (rebasing ==> old(rebasing))
        invariant MergeNews(log) == old(MergeNews(log))
        invariant merges == old(merges) + tries && |tries| == attempt - 1 < MAX_OUT_OF_DATE_RETRIES
        invariant MayRetry(tries, old(branch), branch, a.says) && resyncs == old(resyncs) + |tries|
      {
        var r;
        r, tries := MergeAttempt(attempt, a, old(branch), old(merges), tries);
        if r.Some? { return r.value, tries; }
        if attempt == MAX_OUT_OF_DATE_RETRIES { break; }
      }
      out := FailMerge();
    }

    method MergeIfCIGreen(a: MergeAnswers) returns (out: Outcome, ghost tries: seq<MergeTry>)
      requires Entitled(branch, LastReview(log)) && branch.fetched && UpToDate(branch)
      requires branch.head == branch.since.head && branch.local == branch.since.local
      requires branch.pushes == branch.since.pushes
      modifies `log, `branch, `rebasing, `green, `merges, `resyncs
      ensures Quiet(old(log), log)
      ensures Told(old(MergeNews(log)), out, tries != [])
      ensures out == OutSuccess || out == OutMergeFailed
      ensures merges == old(merges) + tries && GoodTries(tries, out == OutSuccess)
      ensures tries != [] <==> SaysGreen(a.ci)
      ensures tries != [] ==> tries[0].branch == old(branch)
      ensures AnsweredBy(tries, a, old(rebasing))
      ensures resyncs == old(resyncs) + ResyncsOf(tries)
      ensures |tries| <= MAX_OUT_OF_DATE_RETRIES && (out == OutSuccess ==> tries != [])
      ensures rebasing ==> old(rebasing)
    {
      tries := [];
      var p := PollUntilSettled(None, a.ci);
      PollSaysWhat(a.ci, p);
      if p == Settled(Green) {
        out, tries := MergeWithOutOfDateRetry(a);
      } else {
        out := FailMerge();
      }
    }

    method VerifyAndPush(a: MergeAnswers) returns (out: Outcome, ghost tries: seq<MergeTry>)
      requires MayRebase() && branch.fetched && UpToDate(branch)
      modifies `log, `branch, `rebasing, `green, `merges, `resyncs
      ensures Quiet(old(log), log)
      ensures Told(old(MergeNews(log)), out, tries != [])
      ensures out == OutSuccess || out == OutMergeFailed
      ensures merges == old(merges) + tries && GoodTries(tries, out == OutSuccess)
      ensures tries != [] <==> PushesGreen(a.push)
      ensures tries != [] ==> tries[0].branch == Pushed(old(branch))
      ensures AnsweredBy(tries, a, old(rebasing))
      ensures resyncs == old(resyncs) + ResyncsOf(tries)
      ensures |tries| <= MAX_OUT_OF_DATE_RETRIES && (out == OutSuccess ==> tries != [])
      ensures rebasing ==> old(rebasing)
    {
      tries := [];
      var pushed := ForcePushBranch(a.push.pushed);
      if !pushed { out := FailMerge(); return; }
      var shaOk, pushedSHA := GetLocalHeadSHA(a.push.shaRead);
      if !shaOk { out := FailMerge(); return; }
      var p := PollUntilSettled(Some(pushedSHA), a.push.ci);
      PollSaysWhat(a.push.ci, p);
      if p != Settled(Green) { out := FailMerge(); return; }
      out, tries := MergeWithOutOfDateRetry(a);
    }

    /** The merge phase after an approval. A conflict that had to be resolved is never merged here: the
        change is pushed and goes back to the reviewer. Success without a try is the skip for low
        confidence, and nothing else. */
    method RunMergePhase(a: MergeAnswers) returns (out: Outcome, ghost tries: seq<MergeTry>)
      requires ValidLog(log) && Approved()
      modifies `log, `branch, `rebasing, `green, `conflictAgents, `merges, `resyncs
      ensures Quiet(old(log), log) && ValidLog(log)
      ensures Told(old(MergeNews(log)), out, tries != [])
      ensures merges == old(merges) + tries && GoodTries(tries, out == OutSuccess)
      ensures resyncs == old(resyncs) + ResyncsOf(tries)
      ensures |tries| <= MAX_OUT_OF_DATE_RETRIES
      ensures AnsweredBy(tries, a, old(rebasing) && a.fetch.main <= old(branch).local.base)
      ensures out == OutSuccess ==> (tries == [] <==> old(LastReview(log)).value.confidence == Low)
      ensures out == OutSuccess || tries != [] ==> old(HasPROpened(log)) && a.numberParses
      ensures old(HasPROpened(log)) && a.numberParses && old(LastReview(log)).value.confidence == Low ==>
        out == OutSuccess
      ensures tries != [] ==> a.fetch.ok && a.freshnessKnown
      ensures tries != [] ==>
        if a.fetch.main <= old(branch).local.base then SaysGreen(a.ci) else a.rebase.fetch.ok && PushesGreen(a.push)
      ensures out == OutConflictResolved || out == OutConflictUnresolved ==> tries == [] && !rebasing
      ensures out == OutConflictResolved ==> branch.since.changed && branch.head == branch.local && a.push.pushed
      ensures out == OutConflictUnresolved <==>
        conflictAgents == old(conflictAgents) + ConflictCap() && !ResolvesConflict(a.conflict.turns(ConflictCap()))
      ensures out != OutDevFailed
      ensures old(conflictAgents) <= conflictAgents <= old(conflictAgents) + ConflictCap()
    {
      tries := [];
      var numberOk := GetPRNumber(a.numberParses);
      if !numberOk {
        var written := Write(AutomergeFailed);
        return OutMergeFailed, [];
      }
      var confidence := LatestConfidence(log);
      if confidence.None? || confidence.value == Low {
        var written := Write(AutomergeSkipped);
        return OutSuccess, [];
      }
      var fetched := FetchOrigin(a.fetch);
      if !fetched { out := FailMerge(); return; }
      var ok, upToDate := IsBranchUpToDate(a.freshnessKnown);
      if !ok { out := FailMerge(); return; }
      if upToDate {
        out, tries := MergeIfCIGreen(a);
        return;
      }
      out, tries := RebaseAndMerge(a);
    }

    /** The merge phase of a branch that lacks origin/main. */
    method RebaseAndMerge(a: MergeAnswers) returns (out: Outcome, ghost tries: seq<MergeTry>)
      requires ValidLog(log) && MayRebase()
      modifies `log, `branch, `rebasing, `green, `conflictAgents, `merges, `resyncs
      ensures Quiet(old(log), log) && ValidLog(log)
      ensures Told(old(MergeNews(log)), out, tries != [])
      ensures merges == old(merges) + tries && GoodTries(tries, out == OutSuccess)
      ensures resyncs == old(resyncs) + ResyncsOf(tries)
      ensures |tries| <= MAX_OUT_OF_DATE_RETRIES && AnsweredBy(tries, a, false)
      ensures out == OutSuccess ==> tries != []
      ensures tries != [] ==> a.rebase.fetch.ok && a.rebase.clean && PushesGreen(a.push)
      ensures out in {OutSuccess, OutMergeFailed, OutConflictResolved, OutConflictUnresolved}
      ensures out == OutConflictResolved || out == OutConflictUnresolved ==> tries == [] && !rebasing
      ensures out == OutConflictResolved ==> branch.since.changed && branch.head == branch.local && a.push.pushed
      ensures out == OutConflictUnresolved <==>
        conflictAgents == old(conflictAgents) + ConflictCap() && !ResolvesConflict(a.conflict.turns(ConflictCap()))
      ensures old(conflictAgents) <= conflictAgents <= old(conflictAgents) + ConflictCap()
    {
      tries := [];
      var sync := RebaseAndResolve(a.rebase, a.conflict);
      if sync.SyncFailed? {
        if sync.capExhausted { return OutConflictUnresolved, []; }
        out := FailMerge();
        return;
      }
      if sync.conflictResolved {
        var pushed := ForcePushBranch(a.push.pushed);
        if !pushed { out := FailMerge(); return; }
        return OutConflictResolved, [];
      }
      out, tries := VerifyAndPush(a);
    }

    // ----- PREPARE -------------------------------------------------------------------------------------

    /** The context as the run starts. */
    constructor (resume: bool, maxRounds: int, maxConflictResolutionAttempts: int, botLogin: string, appendsWork: bool)
      ensures Fresh(ctx) && ctx.resume == resume && ctx.maxRounds == maxRounds && ctx.round == 1
      ensures ctx.maxMergeReReviewRounds == MAX_MERGE_RE_REVIEW_ROUNDS && log == [] && merges == []
      ensures this.maxConflictResolutionAttempts == maxConflictResolutionAttempts && this.botLogin == botLogin
      ensures this.appendsWork == appendsWork && !rebasing && green.None? && branch.since.changed && !branch.fetched
      ensures conflictAgents == ciAgents == reviewerAgents == resyncs == branch.rebases == branch.pushes == 0
    {
      this.maxConflictResolutionAttempts := maxConflictResolutionAttempts;
      this.botLogin, this.appendsWork := botLogin, appendsWork;
      ctx := RunContext(0, 1, maxRounds, resume, NoVerdict, false, false, NoKind, false, "", "", false, 0,
        MAX_MERGE_RE_REVIEW_ROUNDS);
      var head: Head, local: Head, main: int := *, *, *;
      branch := Branch(head, local, main, false, 0, 0, SinceReview(head, local, 0, true));
      log, rebasing, green, merges := [], false, None, [];
      conflictAgents, ciAgents, reviewerAgents, resyncs := 0, 0, 0, 0;
    }

    method SynthesizeReview(verdict: Verdict, confidence: Confidence, id: string) returns (ok: bool)
      requires ValidLog(log)
      modifies `log, `branch
      ensures old(log) <= log
      ensures ValidLog(log) && Transitions(log) == old(Transitions(log))
      ensures ok ==>
        && Reviews(log) == old(Reviews(log)) + [Synthetic(verdict, confidence, id)]
        && branch == AtReview(old(branch))
      ensures !ok ==> log == old(log)
      ensures appendsWork && ValidReview(Synthetic(verdict, confidence, id)) ==> ok
    {
      ok := WriteReview(Review(verdict, confidence, "", id, "", 0, Some(0)));
    }

    method ResumeSynthesizeBotCREvents(reviews: seq<GitHubReview>) returns (ok: bool)
      requires ValidLog(log)
      modifies `log, `branch
      ensures old(log) <= log
      ensures ValidLog(log) && Transitions(log) == old(Transitions(log))
      ensures ok <==> Reviews(log) == old(Reviews(log)) + SyntheticRounds(reviews, botLogin)
      ensures appendsWork && (forall r :: r in reviews ==> r.id != "") ==> ok
    {
      for i := 0 to |reviews|
        invariant old(log) <= log && ValidLog(log) && Transitions(log) == old(Transitions(log))
        invariant Reviews(log) == old(Reviews(log)) + SyntheticRounds(reviews[..i], botLogin)
      {
        assert reviews[..i + 1][..i] == reviews[..i];
        if reviews[i].state.StateChangesRequested? && reviews[i].author == botLogin {
          ok := SynthesizeReview(RequestChanges, High, reviews[i].id);
          if !ok {
            RoundsOfPrefix(reviews, i + 1, botLogin);
            return;
          }
        }
      }
      assert reviews[..|reviews|] == reviews;
      ok := true;
    }

    method HydrateResumeNoDecision(gh: ResumeAnswers) returns (ok: bool)
      requires ValidLog(log)
      modifies `ctx, `log, `branch, `rebasing, `green, `ciAgents
      ensures old(log) <= log
      ensures Quiet(old(log), log) && ValidLog(log)
      ensures ok ==> ctx == old(ctx).(resumeVerdict := NoVerdict) && HeadIsGreen() && gh.reviewerReady
      ensures !ok ==> ctx == old(ctx) || ctx == old(ctx).(prepareFailKind := KindDevFailed)
      ensures !ok && ctx.prepareFailKind != KindDevFailed ==> HeadIsGreen() && !gh.reviewerReady
    {
      var gate;
      ghost var rounds;
      gate, rounds := RunCIGate(gh.cis, gh.repairs);
      if gate != OutSuccess {
        ctx := ctx.(prepareFailKind := KindDevFailed);
        return false;
      }
      ok := gh.reviewerReady;
      if ok { ctx := ctx.(resumeVerdict := NoVerdict); }
    }

    /** A resumed run counts the bot's own change requests as used rounds: it either ends escalated or
        goes to the dev in the next round, with that many reviews in the log. */
    method HydrateResumeChangesRequested(reviews: seq<GitHubReview>, inlineComments: Option<string>) returns (ok: bool)
      requires ValidLog(log) && reviews != []
      modifies `ctx, `log, `branch
      ensures old(log) <= log
      ensures ValidLog(log) && Transitions(log) == old(Transitions(log))
      ensures ok ==>
        && Reviews(log) == old(Reviews(log)) + SyntheticRounds(reviews, botLogin)
        && old(ctx).round < ctx.maxRounds && ctx.findings != ""
        && ctx == old(ctx).(resumeVerdict := RequestChanges, round := old(ctx).round + 1,
                            findings := ctx.findings, findingsFor := reviews[|reviews| - 1].id,
                            devRetry := true, devAttempt := 0)
      ensures ok ==>
        if reviews[|reviews| - 1].body != "" then ctx.findings == reviews[|reviews| - 1].body
        else inlineComments.Some? && inlineComments.value != "" && ctx.findings == "See inline review comments"
      ensures !ok && Reviews(log) == old(Reviews(log)) + SyntheticRounds(reviews, botLogin) ==>
        if ctx.round >= ctx.maxRounds then ctx.prepareFailKind == KindEscalated
        else inlineComments.None? || (reviews[|reviews| - 1].body == "" && inlineComments.value == "")
      ensures !ok ==>
        || ctx == old(ctx).(resumeVerdict := RequestChanges)
        || (ctx == old(ctx).(resumeVerdict := RequestChanges, prepareFailKind := KindEscalated)
          && ctx.round >= ctx.maxRounds)
    {
      ctx := ctx.(resumeVerdict := RequestChanges);
      ok := ResumeSynthesizeBotCREvents(reviews);
      if !ok { return; }
      if ctx.round >= ctx.maxRounds {
        ctx := ctx.(prepareFailKind := KindEscalated);
        return false;
      }
      var last := reviews[|reviews| - 1];
      if inlineComments.None? || (last.body == "" && inlineComments.value == "") { return false; }
      var findings := if last.body == "" then "See inline review comments" else last.body;
      ctx := ctx.(round := ctx.round + 1, findings := findings, findingsFor := last.id, devRetry := true,
        devAttempt := 0);
    }

    /** The confidence that carries into the merge is that of the first such label on the PR, low without one. */
    method HydrateResumeApproved(last: GitHubReview, labels: seq<string>) returns (ok: bool)
      requires ValidLog(log)
      modifies `ctx, `log, `branch
      ensures old(log) <= log
      ensures ValidLog(log) && Transitions(log) == old(Transitions(log))
      ensures ctx == old(ctx).(resumeVerdict := Approve)
      ensures ok ==> |Reviews(log)| == old(|Reviews(log)|) + 1 && Approved()
      ensures ok ==> LastReview(log).value.reviewId == last.id
      ensures ok ==> IsConfidenceOf(labels, LastReview(log).value.confidence)
      ensures appendsWork && last.id != "" ==> ok
    {
      ctx := ctx.(resumeVerdict := Approve);
      var confidence := ConfidenceFromLabels(labels);
      ok := SynthesizeReview(Approve, confidence, last.id);
    }

    /** What the context and the log are when a resumed run goes on. */
    ghost predicate Hydrated()
      reads `ctx, `log, `branch, `green
    {
      match ctx.resumeVerdict
      case NoVerdict => HeadIsGreen() && Reviews(log) == []
      case Approve => ctx.prMerged || Approved()
      case RequestChanges => ctx.round == |Reviews(log)| + 1 <= ctx.maxRounds && ctx.devRetry && ctx.findings != ""
      case OtherVerdict(_) => false
    }

    /** The verdict is that of the last decision among `all`, and what goes on is about that review. */
    ghost predicate HydratedFrom(all: seq<GitHubReview>)
      reads `ctx, `log
    {
      && (NoDecision(all) ==> ctx.resumeVerdict == NoVerdict)
      && forall i :: LastDecisionAt(all, i) ==>
        && (all[i].state.StateApproved? ==>
              ctx.resumeVerdict == Approve && LastReview(log).Some? && LastReview(log).value.reviewId == all[i].id)
        && (all[i].state.StateChangesRequested? ==>
              && ctx.resumeVerdict == RequestChanges && ctx.findingsFor == all[i].id
              && (all[i].body != "" ==> ctx.findings == all[i].body))
    }

    method HydrateResumeReviews(gh: ResumeAnswers) returns (ok: bool)
      requires ValidLog(log) && Fresh(ctx) && ctx.resume && Reviews(log) == []
      modifies `ctx, `log, `branch, `rebasing, `green, `ciAgents
      ensures old(log) <= log
      ensures ValidLog(log) && Transitions(log) == old(Transitions(log)) && Prepared(old(ctx), ctx)
      ensures ok ==> Hydrated() && HydratedFrom(gh.all) && !ctx.prMerged
      ensures forall i :: LastDecisionAt(gh.all, i) ==>
        ctx.resumeVerdict == if gh.all[i].state.StateApproved? then Approve else RequestChanges
      ensures ok && ctx.resumeVerdict == Approve ==> IsConfidenceOf(gh.labels, LastReview(log).value.confidence)
      ensures !ctx.worktreeCreateFailed && (!ok ==> !ctx.prepareFailKind.OtherKind?)
    {
      ghost var n := SomeLastDecision(gh.all);
      if Decisions(gh.all) != [] {
        LastOfDecisions(gh.all, n);
        forall i | LastDecisionAt(gh.all, i) ensures i == n { OneLastDecision(gh.all, i, n); }
      }
      var submitted := FilterDecisionReviews(gh.all);
      var round := CountBotChangesRequestedReviews(submitted, botLogin);
      ctx := ctx.(round := round, prMerged := false);
      if submitted == [] {
        ok := HydrateResumeNoDecision(gh);
        return;
      }
      var last := submitted[|submitted| - 1];
      match last.state {
        case StateChangesRequested => ok := HydrateResumeChangesRequested(submitted, gh.inlineComments);
        case StateApproved => ok := HydrateResumeApproved(last, gh.labels);
        case StateOther => return false;
      }
    }

    /** Going on is about a PR that is merged or open, as GitHub says, and an open one is taken where its
        last decision left it. */
    method HydrateResume(gh: ResumeAnswers) returns (ok: bool)
      requires ValidLog(log) && Fresh(ctx) && ctx.resume && Reviews(log) == []
      modifies `ctx, `log, `branch, `rebasing, `green, `ciAgents
      ensures old(log) <= log
      ensures ValidLog(log) && Transitions(log) == old(Transitions(log)) && Prepared(old(ctx), ctx)
      ensures ok ==> Hydrated() && gh.prFetched && (ctx.prMerged <==> gh.state.MergedPR?)
      ensures ok ==> PROpened(gh.prNumber) in log && (ctx.prMerged ==> ctx.round == 0)
      ensures gh.prFetched && gh.state.MergedPR? && !ok ==> log == old(log)
      ensures ok && !gh.state.MergedPR? ==>
        && gh.state.Open? && gh.branchOk && gh.loginOk && gh.worktreeOk && gh.reviewsFetched && HydratedFrom(gh.all)
      ensures !ctx.worktreeCreateFailed && (!ok ==> !ctx.prepareFailKind.OtherKind?)
    {
      ctx := ctx.(prepareFailKind := NoKind);
      if !gh.prFetched { return false; }
      if gh.state.MergedPR? {
        var written := Write(PROpened(gh.prNumber));
        if !written { return false; }
        ctx := ctx.(round := 0, resumeVerdict := Approve, prMerged := true);
        return true;
      }
      if !gh.state.Open? { return false; }
      if !gh.branchOk || !gh.loginOk || !gh.worktreeOk { return false; }
      var written := Write(PROpened(gh.prNumber));
      if !written { return false; }
      if !gh.reviewsFetched { return false; }
      ok := HydrateResumeReviews(gh);
    }

    /** Every event it can return is routed, whatever the answers were. */
    method StepPrepare(issueOpen: bool, clean: bool, a: PrepareAnswers) returns (ev: Event)
      requires ValidLog(log) && Fresh(ctx) && Reviews(log) == []
      modifies `ctx, `log, `branch, `rebasing, `green, `ciAgents
      ensures ValidLog(log) && Transitions(log) == old(Transitions(log)) && Prepared(old(ctx), ctx)
      ensures Route(Prepare, ev, ctx).Some?
      ensures ev.NotEligible? <==> !issueOpen
      ensures issueOpen && !ctx.resume ==>
        (ev.Ready? <==> (clean ==> a.cleaned) && a.collision == Some(false) && a.created)
      ensures ctx.worktreeCreateFailed
        <==> issueOpen && !ctx.resume && (clean ==> a.cleaned) && a.collision == Some(false) && !a.created
      ensures ev.Ready? && ctx.resume ==>
        Hydrated() && (clean ==> a.cleaned) && (ctx.prMerged <==> a.gh.state.MergedPR?)
      ensures ev.Ready? && ctx.resume && !ctx.prMerged ==> HydratedFrom(a.gh.all)
      ensures ev.Ready? && !ctx.resume ==> ctx == old(ctx) && Reviews(log) == []
    {
      if !issueOpen { return NotEligible; }
      if clean {
        if !a.cleaned { return PrepareFailed; }
      }
      if !ctx.resume {
        if a.collision.None? || a.collision.value { return PrepareFailed; }
        if !a.created {
          ctx := ctx.(worktreeCreateFailed := true);
          return PrepareFailed;
        }
        return Ready;
      }
      var ok := HydrateResume(a.gh);
      ev := if ok then Ready else PrepareFailed;
    }

    // ----- RUN_DEV -------------------------------------------------------------------------------------

    /** Commits and pushes what the dev left; the first time it also opens the PR and records it. */
    method CommitDevDone(a: CommitAnswers) returns (ok: bool)
      requires ValidLog(log)
      modifies `log, `branch, `green
      ensures Quiet(old(log), log) && ValidLog(log)
      ensures ok ==> HasPROpened(log) && a.staged
      ensures old(HasPROpened(log)) ==> log == old(log)
      ensures old(HasPROpened(log)) ==> (ok <==> a.staged && (a.nothingStaged || (a.committed && a.pushed)))
      ensures ok && old(HasPROpened(log)) && a.nothingStaged ==> branch == old(branch) && green == old(green)
      ensures ok && !(old(HasPROpened(log)) && a.nothingStaged) ==>
        a.committed && a.pushed && branch == Pushed(old(branch).(local := a.commit)) && green.None?
      ensures ok && !old(HasPROpened(log)) ==> a.prNumber.Some? && log == old(log) + [PROpened(a.prNumber.value)]
      ensures !old(HasPROpened(log)) && appendsWork ==>
        (ok <==> a.staged && a.committed && a.pushed && a.prNumber.Some? && a.prNumber.value != "")
    {
      var hasPR := HasPROpenedEvent(log);
      if !a.staged { return false; }
      if hasPR && a.nothingStaged { return true; }
      if !a.committed { return false; }
      branch := branch.(local := a.commit);
      if !a.pushed { return false; }
      branch, green := Pushed(branch), None;
      if hasPR { return true; }
      if a.prNumber.None? { return false; }
      ok := Write(PROpened(a.prNumber.value));
    }

    /** Which event a dev invocation gives: how the agent ended decides first, then what the broker knows. */
    method RunDevAgentWithPrompt(a: DevAnswers) returns (ev: Event)
      requires ValidLog(log)
      modifies `log, `branch, `rebasing, `green
      ensures Quiet(old(log), log) && ValidLog(log)
      ensures ev in {DevDone, DevGateRejected, DevFailedEvent, AgentTimedOut, AgentStalled, AgentAborted}
      ensures ev.AgentTimedOut? <==> a.brokerUp && a.agent.exit.ExitTimeout?
      ensures ev.AgentStalled? <==> a.brokerUp && a.agent.exit.ExitStalled?
      ensures ev.AgentAborted? <==> a.brokerUp && a.agent.exit.ExitThinkingLoop?
      ensures ev.DevGateRejected?
        <==> a.brokerUp && a.agent.exit == ExitCode(0) && !a.gate.accepted && !a.gate.recovered
      ensures ev.DevDone? ==>
        && HasPROpened(log) && a.brokerUp && a.agent.exit == ExitCode(0)
        && (if a.gate.accepted then a.gate.unchangedSince else a.gate.recovered)
        && branch in {Edited(old(branch), a.agent), Pushed(Edited(old(branch), a.agent).(local := a.commit.commit))}
      ensures !a.brokerUp ==> branch == old(branch)
      ensures a.brokerUp && !ev.DevDone? && !ev.DevFailedEvent? ==> branch == Edited(old(branch), a.agent)
    {
      if !a.brokerUp { return DevFailedEvent; }
      AgentEdits(a.agent);
      match a.agent.exit {
        case ExitTimeout => return AgentTimedOut;
        case ExitStalled => return AgentStalled;
        case ExitThinkingLoop => return AgentAborted;
        case ExitError => return DevFailedEvent;
        case ExitCode(code) =>
          if code != 0 { return DevFailedEvent; }
      }
      if a.gate.accepted && !a.gate.unchangedSince { return DevFailedEvent; }
      if !a.gate.accepted && !a.gate.recovered { return DevGateRejected; }
      var committed := CommitDevDone(a.commit);
      ev := if committed then DevDone else DevFailedEvent;
    }

    /** One dev invocation. Only a first attempt with findings starts a new round. */
    method StepRunDev(a: DevAnswers) returns (ev: Event)
      requires ValidLog(log) && 0 <= ctx.devAttempt <= 2
      modifies `ctx, `log, `branch, `rebasing, `green
      ensures Quiet(old(log), log) && ValidLog(log)
      ensures Route(RunDev, ev, ctx).Some?
      ensures ctx == old(ctx).(devAttempt := ctx.devAttempt, round := ctx.round)
      ensures ctx.round == old(ctx).round + if old(ctx).devAttempt == 0 && old(ctx).devRetry then 1 else 0
      ensures ctx.devAttempt == if ev.DevDone? then 0 else old(ctx).devAttempt + if ev.DevGateRejected? then 1 else 0
      ensures ev.DevDone? ==> HasPROpened(log)
      ensures ev.DevGateRejected?
        <==> a.promptOk && a.brokerUp && a.agent.exit == ExitCode(0) && !a.gate.accepted && !a.gate.recovered
      ensures ev.DevDone? ==> if a.gate.accepted then a.gate.unchangedSince else a.gate.recovered
      ensures ev.AgentTimedOut? <==> a.promptOk && a.brokerUp && a.agent.exit.ExitTimeout?
      ensures ev.AgentStalled? <==> a.promptOk && a.brokerUp && a.agent.exit.ExitStalled?
      ensures ev.AgentAborted? <==> a.promptOk && a.brokerUp && a.agent.exit.ExitThinkingLoop?
    {
      if ctx.devAttempt == 0 && ctx.devRetry {
        ctx := ctx.(round := ctx.round + 1);
      }
      if !a.promptOk { return DevFailedEvent; }
      ev := RunDevAgentWithPrompt(a);
      if ev.DevDone? {
        ctx := ctx.(devAttempt := 0);
      } else if ev.DevGateRejected? {
        ctx := ctx.(devAttempt := ctx.devAttempt + 1);
      }
    }

    // ----- SYNC_CI -------------------------------------------------------------------------------------

    /** Green means that the head the reviewer will see is green. */
    method StepSyncCI(numberParses: bool, a: SyncAnswers) returns (ev: Event)
      requires ValidLog(log)
      modifies `log, `branch, `rebasing, `green, `conflictAgents, `ciAgents
      ensures Quiet(old(log), log) && ValidLog(log)
      ensures ev in {CIGreen, CIFailed, ConflictUnresolved}
      ensures ev.CIGreen? ==> HeadIsGreen() && old(HasPROpened(log)) && numberParses
      ensures ev.CIGreen? && ciAgents == old(ciAgents) ==> UpToDate(branch)
      ensures old(HasPROpened(log)) && numberParses && GateOpens(a, old(branch), old(rebasing)) ==> ev.CIGreen?
      ensures ev.ConflictUnresolved? ==> conflictAgents == old(conflictAgents) + ConflictCap() && !rebasing
    {
      var hasPR := HasPROpenedEvent(log);
      if !hasPR { return CIFailed; }
      var numberOk := GetPRNumber(numberParses);
      if !numberOk { return CIFailed; }
      var out := RunPreReviewSyncGate(a);
      ev := match out
        case OutSuccess => CIGreen
        case OutConflictUnresolved => ConflictUnresolved
        case _ => CIFailed;
    }

    // ----- RUN_REVIEWER --------------------------------------------------------------------------------

    /** A failed precheck counts as a review that requests changes. */
    method ReviewerPrecheckEvent(currentRound: nat) returns (ev: Event)
      requires ValidLog(log)
      modifies `ctx, `log, `branch
      ensures ValidLog(log) && Transitions(log) == old(Transitions(log))
      ensures ev.PrecheckFailed? || ev.ReviewFailedEvent?
      ensures ev.PrecheckFailed? ==>
        && |Reviews(log)| == old(|Reviews(log)|) + 1 && JustReviewed()
        && Decided(old(ctx), ctx, PrecheckFailed, LastReview(log).value, |Reviews(log)|)
        && LastReview(log).value.reviewRound == currentRound && LastReview(log).value.headSha == ""
        && LastReview(log).value.reviewId == "precheck-r" + Dec(currentRound)
        && (BudgetLeft(ctx) ==> ctx.findingsFor == "")
      ensures ev.ReviewFailedEvent? ==> ctx == old(ctx) && log == old(log)
      ensures Route(RunReviewer, ev, ctx).Some? && SameLimits(old(ctx), ctx)
      ensures old(ctx).mergeReReviewRound <= ctx.mergeReReviewRound
    {
      var id := "precheck-r" + Dec(currentRound);
      var written := WriteReview(Review(RequestChanges, Low, "", id, "", currentRound, Some(0)));
      if !written { return ReviewFailedEvent; }
      var count := CountReviewSubmittedEvents(log);
      ctx := ctx.(round := count);
      var escalate: bool;
      if ctx.inMergeReReview {
        ctx := ctx.(mergeReReviewRound := ctx.mergeReReviewRound + 1);
        escalate := ctx.mergeReReviewRound >= ctx.maxMergeReReviewRounds;
      } else {
        escalate := ctx.round >= ctx.maxRounds;
      }
      if escalate { return PrecheckFailed; }
      var findings: string := *;
      ctx := ctx.(findings := findings, findingsFor := "", devRetry := true, devAttempt := 0);
      ev := PrecheckFailed;
    }

    /** One attempt of the round; `rejected` means that the gate rejected what the reviewer submitted. */
    method ReviewerAttempt(currentRound: nat, turn: ReviewerTurn, sweep: bool)
      returns (fail: Option<Event>, rejected: bool)
      requires ValidLog(log)
      modifies `ctx, `log, `branch, `reviewerAgents
      ensures ValidLog(log) && Transitions(log) == old(Transitions(log))
      ensures rejected <==> (sweep ==> turn.swept) && TurnRejected(turn)
      ensures rejected ==> fail.None?
      ensures !rejected ==> EndsAs(turn, sweep ==> turn.swept, fail)
      ensures old(reviewerAgents) <= reviewerAgents <= old(reviewerAgents) + 1
      ensures fail.None? ==>
        && log == old(log) && ctx == old(ctx) && branch == old(branch) && reviewerAgents == old(reviewerAgents) + 1
        && (!rejected ==> !(turn.state.Some? && turn.state.value.gateRejected))
      ensures fail.Some? ==> FailedRound(fail.value)
      ensures fail == Some(PrecheckFailed) ==>
        && |Reviews(log)| == old(|Reviews(log)|) + 1 && JustReviewed()
        && Decided(old(ctx), ctx, PrecheckFailed, LastReview(log).value, |Reviews(log)|)
      ensures fail == Some(PrecheckFailed) ==> LastReview(log).value.reviewRound == currentRound
      ensures fail.Some? && fail != Some(PrecheckFailed) ==> ctx == old(ctx) && log == old(log)
      ensures fail.Some? ==> Route(RunReviewer, fail.value, ctx).Some? && SameLimits(old(ctx), ctx)
      ensures fail.Some? ==> old(ctx).mergeReReviewRound <= ctx.mergeReReviewRound
    {
      rejected := false;
      if sweep && !turn.swept { return Some(ReviewFailedEvent), false; }
      if turn.precheckOk.None? { return Some(ReviewFailedEvent), false; }
      if !turn.precheckOk.value {
        var ev := ReviewerPrecheckEvent(currentRound);
        return Some(ev), false;
      }
      reviewerAgents := reviewerAgents + 1;
      if turn.state.Some? && turn.state.value.gateRejected { return None, true; }
      match turn.exit {
        case ExitTimeout => fail := Some(AgentTimedOut);
        case ExitStalled => fail := Some(AgentStalled);
        case ExitThinkingLoop => fail := Some(AgentAborted);
        case ExitError => fail := Some(ReviewFailedEvent);
        case ExitCode(code) => fail := if code != 0 then Some(ReviewFailedEvent) else None;
      }
    }

    predicate FailedRound(ev: Event) {
      ev in {ReviewFailedEvent, AgentTimedOut, AgentStalled, AgentAborted, PrecheckFailed}
    }

    /** At most three reviewer agents; a gate rejection is the only reason for another one, and the attempt
        after the rejected ones decides. */
    method RunReviewerAttemptLoop(currentRound: nat, turns: nat -> ReviewerTurn)
      returns (state: Option<ReviewerState>, fail: Option<Event>, ghost rejected: nat)
      requires ValidLog(log)
      modifies `ctx, `log, `branch, `reviewerAgents
      ensures ValidLog(log) && Transitions(log) == old(Transitions(log))
      ensures rejected <= MAX_REVIEWER_ATTEMPTS && reviewerAgents <= old(reviewerAgents) + rejected + 1
      ensures reviewerAgents <= old(reviewerAgents) + MAX_REVIEWER_ATTEMPTS
      ensures rejected == MAX_REVIEWER_ATTEMPTS ==> fail == Some(ReviewFailedEvent)
      ensures forall j :: 0 <= j < rejected ==> TurnRejected(turns(j))
      ensures rejected < MAX_REVIEWER_ATTEMPTS ==>
        && !((rejected == 0 ==> turns(0).swept) && TurnRejected(turns(rejected)))
        && EndsAs(turns(rejected), rejected == 0 ==> turns(0).swept, fail)
        && (fail.None? ==> state == turns(rejected).state)
      ensures fail.None? ==>
        && log == old(log) && ctx == old(ctx) && branch == old(branch)
        && reviewerAgents == old(reviewerAgents) + rejected + 1 && !(state.Some? && state.value.gateRejected)
      ensures fail.Some? ==> FailedRound(fail.value)
      ensures fail == Some(PrecheckFailed) ==>
        && |Reviews(log)| == old(|Reviews(log)|) + 1 && JustReviewed()
        && Decided(old(ctx), ctx, PrecheckFailed, LastReview(log).value, |Reviews(log)|)
      ensures fail == Some(PrecheckFailed) ==> LastReview(log).value.reviewRound == currentRound
      ensures fail.Some? && fail != Some(PrecheckFailed) ==> ctx == old(ctx) && log == old(log)
      ensures fail.Some? ==> Route(RunReviewer, fail.value, ctx).Some? && SameLimits(old(ctx), ctx)
      ensures fail.Some? ==> old(ctx).mergeReReviewRound <= ctx.mergeReReviewRound
    {
      var prevGateRejected := false;
      state, fail, rejected := None, None, 0;
      for attempt := 0 to MAX_REVIEWER_ATTEMPTS
        invariant log == old(log) && ctx == old(ctx) && branch == old(branch)
          && reviewerAgents == old(reviewerAgents) + attempt
        invariant attempt < MAX_REVIEWER_ATTEMPTS && rejected == attempt && (prevGateRejected <==> attempt > 0)
        invariant forall j :: 0 <= j < attempt ==> TurnRejected(turns(j))
      {
        var gateRejected;
        fail, gateRejected := ReviewerAttempt(currentRound, turns(attempt), !prevGateRejected);
        if fail.Some? { return None, fail, rejected; }
        state := turns(attempt).state;
        if gateRejected {
          prevGateRejected, rejected := true, rejected + 1;
          if attempt == MAX_REVIEWER_ATTEMPTS - 1 { return None, Some(ReviewFailedEvent), rejected; }
          continue;
        }
        break;
      }
    }

    /** The reviewer submitted a complete review, and GitHub takes it. */
    predicate Submits(state: Option<ReviewerState>, a: SubmitAnswers) {
      && state.Some? && state.value.params.Some? && a.ready && a.submitted.Some?
      && ValidReview(Review(state.value.params.value.verdict, state.value.params.value.confidence, "",
                            a.submitted.value.0, "", 0, Some(a.submitted.value.1)))
    }

    /** The review is what the reviewer submitted through the broker. */
    predicate IsSubmitted(state: Option<ReviewerState>, r: Review) {
      && state.Some? && state.value.params.Some?
      && var p := state.value.params.value;
        r.verdict == p.verdict && r.confidence == p.confidence && r.body == p.body
    }

    method SubmitReviewAndWriteEvent(state: Option<ReviewerState>, round: nat, headSha: string, a: SubmitAnswers)
      returns (ok: bool)
      requires ValidLog(log)
      modifies `log, `branch
      ensures ValidLog(log) && Transitions(log) == old(Transitions(log)) && old(|Reviews(log)|) <= |Reviews(log)|
      ensures ok && state.Some? && state.value.params.Some? ==>
        && |Reviews(log)| == old(|Reviews(log)|) + 1 && branch == AtReview(old(branch))
        && var p, r := state.value.params.value, LastReview(log).value;
          && r.verdict == p.verdict && r.confidence == p.confidence && r.body == p.body
          && r.reviewRound == round && r.headSha == headSha
          && a.ready && a.submitted.Some? && r.reviewId == a.submitted.value.0
      ensures state.None? || state.value.params.None? ==> ok && log == old(log) && branch == old(branch)
      ensures appendsWork && Submits(state, a) ==> ok
    {
      if state.None? || state.value.params.None? { return true; }
      var params := state.value.params.value;
      if !a.ready || a.submitted.None? { return false; }
      var (submittedID, inlineCount) := a.submitted.value;
      ok := WriteReview(Review(params.verdict, params.confidence, params.body, submittedID, headSha, round,
        Some(inlineCount)));
    }

    method CheckFreshnessAndSubmit(state: Option<ReviewerState>, countBefore: nat, headSha: string, a: SubmitAnswers)
      returns (ok: bool)
      requires ValidLog(log) && countBefore == |Reviews(log)|
      modifies `log, `branch
      ensures ValidLog(log) && Transitions(log) == old(Transitions(log)) && countBefore <= |Reviews(log)|
      ensures ok ==> |Reviews(log)| == countBefore + 1 && branch == AtReview(old(branch))
      ensures ok ==> LastReview(log).value.reviewRound == countBefore + 1 && LastReview(log).value.headSha == headSha
      ensures ok ==> IsSubmitted(state, LastReview(log).value)
      ensures appendsWork && Submits(state, a) ==> ok
    {
      var hasBrokerSubmit := state.Some? && state.value.params.Some?;
      var countAfter := CountReviewSubmittedEvents(log);
      if !hasBrokerSubmit && countAfter <= countBefore { return false; }
      ok := SubmitReviewAndWriteEvent(state, countBefore + 1, headSha, a);
    }

    /** Verdict, body and review id are read by separate queries; here they are of one event, the last. */
    method ReviewerVerdictEvent(ghost before: RunContext, headSha: string, findingsLoaded: bool) returns (ev: Event)
      requires ValidLog(log) && LastReview(log).Some? && MatchesCriteria(LastReview(log).value, ctx.round, headSha)
      requires ctx == Reviewed(before, |Reviews(log)|)
      modifies `ctx
      ensures Decided(before, ctx, ev, LastReview(log).value, |Reviews(log)|)
        || (ev == ReviewFailedEvent && ctx == old(ctx))
      ensures LastReview(log).value.verdict == Approve ==> ev == ReviewApproved
      ensures ev.ReviewFailedEvent? ==> BudgetLeft(ctx) && (LastReview(log).value.body == "" || !findingsLoaded)
    {
      ghost var rs := Reviews(log);
      ReviewsAreValid(log);
      assert Picks(rs, |rs| - 1, ctx.round, headSha);
      forall i | Picks(rs, i, ctx.round, headSha) ensures i == |rs| - 1 {
        PickIsUnique(rs, i, |rs| - 1, ctx.round, headSha);
      }
      var verdict := LatestReviewVerdict(log, ctx.round, headSha);
      if verdict.None? { return ReviewFailedEvent; }
      match verdict.value {
        case Approve => return ReviewApproved;
        case RequestChanges =>
          var escalate := if ctx.inMergeReReview then ctx.mergeReReviewRound >= ctx.maxMergeReReviewRounds
            else ctx.round >= ctx.maxRounds;
          if escalate { return ChangesRequested; }
          var findings := LatestReviewBody(log);
          if findings.None? || findings.value == "" { return ReviewFailedEvent; }
          var id := LatestReviewID(log);
          if id.None? || !findingsLoaded { return ReviewFailedEvent; }
          ctx := ctx.(findings := findings.value, findingsFor := id.value, devRetry := true, devAttempt := 0);
          return ChangesRequested;
        case _ => return ReviewFailedEvent;
      }
    }

    /** The head the round is about, and how many reviews there are before it. */
    method PrepareReviewerRound(numberParses: bool, headRead: bool)
      returns (ok: bool, headSha: string, countBefore: nat)
      requires ValidLog(log)
      ensures headSha == branch.head.sha && countBefore == |Reviews(log)|
      ensures ok <==> HasPROpened(log) && numberParses && headRead
    {
      ok := GetPRNumber(numberParses);
      ok, headSha := ok && headRead, branch.head.sha;
      countBefore := CountReviewSubmittedEvents(log);
    }

    /** Counts the round that has just got its review, and decides on that review. */
    method CloseRound(headSha: string, findingsLoaded: bool) returns (ev: Event)
      requires ValidLog(log) && LastReview(log).Some? && MatchesCriteria(LastReview(log).value, |Reviews(log)|, headSha)
      modifies `ctx
      ensures ev == ReviewFailedEvent || Decided(old(ctx), ctx, ev, LastReview(log).value, |Reviews(log)|)
      ensures Route(RunReviewer, ev, ctx).Some? && SameLimits(old(ctx), ctx) && ctx.round == |Reviews(log)|
      ensures old(ctx).mergeReReviewRound <= ctx.mergeReReviewRound
      ensures ev == ReviewFailedEvent ==> LastReview(log).value.body == "" || !findingsLoaded
    {
      var count := CountReviewSubmittedEvents(log);
      ctx := ctx.(round := count);
      if ctx.inMergeReReview { ctx := ctx.(mergeReReviewRound := ctx.mergeReReviewRound + 1); }
      ev := ReviewerVerdictEvent(old(ctx), headSha, findingsLoaded);
      if !ev.ReviewFailedEvent? {
        DecisionsAreRouted(old(ctx), ctx, ev, LastReview(log).value, |Reviews(log)|);
      }
    }

    /** One reviewer round. At every decision the round is the number of reviews in the log, and the
        last of them is the one decided on, with nothing changed since. */
    method StepRunReviewer(a: ReviewerAnswers) returns (ev: Event)
      requires ValidLog(log)
      modifies `ctx, `log, `branch, `reviewerAgents
      ensures ValidLog(log) && Transitions(log) == old(Transitions(log))
      ensures Route(RunReviewer, ev, ctx).Some? && SameLimits(old(ctx), ctx)
      ensures old(|Reviews(log)|) <= |Reviews(log)| && old(ctx).mergeReReviewRound <= ctx.mergeReReviewRound
      ensures IsDecision(ev) ==>
        && |Reviews(log)| == old(|Reviews(log)|) + 1 && JustReviewed()
        && Decided(old(ctx), ctx, ev, LastReview(log).value, |Reviews(log)|)
      ensures ev.PrecheckFailed? ==> LastReview(log).value.reviewRound == |Reviews(log)|
      ensures ev.ReviewApproved? || ev.ChangesRequested? ==>
        LastReview(log).value.reviewRound == ctx.round && LastReview(log).value.headSha == branch.head.sha
      ensures reviewerAgents <= old(reviewerAgents) + MAX_REVIEWER_ATTEMPTS
      ensures ev.ReviewApproved? || ev.ChangesRequested? ==>
        a.fetch.ok && a.worktreeOk && a.headRead && old(HasPROpened(log)) && a.dirty == Some(false)
      ensures ev.ReviewApproved? || ev.ChangesRequested? ==>
        exists n :: 0 <= n < MAX_REVIEWER_ATTEMPTS && IsSubmitted(a.turns(n).state, LastReview(log).value)
    {
      var fetched := FetchOrigin(a.fetch);
      if !fetched || !a.worktreeOk { return ReviewFailedEvent; }
      var prepared, headSha, countBefore := PrepareReviewerRound(a.numberParses, a.headRead);
      if !prepared { return ReviewFailedEvent; }
      var state, fail;
      ghost var rejected;
      state, fail, rejected := RunReviewerAttemptLoop(countBefore + 1, a.turns);
      if fail.Some? { return fail.value; }
      var submitted := CheckFreshnessAndSubmit(state, countBefore, headSha, a.submit);
      if !submitted { return ReviewFailedEvent; }
      if a.dirty.None? || a.dirty.value { return ReviewFailedEvent; }
      ev := CloseRound(headSha, a.findingsLoaded);
    }

    // ----- MERGE_PR ------------------------------------------------------------------------------------

    /** Entered with an approval that stands, or with the PR already merged. */
    method StepMergePR(a: MergeAnswers) returns (ev: Event, ghost tries: seq<MergeTry>)
      requires ValidLog(log) && (ctx.prMerged || Approved())
      modifies `ctx, `log, `branch, `rebasing, `green, `conflictAgents, `merges, `resyncs
      ensures Quiet(old(log), log) && ValidLog(log)
      ensures ev in {Merged, MergeFailedEvent, ConflictResolved, ConflictUnresolved}
      ensures ctx == if ev.ConflictResolved? then old(ctx).(inMergeReReview := true) else old(ctx)
      ensures merges == old(merges) + tries && |tries| <= MAX_OUT_OF_DATE_RETRIES && GoodTries(tries, ev.Merged?)
      ensures resyncs == old(resyncs) + ResyncsOf(tries)
      ensures ctx.prMerged ==> ev.Merged? && log == old(log)
      ensures ev.Merged? ==> (tries == [] <==> ctx.prMerged || old(LastReview(log)).value.confidence == Low)
      ensures ev.ConflictResolved? || ev.ConflictUnresolved? ==> tries == [] && !rebasing
    {
      tries := [];
      if ctx.prMerged { return Merged, []; }
      var out: Outcome;
      out, tries := RunMergePhase(a);
      match out {
        case OutConflictResolved =>
          ctx := ctx.(inMergeReReview := true);
          ev := ConflictResolved;
        case OutConflictUnresolved => ev := ConflictUnresolved;
        case OutSuccess => ev := Merged;
        case _ => ev := MergeFailedEvent;
      }
    }

    // ----- the machine ---------------------------------------------------------------------------------

    /** What holds whenever the machine stands at `step`. */
    ghost predicate At(step: Step)
      reads `ctx, `log, `branch
    {
      && ValidLog(log) && AttemptsFit(step, ctx)
      && (step.Prepare? ==> Fresh(ctx) && Reviews(log) == [])
      && (step.MergePR? ==> ctx.prMerged || Approved())
    }

    method FromRunReviewer() returns (ev: Event)
      requires At(RunReviewer)
      modifies `ctx, `log, `branch, `reviewerAgents
      ensures Moved(RunReviewer, ev, old(ctx), ctx, old(|Reviews(log)|), |Reviews(log)|)
        && At(Route(RunReviewer, ev, ctx).value)
      ensures Transitions(log) == old(Transitions(log)) && !ev.Merged?
    {
      var a: ReviewerAnswers := *;
      ev := StepRunReviewer(a);
      if IsDecision(ev) {
        DecisionMoves(old(ctx), ctx, ev, LastReview(log).value, |Reviews(log)| - 1);
      } else {
        FailedReviewMoves(old(ctx), ctx, ev, old(|Reviews(log)|), |Reviews(log)|);
      }
    }

    method FromPrepare(issueOpen: bool, clean: bool) returns (ev: Event)
      requires At(Prepare)
      modifies `ctx, `log, `branch, `rebasing, `green, `ciAgents
      ensures Moved(Prepare, ev, old(ctx), ctx, old(|Reviews(log)|), |Reviews(log)|)
        && At(Route(Prepare, ev, ctx).value)
      ensures Transitions(log) == old(Transitions(log)) && !ev.Merged?
    {
      var a: PrepareAnswers := *;
      ev := StepPrepare(issueOpen, clean, a);
      PrepareMoves(old(ctx), ctx, ev, |Reviews(log)|);
    }

    method FromRunDev() returns (ev: Event)
      requires At(RunDev)
      modifies `ctx, `log, `branch, `rebasing, `green
      ensures Moved(RunDev, ev, old(ctx), ctx, old(|Reviews(log)|), |Reviews(log)|) && At(Route(RunDev, ev, ctx).value)
      ensures Transitions(log) == old(Transitions(log)) && !ev.Merged?
    {
      var a: DevAnswers := *;
      ev := StepRunDev(a);
      DevMoves(old(ctx), ctx, ev, |Reviews(log)|);
    }

    method FromSyncCI() returns (ev: Event)
      requires At(SyncCI)
      modifies `log, `branch, `rebasing, `green, `conflictAgents, `ciAgents
      ensures Moved(SyncCI, ev, ctx, ctx, old(|Reviews(log)|), |Reviews(log)|) && At(Route(SyncCI, ev, ctx).value)
      ensures Transitions(log) == old(Transitions(log)) && !ev.Merged?
    {
      var parses: bool, a: SyncAnswers := *, *;
      ev := StepSyncCI(parses, a);
      SyncMoves(ctx, ev, |Reviews(log)|);
    }

    method FromMergePR() returns (ev: Event, ghost tries: seq<MergeTry>)
      requires At(MergePR)
      modifies `ctx, `log, `branch, `rebasing, `green, `conflictAgents, `merges, `resyncs
      ensures Moved(MergePR, ev, old(ctx), ctx, old(|Reviews(log)|), |Reviews(log)|)
        && At(Route(MergePR, ev, ctx).value)
      ensures Transitions(log) == old(Transitions(log))
      ensures merges == old(merges) + tries && GoodTries(tries, ev.Merged?)
      ensures ev.Merged? && tries == [] ==> ctx.prMerged || SkippedForLowConfidence(LastReview(log))
    {
      var a: MergeAnswers := *;
      ev, tries := StepMergePR(a);
      MergeMoves(old(ctx), ctx, ev, |Reviews(log)|);
    }

    /** One handler call. Its event has exactly one edge, the next step's condition holds, and the
        measure falls. */
    method Handle(step: Step, issueOpen: bool, clean: bool) returns (ev: Event, ghost tries: seq<MergeTry>)
      requires At(step) && !IsTerminal(step)
      modifies this
      ensures Moved(step, ev, old(ctx), ctx, old(|Reviews(log)|), |Reviews(log)|) && At(Route(step, ev, ctx).value)
      ensures Transitions(log) == old(Transitions(log))
      ensures merges == old(merges) + tries && GoodTries(tries, ev.Merged?)
      ensures ev.Merged? ==> step.MergePR? && (tries == [] ==> ctx.prMerged || SkippedForLowConfidence(LastReview(log)))
    {
      tries := [];
      match step {
        case Prepare => ev := FromPrepare(issueOpen, clean);
        case RunDev => ev := FromRunDev();
        case SyncCI => ev := FromSyncCI();
        case RunReviewer => ev := FromRunReviewer();
        case MergePR => ev, tries := FromMergePR();
      }
    }

    /** What the machine's observer does on every transition; the append succeeds. */
    method AppendTransition(step: Step, ev: Event, next: Step, seqNo: nat)
      requires seqNo == |Transitions(log)| + 1
      requires ValidLog(log) && Chained(Transitions(log), step)
      modifies `log
      ensures ValidLog(log) && Reviews(log) == old(Reviews(log))
      ensures Chained(Transitions(log), next) && |Transitions(log)| == old(|Transitions(log)|) + 1
      ensures ResolvedConflicts(Transitions(log))
        == old(ResolvedConflicts(Transitions(log))) + if ev.ConflictResolved? then 1 else 0
    {
      var e := StepTransition(step, ev, next, seqNo);
      ChainGrows(Transitions(log), step, ev, next);
      Appended(log, e);
      log := log + [e];
    }

    /** The step that the one matching edge of the table leads to; without one it is a StateError. */
    method FindNext(step: Step, ev: Event) returns (next: Step, stateError: bool)
      ensures stateError <==> Route(step, ev, ctx).None?
      ensures !stateError ==> next == Route(step, ev, ctx).value
    {
      var matched := CollectMatches(LOOP_TRANSITIONS, step, ev, ctx);
      TableIsRoute(step, ev, ctx);
      if |matched| != 1 { return step, true; }
      next, stateError := matched[0].to, false;
    }

    /** One turn of the machine: the handler, the search for the one matching edge, the observer. */
    method Advance(step: Step, issueOpen: bool, clean: bool, seqNo: nat)
      returns (next: Step, stateError: bool, resolved: bool)
      requires At(step) && !IsTerminal(step) && SafeHistory(merges, step)
      requires Chained(Transitions(log), step) && seqNo == |Transitions(log)| + 1
      modifies this
      ensures !stateError && At(next)
      ensures ctx.maxRounds == old(ctx).maxRounds && ctx.maxMergeReReviewRounds == old(ctx).maxMergeReReviewRounds
      ensures Chained(Transitions(log), next) && |Transitions(log)| == seqNo
      ensures ResolvedConflicts(Transitions(log))
        == old(ResolvedConflicts(Transitions(log))) + if resolved then 1 else 0
      ensures Measure(next, ctx, |Reviews(log)|) + 1
        <= old(Measure(step, ctx, |Reviews(log)|)) + if resolved then 2 else 0
      ensures SafeHistory(merges, next)
      ensures next.Success? ==> ReachedSuccess(merges, ctx.prMerged, LastReview(log))
    {
      ghost var tries: seq<MergeTry>;
      var ev: Event;
      ghost var before := merges;
      ev, tries := Handle(step, issueOpen, clean);
      resolved := ev.ConflictResolved?;
      next, stateError := FindNext(step, ev);
      if stateError { return; }
      OnlyMergedSucceeds(step, ev, ctx);
      HistoryGrows(before, tries, step, next, ev.Merged?);
      AppendTransition(step, ev, next, seqNo);
    }

    /** The machine, observed until it stops or has resolved more than `k` merge-time conflicts.

        It never fails to find the one edge it needs; the transitions it logs chain from `Prepare` to
        where it stands, numbered from 1; every merge it tried was safe, and at most the last went
        through, which is success. As long as at most `k` conflicts were resolved it has stopped, within a
        bound given by the two review budgets and the number of resolved conflicts. */
    method RunStepMachine(issueOpen: bool, clean: bool, k: nat) returns (step: Step, stateError: bool, conflicts: nat)
      requires Fresh(ctx) && ValidLog(log) && Reviews(log) == [] && Transitions(log) == [] && merges == []
      modifies this
      ensures !stateError
      ensures Chained(Transitions(log), step)
      ensures conflicts == ResolvedConflicts(Transitions(log))
      ensures conflicts <= k ==> IsTerminal(step)
      ensures |Transitions(log)| <= 7 + 5 * (Max0(old(ctx).maxRounds - 1) + Max0(old(ctx).maxMergeReReviewRounds - 1))
        + 2 * conflicts
      ensures SafeHistory(merges, step)
      ensures forall i :: 0 <= i < |merges| ==>
        (MergesTheReviewed(merges[i].branch) <==> NothingHeldBack(merges[i].branch))
      ensures step.Success? ==> ReachedSuccess(merges, ctx.prMerged, LastReview(log))
    {
      step, stateError, conflicts := Prepare, false, 0;
      var currentStepSeq := 0;
      ghost var start := Measure(Prepare, ctx, 0);
      while !IsTerminal(step) && conflicts <= k
        invariant !stateError && At(step) && currentStepSeq == |Transitions(log)|
        invariant ctx.maxRounds == old(ctx).maxRounds && ctx.maxMergeReReviewRounds == old(ctx).maxMergeReReviewRounds
        invariant Chained(Transitions(log), step) && conflicts == ResolvedConflicts(Transitions(log))
        invariant |Transitions(log)| + Measure(step, ctx, |Reviews(log)|) <= start + 2 * conflicts
        invariant SafeHistory(merges, step)
        invariant step.Success? ==> ReachedSuccess(merges, ctx.prMerged, LastReview(log))
        decreases k + 1 - conflicts, Measure(step, ctx, |Reviews(log)|)
      {
        currentStepSeq := currentStepSeq + 1;
        var resolved: bool;
        step, stateError, resolved := Advance(step, issueOpen, clean, currentStepSeq);
        if stateError { return; }
        if resolved { conflicts := conflicts + 1; }
      }
      forall t | t in merges ensures MergesTheReviewed(t.branch) <==> NothingHeldBack(t.branch) {
        MergesTheReviewedIff(t);
      }
    }
  }
}
