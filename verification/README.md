# golemic: a verified model

golemic drives a dev agent and a reviewer agent through a guarded state machine until a pull request is
merged. This project models its protocols and proves what they guarantee over whole runs.

| module | what it models |
|---|---|
| `CbmBroker` | the multiplexer that lets many clients share one child process: class `Broker` with the critical sections in place, and the interleaving of clients, child, timeouts and death |
| `GmBroker`, `DevFinish` | the one-shot terminal calls `gm_dev_done` and `gm_review_submit` with their gates, as a class and as an interleaved system, and the commit that follows |
| `Claim` | the lock on an issue made of labels and assignees, for any number of bots, with edits that are not atomic |
| `LoopDef` | the transition table, its guards, and the search for the one matching edge |
| `EventLog`, `CiWait` | the validated event log with its queries, and the classification of CI checks |
| `Runner` | the run: every step handler with its effects on worktree, branch, PR and log, and the machine around them |
| `Fingerprint` | the bytes that a worktree fingerprint hashes |
| `LineFilter`, `ToolProgress`, `StallWatch` | the line filter on the agent's output, the reader of the growing activity file, and stall detection |
| `ModelChain`, `RunRole` | the model list, the transcript, stall retries and model fallback |
| `Options`, `Decimal`, `Text` | small shared vocabulary |

The concurrent parts are transition systems. A label names who moves; `Enabled` and `Apply` are the steps, a
run is a sequence of labels, and the results are lemmas about the state after every run. The classes beside
them run the same steps on their fields.

In `Runner` the answers of git, GitHub and the agents are parameters of the handlers, which say what they make of
them; the machine around the handlers leaves them arbitrary (`*`), so its contract holds for all answers. Ghost
fields remember what the properties speak of: the head last classified green since the last
push, every attempt to merge with its answer, and how often the branch was brought up to date between two. A `Branch` is the PR head, HEAD of the dev worktree and origin/main as last
fetched, with how the first two stood when the last review was written; a commit is known by the agents' work it
carries and the newest version of main it contains, and a rebase without conflict keeps the work. An attempt is
`Safe` when the last review approves the head the PR had then with confidence not low, no agent has been at work
since, the dev worktree contains a freshly fetched origin/main and the work it had at the review, the PR head is the
one classified green, and it is either the reviewed one or what the run has pushed since. Whether that is the reviewed work on top
of origin/main is decided exactly (`Runner.MergesTheReviewedIff`). The machine is observed until it stops or has
resolved more than `k` merge-time conflicts, because the edge back to the reviewer after such a conflict has no
guard.

Where the code and what is said about it differ, the model follows the code:

- The comment on the transition table calls the guards total over the context. They are total exactly on the
  documented strings (`LoopDef.TotalIffDocumented`).
- The cross-terminal check and the entry of an acceptance are separate critical sections, so overlapping calls
  can both be accepted unless the allowlist prevents it (`GmBroker.CrossTerminalExclusion`).
- The labels of a claimed issue do not by themselves show that it is held (`Claim.LabelsWitnessHoldIffQuiet`).
- Reviewer and merge phase look at different heads, the PR's and the dev worktree's. A commit left unpushed after a
  dev retry is merged without having been reviewed, and an unpushed rebase lets a PR head without origin/main
  through (`Runner.UnpushedCommitIsMerged`, `Runner.StaleHeadIsMerged`).
- The activity reader skips what follows a line over its buffer cap in the same reading
  (`ToolProgress.AllSchedulesAgreeIff`).

## Model

| member | source | states |
|---|---|---|
| `CbmBroker.RegisteredIsTakenOnce` | internal/cbmbroker/broker.go:256-264 | A registered request has an empty channel under no other id; the reader finds it exactly once, and the other requests are found as before. |
| `CbmBroker.WithdrawnIsNotTaken` | internal/cbmbroker/broker.go:448-452 | A withdrawn request is not found any more; every other one still is. |
| `CbmBroker.FirstMessageStays` | internal/cbmbroker/broker.go:184-193 | A second message to a channel is dropped and counted; the first stays what its reader will get. |
| `CbmBroker.Broker.FailPending` | internal/cbmbroker/broker.go:197-213 | The broker is dead, nothing is pending, and every waiter that shares its channel with no other finds the notice for its own id, unless it had got an answer before; every other channel is untouched, in whatever order the map yields the waiters. |
| `CbmBroker.StepKeepsInv` | internal/cbmbroker/broker.go:176-213 | Every step of clients, child, reader and initialisation, in any interleaving, keeps the ownership of ids, channels and answers. |
| `CbmBroker.RunKeepsInv` | internal/cbmbroker/broker.go:359-404 | The invariant holds after every run. |
| `CbmBroker.AnsweredAtMostOnceByOwnReply` | internal/cbmbroker/broker.go:359-404 | In every run a connection is answered at most once, with its own original id (section 5 of the JSON-RPC 2.0 specification), by an error or by a line the child wrote under the internal id issued for this very connection, which the reader looked up in the table of pending requests after that request was registered. |
| `CbmBroker.DrainedIsTold` | internal/cbmbroker/broker.go:200-211 | In every run, failing a pending request puts the notice into its channel, which was empty, and touches no other request. |
| `CbmBroker.NoWaiterIsForgotten` | internal/cbmbroker/broker.go:176-213 | In every run, once the broker is dead each request that still waits has a message in its channel. |
| `CbmBroker.DeathIsReportedOnlyWhenDead` | internal/cbmbroker/broker.go:435-473 | Whoever is told that the broker died or is not available is told so by a broker that is dead. |
| `CbmBroker.ReaderDealsWithTheNextLine` | internal/cbmbroker/broker.go:176-195 | Whatever the next line of the child is, the reader can deal with it and be ready for the one after it. |
| `CbmBroker.EarlyLineIsForwarded` | internal/cbmbroker/broker.go:176-195 | The line itself may be older: a run in which the child has written it and the reader has read it before the request is registered, and it is forwarded all the same. |
| `CbmBroker.ChildLineReachesOneConnection` | internal/cbmbroker/broker.go:461-473 | No line of the child reaches two connections, so a reply that comes after its waiter timed out reaches nobody else. |
| `CbmBroker.DeadHasNoPendingClient` | internal/cbmbroker/broker.go:197-213 | Once dead, nothing is pending but the request of an initialize handshake that is under way. |
| `CbmBroker.ChannelGetsAtMostOneMessage` | internal/cbmbroker/broker.go:184-193 | A reply channel accepts at most one message in its life and no send ever finds it full. |
| `CbmBroker.IdsAreFresh` | internal/cbmbroker/broker.go:359-375 | A client id is at least 2, was never issued before, and its registration overwrites nothing. |
| `CbmBroker.RunTakesNothingBack` | internal/cbmbroker/broker.go:176-213 | Along a run death, answers, issued ids and the ids clients sent are never revised. |
| `CbmBroker.OrigIsWhatWasSent` | internal/cbmbroker/broker.go:411-419 | The id a connection is answered with is the one in the request it sent, null for a request that did not parse or had none. |
| `GmBroker.ValidateDev` | internal/gmbroker/broker.go:494-512 | Params come out exactly when every field is given, and as they were sent; otherwise a schema error. |
| `GmBroker.ValidateReview` | internal/gmbroker/broker.go:798-813 | Params come out exactly when every field is given and verdict and confidence are known, and as they were sent; otherwise a schema error. |
| `GmBroker.CheckReviewerGate` | internal/gmbroker/broker.go:817-843 | An approval passes exactly with an ok, non-mutating precheck whose fingerprint the tree still has; otherwise there is a reason. |
| `GmBroker.ReservedOnce` | internal/gmbroker/broker.go:454-492 | From a reserve on nobody else gets the slot; once it is finalized, the call that had it is told its result again when it repeats itself and nobody else is; a slot given back is as good as new. |
| `GmBroker.Broker.CheckDevDoneGate` | internal/gmbroker/broker.go:514-535 | Passing the gate means the last check was ok and the tree has its fingerprint, which is then recorded; failing it marks the slot as gate-rejected. |
| `GmBroker.Broker.HandleDevDone` | internal/gmbroker/broker.go:427-452 | A call that is not overlapped by another: refused without any effect when the slot is not free or the other terminal was accepted; otherwise answered as `AnswerMeans` and its slot left as `SettledMeans` says. |
| `GmBroker.AnswerMeans` | internal/gmbroker/broker.go:494-535 | Accepted exactly for complete params and a tree with the fingerprint of a green last check; rejected by the gate exactly for complete params without that; a schema error exactly otherwise. |
| `GmBroker.SettledMeans` | internal/gmbroker/broker.go:482-492 | The slot answers exactly this call again, keeps the params exactly when they were accepted, and is marked gate-rejected exactly when the gate rejected them. |
| `GmBroker.Broker.HandleReviewSubmit` | internal/gmbroker/broker.go:718-752 | A call that is not overlapped by another: a schema failure leaves the slot free; otherwise accepted exactly when it is no approval or the precheck gate passes, and told the reason of the gate when not, which uses the slot up. |
| `GmBroker.Broker.HandleProjectCheck` | internal/gmbroker/broker.go:977-997 | After a completed check the tree counts as green exactly while it has the fingerprint of that check, if that was ok; a check that could not be run changes nothing. |
| `GmBroker.EveryMoveIsFine` | internal/gmbroker/broker.go:427-543 | Each critical section of a call keeps its slot consistent with the call that holds it. |
| `GmBroker.StepKeepsInv` | internal/gmbroker/broker.go:718-851 | Every interleaved step keeps the invariant of both slots and of all calls. |
| `GmBroker.RunKeepsInv` | internal/gmbroker/broker.go:427-543 | The invariant holds after every run, for any number of overlapping calls. |
| `GmBroker.AnswersAreTheStoredResult` | internal/gmbroker/broker.go:454-492 | Every answer is the stored result given to a call with the stored id and raw params, or an error that claims nothing. |
| `GmBroker.SlotsAreOneShot` | internal/gmbroker/broker.go:454-492 | At most one gm_dev_done ever passes reserve, at most one call of either tool is ever finalized. |
| `GmBroker.OneHolderAtATime` | internal/gmbroker/broker.go:754-796 | No two calls of one tool are between reserve and finalize or release together. |
| `GmBroker.AcceptedMeansGatePassed` | internal/gmbroker/broker.go:514-543 | Acceptance and gate rejection exclude each other; an accepted gm_dev_done carries the fingerprint of a green check of the invocation, an accepted approval that of an ok precheck that left the tree alone. |
| `GmBroker.StoredResultIsFinal` | internal/gmbroker/broker.go:482-492 | A stored terminal result never changes again. |
| `GmBroker.RepeatGetsStoredResult` | internal/gmbroker/broker.go:454-480 | A call that has not reserved when a result is stored - it may have arrived and passed the cross-terminal check before - gets exactly that result if it equals the stored call and a protocol error otherwise, as long as the other terminal has not been accepted. |
| `GmBroker.LateOtherTerminalIsBarred` | internal/gmbroker/broker.go:456-461 | A call that starts after the other terminal was accepted never takes its slot. |
| `GmBroker.CrossTerminalExclusion` | internal/gmbroker/broker.go:744-746 | The two terminals are never both accepted in any run if and only if the allowlist or a missing check configuration rules one of them out; overlapping calls can otherwise both be accepted. |
| `GmBroker.OverlappingRun` | internal/gmbroker/broker.go:756-761 | The run in which both cross-terminal checks pass before either acceptance is entered. |
| `GmBroker.DevDoneRun` | internal/gmbroker/broker.go:427-452 | After every run a new gm_dev_done can be taken through alone: the run extended by its steps has it answered, and its slot, terminal and fingerprint are those of the uninterrupted call. |
| `GmBroker.Broker.MirrorDevDone` | internal/gmbroker/broker.go:427-452 | An object that mirrors the state after a run still mirrors one after an uninterrupted call: the state after the run extended by the steps of the call, with the answer it returned. |
| `DevFinish.FinishDevAgentWithBroker` | internal/runner/dev.go:118-171 | An accepted call is committed exactly when its fingerprint is known and the tree, where it can be computed, still has it; without one, the complete params of a gate-rejected call are committed exactly when the tree has the fingerprint of a green last check; retries exactly when there is neither. |
| `DevFinish.CommitsOnlyGreenTrees` | internal/runner/dev.go:118-171 | Whatever the interleaving of the invocation was, a compared tree that is committed had the fingerprint of a green check of that invocation; the only commit without a comparison is the accepted path when the fingerprint cannot be computed. |
| `Claim.StepKeepsInv` | internal/claim/claim.go:101-193 | Each read, each single part of a non-atomic edit, and each failure keeps: every holder is assigned, no other bot past its check can come to hold. |
| `Claim.MutualExclusion` | internal/claim/claim.go:144-193 | For any number of bots and any interleaving with failed edits and rollbacks, at most one bot holds the issue, and a holder is assigned. |
| `Claim.AssignedBotKeepsOthersOut` | internal/claim/claim.go:54-60 | While an assigned bot does nothing, no other bot can unassign it or come to hold the issue. |
| `Claim.LabelsWitnessHoldIffQuiet` | internal/claim/claim.go:101-136 | The labels keep saying that the issue is held if and only if, at the moment of the hold, nobody else is assigned and nobody else has a label edit under way: a loser's rollback can strip the holder's label. |
| `Claim.LoserStripsTheHolder` | internal/claim/claim.go:144-193 | The race from an untouched ready issue: two bots read it as ready, one claims it and holds, and the other, whose edit was still to do, fails to verify and rolls back the holder's label. |
| `Claim.QuietStaysQuiet` | internal/claim/claim.go:144-193 | The condition above survives everything the others can do. |
| `Claim.IdempotentReleaseKeepsOthersOut` | internal/claim/claim.go:101-120 | A holder whose label was stripped is told that its release had nothing to do, stays assigned, and thereby blocks every other bot. |
| `Claim.Tracker.ClaimIssue` | internal/claim/claim.go:144-193 | The call is a run of the interleaved system. With the two good results the caller alone is assigned, the labels say so and it holds the issue; a claim that went through has done the three parts of the claim edit and nothing else, and the results without a claim have done nothing. |
| `Claim.Tracker.VerifyClaim` | internal/claim/claim.go:171-193 | The second half of a claim: success means that the caller alone is assigned and has changed nothing more; a lost race without failures has put back the ready label, taken the other label and the assignee away. |
| `Claim.Tracker.ReleaseIssue` | internal/claim/claim.go:101-136 | The call is a run of the interleaved system. The good results end the hold and a holder is never told that the claim is foreign; a release that went through has taken label and assignee away and has added needs-human exactly for a failed run and the ready label exactly for an abandoned one; the other results have changed nothing. |
| `Claim.Tracker.Edit` | internal/claim/claim.go:121-136 | An edit that succeeds has done all its parts and no other; alone, it leaves exactly the issue they describe. |
| `LoopDef.CollectMatches` | internal/loop/loop.go:70-82 | The edges whose step, event and guard match, in table order. |
| `LoopDef.TableIsRoute` | internal/runner/loopdef.go:128-210 | For every step, event and context at most one of the 41 edges matches, and it leads where the routing function, written without a table, says; none matches when nothing is routed. |
| `LoopDef.TotalIffDocumented` | internal/runner/loopdef.go:126-210 | The comment on the table calls the guards total over the context; they are total exactly when the two guarded strings have documented values. |
| `EventLog.ReviewsAreValid` | internal/eventlog/eventlog.go:285-315 | Every review that is in a validated log passes review validation. |
| `EventLog.CountReviewSubmittedEvents` | internal/runner/outcome.go:46-60 | The forward count is the number of reviews in the log. |
| `EventLog.LastReviewSubmittedPayload` | internal/runner/outcome.go:62-76 | The backward search finds the last review, and fails only when there is none. |
| `EventLog.LatestReviewID` | internal/runner/outcome.go:78-94 | The id of the last review; an empty one is an error. |
| `EventLog.LatestReviewBody` | internal/runner/outcome.go:96-109 | The body of the last review. |
| `EventLog.LatestConfidence` | internal/runner/outcome.go:130-143 | The confidence of the last review. |
| `EventLog.HasPROpenedEvent` | internal/runner/outcome.go:111-128 | In a validated log: true exactly if a pr_opened entry exists. |
| `EventLog.LatestReviewVerdict` | internal/runner/outcome.go:164-196 | The verdict of the last review that passes the round and head filter, provided nothing from it on is invalid; an error exactly when there is no such review. |
| `EventLog.SomePickIff` | internal/runner/outcome.go:164-196 | Among valid reviews a verdict is found exactly if one passes the filter. |
| `CiWait.ClassifyChecks` | internal/runner/ciwait.go:217-239 | Red exactly if a check failed, with exactly the failed ones in order; green exactly if all passed and the required check is among them. |
| `CiWait.FailedChecksAre` | internal/runner/ciwait.go:217-239 | The failed list holds the failed checks and no other. |
| `CiWait.GreenIsAboutTheRuns` | internal/runner/ciwait.go:46-70 | Through both bucket mappings: green if and only if every run completed with success, neutral or skipped and the required run is present. |
| `CiWait.RedIsAboutTheRuns` | internal/runner/ciwait.go:46-70 | Red if and only if some completed run failed, was cancelled, timed out or waits for action. |
| `Runner.Runner.Write` | internal/eventlog/eventlog.go:366-385 | A valid entry is appended or nothing changes, and an invalid one never gets into the log; where appends work, exactly the valid ones get in. |
| `Runner.Runner.RebaseBranch` | internal/runner/merge.go:116-136 | Which of its four results comes out, from what git answers: a conflict exactly when the rebase stops and the status shows an unmerged path; only that leaves a rebase in progress, every other failure after the fetch aborts it, and a clean rebase keeps the work. |
| `Runner.Runner.HasUnmergedPaths` | internal/runner/merge.go:97-114 | True exactly when some line of the status has a U among its two codes or is AA or DD. |
| `Runner.Runner.SquashMerge` | internal/runner/merge.go:317-327 | May only be called on an approval that stands and was written for the head the PR had then, of confidence not low, with the PR head green since the last push and the dev worktree containing origin/main, and either nothing moved since the review or the PR head pushed by the run; each call is remembered with the whole branch. |
| `Runner.MergesTheReviewedIff` | internal/runner/merge.go:493-528 | What a safe attempt merges is the reviewed work on top of origin/main if and only if, when the run has pushed since the review, no other work was waiting unpushed when it was written, and, when it has not, the reviewed head contains origin/main; so always when nothing was unpushed at the review. |
| `Runner.UnpushedCommitIsMerged` | internal/runner/dev.go:250-261 | Otherwise it is not: a commit the dev agent made itself is not pushed, is not in the head that is reviewed, and is rebased, pushed and merged once main has moved. |
| `Runner.StaleHeadIsMerged` | internal/runner/merge.go:493-502 | Nor is it when the dev agent has rebased without pushing: the worktree passes the ancestor test and a PR head without origin/main is merged. |
| `Runner.Runner.PollUntilSettled` | internal/runner/ciwait.go:183-214 | The first query that fails or finds the checks green or red decides, and a timeout means that all of them found the checks pending; green is about the asked commit or the current head. |
| `Runner.Runner.OnCICheckFailed` | internal/runner/ciwait.go:474-508 | Goes on exactly when the limit of repairs is not reached and the repair agent ran without failure and moved the remote head. |
| `Runner.Runner.RunCIGate` | internal/runner/ciwait.go:518-545 | Succeeds exactly in the first round that finds the head green, every round before having ended with a repair that pushed a new head; fails exactly when a query fails, a repair does not go through, or two have not helped; the log tells of each round what it was. |
| `Runner.Runner.ResolveRebaseConflictWithAgent` | internal/runner/merge.go:170-238 | However it ends no rebase is in progress; the first turn after which rebase, tree and ancestor test are in order is the last, and the cap (2 when not positive) is reported exactly when it is used up without one. |
| `Runner.Runner.VerifyRebaseComplete` | internal/runner/merge.go:243-269 | True exactly when no rebase is in progress, the tree is clean and origin/main is contained. |
| `Runner.Runner.RebaseAndResolve` | internal/runner/merge.go:357-373 | No rebase is left in progress unless the fetch failed, and then nothing changed; a resolved conflict is reported exactly if an agent ran. |
| `Runner.Runner.PreReviewPushAndCI` | internal/runner/merge.go:422-455 | Succeeds exactly when HEAD of the dev worktree can be pushed and turns out green; it is then the PR head. |
| `Runner.Runner.RunPreReviewSyncGate` | internal/runner/merge.go:375-420 | Success means that the PR head is green and, without a CI repair, that the dev worktree contains the fetched origin/main; a branch that lacks it is rebased and pushed first; an unresolved conflict is reported exactly when all conflict agents were used in vain. |
| `Runner.Runner.ResyncForOODRetry` | internal/runner/merge.go:579-608 | Succeeds exactly when rebase and push go through and the pushed head turns out green, so that merging is allowed again, one rebase and one push later; a rebase can be left in progress only by a failed fetch, when one was in progress before. |
| `Runner.Runner.MergeWithOutOfDateRetry` | internal/runner/merge.go:610-644 | One to three attempts, all safe; every one but the last was refused because the head was out of date; the last went through, was refused for another reason, was the third, or the branch could not be brought up to date; exactly the out-of-date refusals before the third are followed by a resync. |
| `Runner.OneMoreTry` | internal/runner/merge.go:610-644 | A safe attempt after one more rebase and push extends the good attempts. |
| `Runner.Runner.MergeIfCIGreen` | internal/runner/merge.go:511-530 | Called with the branch as it was reviewed; attempts to merge exactly when the PR head turns out green. |
| `Runner.Runner.VerifyAndPush` | internal/runner/merge.go:532-557 | Attempts to merge exactly when the push goes through and the pushed head turns out green, and then that head. |
| `Runner.Runner.RunMergePhase` | internal/runner/merge.go:457-509 | All attempts are safe and follow a successful fetch; success without an attempt is exactly the skip for low confidence; a resolved conflict is pushed and never merged here; where appending works the log gains exactly one entry about the end: merged, skipped or failed as it was, and none after a conflict. |
| `Runner.Runner.constructor` | internal/runner/runner.go:333-346 | The context and the log before the first step. |
| `Runner.CountBotChangesRequestedReviews` | internal/runner/resume.go:143-152 | Counts exactly as many rounds as review events will be synthesized. |
| `Runner.FilterDecisionReviews` | internal/runner/resume.go:516-525 | Approvals and change requests, in order. |
| `Runner.Runner.ResumeSynthesizeBotCREvents` | internal/runner/resume.go:527-537 | Succeeds exactly when the log has grown by one change request per change request of the bot. |
| `Runner.Runner.HydrateResumeNoDecision` | internal/runner/resume.go:375-387 | Going on means that the head is green; a failed gate is classed as dev_failed. |
| `Runner.Runner.HydrateResumeChangesRequested` | internal/runner/resume.go:402-429 | Goes to the dev only while rounds are left, in the next round, with the body of the last review as findings or, when that is empty, a pointer to its inline comments; exhausted rounds are classed as escalated. |
| `Runner.Runner.HydrateResumeApproved` | internal/runner/resume.go:447-455 | The existing approval becomes the last review of the log, as one of the branch as it is, with the confidence of the first such label on the PR, or low. |
| `Runner.ConfidenceFromLabels` | internal/runner/resume.go:306-319 | The confidence of the first label that names one; low without one. |
| `Runner.Runner.HydrateResumeReviews` | internal/runner/resume.go:364-400 | The verdict is that of the last review, among all that were read, that approves or requests changes, and what goes on is about that review; without one there is no verdict. Each way of going on meets what the next step needs. |
| `Runner.Runner.HydrateResume` | internal/runner/resume.go:325-362 | Goes on only with a PR that GitHub reports as merged or open; a merged one is done, an open one is taken where the previous row says. |
| `Runner.Runner.StepPrepare` | internal/runner/step_prepare.go:26-78 | Every event it can return has an edge in the context it leaves; a fresh run is ready exactly when the issue is open, cleaning works, nothing collides and the worktree is created; going on after a resume meets what the next step needs. |
| `Runner.Runner.CommitDevDone` | internal/runner/dev.go:195-269 | With a PR, succeeds exactly when there is nothing staged, whatever was committed locally before, or the new commit is pushed; without one, also the PR is opened and recorded. |
| `Runner.Runner.RunDevAgentWithPrompt` | internal/runner/dev.go:29-171 | Which event a dev invocation gives, from how the agent ended and what the broker knows; done means a committed accepted or recovered call and a recorded PR. |
| `Runner.Runner.StepRunDev` | internal/runner/step_dev.go:26-74 | The attempt counter is reset by success, raised by a gate rejection and else kept; only a first attempt with findings starts a round; every event has an edge. |
| `Runner.Runner.StepSyncCI` | internal/runner/step_sync_ci.go:13-39 | Green means that the head the reviewer will see is green, and up to date unless CI was repaired; it is green whenever nothing stands in the way. |
| `Runner.Runner.ReviewerPrecheckEvent` | internal/runner/step_reviewer.go:160-185 | A failed precheck is logged as a change request of low confidence; the dev is sent back exactly while the applicable budget lasts. |
| `Runner.Runner.RunReviewerAttemptLoop` | internal/runner/step_reviewer.go:108-158 | At most three agents, each after the first because the gate rejected the one before; the first attempt that is not rejected decides, by its precheck and its exit; three rejections fail the review. |
| `Runner.Runner.SubmitReviewAndWriteEvent` | internal/runner/reviewer.go:792-827 | What is logged is what was submitted, for this round and head, under the id GitHub gave it. |
| `Runner.Runner.CheckFreshnessAndSubmit` | internal/runner/step_reviewer.go:88-106 | Success means exactly one new review, of this round and this head, as the reviewer submitted it; a complete submission that GitHub takes succeeds. |
| `Runner.Runner.ReviewerVerdictEvent` | internal/runner/step_reviewer.go:187-228 | Verdict, findings and review id are those of one event, the last; it fails only for a change request without findings that can be loaded. |
| `Runner.DecisionsAreRouted` | internal/runner/step_reviewer.go:163-228 | The escalation tests in the handlers coincide with the guards of the table. |
| `Runner.Runner.StepRunReviewer` | internal/runner/step_reviewer.go:48-86 | At every verdict and precheck failure ctx.Round is the number of reviews in the log, which has grown by one; a verdict is that of the last one, for the PR head as it still is. |
| `Runner.Runner.StepMergePR` | internal/runner/step_merge.go:12-37 | Entered only with an approval that stands or with the PR merged already; merged without an attempt is exactly that shortcut or the skip for low confidence. |
| `Runner.DecisionMoves` | internal/runner/loopdef.go:169-196 | A reviewer decision lowers the measure: it uses up one of the rounds that are left. |
| `Runner.MergeMoves` | internal/runner/loopdef.go:201-208 | The merge step lowers the measure, except that a resolved conflict raises it by one. |
| `Runner.DevMoves` | internal/runner/loopdef.go:150-159 | The dev step lowers the measure: a repetition uses up one of three attempts. |
| `Runner.PrepareMoves` | internal/runner/loopdef.go:130-148 | Preparing lowers the measure, whatever reviews a resumed run starts with. |
| `Runner.FailedReviewMoves` | internal/runner/loopdef.go:171-199 | A failed reviewer turn ends the run. |
| `Runner.Runner.Handle` | internal/runner/machine.go:8-22 | Each handler, called where its step's condition holds, leaves the next step's condition and a smaller measure. |
| `Runner.HistoryGrows` | internal/runner/merge.go:610-644 | Appending the attempts of one merge phase keeps: all safe, at most one successful, and that one the last of a finished run. |
| `Runner.ChainAt` | internal/runner/runner.go:388-403 | In a chained log the i-th transition has number i + 1 and starts where the one before ended. |
| `Runner.ChainGrows` | internal/runner/runner.go:388-403 | The observer extends the chain. |
| `Runner.Runner.Advance` | internal/loop/loop.go:46-68 | One turn of the machine never ends in a StateError. |
| `Runner.Runner.RunStepMachine` | internal/runner/runner.go:377-419 | Every run: no StateError; logged transitions chain from PREPARE with numbers 1, 2, 3, ...; every merge attempt was safe, merged the reviewed work on top of origin/main exactly under the condition above, and at most the last succeeded, which is TERMINAL_SUCCESS; success is a merge, a skip for low confidence or a PR merged before; with at most k resolved merge conflicts a terminal is reached, within 7 + 5 * (rounds left) + 2 * (conflicts) transitions. |
| `Fingerprint.ParseNULList` | internal/worktreefingerprint/fingerprint.go:65-78 | The non-empty pieces between NULs, in order. |
| `Fingerprint.PathsOfListing` | internal/worktreefingerprint/fingerprint.go:65-78 | Parsing gives back every list of paths git can print. |
| `Fingerprint.SortedIgnoresOrder` | internal/worktreefingerprint/fingerprint.go:44-45 | Sorting forgets the order in which git listed the paths. |
| `Fingerprint.SortedIsInOrder` | internal/worktreefingerprint/fingerprint.go:44-45 | Sorting puts paths in byte order. |
| `Fingerprint.SortedKeepsElements` | internal/worktreefingerprint/fingerprint.go:44-45 | Sorting loses and adds no path. |
| `Fingerprint.FrameSplits` | internal/worktreefingerprint/fingerprint.go:50-59 | The first frame can be read off the front of the bytes in one way only. |
| `Fingerprint.FramesAreInjective` | internal/worktreefingerprint/fingerprint.go:46-60 | Different lists of (path, content) give different bytes. |
| `Fingerprint.Compute` | internal/worktreefingerprint/fingerprint.go:20-63 | Succeeds exactly if the three git commands and every listed file can be read; then the hashed bytes are status, diff and the frames in sorted order. |
| `Fingerprint.UntrackedFilesDetermineTheBytes` | internal/worktreefingerprint/fingerprint.go:40-60 | With equal status and diff texts the hashed bytes are equal if and only if the trees have the same untracked files with the same contents, however they were listed. |
| `Fingerprint.PartsAgreeIffLengthsAgree` | internal/worktreefingerprint/fingerprint.go:40-42 | For arbitrary texts, which are not framed: with equal bytes, all three parts agree if and only if the two texts have equal lengths. |
| `Fingerprint.WorktreeDeterminesTheBytes` | internal/worktreefingerprint/fingerprint.go:26-60 | On texts as git prints them - each status line starts with a status code, the diff with a header, and no diff line with a digit - the hashed bytes are equal if and only if status, diff and untracked files with their contents all are. |
| `Fingerprint.LinesSplit` | internal/worktreefingerprint/fingerprint.go:40-42 | Where one kind of text stops and the next begins can be read off the bytes in one way only. |
| `LineFilter.LineFilterWriter.Write` | internal/agent/pifilter.go:17-34 | Whatever the pieces: when the destination takes everything, exactly the filtered complete lines of the whole input have been passed on, in order, and the buffer is the unfinished line; a refused line stays buffered, so none is lost or doubled. |
| `LineFilter.LineFilterWriter.constructor` | internal/agent/pifilter.go:11-15 | An empty writer has passed on nothing. |
| `LineFilter.FilterKeepsType` | internal/agent/pifilter.go:36-52 | Filtering neither joins nor splits lines and keeps the event type. |
| `LineFilter.FilterProjects` | internal/agent/pifilter.go:36-52 | Exactly a message update that can be projected is replaced, by its projection on a line of its own. |
| `LineFilter.PieceArrives` | internal/agent/pifilter.go:17-18 | New input leaves what was passed on and what is still to come in agreement with the whole input. |
| `LineFilter.LineLeaves` | internal/agent/pifilter.go:24-31 | So does passing on the first complete line. |
| `ToolProgress.TallyMeans` | internal/agent/agent.go:208-221 | Over any lines, completions are the ends, with or without a start, and in flight is the largest surplus of starts over ends of the lines from some point on, or of all lines on top of what was in flight before. |
| `ToolProgress.ToolProgressState.ReadToolProgress` | internal/agent/agent.go:223-263 | One reading counts exactly the new complete lines before the first that exceeds the scanner's cap, and moves the offset past all of them. |
| `ToolProgress.SchedulesAgree` | internal/agent/agent.go:223-263 | If no tool line comes at or after a line over the cap, any schedule of readings of a growing file gives the offset, completions and in-flight count of one scan. |
| `ToolProgress.AllSchedulesAgreeIff` | internal/agent/agent.go:250-252 | That condition is exact: all schedules agree with one scan if and only if it holds. |
| `ToolProgress.ShortLinesNeverLost` | internal/agent/agent.go:223-263 | With every line under the cap no line is lost or counted twice. |
| `ToolProgress.LossShowsIff` | internal/agent/agent.go:250-260 | Skipped lines change the tally if and only if one of them is a tool line. |
| `ToolProgress.FilteredFileHasTheSameCounts` | internal/agent/pifilter.go:36-52 | The filtered file consists of exactly the filtered lines and has the tool counts of the raw stream. |
| `StallWatch.HandlePollTick` | internal/agent/agent.go:579-596 | A completion moves both marks; a stall needs no tool in flight and an expired idle time, and is a thinking loop exactly if the file grew since the last completion. |
| `StallWatch.Watch` | internal/agent/agent.go:611-643 | The first tick at which no tool is in flight and the last completion is too long ago, and no earlier one. |
| `StallWatch.InFlightNeverStalls` | internal/agent/agent.go:289-296 | A tool in flight suppresses the stall, however long it takes. |
| `StallWatch.ReadingsReadOn` | internal/agent/agent.go:579-583 | What is known after each tick is what the readings so far give. |
| `ModelChain.ParseModelChain` | internal/agent/modelchain.go:17-33 | The chain of first-seen trimmed entries, or an error exactly if there is none. |
| `ModelChain.ChainMembers` | internal/agent/modelchain.go:14-29 | Exactly the non-empty entries, each once. |
| `ModelChain.ChainOrder` | internal/agent/modelchain.go:14-29 | In the order in which they are first seen. |
| `ModelChain.ParsedIsChain` | internal/agent/modelchain.go:17-33 | Entries of a parsed chain are trimmed, non-empty, distinct and free of commas. |
| `ModelChain.TrimTakesOnlySpace` | internal/agent/modelchain.go:14-29 | An entry is trimmed of white space and of nothing else. |
| `ModelChain.JoinParsesBack` | internal/runner/agentfile.go:52 | Joining a chain with ", " and parsing it gives the chain back. |
| `ModelChain.ParsingTwiceIsParsingOnce` | internal/agent/agent.go:347 | So the second parse in RunRole sees the chain the runner parsed. |
| `RunRole.ScanTranscript` | internal/agent/transcript.go:43-93 | Semantic failure is about the last assistant message alone; eligibility for fallback is a failed retry anywhere or a last error that mentions a limit; which of them is the reason, if any. |
| `RunRole.MentionsLimitInAnyCase` | internal/agent/transcript.go:79-93 | The word limit is recognized in any mixture of cases, and nothing else is. |
| `RunRole.AgentRunner.RunModelAttempt` | internal/agent/agent.go:483-520 | At most the stall retries plus one processes, all of the one model; only a hang is followed by another process, so a thinking loop or a timeout is the last. |
| `RunRole.AgentRunner.RunRole` | internal/agent/agent.go:384-425 | Models in chain order, each at most once, a later one only if every earlier one was eligible for fallback and not timed out; the chain is exhausted exactly when all are, and the error lists the whole chain with a reason for each model; any other result is that of the last attempt; exit 0 exactly for a clean last attempt. |
| `RunRole.TotalProcesses` | internal/agent/agent.go:384-424 | At most (models tried) x (stall retries + 1) processes. |
| `RunRole.ThinkingLoopIsNeverRetried` | internal/agent/agent.go:511-514 | A model that thought in a loop does not run again. |

## Left out

- Sockets, subprocesses and file handles: commands and connections are steps or arbitrary answers. The child of the multiplexer writes complete lines.
- JSON text: messages, log entries and transcript lines are datatypes, and the projection of the line filter is a function that keeps the type and emits no newline. A request line that is the literal `null`, and object keys that differ from `id` only in case, are not distinguished.
- Reply channels of the multiplexer are indices into a store that is never reused, instead of garbage-collected channels.
- SHA-256: the fingerprint results are about the bytes that are hashed. Reading through symbolic links is one answer of the file map.
- Fingerprint.WorktreeDeterminesTheBytes: warnings of git that an executor mixes into its output are not part of the texts.
- Text: prompts, comments on the PR, progress lines, the run header, telemetry spans, token counts and the turn counter.
- Preflight, configuration, credentials, issue selection, worktree creation and cleanup, health classification and template resolution, which are field-by-field checks without a lasting invariant.
- The outer polling loop (`internal/runloop/runloop.go`); its use of claim and release is covered by `Claim`, but that every claim is released is not claimed, and is not so when writing the claim event fails.
- Pending review comments (`ensurePendingReview`), whose single-id property is only sequential.
- Clocks: timeouts happen at arbitrary moments, poll times are integers, and a CI poll ends after an arbitrary number of queries.
- Runner.Runner.AgentEdits: an agent with write tools may change head, branch and rebase state arbitrarily, but it does not write `review_submitted` entries; the history of main is linear; and between the runner's own commands nobody else pushes to the branch.
- Runner.Runner.RebaseAbort: an abort succeeds, and `git rev-parse --verify REBASE_HEAD` fails only when no rebase is in progress.
- Runner.Runner.Write: reading the log succeeds, and appending a step transition succeeds; every other append of a valid entry may fail unless `appendsWork` is set.
- Runner.Runner.HydrateResumeApproved: as in the code, the commit GitHub recorded with the approval is not compared with the PR head, so for a resumed approval the reviewed head is the PR head at the resume.
- Runner.Runner.RunDevAgentWithPrompt: what the gm broker accepted, recovered or rejected is an arbitrary answer there; `DevFinish` says what it can be.
- Runner.Runner.RunCIGate: collecting failure logs and posting comments have no effect on the run and are omitted here and elsewhere in the runner.
- RunRole.AgentRunner.RunRole: validation of the role configuration before the chain is parsed.
- RunRole.ScanTranscript: the events are those the scanner yields, up to a line over its cap.
- ModelChain.ParseModelChain: the text is a sequence of characters, not of UTF-8 bytes.
