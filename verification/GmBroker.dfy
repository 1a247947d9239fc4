/** The gm broker: the one-shot terminal calls gm_dev_done and gm_review_submit of one agent invocation.

    Every call runs in a goroutine of its own and works in several short critical sections.  The
    functions on `Slot` and `Core` are these sections, class `Broker` executes them in place, and the
    transition system below interleaves the sections of arbitrarily many calls with project checks
    and with an agent that may change the tree at any time. */
module GmBroker {
  import opened Options

  datatype Tool = DevDone | ReviewSubmit | ProjectCheck

  datatype DevDoneParams = DevDoneParams(summary: string, commitMsg: string, prTitle: string, prBody: string)
  datatype ReviewParams = ReviewParams(verdict: string, confidence: string, body: string)

  /** The decoded params of a terminal call. */
  datatype Params = Dev(dev: DevDoneParams) | Review(review: ReviewParams)

  /** The raw JSON of a call, and what decoding it into the params type of each tool yields. */
  datatype Raw = Raw(text: string, asDev: Option<DevDoneParams>, asReview: Option<ReviewParams>)

  /** The `code` of an error answer. */
  datatype Code = ProtocolError | SchemaInvalid | DevGate | ReviewerGate | UnknownTool

  datatype Result = Accepted | Error(code: Code, message: string)

  datatype Check = Check(ok: bool, fingerprint: string)
  datatype Precheck = Precheck(ok: bool, before: string, after: string)

  /** One terminal tool's state: the slot proper, the params once accepted, and the gate flags. */
  datatype Slot = Slot(
    pending: bool, callId: string, raw: Option<Raw>, result: Option<Result>,
    value: Option<Params>, gateRejected: bool, gateMsg: string)

  const FRESH: Slot := Slot(false, "", None, None, None, false, "")

  /** What is fixed before the agent starts. An empty allowlist allows every tool. */
  datatype Config = Config(
    allowed: set<Tool>, devPath: bool, checkConfigured: bool, precheck: Option<Precheck>, reviewerPath: bool)

  predicate Allows(cfg: Config, tool: Tool) { cfg.allowed == {} || tool in cfg.allowed }

  function Protocol(message: string): Result { Error(ProtocolError, message) }

  // ----- the critical sections ---------------------------------------------------------------

  /** The cross-terminal check, under its own mutex. */
  function CrossCheck(terminalTool: Option<Tool>, tool: Tool): Option<Result> {
    if terminalTool.Some? && terminalTool.value != tool
    then Some(Protocol("a different terminal was already accepted in this invocation")) else None
  }

  predicate SameCall(slot: Slot, callId: string, raw: Raw) {
    slot.callId == callId && slot.raw.Some? && slot.raw.value.text == raw.text
  }

  /** An answer means that the call did not get the slot. */
  function Reserve(slot: Slot, callId: string, raw: Raw): (Slot, Option<Result>) {
    if slot.result.Some? then
      if SameCall(slot, callId, raw) then (slot, slot.result)
      else (slot, Some(Protocol("already called in this invocation")))
    else if slot.pending then (slot, Some(Protocol("already in progress")))
    else (slot.(pending := true, callId := callId, raw := Some(raw)), None)
  }

  function Finalize(slot: Slot, callId: string, raw: Raw, result: Result): Slot {
    slot.(pending := false, callId := callId, raw := Some(raw), result := Some(result))
  }

  function Release(slot: Slot): Slot {
    slot.(pending := false, callId := "", raw := None)
  }

  function Reject(slot: Slot, message: string): Slot {
    slot.(gateRejected := true, gateMsg := message)
  }

  /** From the reserve on, nobody else gets the slot; once it is finalized, the call that got it is told
      its result again whenever it repeats itself, and nobody else is; a slot that is given back is as
      good as new. */
  lemma ReservedOnce(slot: Slot, callId: string, raw: Raw, result: Result, otherId: string, other: Raw)
    requires Reserve(slot, callId, raw).1.None?
    ensures var held := Reserve(slot, callId, raw).0;
      var answer := Reserve(held, otherId, other).1;
      answer.Some? && answer.value.Error? && answer.value.code == ProtocolError
        && Reserve(held, otherId, other).0 == held
    ensures var settled := Finalize(Reserve(slot, callId, raw).0, callId, raw, result);
      var (after, answer) := Reserve(settled, otherId, other);
      && after == settled && Reserve(settled, callId, raw).1 == Some(result)
      && (otherId != callId || other.text != raw.text
        ==> answer.Some? && answer.value.Error? && answer.value.code == ProtocolError)
    ensures var back := Release(Reserve(slot, callId, raw).0);
      Reserve(back, otherId, other) == Reserve(slot, otherId, other)
  {
  }

  function Schema(message: string): Result { Error(SchemaInvalid, message) }

  predicate CompleteDev(p: DevDoneParams) {
    p.summary != "" && p.commitMsg != "" && p.prTitle != "" && p.prBody != ""
  }

  predicate CompleteReview(p: ReviewParams) {
    && (p.verdict == "approved" || p.verdict == "changes_requested")
    && (p.confidence == "high" || p.confidence == "medium" || p.confidence == "low")
    && p.body != ""
  }

  /** Params or a schema error; params exactly when all are given, and then as they were sent. */
  function ValidateDev(raw: Raw): (r: (Option<Params>, Option<Result>))
    ensures r.0.Some? <==> r.1.None?
    ensures r.0.Some? <==> raw.asDev.Some? && CompleteDev(raw.asDev.value)
    ensures r.0.Some? ==> r.0.value == Dev(raw.asDev.value)
    ensures r.1.Some? ==> r.1.value.Error? && r.1.value.code == SchemaInvalid
  {
    match raw.asDev
    case None => (None, Some(Schema("not the expected JSON")))
    case Some(p) =>
      if p.summary == "" then (None, Some(Schema("summary is required")))
      else if p.commitMsg == "" then (None, Some(Schema("commitMsg is required")))
      else if p.prTitle == "" then (None, Some(Schema("prTitle is required")))
      else if p.prBody == "" then (None, Some(Schema("prBody is required")))
      else (Some(Dev(p)), None)
  }

  function ValidateReview(raw: Raw): (r: (Option<Params>, Option<Result>))
    ensures r.0.Some? <==> r.1.None?
    ensures r.0.Some? <==> raw.asReview.Some? && CompleteReview(raw.asReview.value)
    ensures r.0.Some? ==> r.0.value == Review(raw.asReview.value)
    ensures r.1.Some? ==> r.1.value.Error? && r.1.value.code == SchemaInvalid
  {
    match raw.asReview
    case None => (None, Some(Schema("not the expected JSON")))
    case Some(p) =>
      if p.verdict != "approved" && p.verdict != "changes_requested" then (None, Some(Schema("verdict")))
      else if p.confidence != "high" && p.confidence != "medium" && p.confidence != "low" then
        (None, Some(Schema("confidence")))
      else if p.body == "" then (None, Some(Schema("body is required")))
      else (Some(Review(p)), None)
  }

  function Validate(tool: Tool, raw: Raw): (r: (Option<Params>, Option<Result>))
    ensures r.0.Some? <==> r.1.None?
    ensures r.0.Some? ==> (tool == ReviewSubmit <==> r.0.value.Review?)
    ensures r.1.Some? ==> r.1.value.Error? && r.1.value.code == SchemaInvalid
  {
    if tool == ReviewSubmit then ValidateReview(raw) else ValidateDev(raw)
  }

  /** The first half of the dev gate: the check that was last when the gate looked. */
  function DevGateCheck(lastCheck: Option<Check>): Option<string> {
    if lastCheck.None? then Some("no prior gm_project_check in this invocation")
    else if !lastCheck.value.ok then Some("last gm_project_check was not green")
    else None
  }

  /** The second half: the fingerprint computed now (`None` when that failed) against that check. */
  function DevGateCompare(check: Check, now: Option<string>): Option<string> {
    if now.None? then Some("failed to compute working-tree fingerprint")
    else if now.value != check.fingerprint then Some("working tree changed since last gm_project_check")
    else None
  }

  function CheckReviewerGate(cfg: Config, now: Option<string>): (message: Option<string>)
    ensures message.None? <==> cfg.precheck.Some? && cfg.reviewerPath && OkPrecheck(cfg.precheck.value)
                               && now == Some(cfg.precheck.value.after)
  {
    match cfg.precheck
    case None => Some("no precheck result for this invocation; run verify first")
    case Some(p) =>
      if !p.ok then Some("precheck was not ok (verify failed or tree was mutated)")
      else if p.before != p.after then Some("precheck mutated the working tree")
      else if !cfg.reviewerPath then Some("reviewer worktree path not configured")
      else if now.None? then Some("failed to compute current working-tree fingerprint")
      else if now.value != p.after then Some("working tree changed since precheck")
      else None
  }

  predicate OkPrecheck(p: Precheck) { p.ok && p.before == p.after }

  function GateCode(tool: Tool): Code { if tool == ReviewSubmit then ReviewerGate else DevGate }

  predicate IsRejection(r: Result, tool: Tool) { r.Error? && r.code == GateCode(tool) }

  predicate NeedsReviewerGate(p: Params) { p.Review? && p.review.verdict == "approved" }

  /** What a call is told that does not get the dev slot. */
  function Refusal(terminalTool: Option<Tool>, slot: Slot, callId: string, raw: Raw): Option<Result> {
    var other := CrossCheck(terminalTool, DevDone);
    if other.Some? then other else Reserve(slot, callId, raw).1
  }

  /** What a call is told that got the dev slot. */
  function DevDoneAnswer(lastCheck: Option<Check>, raw: Raw, now: Option<string>): Result {
    var bad := ValidateDev(raw).1;
    if bad.Some? then bad.value
    else
      var message := DevGateMessage(lastCheck, now);
      if message.Some? then Error(DevGate, message.value) else Accepted
  }

  function DevGateMessage(lastCheck: Option<Check>, now: Option<string>): Option<string> {
    var message := DevGateCheck(lastCheck);
    if message.Some? then message else DevGateCompare(lastCheck.value, now)
  }

  /** The dev slot of a call that was answered with `r`. */
  function Settled(callId: string, raw: Raw, r: Result): Slot {
    Slot(false, callId, Some(raw), Some(r),
         if r.Accepted? then ValidateDev(raw).0 else None,
         IsRejection(r, DevDone), if IsRejection(r, DevDone) then r.message else "")
  }

  /** Accepted means complete params and a tree with the fingerprint of a green last check; a rejection
      by the gate means complete params without that; anything else is a schema error. */
  lemma AnswerMeans(lastCheck: Option<Check>, raw: Raw, now: Option<string>)
    ensures var r := DevDoneAnswer(lastCheck, raw, now);
      var complete := raw.asDev.Some? && CompleteDev(raw.asDev.value);
      var green := lastCheck.Some? && lastCheck.value.ok && now == Some(lastCheck.value.fingerprint);
      && (r.Accepted? <==> complete && green)
      && (IsRejection(r, DevDone) <==> complete && !green)
      && (r.Error? && r.code == SchemaInvalid <==> !complete)
  {
  }

  /** And the slot keeps what was accepted, for exactly the call that was answered. */
  lemma SettledMeans(lastCheck: Option<Check>, raw: Raw, now: Option<string>, callId: string)
    ensures var r := DevDoneAnswer(lastCheck, raw, now); var slot := Settled(callId, raw, r);
      && slot.result == Some(r) && SameCall(slot, callId, raw) && !slot.pending
      && (slot.value.Some? <==> r.Accepted?) && (r.Accepted? ==> slot.value == Some(Dev(raw.asDev.value)))
      && (slot.gateRejected <==> IsRejection(r, DevDone))
  {
    AnswerMeans(lastCheck, raw, now);
  }

  /** The broker object.  Fingerprints are computed outside; `now` is what that yields when asked. */
  class Broker {
    const cfg: Config
    var terminalTool: Option<Tool>
    var lastCheck: Option<Check>
    var dev: Slot
    var devFingerprint: Option<string>
    var review: Slot

    constructor (cfg: Config)
      ensures this.cfg == cfg && terminalTool == None && lastCheck == None
      ensures dev == FRESH && devFingerprint == None && review == FRESH
    {
      this.cfg := cfg;
      terminalTool, lastCheck, dev, devFingerprint, review := None, None, FRESH, None, FRESH;
    }

    method ReserveDevDoneTerminal(callId: string, raw: Raw) returns (r: Option<Result>)
      modifies this`dev
      ensures var other := CrossCheck(terminalTool, DevDone);
        (dev, r) == if other.Some? then (old(dev), other) else Reserve(old(dev), callId, raw)
    {
      if terminalTool.Some? && terminalTool.value != DevDone {
        return CrossCheck(terminalTool, DevDone);
      }
      if dev.result.Some? {
        if SameCall(dev, callId, raw) { return dev.result; }
        return Some(Protocol("already called in this invocation"));
      }
      if dev.pending { return Some(Protocol("already in progress")); }
      dev := dev.(pending := true, callId := callId, raw := Some(raw));
      r := None;
    }

    method FinalizeDevDoneTerminal(callId: string, raw: Raw, result: Result)
      modifies this`dev
      ensures dev == Finalize(old(dev), callId, raw, result)
    {
      dev := dev.(pending := false, callId := callId, raw := Some(raw), result := Some(result));
    }

    /** `None` if the gate passed. */
    method CheckDevDoneGate(now: Option<string>) returns (r: Option<Result>)
      modifies this`dev, this`devFingerprint
      ensures r.None? <==> lastCheck.Some? && lastCheck.value.ok && now == Some(lastCheck.value.fingerprint)
      ensures r.Some? ==>
        && r.value.Error? && r.value.code == DevGate
        && DevGateMessage(lastCheck, now) == Some(r.value.message)
      ensures r.None? ==> dev == old(dev) && devFingerprint == now
      ensures r.Some? ==> devFingerprint == old(devFingerprint) && IsRejection(r.value, DevDone)
                          && dev == Reject(old(dev), r.value.message)
    {
      var message := DevGateCheck(lastCheck);
      if message.None? { message := DevGateCompare(lastCheck.value, now); }
      if message.Some? {
        dev := Reject(dev, message.value);
        return Some(Error(DevGate, message.value));
      }
      devFingerprint := now;
      r := None;
    }

    /** A whole call that nothing interrupts. */
    method HandleDevDone(callId: string, raw: Raw, now: Option<string>) returns (r: Result)
      modifies this`dev, this`devFingerprint, this`terminalTool
      ensures old(dev.result.Some? || dev.pending) || CrossCheck(old(terminalTool), DevDone).Some? ==>
        && dev == old(dev) && devFingerprint == old(devFingerprint) && terminalTool == old(terminalTool)
        && Some(r) == Refusal(old(terminalTool), old(dev), callId, raw)
      ensures old(dev) == FRESH && CrossCheck(old(terminalTool), DevDone).None? ==>
        && r == DevDoneAnswer(lastCheck, raw, now) && dev == Settled(callId, raw, r)
        && devFingerprint == (if r.Accepted? then now else old(devFingerprint))
        && terminalTool == (if r.Accepted? then Some(DevDone) else old(terminalTool))
    {
      var busy := ReserveDevDoneTerminal(callId, raw);
      if busy.Some? { return busy.value; }
      r := ConcludeDevDone(callId, raw, now);
    }

    /** The part of the call that holds the slot. */
    method ConcludeDevDone(callId: string, raw: Raw, now: Option<string>) returns (r: Result)
      modifies this`dev, this`devFingerprint, this`terminalTool
      ensures old(dev) == Reserve(FRESH, callId, raw).0 ==>
        && r == DevDoneAnswer(lastCheck, raw, now) && dev == Settled(callId, raw, r)
        && devFingerprint == (if r.Accepted? then now else old(devFingerprint))
        && terminalTool == (if r.Accepted? then Some(DevDone) else old(terminalTool))
    {
      var (p, bad) := ValidateDev(raw);
      if bad.Some? {
        FinalizeDevDoneTerminal(callId, raw, bad.value);
        return bad.value;
      }
      var rejected := CheckDevDoneGate(now);
      if rejected.Some? {
        FinalizeDevDoneTerminal(callId, raw, rejected.value);
        return rejected.value;
      }
      dev := dev.(value := p);
      terminalTool := Some(DevDone);
      FinalizeDevDoneTerminal(callId, raw, Accepted);
      r := Accepted;
    }

    /** An object that mirrors the state after a run still does after a whole call: that state is then the
        one after the run extended by the steps of the call, in which the call has the answer it returned. */
    method MirrorDevDone(ghost ls: seq<Label>, ghost c: nat, callId: string, raw: Raw, now: Option<string>)
      returns (r: Result, ghost ms: seq<Label>)
      requires After(cfg, ls).Some? && Mirrors(After(cfg, ls).value)
      requires c !in After(cfg, ls).value.calls && callId != "" && Allows(cfg, DevDone)
      modifies this`dev, this`devFingerprint, this`terminalTool
      ensures ls <= ms && After(cfg, ms).Some? && Mirrors(After(cfg, ms).value)
      ensures c in After(cfg, ms).value.calls && After(cfg, ms).value.calls[c] == Call(DevDone, callId, raw, Done(r))
    {
      FreeSlotIsFresh(cfg, ls, callId, raw);
      ms := DevDoneRun(cfg, ls, c, callId, raw, now);
      r := HandleDevDone(callId, raw, now);
    }

    method ReserveReviewSubmitTerminal(callId: string, raw: Raw) returns (r: Option<Result>)
      modifies this`review
      ensures var other := CrossCheck(terminalTool, ReviewSubmit);
        (review, r) == if other.Some? then (old(review), other) else Reserve(old(review), callId, raw)
    {
      if terminalTool.Some? && terminalTool.value != ReviewSubmit {
        return CrossCheck(terminalTool, ReviewSubmit);
      }
      if review.result.Some? {
        if SameCall(review, callId, raw) { return review.result; }
        return Some(Protocol("already called in this invocation"));
      }
      if review.pending { return Some(Protocol("already in progress")); }
      review := review.(pending := true, callId := callId, raw := Some(raw));
      r := None;
    }

    /** A whole call that nothing interrupts. A schema failure leaves the slot as it was. */
    method HandleReviewSubmit(callId: string, raw: Raw, now: Option<string>) returns (r: Result)
      modifies this`review, this`terminalTool
      ensures old(review.result.Some? || review.pending) || CrossCheck(old(terminalTool), ReviewSubmit).Some? ==>
        && review == old(review) && terminalTool == old(terminalTool)
        && (if CrossCheck(old(terminalTool), ReviewSubmit).None?
              && old(SameCall(review, callId, raw) && review.result.Some?)
            then old(review.result) == Some(r) else r.Error? && r.code == ProtocolError)
      ensures old(review) == FRESH && CrossCheck(old(terminalTool), ReviewSubmit).None? ==>
        && (ValidateReview(raw).0.None? ==>
              review == FRESH && r.Error? && r.code == SchemaInvalid && terminalTool == old(terminalTool))
        && (ValidateReview(raw).0.Some? ==>
              && review.result == Some(r) && SameCall(review, callId, raw) && !review.pending
              && (r.Accepted? <==> (raw.asReview.value.verdict == "approved" ==> CheckReviewerGate(cfg, now).None?))
              && (r.Error? ==> r.code == ReviewerGate && review.gateMsg == r.message)
              && review.value == (if r.Accepted? then ValidateReview(raw).0 else None)
              && review.gateRejected == !r.Accepted?
              && terminalTool == (if r.Accepted? then Some(ReviewSubmit) else old(terminalTool)))
    {
      var busy := ReserveReviewSubmitTerminal(callId, raw);
      if busy.Some? { return busy.value; }
      var (p, bad) := ValidateReview(raw);
      if bad.Some? {
        review := Release(review);
        return bad.value;
      }
      if NeedsReviewerGate(p.value) {
        var message := CheckReviewerGate(cfg, now);
        if message.Some? {
          r := Error(ReviewerGate, message.value);
          review := Finalize(Reject(review, message.value), callId, raw, r);
          return;
        }
      }
      review := review.(value := p);
      terminalTool := Some(ReviewSubmit);
      review := Finalize(review, callId, raw, Accepted);
      r := Accepted;
    }

    /** The outcome of running the check, `None` when it could not be run, replaces the last one. */
    method HandleProjectCheck(outcome: Option<Check>)
      modifies this`lastCheck
      ensures lastCheck == if cfg.checkConfigured && outcome.Some? then outcome else old(lastCheck)
      ensures cfg.checkConfigured && outcome.Some? ==>
        forall now :: IsTreeGreen(now) <==> outcome.value.ok && cfg.devPath && now == Some(outcome.value.fingerprint)
    {
      if cfg.checkConfigured && outcome.Some? { lastCheck := outcome; }
    }

    predicate IsTreeGreen(now: Option<string>)
      reads this
    {
      lastCheck.Some? && lastCheck.value.ok && cfg.devPath && now == Some(lastCheck.value.fingerprint)
    }

    function RecoveredDevDoneParams(): Option<DevDoneParams>
      reads this
    {
      if !dev.gateRejected || dev.raw.None? then None
      else
        var p := ValidateDev(dev.raw.value).0;
        if p.Some? then Some(p.value.dev) else None
    }

    /** This object is what the interleaved system calls state `s`. */
    ghost predicate Mirrors(s: State)
      reads this
    {
      && terminalTool == s.terminalTool && lastCheck == s.lastCheck
      && dev == s.dev.slot && devFingerprint == s.dev.passedWith && review == s.review.slot
    }
  }

  // ----- the interleaved system --------------------------------------------------------------

  /** Where a terminal call stands between two of its critical sections. */
  datatype Pc =
    | Arrived
    | CrossPassed
    | Reserved
    | Gating(p: Params)                  // params valid, gate not yet decided
    | Comparing(p: Params, check: Check) // dev gate: green check read, fingerprint not yet compared
    | GatePassed(p: Params)
    | Stored(p: Params)                  // params published, terminalTool not yet set
    | Concluding(result: Result)         // slot to be finalized with this result
    | Releasing(result: Result)          // slot to be given back
    | Done(result: Result)

  datatype Call = Call(tool: Tool, callId: string, raw: Raw, pc: Pc)

  /** One tool's side of the broker: its slot and the fingerprint its gate passed with.  The rest is
      history: which call holds the slot, how often it was reserved and finalized, and whether the
      acceptance was entered in `terminalTool`. */
  datatype Side = Side(
    slot: Slot, passedWith: Option<string>,
    holder: Option<nat>, reserved: nat, finalized: nat, marked: bool)

  const NEW_SIDE: Side := Side(FRESH, None, None, 0, 0, false)

  /** `checks` is history: every project check recorded in this invocation. */
  datatype State = State(
    terminalTool: Option<Tool>, lastCheck: Option<Check>, checks: seq<Check>,
    dev: Side, review: Side, calls: map<nat, Call>)

  const START: State := State(None, None, [], NEW_SIDE, NEW_SIDE, map[])

  function SideOf(s: State, tool: Tool): Side { if tool == ReviewSubmit then s.review else s.dev }

  datatype Label =
    | Arrive(c: nat, tool: Tool, callId: string, raw: Raw)
    | CrossStep(c: nat) | ReserveStep(c: nat) | ValidateStep(c: nat)
    | ReadCheckStep(c: nat)
    | CompareStep(c: nat, now: Option<string>)
    | StoreStep(c: nat) | MarkStep(c: nat) | ConcludeStep(c: nat) | ReleaseStep(c: nat)
    | RecordCheck(check: Check)

  predicate CallEnabled(k: Call, l: Label) {
    match l
    case CrossStep(_) => k.pc.Arrived?
    case ReserveStep(_) => k.pc.CrossPassed?
    case ValidateStep(_) => k.pc.Reserved?
    case ReadCheckStep(_) => k.pc.Gating? && k.tool != ReviewSubmit
    case CompareStep(_, _) => k.pc.Comparing? || (k.pc.Gating? && k.tool == ReviewSubmit)
    case StoreStep(_) => k.pc.GatePassed?
    case MarkStep(_) => k.pc.Stored?
    case ConcludeStep(_) => k.pc.Concluding?
    case ReleaseStep(_) => k.pc.Releasing?
    case _ => false
  }

  predicate Enabled(cfg: Config, s: State, l: Label) {
    match l
    case Arrive(c, tool, callId, _) => c !in s.calls && tool != ProjectCheck && callId != ""
    case RecordCheck(_) => Allows(cfg, ProjectCheck) && cfg.checkConfigured
    case _ => l.c in s.calls && CallEnabled(s.calls[l.c], l)
  }

  /** The gate's verdict: a rejection is recorded in the slot and will conclude the call. */
  function Decide(side: Side, tool: Tool, message: Option<string>, next: Pc): (Side, Pc) {
    if message.None? then (side, next)
    else (side.(slot := Reject(side.slot, message.value)), Concluding(Error(GateCode(tool), message.value)))
  }

  /** What one critical section of call `c` does to its tool's side and to its own position. */
  function Move(cfg: Config, terminalTool: Option<Tool>, lastCheck: Option<Check>, side: Side, c: nat, k: Call,
      l: Label): (Side, Pc)
    requires CallEnabled(k, l)
  {
    match l
    case CrossStep(_) =>
      var r := CrossCheck(terminalTool, k.tool);
      (side, if r.Some? then Done(r.value) else CrossPassed)
    case ReserveStep(_) =>
      var (slot, r) := Reserve(side.slot, k.callId, k.raw);
      if r.Some? then (side, Done(r.value))
      else (side.(slot := slot, holder := Some(c), reserved := side.reserved + 1), Reserved)
    case ValidateStep(_) =>
      var (p, r) := Validate(k.tool, k.raw);
      if r.Some? then (side, if k.tool == ReviewSubmit then Releasing(r.value) else Concluding(r.value))
      else (side, if k.tool != ReviewSubmit || NeedsReviewerGate(p.value) then Gating(p.value) else GatePassed(p.value))
    case ReadCheckStep(_) =>
      var message := DevGateCheck(lastCheck);
      Decide(side, k.tool, message, if message.None? then Comparing(k.pc.p, lastCheck.value) else k.pc)
    case CompareStep(_, now) =>
      var message := if k.pc.Comparing? then DevGateCompare(k.pc.check, now) else CheckReviewerGate(cfg, now);
      Decide(if message.None? then side.(passedWith := now) else side, k.tool, message, GatePassed(k.pc.p))
    case StoreStep(_) => (side.(slot := side.slot.(value := Some(k.pc.p))), Stored(k.pc.p))
    case MarkStep(_) => (side.(marked := true), Concluding(Accepted))
    case ConcludeStep(_) =>
      (side.(slot := Finalize(side.slot, k.callId, k.raw, k.pc.result),
             holder := None, finalized := side.finalized + 1), Done(k.pc.result))
    case ReleaseStep(_) => (side.(slot := Release(side.slot), holder := None), Done(k.pc.result))
  }

  function Install(s: State, c: nat, side: Side, pc: Pc, marks: bool): State
    requires c in s.calls
  {
    var k := s.calls[c];
    s.(calls := s.calls[c := k.(pc := pc)],
       terminalTool := if marks then Some(k.tool) else s.terminalTool,
       dev := if k.tool == ReviewSubmit then s.dev else side,
       review := if k.tool == ReviewSubmit then side else s.review)
  }

  function CallStep(cfg: Config, s: State, c: nat, l: Label): State
    requires c in s.calls && CallEnabled(s.calls[c], l)
  {
    var next := Move(cfg, s.terminalTool, s.lastCheck, SideOf(s, s.calls[c].tool), c, s.calls[c], l);
    Install(s, c, next.0, next.1, l.MarkStep?)
  }

  function Apply(cfg: Config, s: State, l: Label): State
    requires Enabled(cfg, s, l)
  {
    match l
    case Arrive(c, tool, callId, raw) =>
      s.(calls := s.calls[c := Call(tool, callId, raw,
           if Allows(cfg, tool) then Arrived else Done(Error(UnknownTool, "unknown tool")))])
    case RecordCheck(check) => s.(lastCheck := Some(check), checks := s.checks + [check])
    case _ => CallStep(cfg, s, l.c, l)
  }

  /** Where the run that takes exactly the steps `ls` ends, if each is enabled in its turn. */
  function After(cfg: Config, ls: seq<Label>): Option<State> {
    if ls == [] then Some(START)
    else
      var p := After(cfg, ls[..|ls| - 1]);
      if p.Some? && Enabled(cfg, p.value, ls[|ls| - 1]) then Some(Apply(cfg, p.value, ls[|ls| - 1])) else None
  }

  // ----- the invariant -----------------------------------------------------------------------

  /** The call is between its reserve and its finalize or release. */
  predicate Holding(pc: Pc) {
    !pc.Arrived? && !pc.CrossPassed? && !pc.Done?
  }

  predicate PublishedBy(pc: Pc) { pc.Stored? || pc == Concluding(Accepted) }

  /** What the holder's position says about its params and its coming answer. */
  predicate PcOk(k: Call) {
    match k.pc
    case Gating(p) => if k.tool == ReviewSubmit then NeedsReviewerGate(p) else p.Dev?
    case Comparing(p, check) => k.tool != ReviewSubmit && check.ok && p.Dev?
    case GatePassed(p) => k.tool == ReviewSubmit <==> p.Review?
    case Stored(p) => k.tool == ReviewSubmit <==> p.Review?
    case Concluding(r) => k.tool == ReviewSubmit && r.Error? ==> r.code == ReviewerGate
    case Releasing(r) => k.tool == ReviewSubmit && r.Error? && r.code == SchemaInvalid
    case _ => true
  }

  /** The gate of `tool` held for params `p` when it was passed with fingerprint `fp`. */
  predicate GateHeld(cfg: Config, checks: seq<Check>, tool: Tool, p: Params, fp: Option<string>) {
    if tool != ReviewSubmit then fp.Some? && Check(true, fp.value) in checks
    else NeedsReviewerGate(p) ==>
      && cfg.precheck.Some? && cfg.precheck.value.ok
      && cfg.precheck.value.before == cfg.precheck.value.after
      && fp == Some(cfg.precheck.value.after)
  }

  predicate HeldBy(cfg: Config, checks: seq<Check>, tool: Tool, side: Side, k: Call) {
    var slot := side.slot;
    && k.tool == tool && Holding(k.pc) && PcOk(k)
    && slot.pending && slot.result.None? && slot.callId == k.callId && slot.raw == Some(k.raw)
    && (slot.value.Some? <==> PublishedBy(k.pc))
    && (k.pc.Stored? ==> slot.value == Some(k.pc.p))
    && (slot.gateRejected <==> k.pc.Concluding? && IsRejection(k.pc.result, tool))
    && (!slot.gateRejected ==> slot.gateMsg == "")
    && (k.pc.Comparing? ==> k.pc.check in checks)
    && (k.pc.GatePassed? ==> GateHeld(cfg, checks, tool, k.pc.p, side.passedWith))
    && (side.marked <==> k.pc == Concluding(Accepted))
    && side.finalized == 0
  }

  predicate Free(tool: Tool, side: Side) {
    var slot := side.slot;
    && !slot.pending
    && (slot.result.None? ==>
          slot == FRESH && !side.marked && side.finalized == 0
          && (tool != ReviewSubmit ==> side.reserved == 0))
    && (slot.result.Some? ==>
          && slot.raw.Some? && side.finalized == 1
          && (slot.value.Some? <==> slot.result.value.Accepted?)
          && (side.marked <==> slot.result.value.Accepted?)
          && (slot.gateRejected <==> IsRejection(slot.result.value, tool)))
  }

  /** A tool's side, together with the call that holds its slot, if any. */
  predicate SideOk(cfg: Config, checks: seq<Check>, tool: Tool, side: Side, h: Option<Call>) {
    && (match h case Some(k) => HeldBy(cfg, checks, tool, side, k) case None => Free(tool, side))
    && (side.slot.value.Some? ==>
          && (tool == ReviewSubmit <==> side.slot.value.value.Review?)
          && GateHeld(cfg, checks, tool, side.slot.value.value, side.passedWith))
    && (h.Some? || side.slot.result.Some? ==> Allows(cfg, tool))
    && (tool != ReviewSubmit ==> side.reserved <= 1)
  }

  /** What an answer can be: the stored result, given to a call with the stored call's id and
      params, or one of the errors that never claim acceptance. */
  predicate AnswerOk(slot: Slot, k: Call, r: Result) {
    || (slot.result == Some(r) && SameCall(slot, k.callId, k.raw))
    || (r.Error? && (r.code == ProtocolError || r.code == UnknownTool))
    || (k.tool == ReviewSubmit && r.Error? && r.code == SchemaInvalid)
  }

  predicate CallOk(cfg: Config, side: Side, c: nat, k: Call) {
    && k.tool != ProjectCheck
    && (!k.pc.Done? ==> Allows(cfg, k.tool))
    && (Holding(k.pc) ==> side.holder == Some(c))
    && (k.pc.Done? ==> AnswerOk(side.slot, k, k.pc.result))
  }

  predicate HolderKnown(s: State, side: Side) { side.holder.Some? ==> side.holder.value in s.calls }

  function HolderCall(s: State, side: Side): Option<Call>
    requires HolderKnown(s, side)
  {
    if side.holder.Some? then Some(s.calls[side.holder.value]) else None
  }

  predicate SidesOk(cfg: Config, s: State) {
    && HolderKnown(s, s.dev) && SideOk(cfg, s.checks, DevDone, s.dev, HolderCall(s, s.dev))
    && HolderKnown(s, s.review) && SideOk(cfg, s.checks, ReviewSubmit, s.review, HolderCall(s, s.review))
  }

  ghost predicate CallsOk(cfg: Config, s: State) {
    forall c :: c in s.calls ==> CallOk(cfg, SideOf(s, s.calls[c].tool), c, s.calls[c])
  }

  /** What the checks and `terminalTool` say. */
  predicate LedgerOk(cfg: Config, s: State) {
    && (s.lastCheck.Some? ==> s.lastCheck.value in s.checks)
    && (s.checks != [] ==> Allows(cfg, ProjectCheck) && cfg.checkConfigured)
    && (s.terminalTool == Some(DevDone) ==> s.dev.marked)
    && (s.terminalTool == Some(ReviewSubmit) ==> s.review.marked)
    && s.terminalTool != Some(ProjectCheck)
    && (s.terminalTool.None? ==> !s.dev.marked && !s.review.marked)
  }

  ghost predicate Inv(cfg: Config, s: State) {
    SidesOk(cfg, s) && CallsOk(cfg, s) && LedgerOk(cfg, s)
  }

  function NewHolder(side: Side, c: nat, k: Call, h: Option<Call>): Option<Call> {
    if side.holder.None? then None else if side.holder == Some(c) then Some(k) else h
  }

  ghost predicate MoveIsFine(cfg: Config, checks: seq<Check>, side: Side, h: Option<Call>, c: nat, k: Call,
                             marks: bool, next: (Side, Pc)) {
    var side', k' := next.0, k.(pc := next.1);
    && SideOk(cfg, checks, k.tool, side', NewHolder(side', c, k', h))
    && CallOk(cfg, side', c, k')
    && (side'.holder.None? || side'.holder == Some(c) || side'.holder == side.holder)
    && (side.holder.Some? && side.holder != Some(c) ==> side'.holder == side.holder)
    && (side.slot.result.Some? ==> side'.slot == side.slot)
    && (side'.marked <==> side.marked || marks)
  }

  predicate MoveContext(cfg: Config, checks: seq<Check>, side: Side, h: Option<Call>, c: nat, k: Call, l: Label) {
    && CallEnabled(k, l) && CallOk(cfg, side, c, k)
    && SideOk(cfg, checks, k.tool, side, h)
    && (h.Some? <==> side.holder.Some?)
    && (side.holder == Some(c) ==> h == Some(k))
  }

  lemma EntryMoves(cfg: Config, terminalTool: Option<Tool>, lastCheck: Option<Check>, checks: seq<Check>,
            side: Side, h: Option<Call>, c: nat, k: Call, l: Label)
    requires MoveContext(cfg, checks, side, h, c, k, l)
    requires lastCheck.Some? ==> lastCheck.value in checks
    requires l.CrossStep? || l.ReserveStep? || l.ValidateStep?
    ensures MoveIsFine(cfg, checks, side, h, c, k, l.MarkStep?, Move(cfg, terminalTool, lastCheck, side, c, k, l))
  {
  }

  lemma ReadCheckMoves(cfg: Config, terminalTool: Option<Tool>, lastCheck: Option<Check>, checks: seq<Check>,
            side: Side, h: Option<Call>, c: nat, k: Call, l: Label)
    requires MoveContext(cfg, checks, side, h, c, k, l) && l.ReadCheckStep?
    requires lastCheck.Some? ==> lastCheck.value in checks
    ensures MoveIsFine(cfg, checks, side, h, c, k, false, Move(cfg, terminalTool, lastCheck, side, c, k, l))
  {
  }

  lemma CompareMoves(cfg: Config, terminalTool: Option<Tool>, lastCheck: Option<Check>, checks: seq<Check>,
            side: Side, h: Option<Call>, c: nat, k: Call, l: Label)
    requires MoveContext(cfg, checks, side, h, c, k, l) && l.CompareStep?
    ensures MoveIsFine(cfg, checks, side, h, c, k, false, Move(cfg, terminalTool, lastCheck, side, c, k, l))
  {
  }

  lemma ExitMoves(cfg: Config, terminalTool: Option<Tool>, lastCheck: Option<Check>, checks: seq<Check>,
            side: Side, h: Option<Call>, c: nat, k: Call, l: Label)
    requires MoveContext(cfg, checks, side, h, c, k, l)
    requires lastCheck.Some? ==> lastCheck.value in checks
    requires l.StoreStep? || l.MarkStep? || l.ConcludeStep? || l.ReleaseStep?
    ensures MoveIsFine(cfg, checks, side, h, c, k, l.MarkStep?, Move(cfg, terminalTool, lastCheck, side, c, k, l))
  {
  }

  lemma EveryMoveIsFine(cfg: Config, terminalTool: Option<Tool>, lastCheck: Option<Check>, checks: seq<Check>,
                        side: Side, h: Option<Call>, c: nat, k: Call, l: Label)
    requires MoveContext(cfg, checks, side, h, c, k, l)
    requires lastCheck.Some? ==> lastCheck.value in checks
    ensures MoveIsFine(cfg, checks, side, h, c, k, l.MarkStep?, Move(cfg, terminalTool, lastCheck, side, c, k, l))
  {
    if l.CrossStep? || l.ReserveStep? || l.ValidateStep? {
      EntryMoves(cfg, terminalTool, lastCheck, checks, side, h, c, k, l);
    } else if l.ReadCheckStep? {
      ReadCheckMoves(cfg, terminalTool, lastCheck, checks, side, h, c, k, l);
    } else if l.CompareStep? {
      CompareMoves(cfg, terminalTool, lastCheck, checks, side, h, c, k, l);
    } else {
      ExitMoves(cfg, terminalTool, lastCheck, checks, side, h, c, k, l);
    }
  }

  lemma CallStepKeepsInv(cfg: Config, s: State, c: nat, l: Label)
    requires Inv(cfg, s) && c in s.calls && CallEnabled(s.calls[c], l)
    ensures Inv(cfg, CallStep(cfg, s, c, l))
  {
    var k := s.calls[c];
    var side := SideOf(s, k.tool);
    EveryMoveIsFine(cfg, s.terminalTool, s.lastCheck, s.checks, side, HolderCall(s, side), c, k, l);
    var next := Move(cfg, s.terminalTool, s.lastCheck, side, c, k, l);
    MoveLifts(cfg, s, c, next, l.MarkStep?);
  }

  lemma MoveLifts(cfg: Config, s: State, c: nat, next: (Side, Pc), marks: bool)
    requires Inv(cfg, s) && c in s.calls
    requires var side := SideOf(s, s.calls[c].tool);
      MoveIsFine(cfg, s.checks, side, HolderCall(s, side), c, s.calls[c], marks, next)
    ensures Inv(cfg, Install(s, c, next.0, next.1, marks))
  {
    MoveKeepsCalls(cfg, s, c, next, marks);
    MoveKeepsLedger(cfg, s, c, next, marks);
    if s.calls[c].tool == ReviewSubmit {
      ReviewMoveKeepsSides(cfg, s, c, next.0, next.1, marks);
    } else {
      DevMoveKeepsSides(cfg, s, c, next.0, next.1, marks);
    }
  }

  lemma MoveKeepsLedger(cfg: Config, s: State, c: nat, next: (Side, Pc), marks: bool)
    requires LedgerOk(cfg, s) && c in s.calls && s.calls[c].tool != ProjectCheck
    requires next.0.marked <==> SideOf(s, s.calls[c].tool).marked || marks
    ensures LedgerOk(cfg, Install(s, c, next.0, next.1, marks))
  {
  }

  /** A fine move of one call keeps every other call's standing ... */
  lemma MoveKeepsCalls(cfg: Config, s: State, c: nat, next: (Side, Pc), marks: bool)
    requires Inv(cfg, s) && c in s.calls
    requires var side := SideOf(s, s.calls[c].tool);
      MoveIsFine(cfg, s.checks, side, HolderCall(s, side), c, s.calls[c], marks, next)
    ensures CallsOk(cfg, Install(s, c, next.0, next.1, marks))
  {
  }

  /** ... and the other tool's side. */
  lemma DevMoveKeepsSides(cfg: Config, s: State, c: nat, side': Side, pc': Pc, marks: bool)
    requires Inv(cfg, s) && c in s.calls && s.calls[c].tool != ReviewSubmit
    requires MoveIsFine(cfg, s.checks, s.dev, HolderCall(s, s.dev), c, s.calls[c], marks, (side', pc'))
    ensures SidesOk(cfg, Install(s, c, side', pc', marks))
  {
    var s' := Install(s, c, side', pc', marks);
    assert HolderKnown(s', s'.review) && HolderCall(s', s'.review) == HolderCall(s, s.review);
    assert HolderKnown(s', s'.dev);
    assert HolderCall(s', s'.dev) == NewHolder(side', c, s'.calls[c], HolderCall(s, s.dev));
  }

  /** ... and the other tool's side. */
  lemma ReviewMoveKeepsSides(cfg: Config, s: State, c: nat, side': Side, pc': Pc, marks: bool)
    requires Inv(cfg, s) && c in s.calls && s.calls[c].tool == ReviewSubmit
    requires MoveIsFine(cfg, s.checks, s.review, HolderCall(s, s.review), c, s.calls[c], marks, (side', pc'))
    ensures SidesOk(cfg, Install(s, c, side', pc', marks))
  {
    var s' := Install(s, c, side', pc', marks);
    assert HolderKnown(s', s'.dev) && HolderCall(s', s'.dev) == HolderCall(s, s.dev);
    assert HolderKnown(s', s'.review);
    assert HolderCall(s', s'.review) == NewHolder(side', c, s'.calls[c], HolderCall(s, s.review));
  }

  lemma ArriveKeepsInv(cfg: Config, s: State, l: Label)
    requires Inv(cfg, s) && Enabled(cfg, s, l) && l.Arrive?
    ensures Inv(cfg, Apply(cfg, s, l))
  {
  }

  lemma RecordCheckKeepsInv(cfg: Config, s: State, l: Label)
    requires Inv(cfg, s) && Enabled(cfg, s, l) && l.RecordCheck?
    ensures Inv(cfg, Apply(cfg, s, l))
  {
  }

  /** Every critical section of every call, and every project check, keeps the invariant. */
  lemma StepKeepsInv(cfg: Config, s: State, l: Label)
    requires Inv(cfg, s) && Enabled(cfg, s, l)
    ensures Inv(cfg, Apply(cfg, s, l))
  {
    match l
    case Arrive(_, _, _, _) => ArriveKeepsInv(cfg, s, l);
    case RecordCheck(_) => RecordCheckKeepsInv(cfg, s, l);
    case _ => CallStepKeepsInv(cfg, s, l.c, l);
  }

  lemma {:induction false} RunKeepsInv(cfg: Config, ls: seq<Label>)
    requires After(cfg, ls).Some?
    ensures Inv(cfg, After(cfg, ls).value)
  {
    if ls != [] {
      RunKeepsInv(cfg, ls[..|ls| - 1]);
      StepKeepsInv(cfg, After(cfg, ls[..|ls| - 1]).value, ls[|ls| - 1]);
    }
  }

  // ----- what every run guarantees -----------------------------------------------------------

  /** Every answer is the stored result of its tool, given to a call with the id and the params of
      the call that was stored, or an error that claims nothing. So two accepted answers of one tool
      always went to equal calls. */
  lemma AnswersAreTheStoredResult(cfg: Config, ls: seq<Label>, c: nat)
    requires After(cfg, ls).Some? && c in After(cfg, ls).value.calls
    requires After(cfg, ls).value.calls[c].pc.Done?
    ensures var s := After(cfg, ls).value; var k := s.calls[c]; var r := k.pc.result;
      var slot := SideOf(s, k.tool).slot;
      || (slot.result == Some(r) && slot.callId == k.callId && slot.raw.Some? && slot.raw.value.text == k.raw.text)
      || (r.Error? && (r.code == ProtocolError || r.code == UnknownTool))
      || (k.tool == ReviewSubmit && r.Error? && r.code == SchemaInvalid)
  {
    RunKeepsInv(cfg, ls);
  }

  /** At most one gm_dev_done ever gets the slot; at most one call of either tool is finalized. */
  lemma SlotsAreOneShot(cfg: Config, ls: seq<Label>)
    requires After(cfg, ls).Some?
    ensures var s := After(cfg, ls).value;
      s.dev.reserved <= 1 && s.dev.finalized <= 1 && s.review.finalized <= 1
  {
    RunKeepsInv(cfg, ls);
  }

  /** No two calls of one tool are between reserve and finalize (or release) at the same time. */
  lemma OneHolderAtATime(cfg: Config, ls: seq<Label>, c: nat, d: nat)
    requires After(cfg, ls).Some?
    requires var calls := After(cfg, ls).value.calls;
      c in calls && d in calls && c != d && calls[c].tool == calls[d].tool && Holding(calls[c].pc)
    ensures !Holding(After(cfg, ls).value.calls[d].pc)
  {
    RunKeepsInv(cfg, ls);
  }

  /** For each tool: accepted params and a gate rejection never coexist; a stored answer is
      `Accepted` exactly if there are accepted params; and accepted params passed their gate - for
      gm_dev_done with the fingerprint of a green check recorded in this invocation, for an approval
      with that of an ok precheck that left the tree as it was. */
  lemma AcceptedMeansGatePassed(cfg: Config, ls: seq<Label>)
    requires After(cfg, ls).Some?
    ensures var s := After(cfg, ls).value; var d := s.dev; var r := s.review;
      && !(d.slot.value.Some? && d.slot.gateRejected)
      && !(r.slot.value.Some? && r.slot.gateRejected)
      && (d.slot.result.Some? ==> (d.slot.result.value.Accepted? <==> d.slot.value.Some?))
      && (r.slot.result.Some? ==> (r.slot.result.value.Accepted? <==> r.slot.value.Some?))
      && (d.slot.value.Some? ==> d.passedWith.Some? && Check(true, d.passedWith.value) in s.checks)
      && (r.slot.value.Some? ==> r.slot.value.value.Review?)
      && (r.slot.value.Some? && r.slot.value.value.review.verdict == "approved" ==>
            cfg.precheck.Some? && cfg.precheck.value.ok && cfg.precheck.value.before == cfg.precheck.value.after
            && r.passedWith == Some(cfg.precheck.value.after))
  {
    RunKeepsInv(cfg, ls);
  }

  /** What one step never takes back. */
  ghost predicate Persists(s: State, s': State) {
    && (s.dev.slot.result.Some? ==> s'.dev.slot == s.dev.slot)
    && (s.review.slot.result.Some? ==> s'.review.slot == s.review.slot)
    && (s.dev.marked ==> s'.dev.marked) && (s.review.marked ==> s'.review.marked)
    && (s.terminalTool.Some? ==> s'.terminalTool.Some?)
    && (forall c :: c in s.calls ==> c in s'.calls && s'.calls[c].tool == s.calls[c].tool
                                     && s'.calls[c].callId == s.calls[c].callId && s'.calls[c].raw == s.calls[c].raw)
  }

  lemma StepPersists(cfg: Config, s: State, l: Label)
    requires Inv(cfg, s) && Enabled(cfg, s, l)
    ensures Persists(s, Apply(cfg, s, l))
  {
    if !l.Arrive? && !l.RecordCheck? { CallStepPersists(cfg, s, l.c, l); }
  }

  lemma CallStepPersists(cfg: Config, s: State, c: nat, l: Label)
    requires Inv(cfg, s) && c in s.calls && CallEnabled(s.calls[c], l)
    ensures Persists(s, CallStep(cfg, s, c, l))
  {
    var side := SideOf(s, s.calls[c].tool);
    EveryMoveIsFine(cfg, s.terminalTool, s.lastCheck, s.checks, side, HolderCall(s, side), c, s.calls[c], l);
    var next := Move(cfg, s.terminalTool, s.lastCheck, side, c, s.calls[c], l);
    FineMovePersists(cfg, s, c, next, l.MarkStep?);
  }

  lemma FineMovePersists(cfg: Config, s: State, c: nat, next: (Side, Pc), marks: bool)
    requires Inv(cfg, s) && c in s.calls
    requires var side := SideOf(s, s.calls[c].tool);
      MoveIsFine(cfg, s.checks, side, HolderCall(s, side), c, s.calls[c], marks, next)
    ensures Persists(s, Install(s, c, next.0, next.1, marks))
  {
  }

  /** A stored terminal result, with the call it belongs to, never changes again. */
  lemma {:induction false} StoredResultIsFinal(cfg: Config, ls: seq<Label>, n: nat)
    requires n <= |ls| && After(cfg, ls).Some?
    ensures After(cfg, ls[..n]).Some? && Persists(After(cfg, ls[..n]).value, After(cfg, ls).value)
  {
    if n == |ls| {
      assert ls[..n] == ls;
    } else {
      var ms := ls[..|ls| - 1];
      assert ms[..n] == ls[..n];
      StoredResultIsFinal(cfg, ms, n);
      RunKeepsInv(cfg, ms);
      StepPersists(cfg, After(cfg, ms).value, ls[|ls| - 1]);
    }
  }

  /** The answer law for a call that comes when its tool's result is stored. */
  predicate Replayed(slot: Slot, k: Call) {
    || k.pc.Arrived? || k.pc.CrossPassed?
    || (k.pc.Done? && if SameCall(slot, k.callId, k.raw) then Some(k.pc.result) == slot.result
                      else k.pc.result.Error? && k.pc.result.code == ProtocolError)
  }

  /** A call that has not reserved after the first `n` steps, when its tool's result is stored already,
      gets exactly that result if it repeats the stored call, and a protocol error otherwise - as long as
      the other terminal has not been accepted. It may have arrived, and have passed the cross-terminal
      check, while the stored call was still under way. */
  lemma {:induction false} RepeatGetsStoredResult(cfg: Config, ls: seq<Label>, n: nat, c: nat, tool: Tool)
    requires n <= |ls| && After(cfg, ls).Some? && After(cfg, ls[..n]).Some?
    requires tool == DevDone || tool == ReviewSubmit
    requires SideOf(After(cfg, ls[..n]).value, tool).slot.result.Some?
    requires var calls := After(cfg, ls[..n]).value.calls;
      c in calls ==> calls[c].pc.Arrived? || calls[c].pc.CrossPassed?
    requires c in After(cfg, ls).value.calls && After(cfg, ls).value.calls[c].tool == tool
    requires !SideOf(After(cfg, ls).value, if tool == DevDone then ReviewSubmit else DevDone).marked
    ensures Replayed(SideOf(After(cfg, ls[..n]).value, tool).slot, After(cfg, ls).value.calls[c])
  {
    assert ls[..|ls|] == ls;
    if n < |ls| {
      var ms, l := ls[..|ls| - 1], ls[|ls| - 1];
      assert ms[..n] == ls[..n];
      var p := After(cfg, ms).value;
      RunKeepsInv(cfg, ms);
      StepPersists(cfg, p, l);
      StoredResultIsFinal(cfg, ms, n);
      if c in p.calls {
        RepeatGetsStoredResult(cfg, ms, n, c, tool);
        ReplayStep(cfg, p, l, c, SideOf(After(cfg, ls[..n]).value, tool).slot);
      } else {
        RunKeepsInv(cfg, ls);
      }
    }
  }

  lemma ReplayStep(cfg: Config, p: State, l: Label, c: nat, slot: Slot)
    requires Inv(cfg, p) && Enabled(cfg, p, l) && c in p.calls && slot.result.Some?
    requires SideOf(p, p.calls[c].tool).slot == slot
    requires !SideOf(p, if p.calls[c].tool == DevDone then ReviewSubmit else DevDone).marked
    requires Replayed(slot, p.calls[c])
    ensures c in Apply(cfg, p, l).calls && Replayed(slot, Apply(cfg, p, l).calls[c])
  {
    if !l.Arrive? && !l.RecordCheck? && l.c == c { ReplayOwnStep(cfg, p, c, l, slot); }
  }

  lemma ReplayOwnStep(cfg: Config, p: State, c: nat, l: Label, slot: Slot)
    requires Inv(cfg, p) && c in p.calls && CallEnabled(p.calls[c], l) && slot.result.Some?
    requires SideOf(p, p.calls[c].tool).slot == slot
    requires !SideOf(p, if p.calls[c].tool == DevDone then ReviewSubmit else DevDone).marked
    requires Replayed(slot, p.calls[c])
    ensures Replayed(slot, CallStep(cfg, p, c, l).calls[c])
  {
  }

  /** A call of the one tool that arrives after the other tool's acceptance was entered never takes
      its slot: terminals whose calls do not overlap exclude each other. */
  lemma {:induction false} LateOtherTerminalIsBarred(cfg: Config, ls: seq<Label>, n: nat, c: nat, tool: Tool)
    requires n <= |ls| && After(cfg, ls).Some? && After(cfg, ls[..n]).Some?
    requires tool == DevDone || tool == ReviewSubmit
    requires SideOf(After(cfg, ls[..n]).value, if tool == DevDone then ReviewSubmit else DevDone).marked
    requires c !in After(cfg, ls[..n]).value.calls
    requires c in After(cfg, ls).value.calls && After(cfg, ls).value.calls[c].tool == tool
    ensures Barred(After(cfg, ls).value, c)
  {
    assert ls[..|ls|] == ls;
    if n < |ls| {
      var ms, l := ls[..|ls| - 1], ls[|ls| - 1];
      assert ms[..n] == ls[..n];
      var p := After(cfg, ms).value;
      RunKeepsInv(cfg, ms);
      StoredResultIsFinal(cfg, ms, n);
      if c in p.calls {
        StepPersists(cfg, p, l);
        LateOtherTerminalIsBarred(cfg, ms, n, c, tool);
        BarredStep(cfg, p, l, c);
      }
    }
  }

  predicate Barred(s: State, c: nat)
    requires c in s.calls
  {
    var k := s.calls[c];
    !Holding(k.pc) && (k.pc.CrossPassed? ==> SideOf(s, k.tool).marked)
  }

  lemma OtherCallsStay(cfg: Config, p: State, l: Label, c: nat)
    requires Enabled(cfg, p, l) && c in p.calls && (l.RecordCheck? || l.c != c)
    ensures c in Apply(cfg, p, l).calls && Apply(cfg, p, l).calls[c] == p.calls[c]
  {
  }

  lemma BarredStep(cfg: Config, p: State, l: Label, c: nat)
    requires Inv(cfg, p) && Enabled(cfg, p, l) && c in p.calls && Barred(p, c)
    requires SideOf(p, if p.calls[c].tool == DevDone then ReviewSubmit else DevDone).marked
    requires Persists(p, Apply(cfg, p, l))
    ensures c in Apply(cfg, p, l).calls && Barred(Apply(cfg, p, l), c)
  {
    if l.RecordCheck? || l.c != c {
      OtherCallsStay(cfg, p, l, c);
    } else {
      BarredOwnStep(cfg, p, c, l);
    }
  }

  lemma BarredOwnStep(cfg: Config, p: State, c: nat, l: Label)
    requires Inv(cfg, p) && c in p.calls && CallEnabled(p.calls[c], l) && Barred(p, c)
    requires SideOf(p, if p.calls[c].tool == DevDone then ReviewSubmit else DevDone).marked
    ensures !Holding(CallStep(cfg, p, c, l).calls[c].pc)
    ensures CallStep(cfg, p, c, l).calls[c].pc.CrossPassed? ==> SideOf(p, p.calls[c].tool).marked
  {
  }

  // ----- both terminals in one invocation ----------------------------------------------------

  ghost predicate BothAccepted(s: State) { s.dev.slot.value.Some? && s.review.slot.value.Some? }

  ghost predicate NeverBoth(cfg: Config) {
    forall ls :: After(cfg, ls).Some? ==> !BothAccepted(After(cfg, ls).value)
  }

  /** The allowlist lets both terminals, and the check that gm_dev_done needs, through. */
  predicate BothPossible(cfg: Config) {
    && (cfg.allowed == {} || (DevDone in cfg.allowed && ReviewSubmit in cfg.allowed && ProjectCheck in cfg.allowed))
    && cfg.checkConfigured
  }

  /** Exclusion of the two terminals is not what the critical sections give: it holds in every run
      exactly if the configuration rules out one of them. */
  lemma CrossTerminalExclusion(cfg: Config)
    ensures NeverBoth(cfg) <==> !BothPossible(cfg)
  {
    if BothPossible(cfg) {
      var ls := OverlappingRun(cfg);
      assert BothAccepted(After(cfg, ls).value);
    } else {
      forall ls | After(cfg, ls).Some?
        ensures !BothAccepted(After(cfg, ls).value)
      {
        RunKeepsInv(cfg, ls);
      }
    }
  }

  lemma Extend(cfg: Config, ls: seq<Label>, l: Label)
    requires After(cfg, ls).Some? && Enabled(cfg, After(cfg, ls).value, l)
    ensures After(cfg, ls + [l]) == Some(Apply(cfg, After(cfg, ls).value, l))
  {
    assert (ls + [l])[..|ls|] == ls;
  }

  const DEV_RAW: Raw := Raw("d", Some(DevDoneParams("s", "c", "t", "b")), None)
  const REVIEW_RAW: Raw := Raw("r", None, Some(ReviewParams("changes_requested", "high", "b")))

  lemma BothArrive(cfg: Config) returns (ls: seq<Label>)
    requires BothPossible(cfg)
    ensures After(cfg, ls).Some?
    ensures var s := After(cfg, ls).value;
      && s.terminalTool.None? && s.lastCheck == Some(Check(true, "f")) && s.dev == NEW_SIDE && s.review == NEW_SIDE
      && 0 in s.calls && s.calls[0] == Call(DevDone, "d", DEV_RAW, Arrived)
      && 1 in s.calls && s.calls[1] == Call(ReviewSubmit, "r", REVIEW_RAW, Arrived)
  {
    ls := [];
    assert After(cfg, ls) == Some(START);
    Extend(cfg, ls, RecordCheck(Check(true, "f")));
    ls := ls + [RecordCheck(Check(true, "f"))];
    Extend(cfg, ls, Arrive(0, DevDone, "d", DEV_RAW));
    ls := ls + [Arrive(0, DevDone, "d", DEV_RAW)];
    Extend(cfg, ls, Arrive(1, ReviewSubmit, "r", REVIEW_RAW));
    ls := ls + [Arrive(1, ReviewSubmit, "r", REVIEW_RAW)];
  }

  /** The two calls pass the cross-terminal check before either acceptance is entered. */
  lemma BothCross(cfg: Config) returns (ls: seq<Label>)
    requires BothPossible(cfg)
    ensures After(cfg, ls).Some?
    ensures var s := After(cfg, ls).value;
      && s.lastCheck == Some(Check(true, "f")) && s.dev == NEW_SIDE && s.review == NEW_SIDE
      && 0 in s.calls && s.calls[0] == Call(DevDone, "d", DEV_RAW, CrossPassed)
      && 1 in s.calls && s.calls[1] == Call(ReviewSubmit, "r", REVIEW_RAW, CrossPassed)
  {
    ls := BothArrive(cfg);
    Extend(cfg, ls, CrossStep(0));
    ls := ls + [CrossStep(0)];
    Extend(cfg, ls, CrossStep(1));
    ls := ls + [CrossStep(1)];
  }

  lemma DevThrough(cfg: Config) returns (ls: seq<Label>)
    requires BothPossible(cfg)
    ensures After(cfg, ls).Some?
    ensures var s := After(cfg, ls).value;
      && s.dev.slot.value.Some? && s.review == NEW_SIDE
      && 1 in s.calls && s.calls[1] == Call(ReviewSubmit, "r", REVIEW_RAW, CrossPassed)
  {
    ls := BothCross(cfg);
    Extend(cfg, ls, ReserveStep(0));
    ls := ls + [ReserveStep(0)];
    Extend(cfg, ls, ValidateStep(0));
    ls := ls + [ValidateStep(0)];
    Extend(cfg, ls, ReadCheckStep(0));
    ls := ls + [ReadCheckStep(0)];
    Extend(cfg, ls, CompareStep(0, Some("f")));
    ls := ls + [CompareStep(0, Some("f"))];
    Extend(cfg, ls, StoreStep(0));
    ls := ls + [StoreStep(0)];
  }

  lemma OverlappingRun(cfg: Config) returns (ls: seq<Label>)
    requires BothPossible(cfg)
    ensures After(cfg, ls).Some? && BothAccepted(After(cfg, ls).value)
  {
    ls := DevThrough(cfg);
    Extend(cfg, ls, ReserveStep(1));
    ls := ls + [ReserveStep(1)];
    Extend(cfg, ls, ValidateStep(1));
    ls := ls + [ValidateStep(1)];
    Extend(cfg, ls, StoreStep(1));
    ls := ls + [StoreStep(1)];
  }

  // ----- an uninterrupted call is a run ------------------------------------------------------

  /** `s` with call `c` at `k`, the dev side at `side` and the accepted terminal at `tt`. */
  function With(s: State, c: nat, k: Call, side: Side, tt: Option<Tool>): State {
    s.(calls := s.calls[c := k], dev := side, terminalTool := tt)
  }

  lemma MoveOn(cfg: Config, ms: seq<Label>, s: State, c: nat, k: Call, side: Side, tt: Option<Tool>, l: Label)
    requires After(cfg, ms) == Some(With(s, c, k, side, tt)) && k.tool == DevDone
    requires !l.Arrive? && !l.RecordCheck? && l.c == c && CallEnabled(k, l)
    ensures var next := Move(cfg, tt, s.lastCheck, side, c, k, l);
      After(cfg, ms + [l]) == Some(With(s, c, k.(pc := next.1), next.0, if l.MarkStep? then Some(DevDone) else tt))
  {
    Extend(cfg, ms, l);
    var next := Move(cfg, tt, s.lastCheck, side, c, k, l);
    assert s.calls[c := k][c := k.(pc := next.1)] == s.calls[c := k.(pc := next.1)];
  }

  lemma FreeSlotIsFresh(cfg: Config, ls: seq<Label>, callId: string, raw: Raw)
    requires After(cfg, ls).Some?
    ensures var s := After(cfg, ls).value;
      Refusal(s.terminalTool, s.dev.slot, callId, raw).None? ==> s.dev.slot == FRESH
  {
    RunKeepsInv(cfg, ls);
  }

  /** What the state is when call `c` has run alone from `s` and was answered with `r`. */
  predicate RanAlone(s: State, t: State, c: nat, callId: string, raw: Raw, now: Option<string>) {
    var refusal := Refusal(s.terminalTool, s.dev.slot, callId, raw);
    var r := if refusal.Some? then refusal.value else DevDoneAnswer(s.lastCheck, raw, now);
    var passed := refusal.None? && r.Accepted?;
    && t.review == s.review && t.lastCheck == s.lastCheck
    && c in t.calls && t.calls[c] == Call(DevDone, callId, raw, Done(r))
    && t.dev.slot == (if refusal.Some? then s.dev.slot else Settled(callId, raw, r))
    && t.dev.passedWith == (if passed then now else s.dev.passedWith)
    && t.terminalTool == (if passed then Some(DevDone) else s.terminalTool)
  }

  /** The call arrives and passes the cross-terminal check, or is refused by it. */
  lemma ArriveRun(cfg: Config, ls: seq<Label>, c: nat, k: Call) returns (ms: seq<Label>)
    requires After(cfg, ls).Some? && c !in After(cfg, ls).value.calls
    requires k.tool == DevDone && k.callId != "" && k.pc.Arrived? && Allows(cfg, DevDone)
    ensures ls <= ms
    ensures var s := After(cfg, ls).value; var other := CrossCheck(s.terminalTool, DevDone);
      var pc := if other.Some? then Done(other.value) else CrossPassed;
      After(cfg, ms) == Some(With(s, c, k.(pc := pc), s.dev, s.terminalTool))
  {
    var s := After(cfg, ls).value;
    Extend(cfg, ls, Arrive(c, DevDone, k.callId, k.raw));
    ms := ls + [Arrive(c, DevDone, k.callId, k.raw)];
    assert After(cfg, ms) == Some(With(s, c, k, s.dev, s.terminalTool));
    MoveOn(cfg, ms, s, c, k, s.dev, s.terminalTool, CrossStep(c));
    ms := ms + [CrossStep(c)];
  }

  /** The dev side of a call that has got the slot. */
  function Held(s: State, c: nat, k: Call): Side {
    s.dev.(slot := Reserve(FRESH, k.callId, k.raw).0, holder := Some(c), reserved := s.dev.reserved + 1)
  }

  /** The slot of the call as it is when it is about to be finalized with `r`. */
  function BeforeFinalize(callId: string, raw: Raw, r: Result): Slot {
    Settled(callId, raw, r).(pending := true, result := None)
  }

  /** The dev side when a call that got the slot is about to conclude with its answer. */
  function ConcludedSide(s: State, c: nat, k: Call, now: Option<string>): Side {
    var r := DevDoneAnswer(s.lastCheck, k.raw, now);
    var side := Held(s, c, k).(slot := BeforeFinalize(k.callId, k.raw, r));
    if r.Accepted? then side.(passedWith := now, marked := true) else side
  }

  function Concluded(s: State, c: nat, k: Call, now: Option<string>): State {
    var r := DevDoneAnswer(s.lastCheck, k.raw, now);
    With(s, c, k.(pc := Concluding(r)), ConcludedSide(s, c, k, now),
         if r.Accepted? then Some(DevDone) else s.terminalTool)
  }

  predicate GotSlot(s: State, k: Call) {
    k.tool == DevDone && s.dev.slot == FRESH && CrossCheck(s.terminalTool, DevDone).None?
  }

  /** A call that got the slot and is not accepted concludes where the step `move` leaves it. */
  predicate Fails(s: State, c: nat, k: Call, now: Option<string>, move: (Side, Pc)) {
    var r := DevDoneAnswer(s.lastCheck, k.raw, now);
    r.Error? && move == (ConcludedSide(s, c, k, now), Concluding(r))
  }

  lemma ValidateMove(cfg: Config, s: State, c: nat, k: Call, now: Option<string>)
    requires GotSlot(s, k) && k.pc.Reserved?
    ensures var move := Move(cfg, s.terminalTool, s.lastCheck, Held(s, c, k), c, k, ValidateStep(c));
      var (p, bad) := ValidateDev(k.raw);
      if bad.None? then p.Some? && move == (Held(s, c, k), Gating(p.value)) else Fails(s, c, k, now, move)
  {
  }

  /** A rejection by the gate leads to the conclusion of a call that fails. */
  lemma RejectionFails(s: State, c: nat, k: Call, now: Option<string>, message: string)
    requires GotSlot(s, k) && ValidateDev(k.raw).0.Some? && ValidateDev(k.raw).1.None?
    requires DevGateMessage(s.lastCheck, now) == Some(message)
    ensures var held := Held(s, c, k);
      Fails(s, c, k, now, (held.(slot := Reject(held.slot, message)), Concluding(Error(DevGate, message))))
  {
  }

  lemma ReadCheckMove(cfg: Config, s: State, c: nat, k: Call, now: Option<string>)
    requires GotSlot(s, k) && k.pc.Gating? && ValidateDev(k.raw) == (Some(k.pc.p), None)
    ensures var move := Move(cfg, s.terminalTool, s.lastCheck, Held(s, c, k), c, k, ReadCheckStep(c));
      if DevGateCheck(s.lastCheck).None? then
        s.lastCheck.Some? && move == (Held(s, c, k), Comparing(k.pc.p, s.lastCheck.value))
      else Fails(s, c, k, now, move)
  {
    var message := DevGateCheck(s.lastCheck);
    if message.Some? {
      RejectionFails(s, c, k, now, message.value);
    }
  }

  lemma ComparePasses(cfg: Config, s: State, c: nat, k: Call, now: Option<string>)
    requires GotSlot(s, k) && k.pc.Comparing? && DevGateCompare(k.pc.check, now).None?
    ensures Move(cfg, s.terminalTool, s.lastCheck, Held(s, c, k), c, k, CompareStep(c, now))
      == (Held(s, c, k).(passedWith := now), GatePassed(k.pc.p))
  {
  }

  lemma CompareFails(cfg: Config, s: State, c: nat, k: Call, now: Option<string>)
    requires GotSlot(s, k) && k.pc.Comparing? && ValidateDev(k.raw) == (Some(k.pc.p), None)
    requires DevGateCheck(s.lastCheck).None? && s.lastCheck == Some(k.pc.check)
    requires DevGateCompare(k.pc.check, now).Some?
    ensures Fails(s, c, k, now,
                  Move(cfg, s.terminalTool, s.lastCheck, Held(s, c, k), c, k, CompareStep(c, now)))
  {
    RejectionFails(s, c, k, now, DevGateCompare(k.pc.check, now).value);
  }

  /** Where a step of a call that got the slot leads: on, or to the conclusion of a call that fails. */
  function OnOrFailed(s: State, c: nat, k: Call, now: Option<string>, on: bool, side: Side, pc: Pc): State {
    if on then With(s, c, k.(pc := pc), side, s.terminalTool) else Concluded(s, c, k, now)
  }

  lemma HeldMoveOn(cfg: Config, ls: seq<Label>, s: State, c: nat, k: Call, now: Option<string>, l: Label,
                   on: bool, side: Side, pc: Pc)
    requires k.tool == DevDone && !l.Arrive? && !l.RecordCheck? && !l.MarkStep? && l.c == c && CallEnabled(k, l)
    requires After(cfg, ls) == Some(With(s, c, k, Held(s, c, k), s.terminalTool))
    requires var move := Move(cfg, s.terminalTool, s.lastCheck, Held(s, c, k), c, k, l);
      if on then move == (side, pc) else Fails(s, c, k, now, move)
    ensures After(cfg, ls + [l]) == Some(OnOrFailed(s, c, k, now, on, side, pc))
  {
    MoveOn(cfg, ls, s, c, k, Held(s, c, k), s.terminalTool, l);
  }

  lemma ValidateRun(cfg: Config, ls: seq<Label>, s: State, c: nat, k: Call, now: Option<string>)
    requires GotSlot(s, k) && k.pc.Reserved?
    requires After(cfg, ls) == Some(With(s, c, k, Held(s, c, k), s.terminalTool))
    ensures var (p, bad) := ValidateDev(k.raw);
      && (bad.None? ==> p.Some?)
      && After(cfg, ls + [ValidateStep(c)])
        == Some(OnOrFailed(s, c, k, now, bad.None?, Held(s, c, k), if bad.None? then Gating(p.value) else Arrived))
  {
    var (p, bad) := ValidateDev(k.raw);
    ValidateMove(cfg, s, c, k, now);
    HeldMoveOn(cfg, ls, s, c, k, now, ValidateStep(c), bad.None?, Held(s, c, k),
               if bad.None? then Gating(p.value) else Arrived);
  }

  lemma ReadCheckRun(cfg: Config, ls: seq<Label>, s: State, c: nat, k: Call, now: Option<string>)
    requires GotSlot(s, k) && k.pc.Gating? && ValidateDev(k.raw) == (Some(k.pc.p), None)
    requires After(cfg, ls) == Some(With(s, c, k, Held(s, c, k), s.terminalTool))
    ensures var on := DevGateCheck(s.lastCheck).None?;
      && (on ==> s.lastCheck.Some?)
      && After(cfg, ls + [ReadCheckStep(c)])
        == Some(OnOrFailed(s, c, k, now, on, Held(s, c, k),
                           if on then Comparing(k.pc.p, s.lastCheck.value) else Arrived))
  {
    var on := DevGateCheck(s.lastCheck).None?;
    ReadCheckMove(cfg, s, c, k, now);
    HeldMoveOn(cfg, ls, s, c, k, now, ReadCheckStep(c), on, Held(s, c, k),
               if on then Comparing(k.pc.p, s.lastCheck.value) else Arrived);
  }

  lemma CompareRun(cfg: Config, ls: seq<Label>, s: State, c: nat, k: Call, now: Option<string>)
    requires GotSlot(s, k) && k.pc.Comparing? && ValidateDev(k.raw) == (Some(k.pc.p), None)
    requires DevGateCheck(s.lastCheck).None? && s.lastCheck == Some(k.pc.check)
    requires After(cfg, ls) == Some(With(s, c, k, Held(s, c, k), s.terminalTool))
    ensures After(cfg, ls + [CompareStep(c, now)])
      == Some(OnOrFailed(s, c, k, now, DevGateCompare(k.pc.check, now).None?,
                         Held(s, c, k).(passedWith := now), GatePassed(k.pc.p)))
  {
    if DevGateCompare(k.pc.check, now).None? {
      ComparePasses(cfg, s, c, k, now);
    } else {
      CompareFails(cfg, s, c, k, now);
    }
    HeldMoveOn(cfg, ls, s, c, k, now, CompareStep(c, now), DevGateCompare(k.pc.check, now).None?,
               Held(s, c, k).(passedWith := now), GatePassed(k.pc.p));
  }

  lemma AcceptRun(cfg: Config, ls: seq<Label>, s: State, c: nat, k: Call, now: Option<string>)
    requires GotSlot(s, k) && k.pc.GatePassed? && ValidateDev(k.raw) == (Some(k.pc.p), None)
    requires DevGateMessage(s.lastCheck, now).None?
    requires After(cfg, ls) == Some(With(s, c, k, Held(s, c, k).(passedWith := now), s.terminalTool))
    ensures After(cfg, ls + [StoreStep(c)] + [MarkStep(c)]) == Some(Concluded(s, c, k, now))
  {
    var side, p := Held(s, c, k).(passedWith := now), k.pc.p;
    MoveOn(cfg, ls, s, c, k, side, s.terminalTool, StoreStep(c));
    var stored := side.(slot := side.slot.(value := Some(p)));
    MoveOn(cfg, ls + [StoreStep(c)], s, c, k.(pc := Stored(p)), stored, s.terminalTool, MarkStep(c));
  }

  lemma ComparedDevDoneRun(cfg: Config, ls: seq<Label>, s: State, c: nat, k: Call, now: Option<string>)
    returns (ms: seq<Label>)
    requires GotSlot(s, k) && k.pc.Comparing? && ValidateDev(k.raw) == (Some(k.pc.p), None)
    requires DevGateCheck(s.lastCheck).None? && s.lastCheck == Some(k.pc.check)
    requires After(cfg, ls) == Some(With(s, c, k, Held(s, c, k), s.terminalTool))
    ensures ls <= ms && After(cfg, ms) == Some(Concluded(s, c, k, now))
  {
    CompareRun(cfg, ls, s, c, k, now);
    ms := ls + [CompareStep(c, now)];
    if DevGateCompare(k.pc.check, now).None? {
      AcceptRun(cfg, ms, s, c, k.(pc := GatePassed(k.pc.p)), now);
      ms := ms + [StoreStep(c)] + [MarkStep(c)];
    }
  }

  lemma GatedDevDoneRun(cfg: Config, ls: seq<Label>, s: State, c: nat, k: Call, now: Option<string>)
    returns (ms: seq<Label>)
    requires GotSlot(s, k) && k.pc.Gating? && ValidateDev(k.raw) == (Some(k.pc.p), None)
    requires After(cfg, ls) == Some(With(s, c, k, Held(s, c, k), s.terminalTool))
    ensures ls <= ms && After(cfg, ms) == Some(Concluded(s, c, k, now))
  {
    ReadCheckRun(cfg, ls, s, c, k, now);
    ms := ls + [ReadCheckStep(c)];
    if DevGateCheck(s.lastCheck).None? {
      ms := ComparedDevDoneRun(cfg, ms, s, c, k.(pc := Comparing(k.pc.p, s.lastCheck.value)), now);
    }
  }

  lemma HeldDevDoneRun(cfg: Config, ls: seq<Label>, s: State, c: nat, k: Call, now: Option<string>)
    returns (ms: seq<Label>)
    requires GotSlot(s, k) && k.pc.Reserved?
    requires After(cfg, ls) == Some(With(s, c, k, Held(s, c, k), s.terminalTool))
    ensures ls <= ms && After(cfg, ms) == Some(Concluded(s, c, k, now))
  {
    ValidateRun(cfg, ls, s, c, k, now);
    ms := ls + [ValidateStep(c)];
    if ValidateDev(k.raw).1.None? {
      ms := GatedDevDoneRun(cfg, ms, s, c, k.(pc := Gating(ValidateDev(k.raw).0.value)), now);
    }
  }

  /** The last step of a call that got the slot. */
  lemma ConcludeRun(cfg: Config, ls: seq<Label>, s: State, c: nat, k: Call, now: Option<string>)
    requires GotSlot(s, k) && After(cfg, ls) == Some(Concluded(s, c, k, now))
    ensures After(cfg, ls + [ConcludeStep(c)]).Some?
    ensures RanAlone(s, After(cfg, ls + [ConcludeStep(c)]).value, c, k.callId, k.raw, now)
  {
    var t := Concluded(s, c, k, now);
    MoveOn(cfg, ls, s, c, t.calls[c], t.dev, t.terminalTool, ConcludeStep(c));
  }

  lemma ReservedDevDoneRun(cfg: Config, ls: seq<Label>, s: State, c: nat, k: Call, now: Option<string>)
    returns (ms: seq<Label>)
    requires GotSlot(s, k) && k.pc.Reserved?
    requires After(cfg, ls) == Some(With(s, c, k, Held(s, c, k), s.terminalTool))
    ensures ls <= ms && After(cfg, ms).Some? && RanAlone(s, After(cfg, ms).value, c, k.callId, k.raw, now)
  {
    ms := HeldDevDoneRun(cfg, ls, s, c, k, now);
    ConcludeRun(cfg, ms, s, c, k, now);
    ms := ms + [ConcludeStep(c)];
  }

  /** The reserve of a call that passed the cross-terminal check. */
  lemma ReserveRun(cfg: Config, ls: seq<Label>, s: State, c: nat, k: Call)
    requires After(cfg, ls) == Some(With(s, c, k, s.dev, s.terminalTool)) && k.tool == DevDone && k.pc.CrossPassed?
    ensures var (slot, r) := Reserve(s.dev.slot, k.callId, k.raw);
      After(cfg, ls + [ReserveStep(c)])
        == Some(if r.Some? then With(s, c, k.(pc := Done(r.value)), s.dev, s.terminalTool)
                else With(s, c, k.(pc := Reserved),
                          s.dev.(slot := slot, holder := Some(c), reserved := s.dev.reserved + 1), s.terminalTool))
  {
    MoveOn(cfg, ls, s, c, k, s.dev, s.terminalTool, ReserveStep(c));
  }

  lemma DevDoneRun(cfg: Config, ls: seq<Label>, c: nat, callId: string, raw: Raw, now: Option<string>)
    returns (ms: seq<Label>)
    requires After(cfg, ls).Some? && c !in After(cfg, ls).value.calls && callId != "" && Allows(cfg, DevDone)
    ensures ls <= ms && After(cfg, ms).Some?
    ensures RanAlone(After(cfg, ls).value, After(cfg, ms).value, c, callId, raw, now)
  {
    var s := After(cfg, ls).value;
    var k := Call(DevDone, callId, raw, Arrived);
    ms := ArriveRun(cfg, ls, c, k);
    if CrossCheck(s.terminalTool, DevDone).None? {
      ReserveRun(cfg, ms, s, c, k.(pc := CrossPassed));
      ms := ms + [ReserveStep(c)];
      if Reserve(s.dev.slot, callId, raw).1.None? {
        FreeSlotIsFresh(cfg, ls, callId, raw);
        ms := ReservedDevDoneRun(cfg, ms, s, c, k.(pc := Reserved), now);
      }
    }
  }
}
