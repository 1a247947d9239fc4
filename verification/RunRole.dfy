/** Running one agent role: what the transcript of a process says, the retries after a stall, and the
    fallback from model to model. */
module RunRole {
  import opened Options
  import opened ModelChain
  import Text
  import opened StallWatch

  // ----- the transcript ----------------------------------------------------------------------

  datatype StopReason = StopError | StopAborted | OtherStop(text: string)
  datatype Message = Message(assistant: bool, stopReason: StopReason, errorMessage: string)
  datatype PiEvent = Malformed | AutoRetryEnd(success: Option<bool>) | MessageEnd(message: Option<Message>) | OtherEvent

  datatype Reason = NoReason | RetryExhausted | ProviderLimit | Stopped(stop: StopReason) | ProviderError
  datatype TranscriptResult = TranscriptResult(semanticFailed: bool, fallbackEligible: bool, reason: Reason)

  /** Lower case, as far as it decides whether a text mentions a limit. */
  function ToLower(c: char): char {
    if 'A' <= c <= 'Z' then c + 32 as char else if c as int == 0x130 then 'i' else c
  }

  function LowerAll(s: string): string {
    seq(|s|, i requires 0 <= i < |s| => ToLower(s[i]))
  }

  predicate LimitAt(s: string, i: nat) {
    i + 5 <= |s| && LowerAll(s[i..i + 5]) == "limit"
  }

  predicate MentionsLimit(s: string) {
    exists i :: 0 <= i <= |s| && LimitAt(s, i)
  }

  /** The characters that the case folding of the source takes for `lower`, one of the letters of "limit". */
  predicate IsLetter(c: char, lower: char) {
    c == lower || (c as int + 32 == lower as int && 'A' <= c <= 'Z') || (lower == 'i' && c as int == 0x130)
  }

  predicate SpellsLimit(s: string, i: nat) {
    && i + 5 <= |s|
    && IsLetter(s[i], 'l') && IsLetter(s[i + 1], 'i') && IsLetter(s[i + 2], 'm')
    && IsLetter(s[i + 3], 'i') && IsLetter(s[i + 4], 't')
  }

  lemma LimitIsSpelled(s: string, i: nat)
    ensures LimitAt(s, i) <==> SpellsLimit(s, i)
  {
    if i + 5 <= |s| {
      var low := LowerAll(s[i..i + 5]);
      assert low == [low[0], low[1], low[2], low[3], low[4]];
    }
  }

  /** The word is recognized in whatever mixture of upper and lower case it is written, and nothing else is. */
  lemma MentionsLimitInAnyCase(s: string)
    ensures MentionsLimit(s) <==> exists i: nat :: SpellsLimit(s, i)
  {
    forall i: nat ensures LimitAt(s, i) <==> SpellsLimit(s, i) {
      LimitIsSpelled(s, i);
    }
  }

  predicate IsFailedRetry(e: PiEvent) {
    e.AutoRetryEnd? && e.success == Some(false)
  }

  /** The last assistant message that ended, if any. */
  function LastAssistant(events: seq<PiEvent>): Option<Message> {
    if events == [] then None
    else
      var e := events[|events| - 1];
      if e.MessageEnd? && e.message.Some? && e.message.value.assistant then e.message
      else LastAssistant(events[..|events| - 1])
  }

  /** What a transcript says: whether the last assistant message failed, and whether another model may be
      tried, because a retry inside the process gave up or the failure mentions a limit. */
  ghost predicate IsResultOf(events: seq<PiEvent>, result: TranscriptResult) {
    var last := LastAssistant(events);
    var gaveUp := exists i :: 0 <= i < |events| && events[i] == AutoRetryEnd(Some(false));
    && (result.semanticFailed <==> last.Some? && !last.value.stopReason.OtherStop?)
    && (result.fallbackEligible <==>
          gaveUp || (last.Some? && last.value.stopReason.StopError? && MentionsLimit(last.value.errorMessage)))
    && result.reason ==
         if gaveUp then RetryExhausted
         else if result.fallbackEligible then ProviderLimit
         else if result.semanticFailed then Stopped(last.value.stopReason)
         else NoReason
  }

  method ScanTranscript(events: seq<PiEvent>) returns (result: TranscriptResult)
    ensures IsResultOf(events, result)
  {
    result := TranscriptResult(false, false, NoReason);
    var lastStopReason, lastErrorMessage := OtherStop(""), "";
    for i := 0 to |events|
      invariant !result.semanticFailed
      invariant result.fallbackEligible <==> exists j :: 0 <= j < i && events[j] == AutoRetryEnd(Some(false))
      invariant result.reason == if result.fallbackEligible then RetryExhausted else NoReason
      invariant var last := LastAssistant(events[..i]);
        if last.Some? then lastStopReason == last.value.stopReason && lastErrorMessage == last.value.errorMessage
        else lastStopReason == OtherStop("")
    {
      assert events[..i + 1][..i] == events[..i];
      match events[i] {
        case AutoRetryEnd(_) => result := ApplyAutoRetryEnd(result, events[i]);
        case MessageEnd(m) =>
          if m.Some? && m.value.assistant {
            lastStopReason, lastErrorMessage := m.value.stopReason, m.value.errorMessage;
          }
        case _ =>
      }
    }
    assert events[..|events|] == events;
    result := ApplyLastAssistant(result, lastStopReason, lastErrorMessage);
  }

  function ApplyAutoRetryEnd(result: TranscriptResult, e: PiEvent): TranscriptResult {
    if !IsFailedRetry(e) then result
    else result.(fallbackEligible := true, reason := if result.reason.NoReason? then RetryExhausted else result.reason)
  }

  function ApplyLastAssistant(result: TranscriptResult, stop: StopReason, errorMessage: string): TranscriptResult {
    if stop.OtherStop? then result
    else if stop.StopError? && MentionsLimit(errorMessage) then
      TranscriptResult(true, true, if result.reason.NoReason? then ProviderLimit else result.reason)
    else result.(semanticFailed := true, reason := if result.reason.NoReason? then Stopped(stop) else result.reason)
  }

  // ----- one model, with stall retries -------------------------------------------------------

  datatype RunError = ErrTimeout | ErrStalled | ErrThinkingLoop | ErrOther

  /** How a process ended: by itself or by its terminal tool call, by the wall clock, by a failed wait or
      kill, or as stalled. */
  datatype ProcessEnd = Exited(code: int) | TimedOut | WaitFailed | StalledAs(reason: StallReason)

  datatype Process = Process(model: string, end: ProcessEnd)

  /** Whether the transcript files can be opened and the process started, and how it then ends. */
  datatype ProcessAnswers = ProcessAnswers(filesOk: bool, startOk: bool, end: ProcessEnd)

  /** The processes of one model attempt: only a hang is followed by another process. */
  predicate RetriesOnlyHangs(ps: seq<Process>, model: string) {
    && (forall i :: 0 <= i < |ps| ==> ps[i].model == model)
    && (forall i :: 0 <= i < |ps| - 1 ==> ps[i].end == StalledAs(Hang))
  }

  /** What the chain loop saw of one model. */
  datatype Attempt = Attempt(model: string, exitCode: int, error: Option<RunError>, events: seq<PiEvent>,
                             transcript: TranscriptResult, processes: seq<Process>)

  predicate FallsBack(a: Attempt) {
    a.error != Some(ErrTimeout) && a.transcript.fallbackEligible
  }

  predicate Succeeds(a: Attempt) {
    a.error.None? && a.exitCode == 0 && !a.transcript.semanticFailed && !a.transcript.fallbackEligible
  }

  datatype Outcome =
    | ConfigError
    | Finished(exitCode: int)
    | Failed(error: RunError)
    | ChainExhausted(models: seq<string>, reasons: seq<Reason>)

  /** Why each attempt was given up. */
  function Reasons(tried: seq<Attempt>): seq<Reason> {
    if tried == [] then []
    else
      var r := tried[|tried| - 1].transcript.reason;
      Reasons(tried[..|tried| - 1]) + [if r.NoReason? then ProviderError else r]
  }

  function ProcessCount(done: seq<Attempt>): nat {
    if done == [] then 0 else ProcessCount(done[..|done| - 1]) + |done[|done| - 1].processes|
  }

  /** The attempts follow the chain, one for each model, each with at most `m` processes of that model. */
  ghost predicate FollowsChain(tried: seq<Attempt>, chain: seq<string>, m: nat) {
    && |tried| <= |chain|
    && forall i :: 0 <= i < |tried| ==> InItsPlace(tried[i], chain[i], m)
  }

  ghost predicate InItsPlace(a: Attempt, model: string, m: nat) {
    && a.model == model && RetriesOnlyHangs(a.processes, model) && |a.processes| <= m
    && IsResultOf(a.events, a.transcript)
  }

  lemma OneMoreAttempt(tried: seq<Attempt>, a: Attempt, chain: seq<string>, m: nat)
    requires FollowsChain(tried, chain, m) && |tried| < |chain| && InItsPlace(a, chain[|tried|], m)
    ensures FollowsChain(tried + [a], chain, m)
  {
    var more := tried + [a];
    forall i | 0 <= i < |more| ensures InItsPlace(more[i], chain[i], m) {
      if i < |tried| {
        assert InItsPlace(tried[i], chain[i], m);
        assert more[i] == tried[i];
      } else {
        assert more[i] == a;
      }
    }
  }

  lemma OneMoreReason(tried: seq<Attempt>, a: Attempt)
    ensures Reasons(tried + [a]) == Reasons(tried)
      + [if a.transcript.reason.NoReason? then ProviderError else a.transcript.reason]
  {
    assert (tried + [a])[..|tried|] == tried;
  }

  class AgentRunner {
    const maxStallRetries: int

    function MaxProcesses(): nat {
      if maxStallRetries < 0 then 0 else maxStallRetries + 1
    }

    method RunModelAttempt(model: string, runs: nat -> ProcessAnswers)
      returns (exitCode: int, error: Option<RunError>, ghost processes: seq<Process>)
      ensures RetriesOnlyHangs(processes, model) && |processes| <= MaxProcesses()
      ensures error == Some(ErrThinkingLoop)
        <==> processes != [] && processes[|processes| - 1].end == StalledAs(ThinkingLoop)
      ensures error == Some(ErrTimeout) <==> processes != [] && processes[|processes| - 1].end == TimedOut
      ensures error == Some(ErrStalled) ==>
        |processes| == MaxProcesses() && forall i :: 0 <= i < |processes| ==> processes[i].end == StalledAs(Hang)
      ensures error.None? ==> processes != [] && processes[|processes| - 1].end == Exited(exitCode)
      ensures forall i :: 0 <= i < |processes| ==>
        runs(i).filesOk && runs(i).startOk && processes[i] == Process(model, runs(i).end)
      ensures error == Some(ErrOther) <==>
        || (processes != [] && processes[|processes| - 1].end == WaitFailed)
        || (|processes| < MaxProcesses() && !(runs(|processes|).filesOk && runs(|processes|).startOk)
              && forall i :: 0 <= i < |processes| ==> processes[i].end == StalledAs(Hang))
      ensures error.Some? ==> exitCode == 0
    {
      processes := [];
      var attempt := 0;
      while attempt <= maxStallRetries
        invariant attempt >= 0 && |processes| == attempt <= MaxProcesses()
        invariant forall i :: 0 <= i < |processes| ==> processes[i] == Process(model, StalledAs(Hang))
        invariant forall i :: 0 <= i < |processes| ==> runs(i) == ProcessAnswers(true, true, StalledAs(Hang))
        decreases maxStallRetries + 1 - attempt
      {
        var run := runs(attempt);
        if !run.filesOk { return 0, Some(ErrOther), processes; }
        if !run.startOk { return 0, Some(ErrOther), processes; }
        processes := processes + [Process(model, run.end)];
        match run.end {
          case Exited(code) => return code, None, processes;
          case TimedOut => return 0, Some(ErrTimeout), processes;
          case WaitFailed => return 0, Some(ErrOther), processes;
          case StalledAs(reason) =>
            if reason.ThinkingLoop? { return 0, Some(ErrThinkingLoop), processes; }
        }
        attempt := attempt + 1;
      }
      return 0, Some(ErrStalled), processes;
    }

    /** The models are tried in the order of the chain, each at most once, and a later one only when every
        earlier one failed in a way that is eligible for fallback and did not run out of wall-clock time.
        The chain is exhausted exactly when that is so for all of them, and the error names them all. */
    method RunRole(modelList: string) returns (out: Outcome, ghost tried: seq<Attempt>)
      ensures out.ConfigError? <==> Chain(modelList) == []
      ensures out.ConfigError? <==> tried == []
      ensures FollowsChain(tried, Chain(modelList), MaxProcesses())
      ensures forall i :: 0 <= i < |tried| - 1 ==> FallsBack(tried[i])
      ensures out.ChainExhausted? <==> tried != [] && |tried| == |Chain(modelList)| && FallsBack(tried[|tried| - 1])
      ensures out.ChainExhausted? ==> out.models == Chain(modelList) && out.reasons == Reasons(tried)
      ensures out.Failed? ==> tried[|tried| - 1].error == Some(out.error) && !FallsBack(tried[|tried| - 1])
      ensures out.Finished? ==>
        var last := tried[|tried| - 1];
        && last.error.None? && !FallsBack(last)
        && out.exitCode == if last.transcript.semanticFailed then 1 else last.exitCode
      ensures tried != [] && Succeeds(tried[|tried| - 1]) <==> out == Finished(0)
    {
      tried := [];
      var parsed := ParseModelChain(modelList);
      if parsed.None? { return ConfigError, []; }
      var chain := parsed.value;
      var models: seq<string>, reasons: seq<Reason> := [], [];
      for k := 0 to |chain|
        invariant |tried| == k && models == chain[..k] && reasons == Reasons(tried)
        invariant FollowsChain(tried, chain, MaxProcesses()) && forall i :: 0 <= i < k ==> FallsBack(tried[i])
      {
        var model := chain[k];
        var exitCode, error;
        ghost var processes: seq<Process>;
        var runs: nat -> ProcessAnswers, events: seq<PiEvent> := *, *;
        exitCode, error, processes := RunModelAttempt(model, runs);
        var tr := ScanTranscript(events);
        ghost var a := Attempt(model, exitCode, error, events, tr, processes);
        OneMoreAttempt(tried, a, chain, MaxProcesses());
        OneMoreReason(tried, a);
        tried := tried + [a];
        if error == Some(ErrTimeout) { return Failed(ErrTimeout), tried; }
        if error.None? && exitCode == 0 && !tr.semanticFailed && !tr.fallbackEligible {
          return Finished(exitCode), tried;
        }
        if tr.fallbackEligible {
          reasons := reasons + [if tr.reason.NoReason? then ProviderError else tr.reason];
          models := models + [model];
          continue;
        }
        if error.Some? { return Failed(error.value), tried; }
        if tr.semanticFailed { return Finished(1), tried; }
        return Finished(exitCode), tried;
      }
      out := ChainExhausted(models, reasons);
    }
  }

  lemma TimesOneMore(k: nat, m: nat)
    ensures (k + 1) * m == k * m + m
  {
  }

  /** At most (number of models) x (stall retries + 1) processes. */
  lemma {:induction false} TotalProcesses(tried: seq<Attempt>, chain: seq<string>, m: nat)
    requires FollowsChain(tried, chain, m)
    ensures ProcessCount(tried) <= |tried| * m
  {
    if tried != [] {
      var before := tried[..|tried| - 1];
      assert InItsPlace(tried[|before|], chain[|before|], m);
      TotalProcesses(before, chain, m);
      TimesOneMore(|before|, m);
    }
  }

  /** The models are different, so no model that thought in a loop runs again. */
  lemma ThinkingLoopIsNeverRetried(modelList: string, tried: seq<Attempt>, m: nat, i: nat, p: nat)
    requires FollowsChain(tried, Chain(modelList), m) && i < |tried| && p < |tried[i].processes|
    requires tried[i].processes[p].end == StalledAs(ThinkingLoop)
    ensures p == |tried[i].processes| - 1
    ensures forall k, q :: i < k < |tried| && 0 <= q < |tried[k].processes| ==>
      tried[k].processes[q].model != tried[i].processes[p].model
  {
    ChainMembers(TrimAll(Text.Split(modelList, ',')));
    assert forall k :: 0 <= k < |tried| ==> InItsPlace(tried[k], Chain(modelList)[k], m);
  }
}
