/** Stall detection: the poll ticks of one agent process. A process has stalled when no tool is in flight
    and the last completed tool is too long ago; it thinks in a loop if the activity file has grown since. */
module StallWatch {
  import opened Options
  import opened Text
  import opened LineFilter
  import opened ToolProgress

  datatype StallReason = Hang | ThinkingLoop

  function ClassifyStall(currentOffset: nat, lastStreamOffset: nat): StallReason {
    if currentOffset > lastStreamOffset then ThinkingLoop else Hang
  }

  ghost predicate Within(ns: seq<nat>, f: string) {
    forall i :: 0 <= i < |ns| ==> ns[i] <= |f|
  }

  /** What is known after each tick, when the ticks read `f[..ns[0]]`, `f[..ns[1]]`, … */
  ghost function Readings(c: Codec, f: string, ns: seq<nat>): (rs: seq<Progress>)
    requires Within(ns, f)
    ensures |rs| == |ns|
  {
    seq(|ns|, k requires 0 <= k < |ns| => Polled(c, f, ns[..k + 1]))
  }

  /** Before the first tick nothing is known. */
  function At(rs: seq<Progress>, k: int): Progress
    requires k < |rs|
  {
    if k < 0 then Progress(0, Tally(0, 0)) else rs[k]
  }

  /** Each tick reads on from the one before. */
  ghost predicate ReadOn(rs: seq<Progress>, c: Codec, f: string, ns: seq<nat>) {
    |rs| == |ns| && Within(ns, f) && forall k :: 0 <= k < |ns| ==> ReadsOnAt(rs, c, f, ns, k)
  }

  predicate ReadsOnAt(rs: seq<Progress>, c: Codec, f: string, ns: seq<nat>, k: nat)
    requires k < |rs| == |ns| && ns[k] <= |f|
  {
    At(rs, k) == Poll(c, f[..ns[k]], At(rs, k - 1))
  }

  lemma ReadingsReadOn(c: Codec, f: string, ns: seq<nat>)
    requires Within(ns, f)
    ensures ReadOn(Readings(c, f, ns), c, f, ns)
  {
    var rs := Readings(c, f, ns);
    forall k | 0 <= k < |ns| ensures ReadsOnAt(rs, c, f, ns, k) {
      var upTo := ns[..k + 1];
      assert upTo[..k] == ns[..k] && upTo[k] == ns[k];
      assert Polled(c, f, upTo) == Poll(c, f[..ns[k]], Polled(c, f, ns[..k]));
    }
  }

  /** The last tick up to `k` that saw a completion, -1 if there was none. */
  function LastCompletion(rs: seq<Progress>, k: int): (j: int)
    requires k < |rs|
    ensures -1 <= j && (j == -1 || j <= k)
    decreases k + 1
  {
    if k < 0 then -1
    else if At(rs, k).tally.completed > At(rs, k - 1).tally.completed then k
    else LastCompletion(rs, k - 1)
  }

  function TimeOf(times: seq<int>, start: int, j: int): int
    requires j < |times|
  {
    if j < 0 then start else times[j]
  }

  predicate StallsAt(rs: seq<Progress>, times: seq<int>, start: int, idleTimeout: int, k: nat)
    requires k < |rs| == |times|
  {
    && At(rs, k).tally.inFlight == 0
    && times[k] - TimeOf(times, start, LastCompletion(rs, k)) >= idleTimeout
  }

  /** One poll tick: a completion moves the two marks, and without a tool in flight it is asked how long
      ago the last completion was. */
  method HandlePollTick(state: ToolProgressState, c: Codec, file: string, now: int,
                        lastProgress: int, lastStreamOffset: nat, idleTimeout: int)
    returns (reason: Option<StallReason>, progress: int, streamOffset: nat)
    modifies state
    ensures state.Total() == Poll(c, file, old(state.Total()))
    ensures var completed := state.Total().tally.completed > old(state.Total()).tally.completed;
      && progress == (if completed then now else lastProgress)
      && streamOffset == (if completed then state.Total().offset else lastStreamOffset)
    ensures reason.Some? <==> state.Total().tally.inFlight == 0 && now - progress >= idleTimeout
    ensures reason.Some? ==> (reason.value.ThinkingLoop? <==> state.Total().offset > streamOffset)
  {
    progress, streamOffset := lastProgress, lastStreamOffset;
    var newlyCompleted, busy := state.ReadToolProgress(c, Some(file));
    if newlyCompleted > 0 {
      progress := now;
      streamOffset := state.offset;
    }
    if !busy && now - progress >= idleTimeout {
      return Some(ClassifyStall(state.offset, streamOffset)), progress, streamOffset;
    }
    reason := None;
  }

  /** The two marks stand where the last completion was seen. */
  predicate Marks(rs: seq<Progress>, times: seq<int>, start: int, k: int, progress: int, streamOffset: nat)
    requires k < |rs| == |times|
  {
    progress == TimeOf(times, start, LastCompletion(rs, k)) && streamOffset == At(rs, LastCompletion(rs, k)).offset
  }

  lemma MarksMove(rs: seq<Progress>, times: seq<int>, start: int, k: nat,
      progress: int, streamOffset: nat, nextProgress: int, nextOffset: nat)
    requires k < |rs| == |times| && Marks(rs, times, start, k - 1, progress, streamOffset)
    requires var completed := At(rs, k).tally.completed > At(rs, k - 1).tally.completed;
      && nextProgress == (if completed then times[k] else progress)
      && nextOffset == (if completed then At(rs, k).offset else streamOffset)
    ensures Marks(rs, times, start, k, nextProgress, nextOffset)
  {
  }

  /** The first tick at which the process has stalled, and why; `rs` is what each tick has read
      (`ReadingsReadOn`). */
  method Watch(c: Codec, f: string, ns: seq<nat>, times: seq<int>, start: int, idleTimeout: int,
      ghost rs: seq<Progress>)
    returns (stall: Option<(nat, StallReason)>)
    requires |ns| == |times| && ReadOn(rs, c, f, ns)
    ensures stall.None? ==> forall k :: 0 <= k < |ns| ==> !StallsAt(rs, times, start, idleTimeout, k)
    ensures stall.Some? ==>
      && stall.value.0 < |ns| && StallsAt(rs, times, start, idleTimeout, stall.value.0)
      && (forall k :: 0 <= k < stall.value.0 ==> !StallsAt(rs, times, start, idleTimeout, k))
      && var grown := At(rs, stall.value.0).offset > At(rs, LastCompletion(rs, stall.value.0)).offset;
        stall.value.1.ThinkingLoop? <==> grown
  {
    var state := new ToolProgressState();
    var lastProgress, lastStreamOffset := start, 0;
    for k := 0 to |ns|
      invariant fresh(state)
      invariant state.Total() == At(rs, k - 1)
      invariant Marks(rs, times, start, k - 1, lastProgress, lastStreamOffset)
      invariant forall i :: 0 <= i < k ==> !StallsAt(rs, times, start, idleTimeout, i)
    {
      assert ReadsOnAt(rs, c, f, ns, k);
      ghost var was, wasOffset := lastProgress, lastStreamOffset;
      var reason;
      reason, lastProgress, lastStreamOffset :=
        HandlePollTick(state, c, f[..ns[k]], times[k], lastProgress, lastStreamOffset, idleTimeout);
      MarksMove(rs, times, start, k, was, wasOffset, lastProgress, lastStreamOffset);
      if reason.Some? { return Some((k, reason.value)); }
    }
    stall := None;
  }

  /** A tool in flight suppresses the stall, however long it takes. */
  lemma InFlightNeverStalls(c: Codec, f: string, ns: seq<nat>, times: seq<int>, start: int, idleTimeout: int, k: nat)
    requires |ns| == |times| && k < |ns| && Schedule(f, ns, ns[|ns| - 1])
    requires NoToolLineLost(c, Lines(f[..ns[k]])) && Scan(c, f[..ns[k]]).tally.inFlight > 0
    ensures !StallsAt(Readings(c, f, ns), times, start, idleTimeout, k)
  {
    SchedulesAgree(c, f, ns[..k + 1], ns[k]);
  }
}
