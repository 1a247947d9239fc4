/** The claim lock on a GitHub issue: many bots, one login each, coordinate through the labels and
    assignees of the issue only.

    A `gh issue edit` changes several things; here each of them is a step of its own, in any order,
    with other bots in between, and an edit may fail after any of them. */
module Claim {
  import opened Options

  datatype Issue = Issue(ready: bool, inProgress: bool, needsHuman: bool, assignees: set<nat>)

  predicate IsSoleAssignee(v: Issue, login: nat) { v.assignees == {login} }

  predicate IsClaimedBy(v: Issue, login: nat) { v.inProgress && !v.ready && IsSoleAssignee(v, login) }

  datatype Op = AddReady | RemoveReady | AddInProgress | RemoveInProgress | AddNeedsHuman | AssignMe | UnassignMe

  function Effect(v: Issue, login: nat, op: Op): Issue {
    match op
    case AddReady => v.(ready := true)
    case RemoveReady => v.(ready := false)
    case AddInProgress => v.(inProgress := true)
    case RemoveInProgress => v.(inProgress := false)
    case AddNeedsHuman => v.(needsHuman := true)
    case AssignMe => v.(assignees := v.assignees + {login})
    case UnassignMe => v.(assignees := v.assignees - {login})
  }

  datatype Reason = Completed | Failed | Abandoned

  const CLAIM_EDIT: set<Op> := {RemoveReady, AddInProgress, AssignMe}
  const ROLLBACK_EDIT: set<Op> := {AddReady, RemoveInProgress, UnassignMe}

  function ReleaseEdit(reason: Reason): set<Op> {
    {RemoveInProgress, UnassignMe} +
    match reason
    case Completed => {}
    case Failed => {AddNeedsHuman}
    case Abandoned => {AddReady}
  }

  datatype Outcome =
    | ClaimOk | ClaimIdempotent | RaceLost | NotTakeable | ClaimError
    | ReleaseOk | ReleaseIdempotent | ForeignClaim | ReleaseError

  /** Where a bot stands: outside a call, before a read, or inside an edit with `rem` still to do. */
  datatype Pc =
    | Idle
    | Claiming | Editing(rem: set<Op>) | Verifying | RollingBack(rem: set<Op>)
    | Releasing(reason: Reason) | ReleaseEditing(rem: set<Op>)

  /** `holds`: the bot was told that it owns the issue, and has not been released since. */
  datatype Bot = Bot(pc: Pc, holds: bool, last: Option<Outcome>)

  datatype State = State(issue: Issue, bots: map<nat, Bot>)

  function BotOf(s: State, b: nat): Bot { if b in s.bots then s.bots[b] else Bot(Idle, false, None) }

  datatype Label =
    | StartClaim(b: nat) | StartRelease(b: nat, reason: Reason)
    | Read(b: nat) | ReadFails(b: nat)
    | Do(b: nat, op: Op) | EditFails(b: nat) | EditDone(b: nat)

  predicate InEdit(pc: Pc) { pc.Editing? || pc.RollingBack? || pc.ReleaseEditing? }

  predicate Enabled(s: State, l: Label) {
    var pc := BotOf(s, l.b).pc;
    match l
    case StartClaim(_) => pc.Idle?
    case StartRelease(_, _) => pc.Idle?
    case Read(_) => pc.Claiming? || pc.Verifying? || pc.Releasing?
    case ReadFails(_) => pc.Claiming? || pc.Verifying? || pc.Releasing?
    case Do(_, op) => InEdit(pc) && op in pc.rem
    case EditFails(_) => InEdit(pc)
    case EditDone(_) => InEdit(pc) && pc.rem == {}
  }

  function Without(pc: Pc, op: Op): Pc
    requires InEdit(pc)
  {
    match pc
    case Editing(rem) => Editing(rem - {op})
    case RollingBack(rem) => RollingBack(rem - {op})
    case ReleaseEditing(rem) => ReleaseEditing(rem - {op})
  }

  /** What a bot makes of the issue as it reads it: the decision follows from this view alone. */
  function OnRead(k: Bot, v: Issue, b: nat): Bot
    requires k.pc.Claiming? || k.pc.Verifying? || k.pc.Releasing?
  {
    match k.pc
    case Claiming =>
      if IsClaimedBy(v, b) then Bot(Idle, true, Some(ClaimIdempotent))
      else if !v.ready then k.(pc := Idle, last := Some(NotTakeable))
      else k.(pc := Editing(CLAIM_EDIT))
    case Verifying =>
      if IsClaimedBy(v, b) then Bot(Idle, true, Some(ClaimOk)) else k.(pc := RollingBack(ROLLBACK_EDIT))
    case Releasing(reason) =>
      if !v.inProgress then Bot(Idle, false, Some(ReleaseIdempotent))
      else if b !in v.assignees then k.(pc := Idle, last := Some(ForeignClaim))
      else k.(pc := ReleaseEditing(ReleaseEdit(reason)))
  }

  function Apply(s: State, l: Label): State
    requires Enabled(s, l)
  {
    var b, k := l.b, BotOf(s, l.b);
    match l
    case StartClaim(_) => s.(bots := s.bots[b := k.(pc := Claiming)])
    case StartRelease(_, reason) => s.(bots := s.bots[b := k.(pc := Releasing(reason))])
    case Read(_) => s.(bots := s.bots[b := OnRead(k, s.issue, b)])
    case ReadFails(_) =>
      s.(bots := s.bots[b := k.(pc := Idle, last := Some(if k.pc.Releasing? then ReleaseError else ClaimError))])
    case Do(_, op) =>
      State(Effect(s.issue, b, op),
            s.bots[b := k.(pc := Without(k.pc, op), holds := k.holds && op != UnassignMe)])
    case EditFails(_) =>
      var r := match k.pc case Editing(_) => ClaimError case RollingBack(_) => RaceLost case _ => ReleaseError;
      s.(bots := s.bots[b := k.(pc := Idle, last := Some(r))])
    case EditDone(_) =>
      s.(bots := s.bots[b :=
        match k.pc
        case Editing(_) => k.(pc := Verifying)
        case RollingBack(_) => k.(pc := Idle, last := Some(RaceLost))
        case _ => Bot(Idle, false, Some(ReleaseOk))])
  }

  /** Nobody has ever touched the issue; whatever its labels and (human) assignees are. */
  predicate Initial(s: State) { s.bots == map[] }

  /** Where the steps `ls` lead from `s`, if each is enabled in its turn. */
  function From(s: State, ls: seq<Label>): Option<State> {
    if ls == [] then Some(s)
    else
      var p := From(s, ls[..|ls| - 1]);
      if p.Some? && Enabled(p.value, ls[|ls| - 1]) then Some(Apply(p.value, ls[|ls| - 1])) else None
  }

  // ----- the invariant: it lives in the assignees, not in the labels -------------------------

  predicate Parts(pc: Pc) {
    match pc
    case Editing(rem) => rem <= CLAIM_EDIT
    case RollingBack(rem) => rem <= ROLLBACK_EDIT
    case ReleaseEditing(rem) => rem <= {RemoveInProgress, UnassignMe, AddNeedsHuman, AddReady}
    case _ => true
  }

  /** From its assign until its unassign a bot is assigned; a holder is assigned. */
  ghost predicate BotOk(v: Issue, b: nat, k: Bot) {
    && Parts(k.pc)
    && (k.holds ==> b in v.assignees)
    && (k.pc.Editing? && AssignMe !in k.pc.rem ==> b in v.assignees)
    && (k.pc.Verifying? ==> b in v.assignees)
    && ((k.pc.RollingBack? || k.pc.ReleaseEditing?) && UnassignMe in k.pc.rem ==> b in v.assignees)
    && ((k.pc.RollingBack? || k.pc.ReleaseEditing?) && UnassignMe !in k.pc.rem ==> b !in v.assignees)
  }

  ghost predicate Inv(s: State) {
    && (forall b :: b in s.bots ==> BotOk(s.issue, b, s.bots[b]))
    && (forall a, b :: a in s.bots && b in s.bots && s.bots[a].holds && s.bots[b].holds ==> a == b)
  }

  lemma ReadKeepsInv(s: State, l: Label)
    requires Inv(s) && Enabled(s, l) && l.Read?
    ensures Inv(Apply(s, l))
  {
  }

  lemma DoKeepsInv(s: State, l: Label)
    requires Inv(s) && Enabled(s, l) && l.Do?
    ensures Inv(Apply(s, l))
  {
  }

  lemma StepKeepsInv(s: State, l: Label)
    requires Inv(s) && Enabled(s, l)
    ensures Inv(Apply(s, l))
  {
    match l
    case Read(_) => ReadKeepsInv(s, l);
    case Do(_, _) => DoKeepsInv(s, l);
    case _ =>
  }

  lemma {:induction false} RunKeepsInv(s: State, ls: seq<Label>)
    requires Inv(s) && From(s, ls).Some?
    ensures Inv(From(s, ls).value)
  {
    if ls != [] {
      RunKeepsInv(s, ls[..|ls| - 1]);
      StepKeepsInv(From(s, ls[..|ls| - 1]).value, ls[|ls| - 1]);
    }
  }

  /** In every interleaving at most one bot holds the issue, and a holder is assigned to it. */
  lemma MutualExclusion(s: State, ls: seq<Label>, a: nat, b: nat)
    requires Initial(s) && From(s, ls).Some?
    ensures var t := From(s, ls).value;
      && (BotOf(t, a).holds && BotOf(t, b).holds ==> a == b)
      && (BotOf(t, a).holds ==> a in t.issue.assignees)
  {
    RunKeepsInv(s, ls);
  }

  ghost predicate NoStepOf(ls: seq<Label>, h: nat) { forall i :: 0 <= i < |ls| ==> ls[i].b != h }

  /** While an assigned bot does nothing, the others cannot unassign it, take its hold away, or come
      to hold the issue themselves - whether it holds the issue or was released without an edit. */
  lemma {:induction false} AssignedBotKeepsOthersOut(s: State, ls: seq<Label>, h: nat, b: nat)
    requires Inv(s) && From(s, ls).Some? && NoStepOf(ls, h) && h in s.issue.assignees
    ensures var t := From(s, ls).value;
      && h in t.issue.assignees && BotOf(t, h) == BotOf(s, h)
      && (b != h && BotOf(t, b).holds ==> BotOf(s, b).holds)
  {
    if ls != [] {
      AssignedBotKeepsOthersOut(s, ls[..|ls| - 1], h, b);
      var l := ls[|ls| - 1];
      assert l.b != h;
    }
  }

  // ----- what the labels say about the holder ------------------------------------------------

  predicate LabelledHeld(v: Issue) { v.inProgress && !v.ready }

  /** Nobody but `h` is assigned, and nobody else has a label edit under way. */
  predicate HarmlessPc(pc: Pc) {
    match pc
    case Editing(_) => false
    case Verifying => false
    case RollingBack(rem) => rem == {}
    case ReleaseEditing(rem) => rem <= {AddNeedsHuman}
    case _ => true
  }

  predicate Quiet(s: State, h: nat) {
    && LabelledHeld(s.issue) && s.issue.assignees == {h}
    && forall c :: c in s.bots && c != h ==> HarmlessPc(s.bots[c].pc)
  }

  /** Whatever the others do while `h` does nothing, the labels keep saying that the issue is held. */
  ghost predicate LabelsWitnessHold(s: State, h: nat) {
    forall ls :: From(s, ls).Some? && NoStepOf(ls, h) ==> LabelledHeld(From(s, ls).value.issue)
  }

  lemma {:induction false} QuietStaysQuiet(s: State, ls: seq<Label>, h: nat)
    requires Quiet(s, h) && From(s, ls).Some? && NoStepOf(ls, h)
    ensures Quiet(From(s, ls).value, h)
  {
    if ls != [] {
      QuietStaysQuiet(s, ls[..|ls| - 1], h);
      assert ls[|ls| - 1].b != h;
    }
  }

  lemma {:induction false} FromConcat(s: State, ls: seq<Label>, ms: seq<Label>)
    requires From(s, ls).Some?
    ensures From(s, ls + ms) == From(From(s, ls).value, ms)
  {
    if ms == [] {
      assert ls + ms == ls;
    } else {
      var m := ms[..|ms| - 1];
      FromConcat(s, ls, m);
      assert (ls + ms)[..|ls + ms| - 1] == ls + m;
    }
  }

  lemma Then(s: State, l: Label)
    requires Enabled(s, l)
    ensures From(s, [l]) == Some(Apply(s, l))
  {
    assert [l][..0] == [];
    assert From(s, []) == Some(s);
  }

  /** A bot can always be back to idle without having touched the issue any further. */
  lemma BackToIdle(s: State, c: nat) returns (ls: seq<Label>)
    ensures From(s, ls).Some? && (forall i :: 0 <= i < |ls| ==> ls[i].b == c)
    ensures var t := From(s, ls).value; t.issue == s.issue && BotOf(t, c).pc.Idle?
  {
    var pc := BotOf(s, c).pc;
    if pc.Idle? {
      ls := [];
    } else {
      var l := if InEdit(pc) then EditFails(c) else ReadFails(c);
      Then(s, l);
      ls := [l];
    }
  }

  /** An assigned bot other than the holder can strip the label by a release. */
  lemma AssignedCanStrip(s: State, c: nat) returns (ls: seq<Label>)
    requires s.issue.inProgress && c in s.issue.assignees
    ensures From(s, ls).Some? && (forall i :: 0 <= i < |ls| ==> ls[i].b == c)
    ensures !LabelledHeld(From(s, ls).value.issue)
  {
    ls := BackToIdle(s, c);
    var s1 := From(s, ls).value;
    var s2 := Apply(s1, StartRelease(c, Completed));
    var s3 := Apply(s2, Read(c));
    Then(s1, StartRelease(c, Completed));
    FromConcat(s, ls, [StartRelease(c, Completed)]);
    ls := ls + [StartRelease(c, Completed)];
    Then(s2, Read(c));
    FromConcat(s, ls, [Read(c)]);
    ls := ls + [Read(c)];
    Then(s3, Do(c, RemoveInProgress));
    FromConcat(s, ls, [Do(c, RemoveInProgress)]);
    ls := ls + [Do(c, RemoveInProgress)];
  }

  /** A bot with a label edit under way can make the labels wrong. */
  lemma EditorCanStrip(s: State, c: nat) returns (ls: seq<Label>)
    requires Inv(s) && c in s.bots && !HarmlessPc(s.bots[c].pc) && LabelledHeld(s.issue)
    ensures From(s, ls).Some? && (forall i :: 0 <= i < |ls| ==> ls[i].b == c)
    ensures !LabelledHeld(From(s, ls).value.issue)
  {
    var pc := s.bots[c].pc;
    if c in s.issue.assignees {
      ls := AssignedCanStrip(s, c);
    } else if pc.Editing? {
      var l := Do(c, AssignMe);
      Then(s, l);
      var ms := AssignedCanStrip(Apply(s, l), c);
      FromConcat(s, [l], ms);
      ls := [l] + ms;
    } else {
      var op := if RemoveInProgress in pc.rem then RemoveInProgress else AddReady;
      assert op in pc.rem by { LabelOpLeft(pc); }
      Then(s, Do(c, op));
      ls := [Do(c, op)];
    }
  }

  lemma LabelOpLeft(pc: Pc)
    requires Parts(pc) && !HarmlessPc(pc) && (pc.RollingBack? || pc.ReleaseEditing?) && UnassignMe !in pc.rem
    ensures RemoveInProgress in pc.rem || AddReady in pc.rem
  {
    var op :| op in pc.rem && (pc.ReleaseEditing? ==> op != AddNeedsHuman);
  }

  /** The labels witness a hold exactly if, when it is taken, nobody else is assigned and nobody else
      has a label edit under way. In particular a bot that lost the race strips the holder's label. */
  lemma LabelsWitnessHoldIffQuiet(s: State, h: nat)
    requires Inv(s) && BotOf(s, h).holds
    ensures LabelsWitnessHold(s, h) <==> Quiet(s, h)
  {
    if Quiet(s, h) {
      forall ls | From(s, ls).Some? && NoStepOf(ls, h)
        ensures LabelledHeld(From(s, ls).value.issue)
      {
        QuietStaysQuiet(s, ls, h);
      }
    } else {
      var ls := [];
      assert From(s, []) == Some(s);
      if LabelledHeld(s.issue) {
        if c :| c in s.issue.assignees && c != h {
          ls := AssignedCanStrip(s, c);
        } else {
          var c :| c in s.bots && c != h && !HarmlessPc(s.bots[c].pc);
          ls := EditorCanStrip(s, c);
        }
      }
      assert NoStepOf(ls, h) && !LabelledHeld(From(s, ls).value.issue);
    }
  }

  lemma Extend(s: State, ls: seq<Label>, l: Label)
    requires From(s, ls).Some? && Enabled(From(s, ls).value, l)
    ensures From(s, ls + [l]) == Some(Apply(From(s, ls).value, l))
  {
    assert (ls + [l])[..|ls|] == ls;
  }

  /** `t` is `s` but for the issue `v` and the bot `b` at `k`. */
  predicate Leads(s: State, t: State, v: Issue, b: nat, k: Bot) {
    t == State(v, s.bots[b := k])
  }

  /** A bot that has never acted reads the issue as ready and is about to edit it. */
  lemma ReadsReady(s: State, b: nat) returns (ls: seq<Label>)
    requires b !in s.bots && s.issue.ready
    ensures From(s, ls).Some? && (forall l :: l in ls ==> l.b == b)
    ensures Leads(s, From(s, ls).value, s.issue, b, Bot(Editing(CLAIM_EDIT), false, None))
  {
    Then(s, StartClaim(b));
    Extend(s, [StartClaim(b)], Read(b));
    ls := [StartClaim(b)] + [Read(b)];
  }

  /** The claim edit of one bot, uninterrupted, up to the read that verifies it. */
  lemma ClaimEditRun(s: State, b: nat) returns (ls: seq<Label>)
    requires b in s.bots && s.bots[b] == Bot(Editing(CLAIM_EDIT), false, None)
    ensures From(s, ls).Some? && (forall l :: l in ls ==> l.b == b)
    ensures var v := s.issue.(ready := false, inProgress := true, assignees := s.issue.assignees + {b});
      Leads(s, From(s, ls).value, v, b, Bot(Verifying, false, None))
  {
    Then(s, Do(b, RemoveReady));
    ls := [Do(b, RemoveReady)];
    Extend(s, ls, Do(b, AddInProgress));
    ls := ls + [Do(b, AddInProgress)];
    Extend(s, ls, Do(b, AssignMe));
    ls := ls + [Do(b, AssignMe)];
    assert CLAIM_EDIT - {RemoveReady} - {AddInProgress} - {AssignMe} == {};
    Extend(s, ls, EditDone(b));
    ls := ls + [EditDone(b)];
  }

  /** The race as it comes about: both bots read the issue as ready, `h` edits it, verifies and holds, in
      `won`; then `c`, whose edit was still to do, edits, fails to verify, and in its rollback takes the
      holder's label away, in `lost`. */
  lemma LoserStripsTheHolder(s: State, h: nat, c: nat) returns (won: seq<Label>, lost: seq<Label>)
    requires Initial(s) && s.issue.ready && s.issue.assignees == {} && h != c
    ensures From(s, won).Some? && From(s, won + lost).Some? && NoStepOf(lost, h)
    ensures var t := From(s, won).value; BotOf(t, h).holds && LabelledHeld(t.issue) && !Quiet(t, h)
    ensures var t := From(s, won + lost).value; BotOf(t, h).holds && !LabelledHeld(t.issue)
  {
    var ls := ReadsReady(s, c);
    won := ls;
    ls := ReadsReady(From(s, won).value, h);
    FromConcat(s, won, ls);
    won := won + ls;
    ls := ClaimEditRun(From(s, won).value, h);
    FromConcat(s, won, ls);
    won := won + ls;
    Extend(s, won, Read(h));
    won := won + [Read(h)];
    var t := From(s, won).value;
    assert c in t.bots && !HarmlessPc(t.bots[c].pc);
    lost := LosesTheRace(t, c);
    FromConcat(s, won, lost);
  }

  lemma LosesTheRace(s: State, c: nat) returns (ls: seq<Label>)
    requires c in s.bots && s.bots[c] == Bot(Editing(CLAIM_EDIT), false, None)
    requires s.issue.assignees != {c} && s.issue.assignees != {}
    ensures From(s, ls).Some? && (forall l :: l in ls ==> l.b == c)
    ensures var t := From(s, ls).value; !LabelledHeld(t.issue) && forall b :: b != c ==> BotOf(t, b) == BotOf(s, b)
  {
    ls := ClaimEditRun(s, c);
    var t := From(s, ls).value;
    var other :| other in s.issue.assignees && other != c;
    assert other in t.issue.assignees;
    Extend(s, ls, Read(c));
    ls := ls + [Read(c)];
    Extend(s, ls, Do(c, RemoveInProgress));
    ls := ls + [Do(c, RemoveInProgress)];
  }

  /** A holder whose label was stripped and that then releases is told that there is nothing to do,
      stays assigned, and so keeps every other bot from claiming the issue for as long as it is away. */
  lemma IdempotentReleaseKeepsOthersOut(s: State, h: nat, reason: Reason, ls: seq<Label>, b: nat)
    requires Inv(s) && BotOf(s, h).holds && BotOf(s, h).pc.Idle? && !s.issue.inProgress
    ensures var r := From(s, [StartRelease(h, reason), Read(h)]);
      && r.Some? && BotOf(r.value, h).last == Some(ReleaseIdempotent) && !BotOf(r.value, h).holds
      && h in r.value.issue.assignees
      && (From(r.value, ls).Some? && NoStepOf(ls, h) ==> !BotOf(From(r.value, ls).value, b).holds)
  {
    Then(s, StartRelease(h, reason));
    Then(Apply(s, StartRelease(h, reason)), Read(h));
    FromConcat(s, [StartRelease(h, reason)], [Read(h)]);
    assert [StartRelease(h, reason)] + [Read(h)] == [StartRelease(h, reason), Read(h)];
    var r := From(s, [StartRelease(h, reason), Read(h)]).value;
    StepKeepsInv(s, StartRelease(h, reason));
    StepKeepsInv(Apply(s, StartRelease(h, reason)), Read(h));
    if From(r, ls).Some? && NoStepOf(ls, h) { AssignedBotKeepsOthersOut(r, ls, h, b); }
  }

  // ----- the two calls as the source writes them ---------------------------------------------

  /** What one call meets: who acts before each of its commands, and which of its commands fail. */
  datatype Weather = Weather(others: nat -> seq<Label>, fails: nat -> bool)

  ghost predicate NobodyElse(w: Weather) {
    forall n :: w.others(n) == []
  }

  /** `after` is `before` with the parts `ops` of an edit done by `b`. */
  predicate Edited(before: Issue, after: Issue, b: nat, ops: set<Op>) {
    && (after.ready <==> AddReady in ops || (before.ready && RemoveReady !in ops))
    && (after.inProgress <==> AddInProgress in ops || (before.inProgress && RemoveInProgress !in ops))
    && (after.needsHuman <==> AddNeedsHuman in ops || before.needsHuman)
    && after.assignees
      == before.assignees + (if AssignMe in ops then {b} else {}) - (if UnassignMe in ops then {b} else {})
  }

  predicate NotBoth(ops: set<Op>) {
    && !(AddReady in ops && RemoveReady in ops) && !(AddInProgress in ops && RemoveInProgress in ops)
    && !(AssignMe in ops && UnassignMe in ops)
  }

  lemma EditedOneMore(before: Issue, v: Issue, b: nat, ops: set<Op>, op: Op)
    requires Edited(before, v, b, ops) && op !in ops && NotBoth(ops + {op})
    ensures Edited(before, Effect(v, b, op), b, ops + {op})
  {
  }

  /** From step `from` of the run on, bot `b` has done `op`. */
  ghost predicate Did(trace: seq<Label>, from: nat, b: nat, op: Op) {
    exists i :: from <= i < |trace| && trace[i] == Do(b, op)
  }

  ghost predicate Rested(trace: seq<Label>, from: nat, b: nat) {
    forall i :: from <= i < |trace| ==> trace[i].b != b
  }

  lemma DidOneMore(trace: seq<Label>, l: Label, from: nat, b: nat)
    requires from <= |trace|
    ensures forall op :: Did(trace + [l], from, b, op) <==> Did(trace, from, b, op) || l == Do(b, op)
  {
    var more := trace + [l];
    assert more[|trace|] == l;
    forall op | Did(trace, from, b, op) ensures Did(more, from, b, op) {
      var i :| from <= i < |trace| && trace[i] == Do(b, op);
      assert more[i] == Do(b, op);
    }
  }

  lemma DidInParts(trace: seq<Label>, from: nat, k: nat, b: nat)
    requires from <= k <= |trace|
    ensures forall op :: Did(trace, from, b, op) <==> Did(trace[..k], from, b, op) || Did(trace, k, b, op)
  {
    forall op | Did(trace, from, b, op) ensures Did(trace[..k], from, b, op) || Did(trace, k, b, op) {
      var i :| from <= i < |trace| && trace[i] == Do(b, op);
      if i < k { assert trace[..k][i] == Do(b, op); }
    }
    forall op | Did(trace[..k], from, b, op) ensures Did(trace, from, b, op) {
      var i :| from <= i < k && trace[..k][i] == Do(b, op);
      assert trace[i] == Do(b, op);
    }
  }

  lemma {:induction false} PrefixOfRun(s: State, ls: seq<Label>, n: nat)
    requires From(s, ls).Some? && n <= |ls|
    ensures From(s, ls[..n]).Some?
  {
    if n < |ls| {
      PrefixOfRun(s, ls[..|ls| - 1], n);
      assert ls[..|ls| - 1][..n] == ls[..n];
    } else {
      assert ls[..n] == ls;
    }
  }

  lemma EditHasNotBoth(s: State, ls: seq<Label>, b: nat)
    requires Initial(s) && From(s, ls).Some? && InEdit(BotOf(From(s, ls).value, b).pc)
    ensures NotBoth(BotOf(From(s, ls).value, b).pc.rem)
  {
    RunKeepsInv(s, ls);
    assert Parts(BotOf(From(s, ls).value, b).pc);
  }

  /** Of the edit `all` begun at step `from` on the issue `before`, all but `rem` has been done, and nothing
      else by `b`. */
  ghost predicate DoneBut(trace: seq<Label>, from: nat, before: Issue, v: Issue, b: nat, all: set<Op>, rem: set<Op>,
                          alone: bool) {
    && rem <= all
    && (forall op :: op in all <==> op in rem || Did(trace, from, b, op))
    && (alone ==> Edited(before, v, b, all - rem))
  }

  lemma OnePartDone(trace: seq<Label>, from: nat, before: Issue, v: Issue, b: nat, all: set<Op>, rem: set<Op>,
                    alone: bool, op: Op)
    requires from <= |trace| && DoneBut(trace, from, before, v, b, all, rem, alone) && op in rem && NotBoth(all)
    ensures DoneBut(trace + [Do(b, op)], from, before, Effect(v, b, op), b, all, rem - {op}, alone)
  {
    DidOneMore(trace, Do(b, op), from, b);
    assert all - (rem - {op}) == all - rem + {op};
    if alone { EditedOneMore(before, v, b, all - rem, op); }
  }

  lemma OthersInBetween(trace: seq<Label>, more: seq<Label>, from: nat, before: Issue, v: Issue, v': Issue, b: nat,
                        all: set<Op>, rem: set<Op>, alone: bool)
    requires from <= |trace| && trace <= more && Rested(more, |trace|, b) && (alone ==> v' == v)
    requires DoneBut(trace, from, before, v, b, all, rem, alone)
    ensures DoneBut(more, from, before, v', b, all, rem, alone)
  {
    assert more[..|trace|] == trace;
    DidInParts(more, from, |trace|, b);
  }

  lemma HolderIsAssigned(s: State, ls: seq<Label>, b: nat)
    requires Initial(s) && From(s, ls).Some?
    ensures BotOf(From(s, ls).value, b).holds ==> b in From(s, ls).value.issue.assignees
  {
    RunKeepsInv(s, ls);
  }

  lemma NextOfRun(s: State, ls: seq<Label>, i: nat)
    requires From(s, ls).Some? && i < |ls|
    ensures From(s, ls[..i]).Some? && Enabled(From(s, ls[..i]).value, ls[i])
    ensures From(s, ls[..i + 1]) == Some(Apply(From(s, ls[..i]).value, ls[i]))
    ensures ls[..i + 1] == ls[..i] + [ls[i]]
  {
    PrefixOfRun(s, ls, i + 1);
    assert ls[..i + 1][..i] == ls[..i];
  }

  /** The tracker with all its bots; `trace` is the run that brought it here. */
  class Tracker {
    ghost const start: State
    var s: State
    ghost var trace: seq<Label>
    var clock: nat

    ghost predicate Valid()
      reads this
    {
      Initial(start) && From(start, trace) == Some(s)
    }

    method Step(l: Label)
      requires Valid() && Enabled(s, l)
      modifies this`s, this`trace
      ensures Valid() && s == Apply(old(s), l) && trace == old(trace) + [l]
    {
      assert (trace + [l])[..|trace|] == trace;
      s := Apply(s, l);
      trace := trace + [l];
    }

    /** Other bots take any steps; then it is known whether the next command of `me` fails. */
    method Interfere(w: Weather, me: nat) returns (fails: bool)
      requires Valid()
      modifies this`s, this`trace, this`clock
      ensures Valid() && old(trace) <= trace && BotOf(s, me) == old(BotOf(s, me))
      ensures Rested(trace, |old(trace)|, me) && fails == w.fails(old(clock)) && clock == old(clock) + 1
      ensures var ls := w.others(old(clock));
        Rested(ls, 0, me) && From(old(s), ls).Some? ==> trace == old(trace) + ls && Some(s) == From(old(s), ls)
    {
      var ls := w.others(clock);
      for i := 0 to |ls|
        invariant Valid() && old(trace) <= trace && BotOf(s, me) == old(BotOf(s, me))
        invariant Rested(trace, |old(trace)|, me) && clock == old(clock)
        invariant Rested(ls, 0, me) && From(old(s), ls).Some? ==>
          trace == old(trace) + ls[..i] && Some(s) == From(old(s), ls[..i])
      {
        if From(old(s), ls).Some? { NextOfRun(old(s), ls, i); }
        if ls[i].b != me && Enabled(s, ls[i]) { Step(ls[i]); }
      }
      assert ls[..|ls|] == ls;
      fails := w.fails(clock);
      clock := clock + 1;
    }

    /** Performs the edit under way, with all its parts and no other; false if it failed part of the way. */
    method Edit(w: Weather, me: nat) returns (ok: bool)
      requires Valid() && InEdit(BotOf(s, me).pc)
      modifies this`s, this`trace, this`clock
      ensures Valid() && old(trace) < trace
      ensures old(BotOf(s, me).pc.Editing?) ==> if ok then BotOf(s, me).pc.Verifying? else BotOf(s, me).pc.Idle?
      ensures !old(BotOf(s, me).pc.Editing?) ==> BotOf(s, me).pc.Idle?
      ensures ok && old(BotOf(s, me).pc.ReleaseEditing?) ==> !BotOf(s, me).holds
      ensures BotOf(s, me).pc.Idle? ==> BotOf(s, me).last == Some(
        match old(BotOf(s, me).pc)
        case Editing(_) => ClaimError
        case RollingBack(_) => RaceLost
        case _ => if ok then ReleaseOk else ReleaseError)
      ensures forall op :: Did(trace, |old(trace)|, me, op) ==> op in old(BotOf(s, me).pc.rem)
      ensures ok ==> forall op :: op in old(BotOf(s, me).pc.rem) ==> Did(trace, |old(trace)|, me, op)
      ensures !ok ==> exists n :: w.fails(n)
      ensures ok && NobodyElse(w) ==> Edited(old(s.issue), s.issue, me, old(BotOf(s, me).pc.rem))
    {
      ghost var pc0, v0, alone := BotOf(s, me).pc, s.issue, NobodyElse(w);
      EditHasNotBoth(start, trace, me);
      while true
        invariant Valid() && old(trace) <= trace && InEdit(BotOf(s, me).pc)
        invariant BotOf(s, me).pc.Editing? == pc0.Editing? && BotOf(s, me).pc.RollingBack? == pc0.RollingBack?
        invariant DoneBut(trace, |old(trace)|, v0, s.issue, me, pc0.rem, BotOf(s, me).pc.rem, alone)
        decreases BotOf(s, me).pc.rem
      {
        ghost var before, v := trace, s.issue;
        var fails := Interfere(w, me);
        var rem := BotOf(s, me).pc.rem;
        OthersInBetween(before, trace, |old(trace)|, v0, v, s.issue, me, pc0.rem, rem, alone);
        if fails {
          DidOneMore(trace, EditFails(me), |old(trace)|, me);
          Step(EditFails(me));
          return false;
        }
        if rem == {} {
          DidOneMore(trace, EditDone(me), |old(trace)|, me);
          assert pc0.rem - rem == pc0.rem;
          Step(EditDone(me));
          return true;
        }
        var op :| op in rem;
        OnePartDone(trace, |old(trace)|, v0, s.issue, me, pc0.rem, rem, alone, op);
        Step(Do(me, op));
      }
    }

    /** The read that the bot is about to make, `None` if the command fails; it changes nothing. */
    method ReadIssue(w: Weather, me: nat) returns (seen: Option<Issue>)
      requires Valid()
      requires var pc := BotOf(s, me).pc; pc.Claiming? || pc.Verifying? || pc.Releasing?
      modifies this`s, this`trace, this`clock
      ensures Valid() && old(trace) < trace && forall op :: !Did(trace, |old(trace)|, me, op)
      ensures var k := old(BotOf(s, me));
        if seen.Some? then BotOf(s, me) == OnRead(k, seen.value, me) && seen.value == s.issue
        else BotOf(s, me) == k.(pc := Idle, last := Some(if k.pc.Releasing? then ReleaseError else ClaimError))
      ensures seen.None? ==> exists n :: w.fails(n)
      ensures NobodyElse(w) ==> s.issue == old(s.issue)
    {
      var fails := Interfere(w, me);
      seen := if fails then None else Some(s.issue);
      var l := if fails then ReadFails(me) else Read(me);
      DidOneMore(trace, l, |old(trace)|, me);
      Step(l);
    }

    /** The second half of a claim: reads the issue again, and takes the claim back if it did not win. */
    method VerifyClaim(w: Weather, me: nat) returns (r: Outcome)
      requires Valid() && BotOf(s, me).pc.Verifying?
      modifies this`s, this`trace, this`clock
      ensures Valid() && old(trace) < trace
      ensures BotOf(s, me).pc.Idle? && BotOf(s, me).last == Some(r)
      ensures r in {ClaimOk, RaceLost, ClaimError}
      ensures r.ClaimOk? ==> BotOf(s, me).holds && me in s.issue.assignees
      ensures r.ClaimOk? ==> s.issue.inProgress && !s.issue.ready && s.issue.assignees == {me}
      ensures r.ClaimOk? || r.ClaimError? ==> forall op :: !Did(trace, |old(trace)|, me, op)
      ensures r.ClaimError? ==> exists n :: w.fails(n)
      ensures r.RaceLost? && (forall n :: !w.fails(n)) ==>
        forall op :: Did(trace, |old(trace)|, me, op) <==> op.AddReady? || op.RemoveInProgress? || op.UnassignMe?
      ensures NobodyElse(w) && r.ClaimOk? ==> s.issue == old(s.issue)
      ensures NobodyElse(w) && r.RaceLost? && (forall n :: !w.fails(n)) ==>
        s.issue == old(s.issue).(ready := true, inProgress := false, assignees := old(s.issue).assignees - {me})
    {
      var post := ReadIssue(w, me);
      if post.None? { return ClaimError; }
      if IsClaimedBy(post.value, me) { return ClaimOk; }
      ghost var before := trace;
      var ok := Edit(w, me);
      assert trace[..|before|] == before;
      DidInParts(trace, |old(trace)|, |before|, me);
      r := RaceLost;
    }

    /** Starts a call and makes its first read. */
    method FirstRead(w: Weather, me: nat, start: Label) returns (seen: Option<Issue>)
      requires Valid() && BotOf(s, me).pc.Idle? && (start == StartClaim(me) || (start.StartRelease? && start.b == me))
      modifies this`s, this`trace, this`clock
      ensures Valid() && old(trace) < trace && forall op :: !Did(trace, |old(trace)|, me, op)
      ensures var k := old(BotOf(s, me)).(pc := if start.StartClaim? then Claiming else Releasing(start.reason));
        if seen.Some? then BotOf(s, me) == OnRead(k, seen.value, me) && seen.value == s.issue
        else BotOf(s, me) == k.(pc := Idle, last := Some(if start.StartClaim? then ClaimError else ReleaseError))
      ensures seen.None? ==> exists n :: w.fails(n)
      ensures NobodyElse(w) ==> s.issue == old(s.issue)
    {
      DidOneMore(trace, start, |old(trace)|, me);
      Step(start);
      ghost var started := trace;
      seen := ReadIssue(w, me);
      assert trace[..|started|] == started;
      DidInParts(trace, |old(trace)|, |started|, me);
    }

    /** Claims the issue for `me`. The call is a run of the interleaved system, and its result is what
        that run recorded; with the two good results `me` holds the issue, and only the first of them has
        changed it. */
    method ClaimIssue(w: Weather, me: nat) returns (r: Outcome)
      requires Valid() && BotOf(s, me).pc.Idle?
      modifies this`s, this`trace, this`clock
      ensures Valid() && old(trace) < trace
      ensures BotOf(s, me).pc.Idle? && BotOf(s, me).last == Some(r)
      ensures r in {ClaimOk, ClaimIdempotent, RaceLost, NotTakeable, ClaimError}
      ensures r.ClaimOk? || r.ClaimIdempotent? ==> BotOf(s, me).holds && me in s.issue.assignees
      ensures r.ClaimOk? ==> forall op ::
        Did(trace, |old(trace)|, me, op) <==> op.RemoveReady? || op.AddInProgress? || op.AssignMe?
      ensures r.ClaimIdempotent? || r.NotTakeable? ==> forall op :: !Did(trace, |old(trace)|, me, op)
      ensures r.NotTakeable? ==> !s.issue.ready
      ensures r.ClaimOk? || r.ClaimIdempotent? ==>
        s.issue.inProgress && !s.issue.ready && s.issue.assignees == {me}
      ensures r.ClaimError? ==> exists n :: w.fails(n)
      ensures NobodyElse(w) && r.ClaimOk? ==>
        s.issue == old(s.issue).(ready := false, inProgress := true, assignees := old(s.issue).assignees + {me})
    {
      var pre := FirstRead(w, me, StartClaim(me));
      if pre.None? { return ClaimError; }
      if IsClaimedBy(pre.value, me) { return ClaimIdempotent; }
      if !pre.value.ready { return NotTakeable; }
      ghost var before := trace;
      var ok := Edit(w, me);
      if !ok { return ClaimError; }
      ghost var edited := trace;
      r := VerifyClaim(w, me);
      if r.ClaimOk? {
        assert trace[..|before|] == before && trace[..|edited|] == edited;
        DidInParts(trace, |old(trace)|, |before|, me);
        DidInParts(trace, |before|, |edited|, me);
      }
    }

    /** Releases the issue: exactly `ReleaseOk` and `ReleaseIdempotent` end a hold, and a holder is
        never told that the claim is foreign. A release that went through has taken the label and the
        assignee away and has left the label its reason asks for; the other good result, and a refusal,
        have changed nothing. */
    method ReleaseIssue(w: Weather, me: nat, reason: Reason) returns (r: Outcome)
      requires Valid() && BotOf(s, me).pc.Idle?
      modifies this`s, this`trace, this`clock
      ensures Valid() && old(trace) < trace
      ensures BotOf(s, me).pc.Idle? && BotOf(s, me).last == Some(r)
      ensures r in {ReleaseOk, ReleaseIdempotent, ForeignClaim, ReleaseError}
      ensures r.ReleaseOk? || r.ReleaseIdempotent? ==> !BotOf(s, me).holds
      ensures old(BotOf(s, me).holds) ==> !r.ForeignClaim?
      ensures r.ReleaseOk? ==>
        && Did(trace, |old(trace)|, me, RemoveInProgress) && Did(trace, |old(trace)|, me, UnassignMe)
        && (Did(trace, |old(trace)|, me, AddNeedsHuman) <==> reason.Failed?)
        && (Did(trace, |old(trace)|, me, AddReady) <==> reason.Abandoned?)
        && forall op: Op :: op.RemoveReady? || op.AddInProgress? || op.AssignMe? ==> !Did(trace, |old(trace)|, me, op)
      ensures r.ReleaseIdempotent? || r.ForeignClaim? ==> forall op :: !Did(trace, |old(trace)|, me, op)
      ensures r.ReleaseIdempotent? ==> !s.issue.inProgress
      ensures r.ForeignClaim? ==> s.issue.inProgress && me !in s.issue.assignees
      ensures r.ReleaseError? ==> exists n :: w.fails(n)
      ensures NobodyElse(w) && r.ReleaseOk? ==>
        && s.issue.ready == (old(s.issue).ready || reason.Abandoned?) && !s.issue.inProgress
        && s.issue.needsHuman == (old(s.issue).needsHuman || reason.Failed?)
        && s.issue.assignees == old(s.issue).assignees - {me}
    {
      var pre := FirstRead(w, me, StartRelease(me, reason));
      HolderIsAssigned(start, trace, me);
      if pre.None? { return ReleaseError; }
      if !pre.value.inProgress { return ReleaseIdempotent; }
      if me !in pre.value.assignees { return ForeignClaim; }
      ghost var before := trace;
      var ok := Edit(w, me);
      assert trace[..|before|] == before;
      DidInParts(trace, |old(trace)|, |before|, me);
      r := if ok then ReleaseOk else ReleaseError;
    }
  }
}
