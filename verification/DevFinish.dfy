/** How a finished dev invocation is turned into a commit: the accepted path, the recovery of a call
    that the gate rejected although the tree has become green since, and the retries. */
module DevFinish {
  import opened Options
  import opened GmBroker

  datatype DevEvent = DevDoneEvent | GateRejectedEvent | DevFailedEvent

  /** What was committed, and the fingerprint the tree had when it was last compared, if it was. */
  datatype Commit = Commit(params: DevDoneParams, comparedAs: Option<string>)

  /** `now` is the fingerprint of the tree at this moment, `None` when it cannot be computed;
      `commitOk` is whether staging, committing, pushing and opening the PR go through. */
  method FinishDevAgentWithBroker(b: Broker, now: Option<string>, commitOk: bool)
    returns (ev: DevEvent, committed: Option<Commit>)
    requires b.dev.value.Some? ==> b.dev.value.value.Dev?
    ensures b.dev.value.Some? ==>
      (committed.Some? <==>
         && b.devFingerprint.Some? && b.devFingerprint.value != ""
         && !(b.cfg.devPath && now.Some? && now != b.devFingerprint))
    ensures b.dev.value.None? ==>
      (committed.Some? <==>
         && b.dev.gateRejected && b.dev.raw.Some? && b.dev.raw.value.asDev.Some?
         && CompleteDev(b.dev.raw.value.asDev.value)
         && b.cfg.devPath && b.lastCheck.Some? && b.lastCheck.value.ok
         && now == Some(b.lastCheck.value.fingerprint))
    ensures committed.Some? && b.dev.value.Some? ==>
      && Dev(committed.value.params) == b.dev.value.value
      && committed.value.comparedAs == (if b.cfg.devPath && now.Some? then b.devFingerprint else None)
    ensures committed.Some? && b.dev.value.None? ==>
      && committed.value.params == b.dev.raw.value.asDev.value
      && committed.value.comparedAs == now && now.Some?
    ensures ev == DevDoneEvent <==> committed.Some? && commitOk
    ensures ev == GateRejectedEvent <==> b.dev.value.None? && committed.None?
  {
    committed := None;
    if b.dev.value.Some? {
      if !FingerprintKnown(b) { return DevFailedEvent, None; }
      var current := if b.cfg.devPath then now else None;
      if current.Some? && current != b.devFingerprint { return DevFailedEvent, None; }
      committed := Some(Commit(b.dev.value.value.dev, current));
      return if commitOk then DevDoneEvent else DevFailedEvent, committed;
    }
    var recovered := b.RecoveredDevDoneParams();
    if recovered.Some? && b.IsTreeGreen(now) {
      committed := Some(Commit(recovered.value, now));
      return if commitOk then DevDoneEvent else DevFailedEvent, committed;
    }
    ev := GateRejectedEvent;
  }

  predicate FingerprintKnown(b: Broker)
    reads b
  {
    b.dev.value.Some? && b.devFingerprint.Some? && b.devFingerprint.value != ""
  }

  /** Whatever interleaving of calls, checks and edits the invocation was: a tree whose fingerprint
      was compared before the commit had the fingerprint of a green check of this invocation; and the
      only way to a commit without a comparison is the accepted path when the fingerprint cannot be
      computed. */
  method CommitsOnlyGreenTrees(b: Broker, ghost ls: seq<Label>, now: Option<string>, commitOk: bool)
    returns (ev: DevEvent, committed: Option<Commit>)
    requires After(b.cfg, ls).Some? && b.Mirrors(After(b.cfg, ls).value)
    ensures var checks := After(b.cfg, ls).value.checks;
      committed.Some? ==>
        && (committed.value.comparedAs.Some? ==> Check(true, committed.value.comparedAs.value) in checks)
        && (committed.value.comparedAs.None? <==> b.dev.value.Some? && !(b.cfg.devPath && now.Some?))
        && (b.dev.value.Some? ==> b.devFingerprint.Some? && Check(true, b.devFingerprint.value) in checks)
  {
    RunKeepsInv(b.cfg, ls);
    ev, committed := FinishDevAgentWithBroker(b, now, commitOk);
  }
}
