/** The codebase-memory multiplexer: many client connections share one stdio child.

    `Shared` is what the broker's mutex and atomics protect.  The functions on it are the critical
    sections of the source; class `Broker` executes them in place, and the transition system below
    interleaves the very same functions with arbitrary clients, an adversarial child, timeouts and
    the death of the child. */
module CbmBroker {
  import opened Options

  /** A client's JSON-RPC id, kept as raw JSON. A request without an id has the id `Null`. */
  datatype JsonId = Null | Raw(text: string)

  /** What a line carries: text the child wrote (with its line number), or the notice that the
      broker itself puts into a reply channel when the child is gone. */
  datatype Body = Child(lineNo: nat, text: string) | ChildExited

  /** A line with an integer id, or without one (a notification, or not a JSON object at all). */
  datatype Line = Line(id: Option<int>, body: Body)

  /** What is written to a client connection. `Unrewritten` is the source's fallback branch. */
  datatype Reply =
    | Forwarded(id: JsonId, body: Body)
    | Failed(id: JsonId, code: int, message: string)
    | Unrewritten(line: Line)

  /** A reply channel of capacity one. `iid` is the internal id it was made for, `bornAt` how many child
      lines had been looked up in `pending` by then; `accepted` and `dropped` count the non-blocking sends. */
  datatype Chan = Chan(iid: int, bornAt: nat, buf: Option<Line>, accepted: nat, dropped: nat)

  datatype Shared = Shared(nextId: int, pending: map<int, nat>, chans: seq<Chan>, dead: bool)

  function ResponseId(line: Line): Option<int> { line.id }

  function RewriteResponseId(line: Line, id: JsonId): Option<Reply> {
    if line.id.None? then None else Some(Forwarded(id, line.body))
  }

  // ----- the critical sections ---------------------------------------------------------------

  /** Puts a fresh channel under `id`, whatever was there. */
  function Put(sh: Shared, id: int, lookedUp: nat): Shared {
    sh.(pending := sh.pending[id := |sh.chans|],
        chans := sh.chans + [Chan(id, lookedUp, None, 0, 0)])
  }

  function Register(sh: Shared, id: int, lookedUp: nat): (Shared, Option<nat>) {
    if sh.dead then (sh, None) else (Put(sh, id, lookedUp), Some(|sh.chans|))
  }

  function Remove(sh: Shared, id: int): Shared {
    sh.(pending := sh.pending - {id})
  }

  function Take(sh: Shared, id: int): (Shared, Option<nat>) {
    (Remove(sh, id), if id in sh.pending then Some(sh.pending[id]) else None)
  }

  /** The non-blocking send `select { case ch <- line: default: }`. */
  function Send(sh: Shared, ch: nat, line: Line): Shared
    requires ch < |sh.chans|
  {
    var c := sh.chans[ch];
    var c' := if c.buf.None? then c.(buf := Some(line), accepted := c.accepted + 1)
              else c.(dropped := c.dropped + 1);
    sh.(chans := sh.chans[ch := c'])
  }

  /** One turn of the loop that fails the pending requests. */
  function DrainOne(sh: Shared, id: int): Shared
    requires id in sh.pending && sh.pending[id] < |sh.chans|
  {
    Remove(Send(sh, sh.pending[id], Line(Some(id), ChildExited)), id)
  }

  function CloseDead(sh: Shared): Shared { sh.(dead := true) }

  ghost predicate ChannelsExist(sh: Shared) {
    forall id :: id in sh.pending ==> sh.pending[id] < |sh.chans|
  }

  /** Draining the ids of `order` one after the other, in the order the map iteration yields them. */
  ghost function DrainAll(sh: Shared, order: seq<int>): Shared
    requires ChannelsExist(sh)
    requires forall i :: 0 <= i < |order| ==> order[i] in sh.pending
    requires forall i, j :: 0 <= i < j < |order| ==> order[i] != order[j]
    ensures DrainAll(sh, order).pending == sh.pending - (set i | i in order)
    ensures ChannelsExist(DrainAll(sh, order))
  {
    if order == [] then sh
    else
      var sh' := DrainAll(sh, order[..|order| - 1]);
      DrainOne(sh', order[|order| - 1])
  }

  predicate HasOwnChannel(pending: map<int, nat>, id: int)
    requires id in pending
  {
    forall j :: j in pending && pending[j] == pending[id] ==> j == id
  }

  /** The waiter of `id` finds the notice that the child is gone, unless it had got its answer before. */
  predicate IsTold(before: Chan, after: Chan, id: int) {
    after.buf == if before.buf.None? then Some(Line(Some(id), ChildExited)) else before.buf
  }

  /** Whatever the order, every waiter that shares its channel with no other is told, and a channel that
      nobody waits at is left as it is. */
  lemma {:induction false} DrainTellsEveryWaiter(sh: Shared, order: seq<int>)
    requires ChannelsExist(sh)
    requires forall i :: 0 <= i < |order| ==> order[i] in sh.pending
    requires forall i, j :: 0 <= i < j < |order| ==> order[i] != order[j]
    ensures var chans := DrainAll(sh, order).chans;
      && |chans| == |sh.chans|
      && (forall ch :: 0 <= ch < |chans| && (forall id :: id in order ==> sh.pending[id] != ch) ==>
            chans[ch] == sh.chans[ch])
      && (forall id :: id in order && HasOwnChannel(sh.pending, id) ==>
            IsTold(sh.chans[sh.pending[id]], chans[sh.pending[id]], id))
  {
    if order != [] {
      var before, last := order[..|order| - 1], order[|order| - 1];
      DrainTellsEveryWaiter(sh, before);
      assert order == before + [last];
      assert forall id :: id in before ==> id != last;
    }
  }

  /** A registered request has an empty channel of its own; the reader finds it once, and the other
      requests are found as before. */
  lemma RegisteredIsTakenOnce(sh: Shared, id: int, lookedUp: nat)
    requires ChannelsExist(sh) && !sh.dead
    ensures var (reg, ch) := Register(sh, id, lookedUp);
      && ch.Some? && ChannelsExist(reg) && reg.chans[ch.value].buf.None?
      && (forall j :: j in reg.pending && reg.pending[j] == ch.value ==> j == id)
      && Take(reg, id).1 == ch && Take(Take(reg, id).0, id).1 == None
      && (forall j :: j != id ==> Take(reg, j).1 == Take(sh, j).1)
  {
  }

  /** After a request was withdrawn, its id is not found, and the others are found as before. */
  lemma WithdrawnIsNotTaken(sh: Shared, id: int)
    ensures Take(Remove(sh, id), id).1 == None
    ensures forall j :: j != id ==> Take(Remove(sh, id), j).1 == Take(sh, j).1
  {
  }

  /** A message that finds its channel full changes nothing a reader of the channel could see. */
  lemma FirstMessageStays(sh: Shared, ch: nat, first: Line, second: Line)
    requires ch < |sh.chans| && sh.chans[ch].buf.None?
    ensures var once := Send(sh, ch, first); var twice := Send(once, ch, second);
      && once.chans[ch].buf == twice.chans[ch].buf == Some(first)
      && once.chans[ch].accepted == twice.chans[ch].accepted == sh.chans[ch].accepted + 1
      && twice.chans[ch].dropped == sh.chans[ch].dropped + 1
      && (forall i :: 0 <= i < |sh.chans| && i != ch ==> twice.chans[i] == sh.chans[i])
      && twice.pending == sh.pending
  {
  }

  lemma AllDrained(pending: map<int, nat>, order: seq<int>)
    requires pending - (set i | i in order) == map[]
    ensures forall id :: id in pending ==> id in order
  {
    var left := pending - (set i | i in order);
    assert forall id :: id in pending ==> id in order || id in left;
  }

  lemma SomeKey(m: map<int, nat>)
    ensures m == map[] || exists id :: id in m
  {
    assert (forall id :: id !in m) ==> m == map[];
  }

  /** The broker object: its methods update the fields exactly as the functions above say. */
  class Broker {
    var pending: map<int, nat>
    var nextId: int
    var dead: bool
    var chans: seq<Chan>

    ghost function View(): Shared
      reads this
    {
      Shared(nextId, pending, chans, dead)
    }

    constructor ()
      ensures View() == Shared(1, map[], [], false)
    {
      pending, nextId, dead, chans := map[], 1, false, [];
    }

    method RegisterPending(id: int, lookedUp: nat) returns (ch: Option<nat>)
      modifies this`pending, this`chans
      ensures (View(), ch) == Register(old(View()), id, lookedUp)
    {
      if dead { return None; }
      pending := pending[id := |chans|];
      chans := chans + [Chan(id, lookedUp, None, 0, 0)];
      ch := Some(|chans| - 1);
    }

    method RemovePending(id: int)
      modifies this`pending
      ensures View() == Remove(old(View()), id)
    {
      pending := pending - {id};
    }

    method TakePending(id: int) returns (ch: Option<nat>)
      modifies this`pending
      ensures (View(), ch) == Take(old(View()), id)
    {
      ch := None;
      if id in pending { ch := Some(pending[id]); }
      pending := pending - {id};
    }

    method TrySend(ch: nat, line: Line)
      requires ch < |chans|
      modifies this`chans
      ensures View() == Send(old(View()), ch, line)
    {
      var c := chans[ch];
      if c.buf.None? {
        chans := chans[ch := c.(buf := Some(line), accepted := c.accepted + 1)];
      } else {
        chans := chans[ch := c.(dropped := c.dropped + 1)];
      }
    }

    /** The whole of the deferred drain: it is a sequence of `DrainOne` steps that empties the map,
        followed by `CloseDead`. */
    method FailPending() returns (ghost order: seq<int>)
      requires ChannelsExist(View())
      modifies this
      ensures forall i :: 0 <= i < |order| ==> order[i] in old(pending)
      ensures forall i, j :: 0 <= i < j < |order| ==> order[i] != order[j]
      ensures View() == CloseDead(DrainAll(old(View()), order))
      ensures pending == map[] && dead && |chans| == |old(chans)|
      ensures forall id | id in old(pending) ::
        (forall j :: j in old(pending) && old(pending)[j] == old(pending)[id] ==> j == id) ==>
        IsTold(old(chans)[old(pending)[id]], chans[old(pending)[id]], id)
      ensures forall ch :: 0 <= ch < |chans| && ch !in old(pending).Values ==> chans[ch] == old(chans)[ch]
    {
      order := [];
      while pending != map[]
        invariant forall i :: 0 <= i < |order| ==> order[i] in old(pending)
        invariant forall i, j :: 0 <= i < j < |order| ==> order[i] != order[j]
        invariant View() == DrainAll(old(View()), order)
        decreases pending.Keys
      {
        SomeKey(pending);
        var id :| id in pending;
        assert id !in order;
        TrySend(pending[id], Line(Some(id), ChildExited));
        RemovePending(id);
        ghost var order' := order + [id];
        assert order'[..|order|] == order;
        order := order';
      }
      dead := true;
      DrainTellsEveryWaiter(old(View()), order);
      AllDrained(old(pending), order);
    }
  }

  // ----- the interleaved system --------------------------------------------------------------

  /** The goroutine that reads the child: it waits for a line, has read one that bears an id, has taken
      the waiter of that id. `Draining` is the span in which it holds the mutex. */
  datatype Reader = Reading | Holding(line: Line) | Delivering(line: Line, ch: nat) | Draining | Exited

  /** The initialize handshake, which uses id 1 and registers it without looking at `dead`. */
  datatype Init = InitStart | InitRegistered(ch0: nat) | InitWaiting(ch0: nat) | InitOk | InitFailed

  /** One client connection, from the moment its request was parsed; `regAt` is how many child lines
      had been looked up in `pending` when its channel was registered. */
  datatype Client =
    | Parsed(orig: JsonId)
    | HasId(orig: JsonId, iid: int)
    | Registered(orig: JsonId, iid: int, ch: nat, regAt: nat)
    | Waiting(orig: JsonId, iid: int, ch: nat, regAt: nat)
    | Removing(orig: JsonId, iid: int, ch: nat, regAt: nat, message: string)
    | Finished(orig: JsonId)                          // answered before a channel existed
    | Answered(orig: JsonId, iid: int, ch: nat, regAt: nat)

  /** `output` is everything the child has written to its pipe; the reader has dealt with the first
      `lookedUp` lines of it. */
  datatype State = State(
    sh: Shared, reader: Reader, output: seq<Line>, lookedUp: nat, init: Init,
    clients: map<nat, Client>,      // by connection
    issued: map<int, nat>,          // internal id -> connection it was issued for
    wire: map<nat, seq<Reply>>)     // everything written to a connection

  const START: State :=
    State(Shared(1, map[], [], false), Reading, [], 0, InitStart, map[], map[], map[])

  datatype Label =
    | InitRegister | InitWritten | InitReceive | InitAbort
    | Connect(c: nat, request: Option<JsonId>)          // None: the line is not a JSON object
    | TakeId(c: nat) | RewriteFails(c: nat) | RegisterIt(c: nat)
    | Written(c: nat) | WriteFails(c: nat)
    | Receive(c: nat) | SeeDead(c: nat) | TimeOut(c: nat) | RemoveAndFail(c: nat)
    | ChildWrites(lineId: Option<int>, text: string)    // at any time, whatever the reader does
    | ReadLine | LookUp | Deliver
    | ChildGone | Drain(iid: int) | Close

  predicate MutexFree(s: State) { !s.reader.Draining? }

  predicate Enabled(s: State, l: Label) {
    match l
    case InitRegister => s.init.InitStart? && MutexFree(s)
    case InitWritten => s.init.InitRegistered?
    case InitReceive => s.init.InitWaiting? && s.init.ch0 < |s.sh.chans| && s.sh.chans[s.init.ch0].buf.Some?
    case InitAbort => (s.init.InitRegistered? || s.init.InitWaiting?) && MutexFree(s)
    case Connect(c, _) => s.init.InitOk? && c !in s.clients
    case TakeId(c) => c in s.clients && s.clients[c].Parsed?
    case RewriteFails(c) => c in s.clients && s.clients[c].HasId?
    case RegisterIt(c) => c in s.clients && s.clients[c].HasId? && MutexFree(s)
    case Written(c) => c in s.clients && s.clients[c].Registered?
    case WriteFails(c) => c in s.clients && s.clients[c].Registered?
    case Receive(c) => c in s.clients && s.clients[c].Waiting? && s.clients[c].ch < |s.sh.chans|
                       && s.sh.chans[s.clients[c].ch].buf.Some?
    case SeeDead(c) => c in s.clients && s.clients[c].Waiting? && s.sh.dead
    case TimeOut(c) => c in s.clients && s.clients[c].Waiting?
    case RemoveAndFail(c) => c in s.clients && s.clients[c].Removing? && MutexFree(s)
    case ChildWrites(_, _) => true
    case ReadLine => s.reader.Reading? && s.lookedUp < |s.output|
    case LookUp => s.reader.Holding? && s.reader.line.id.Some?
    case Deliver => s.reader.Delivering? && s.reader.ch < |s.sh.chans|
    case ChildGone => s.reader.Reading?
    case Drain(id) => s.reader.Draining? && id in s.sh.pending && s.sh.pending[id] < |s.sh.chans|
    case Close => s.reader.Draining? && s.sh.pending == map[]
  }

  /** Writes `r` to connection `c` and ends its handler. */
  function Say(s: State, c: nat, r: Reply, done: Client): State {
    s.(wire := s.wire[c := (if c in s.wire then s.wire[c] else []) + [r]],
       clients := s.clients[c := done])
  }

  function Empty(sh: Shared, ch: nat): Shared
    requires ch < |sh.chans|
  {
    sh.(chans := sh.chans[ch := sh.chans[ch].(buf := None)])
  }

  function Apply(s: State, l: Label): State
    requires Enabled(s, l)
  {
    match l
    case InitRegister =>
      s.(sh := Put(s.sh, 1, s.lookedUp), init := InitRegistered(|s.sh.chans|))
    case InitWritten => s.(init := InitWaiting(s.init.ch0))
    case InitReceive => s.(sh := Empty(s.sh, s.init.ch0), init := InitOk)
    case InitAbort => s.(sh := Remove(s.sh, 1), init := InitFailed)
    case Connect(c, id) =>
      if id.None? then Say(s, c, Failed(Null, -32700, "parse error"), Finished(Null))
      else s.(clients := s.clients[c := Parsed(id.value)])
    case TakeId(c) =>
      var id := s.sh.nextId + 1;
      s.(sh := s.sh.(nextId := id), issued := s.issued[id := c],
         clients := s.clients[c := HasId(s.clients[c].orig, id)])
    case RewriteFails(c) =>
      Say(s, c, Failed(s.clients[c].orig, -32603, "internal error"), Finished(s.clients[c].orig))
    case RegisterIt(c) =>
      var k := s.clients[c];
      var (sh, ch) := Register(s.sh, k.iid, s.lookedUp);
      if ch.None? then
        Say(s, c, Failed(k.orig, -32603, "cbm: MCP broker not available"), Finished(k.orig))
      else s.(sh := sh, clients := s.clients[c := Registered(k.orig, k.iid, ch.value, s.lookedUp)])
    case Written(c) =>
      var k := s.clients[c];
      s.(clients := s.clients[c := Waiting(k.orig, k.iid, k.ch, k.regAt)])
    case WriteFails(c) => Removes(s, c, "cbm: write to MCP child failed")
    case Receive(c) =>
      var k := s.clients[c];
      var line := s.sh.chans[k.ch].buf.value;
      var out := RewriteResponseId(line, k.orig);
      Say(s.(sh := Empty(s.sh, k.ch)), c, if out.Some? then out.value else Unrewritten(line),
          Answered(k.orig, k.iid, k.ch, k.regAt))
    case SeeDead(c) => Removes(s, c, "cbm: MCP broker died")
    case TimeOut(c) => Removes(s, c, "cbm: request timed out")
    case RemoveAndFail(c) =>
      var k := s.clients[c];
      Say(s.(sh := Remove(s.sh, k.iid)), c, Failed(k.orig, -32603, k.message),
          Answered(k.orig, k.iid, k.ch, k.regAt))
    case ChildWrites(id, text) => s.(output := s.output + [Line(id, Child(|s.output|, text))])
    case ReadLine =>
      var line := s.output[s.lookedUp];
      if ResponseId(line).None? then s.(lookedUp := s.lookedUp + 1) else s.(reader := Holding(line))
    case LookUp =>
      var (sh, ch) := Take(s.sh, ResponseId(s.reader.line).value);
      s.(sh := sh, lookedUp := s.lookedUp + 1,
         reader := if ch.None? then Reading else Delivering(s.reader.line, ch.value))
    case Deliver => s.(sh := Send(s.sh, s.reader.ch, s.reader.line), reader := Reading)
    case ChildGone => s.(reader := Draining)
    case Drain(id) => s.(sh := DrainOne(s.sh, id))
    case Close => s.(sh := CloseDead(s.sh), reader := Exited)
  }

  function Removes(s: State, c: nat, message: string): State
    requires c in s.clients && (s.clients[c].Registered? || s.clients[c].Waiting?)
  {
    var k := s.clients[c];
    s.(clients := s.clients[c := Removing(k.orig, k.iid, k.ch, k.regAt, message)])
  }

  /** Where the run that takes exactly the steps `ls` ends, if each of them is enabled in its turn. */
  function After(ls: seq<Label>): Option<State> {
    if ls == [] then Some(START)
    else
      var p := After(ls[..|ls| - 1]);
      if p.Some? && Enabled(p.value, ls[|ls| - 1]) then Some(Apply(p.value, ls[|ls| - 1])) else None
  }

  // ----- the invariant -----------------------------------------------------------------------

  predicate HasChannel(k: Client) {
    k.Registered? || k.Waiting? || k.Removing? || k.Answered?
  }

  predicate Open(k: Client) { k.Registered? || k.Waiting? || k.Removing? }

  /** The child's line `n`, written under `iid`, was looked up in `pending` when `from` others had been. */
  ghost predicate LookedUpSince(output: seq<Line>, lookedUp: nat, from: nat, iid: int, body: Body) {
    body.Child? ==>
      && from <= body.lineNo < lookedUp && lookedUp <= |output|
      && output[body.lineNo] == Line(Some(iid), body)
  }

  /** Every channel was sent at most one message, and that one carries the id the channel was made
      for; a child line in it was looked up after the channel was made. */
  ghost predicate ChanOk(output: seq<Line>, lookedUp: nat, c: Chan) {
    && c.bornAt <= lookedUp
    && c.dropped == 0
    && c.accepted <= 1
    && (c.buf.Some? ==> c.accepted == 1 && LineOk(output, lookedUp, c, c.buf.value))
  }

  ghost predicate LineOk(output: seq<Line>, lookedUp: nat, c: Chan, line: Line) {
    line.id == Some(c.iid) && LookedUpSince(output, lookedUp, c.bornAt, c.iid, line.body)
  }

  ghost predicate ChansOk(output: seq<Line>, lookedUp: nat, chans: seq<Chan>) {
    forall i :: 0 <= i < |chans| ==> ChanOk(output, lookedUp, chans[i])
  }

  ghost predicate Untouched(chans: seq<Chan>, ch: nat, iid: int) {
    ch < |chans| && chans[ch].iid == iid && chans[ch].accepted == 0 && chans[ch].buf.None?
  }

  /** The internal id was issued to a connection that has registered a channel under it. */
  ghost predicate Owned(issued: map<int, nat>, clients: map<nat, Client>, iid: int) {
    iid in issued && issued[iid] in clients
    && HasChannel(clients[issued[iid]]) && clients[issued[iid]].iid == iid
  }

  /** An entry of `pending` leads to the untouched channel of the unanswered request that owns it. */
  ghost predicate PendingOk(sh: Shared, issued: map<int, nat>, clients: map<nat, Client>) {
    forall id :: id in sh.pending ==>
      && Untouched(sh.chans, sh.pending[id], id)
      && (id != 1 ==> Owned(issued, clients, id) && !clients[issued[id]].Answered?
                      && clients[issued[id]].ch == sh.pending[id])
  }

  ghost predicate ReaderOk(s: State) {
    && s.sh.dead == s.reader.Exited?
    && (s.sh.dead ==> s.sh.pending.Keys <= {1})
    && (s.reader.Holding? ==> s.lookedUp < |s.output| && s.reader.line == s.output[s.lookedUp])
    && (s.reader.Delivering? ==>
          && s.reader.line.id.Some? && s.reader.line.body.Child?
          && var id := s.reader.line.id.value;
          && Untouched(s.sh.chans, s.reader.ch, id)
          && id !in s.sh.pending
          && LineOk(s.output, s.lookedUp, s.sh.chans[s.reader.ch], s.reader.line)
          && (id != 1 ==> Owned(s.issued, s.clients, id)))
  }

  ghost predicate InitOkay(init: Init, chans: seq<Chan>) {
    && (init.InitStart? ==> chans == [])
    && (init.InitRegistered? || init.InitWaiting? ==> init.ch0 < |chans| && chans[init.ch0].iid == 1)
  }

  ghost predicate ClientOk(sh: Shared, issued: map<int, nat>, c: nat, k: Client) {
    && (HasChannel(k) || k.HasId? ==> 2 <= k.iid <= sh.nextId && k.iid in issued && issued[k.iid] == c)
    && (HasChannel(k) ==> k.ch < |sh.chans| && sh.chans[k.ch].iid == k.iid && sh.chans[k.ch].bornAt == k.regAt)
  }

  ghost predicate ClientsOk(sh: Shared, issued: map<int, nat>, clients: map<nat, Client>) {
    && (forall id :: id in issued ==> 2 <= id <= sh.nextId)
    && (forall c :: c in clients ==> ClientOk(sh, issued, c, clients[c]))
  }

  /** The reply of a finished connection: right id, and if it forwards a child line then that line is
      one the child wrote under this connection's internal id, looked up after the registration. */
  ghost predicate ReplyOk(output: seq<Line>, lookedUp: nat, k: Client, r: Reply) {
    match r
    case Unrewritten(_) => false
    case Failed(id, _, _) => id == k.orig
    case Forwarded(id, body) =>
      && id == k.orig
      && k.Answered?
      && LookedUpSince(output, lookedUp, k.regAt, k.iid, body)
  }

  ghost predicate WireOk(output: seq<Line>, lookedUp: nat, clients: map<nat, Client>, wire: map<nat, seq<Reply>>) {
    && wire.Keys <= clients.Keys
    && (forall c :: c in clients ==>
          if clients[c].Finished? || clients[c].Answered?
          then c in wire && |wire[c]| == 1 && ReplyOk(output, lookedUp, clients[c], wire[c][0])
          else c !in wire)
  }

  /** Each line bears its number. */
  ghost predicate LinesOk(output: seq<Line>, lookedUp: nat) {
    lookedUp <= |output| && forall n :: 0 <= n < |output| ==> output[n].body.Child? && output[n].body.lineNo == n
  }

  ghost predicate Inv(s: State) {
    && 1 <= s.sh.nextId
    && (s.clients != map[] ==> s.init.InitOk?)
    && InitOkay(s.init, s.sh.chans)
    && LinesOk(s.output, s.lookedUp)
    && ChansOk(s.output, s.lookedUp, s.sh.chans)
    && PendingOk(s.sh, s.issued, s.clients)
    && ReaderOk(s)
    && ClientsOk(s.sh, s.issued, s.clients)
    && WireOk(s.output, s.lookedUp, s.clients, s.wire)
  }

  lemma InitKeepsInv(s: State, l: Label)
    requires Inv(s) && Enabled(s, l)
    requires l.InitRegister? || l.InitWritten? || l.InitReceive? || l.InitAbort?
    ensures Inv(Apply(s, l))
  {
  }

  lemma ParseErrorKeepsInv(s: State, l: Label)
    requires Inv(s) && Enabled(s, l)
    requires l.Connect? && l.request.None?
    ensures Inv(Apply(s, l))
  {
  }

  lemma ConnectKeepsInv(s: State, l: Label)
    requires Inv(s) && Enabled(s, l)
    requires l.Connect? && l.request.Some?
    ensures Inv(Apply(s, l))
  {
  }

  lemma RewriteFailsKeepsInv(s: State, l: Label)
    requires Inv(s) && Enabled(s, l)
    requires l.RewriteFails?
    ensures Inv(Apply(s, l))
  {
  }

  lemma TakeIdKeepsInv(s: State, l: Label)
    requires Inv(s) && Enabled(s, l)
    requires l.TakeId?
    ensures Inv(Apply(s, l))
  {
  }

  lemma WritesKeepInv(s: State, l: Label)
    requires Inv(s) && Enabled(s, l)
    requires l.Written? || l.WriteFails? || l.SeeDead? || l.TimeOut?
    ensures Inv(Apply(s, l))
  {
  }

  lemma RegisterKeepsInv(s: State, l: Label)
    requires Inv(s) && Enabled(s, l)
    requires l.RegisterIt?
    ensures Inv(Apply(s, l))
  {
  }

  lemma ReceiveKeepsInv(s: State, l: Label)
    requires Inv(s) && Enabled(s, l)
    requires l.Receive?
    ensures Inv(Apply(s, l))
  {
  }

  lemma RemoveKeepsInv(s: State, l: Label)
    requires Inv(s) && Enabled(s, l)
    requires l.RemoveAndFail?
    ensures Inv(Apply(s, l))
  {
  }

  /** What is said about lines already looked up stays true when the child writes another one, and when
      the reader looks up the next. */
  lemma LinesGrow(s: State, output: seq<Line>, lookedUp: nat)
    requires Inv(s) && s.output <= output && s.lookedUp <= lookedUp <= |output|
    ensures ChansOk(output, lookedUp, s.sh.chans)
    ensures WireOk(output, lookedUp, s.clients, s.wire)
  {
  }

  lemma ChildWritesKeepsInv(s: State, l: Label)
    requires Inv(s) && Enabled(s, l)
    requires l.ChildWrites?
    ensures Inv(Apply(s, l))
  {
    LinesGrow(s, Apply(s, l).output, s.lookedUp);
  }

  lemma ReadLineKeepsInv(s: State, l: Label)
    requires Inv(s) && Enabled(s, l)
    requires l.ReadLine?
    ensures Inv(Apply(s, l))
  {
    LinesGrow(s, s.output, s.lookedUp + 1);
  }

  lemma DroppedLineKeepsInv(s: State, l: Label)
    requires Inv(s) && Enabled(s, l)
    requires l.LookUp? && s.reader.line.id.value !in s.sh.pending
    ensures Inv(Apply(s, l))
  {
    LinesGrow(s, s.output, s.lookedUp + 1);
  }

  lemma RoutedLineKeepsInv(s: State, l: Label)
    requires Inv(s) && Enabled(s, l)
    requires l.LookUp? && s.reader.line.id.value in s.sh.pending
    ensures Inv(Apply(s, l))
  {
    LinesGrow(s, s.output, s.lookedUp + 1);
  }

  lemma DeliverKeepsInv(s: State, l: Label)
    requires Inv(s) && Enabled(s, l)
    requires l.Deliver? || l.ChildGone?
    ensures Inv(Apply(s, l))
  {
  }

  lemma DrainKeepsInv(s: State, l: Label)
    requires Inv(s) && Enabled(s, l)
    requires l.Drain? || l.Close?
    ensures Inv(Apply(s, l))
  {
  }

  /** Every step of every goroutine, the child's included, keeps the invariant. */
  lemma StepKeepsInv(s: State, l: Label)
    requires Inv(s) && Enabled(s, l)
    ensures Inv(Apply(s, l))
  {
    match l
    case InitRegister | InitWritten | InitReceive | InitAbort => InitKeepsInv(s, l);
    case Connect(_, r) => if r.None? { ParseErrorKeepsInv(s, l); } else { ConnectKeepsInv(s, l); }
    case RewriteFails(_) => RewriteFailsKeepsInv(s, l);
    case TakeId(_) => TakeIdKeepsInv(s, l);
    case Written(_) | WriteFails(_) | SeeDead(_) | TimeOut(_) => WritesKeepInv(s, l);
    case RegisterIt(_) => RegisterKeepsInv(s, l);
    case Receive(_) => ReceiveKeepsInv(s, l);
    case RemoveAndFail(_) => RemoveKeepsInv(s, l);
    case ChildWrites(_, _) => ChildWritesKeepsInv(s, l);
    case ReadLine => ReadLineKeepsInv(s, l);
    case LookUp =>
      if s.reader.line.id.value in s.sh.pending { RoutedLineKeepsInv(s, l); } else { DroppedLineKeepsInv(s, l); }
    case Deliver | ChildGone => DeliverKeepsInv(s, l);
    case Drain(_) | Close => DrainKeepsInv(s, l);
  }

  lemma {:induction false} RunKeepsInv(ls: seq<Label>)
    requires After(ls).Some?
    ensures Inv(After(ls).value)
  {
    if ls != [] {
      RunKeepsInv(ls[..|ls| - 1]);
      StepKeepsInv(After(ls[..|ls| - 1]).value, ls[|ls| - 1]);
    }
  }

  // ----- nobody is forgotten -----------------------------------------------------------------

  /** The request that waits at channel `ch` for id `iid` is still to be found, or the reader is about to
      send to its channel, or there is a message in it. */
  predicate InHand(s: State, iid: int, ch: nat) {
    || (iid in s.sh.pending && s.sh.pending[iid] == ch)
    || (s.reader.Delivering? && s.reader.ch == ch)
    || (ch < |s.sh.chans| && s.sh.chans[ch].buf.Some?)
  }

  ghost predicate AllInHand(s: State) {
    forall c :: c in s.clients && (s.clients[c].Registered? || s.clients[c].Waiting?) ==>
      InHand(s, s.clients[c].iid, s.clients[c].ch)
  }

  lemma LineKeepsInHand(s: State, l: Label)
    requires Inv(s) && AllInHand(s) && Enabled(s, l)
    requires l.ReadLine? || l.LookUp? || l.Deliver? || l.ChildGone?
    ensures AllInHand(Apply(s, l))
  {
  }

  lemma DrainKeepsInHand(s: State, l: Label)
    requires Inv(s) && AllInHand(s) && Enabled(s, l)
    requires l.Drain? || l.Close?
    ensures AllInHand(Apply(s, l))
  {
  }

  lemma RequestKeepsInHand(s: State, l: Label)
    requires Inv(s) && AllInHand(s) && Enabled(s, l)
    requires l.RegisterIt? || l.Receive? || l.RemoveAndFail?
    ensures AllInHand(Apply(s, l))
  {
  }

  lemma InitKeepsInHand(s: State, l: Label)
    requires Inv(s) && AllInHand(s) && Enabled(s, l)
    requires l.InitRegister? || l.InitWritten? || l.InitReceive? || l.InitAbort?
    ensures AllInHand(Apply(s, l))
  {
  }

  lemma WritesKeepInHand(s: State, l: Label)
    requires Inv(s) && AllInHand(s) && Enabled(s, l)
    requires l.Written? || l.WriteFails? || l.SeeDead? || l.TimeOut?
    ensures AllInHand(Apply(s, l))
  {
  }

  lemma ArrivalKeepsInHand(s: State, l: Label)
    requires Inv(s) && AllInHand(s) && Enabled(s, l)
    requires l.Connect? || l.TakeId? || l.RewriteFails? || l.ChildWrites?
    ensures AllInHand(Apply(s, l))
  {
  }

  lemma StepKeepsInHand(s: State, l: Label)
    requires Inv(s) && AllInHand(s) && Enabled(s, l)
    ensures AllInHand(Apply(s, l))
  {
    match l
    case ReadLine | LookUp | Deliver | ChildGone => LineKeepsInHand(s, l);
    case Drain(_) | Close => DrainKeepsInHand(s, l);
    case RegisterIt(_) | Receive(_) | RemoveAndFail(_) => RequestKeepsInHand(s, l);
    case InitRegister | InitWritten | InitReceive | InitAbort => InitKeepsInHand(s, l);
    case Written(_) | WriteFails(_) | SeeDead(_) | TimeOut(_) => WritesKeepInHand(s, l);
    case Connect(_, _) | TakeId(_) | RewriteFails(_) | ChildWrites(_, _) => ArrivalKeepsInHand(s, l);
  }

  lemma {:induction false} RunKeepsInHand(ls: seq<Label>)
    requires After(ls).Some?
    ensures AllInHand(After(ls).value)
  {
    if ls != [] {
      RunKeepsInv(ls[..|ls| - 1]);
      RunKeepsInHand(ls[..|ls| - 1]);
      StepKeepsInHand(After(ls[..|ls| - 1]).value, ls[|ls| - 1]);
    }
  }

  /** Once the broker is dead, every request that still waits has a message in its channel: none hangs
      until its timeout. */
  lemma NoWaiterIsForgotten(ls: seq<Label>, c: nat)
    requires After(ls).Some? && After(ls).value.sh.dead
    requires c in After(ls).value.clients && After(ls).value.clients[c].Waiting?
    ensures var s := After(ls).value;
      && s.clients[c].ch < |s.sh.chans| && s.sh.chans[s.clients[c].ch].buf.Some?
      && Enabled(s, Receive(c))
  {
    RunKeepsInv(ls);
    RunKeepsInHand(ls);
  }

  /** In every run, failing a pending request puts the notice into its channel, which was empty, and
      touches no other request. */
  lemma DrainedIsTold(ls: seq<Label>, id: int)
    requires After(ls).Some? && Enabled(After(ls).value, Drain(id))
    ensures var s, t := After(ls).value, Apply(After(ls).value, Drain(id));
      var ch := s.sh.pending[id];
      && s.sh.chans[ch].buf.None? && |t.sh.chans| == |s.sh.chans|
      && t.sh.chans[ch].buf == Some(Line(Some(id), ChildExited)) && id !in t.sh.pending
      && (forall i :: 0 <= i < |s.sh.chans| && i != ch ==> t.sh.chans[i] == s.sh.chans[i])
      && (forall j :: j in s.sh.pending && j != id ==> j in t.sh.pending && t.sh.pending[j] == s.sh.pending[j])
  {
    RunKeepsInv(ls);
  }

  // ----- what is said about the broker is true -----------------------------------------------

  /** The id of the initialize handshake is pending only while the handshake is under way. */
  ghost predicate InitInHand(s: State) {
    1 in s.sh.pending ==>
      (s.init.InitRegistered? || s.init.InitWaiting?) && s.sh.pending[1] == s.init.ch0
  }

  predicate SaysDead(message: string) {
    message == "cbm: MCP broker died" || message == "cbm: MCP broker not available"
  }

  /** Whoever is told that the broker is dead, or is about to be, is told so when it is. */
  ghost predicate DeathIsTrue(s: State) {
    && (forall c :: c in s.clients && s.clients[c].Removing? && SaysDead(s.clients[c].message) ==> s.sh.dead)
    && (forall c, i :: c in s.wire && 0 <= i < |s.wire[c]| && s.wire[c][i].Failed? && SaysDead(s.wire[c][i].message) ==>
          s.sh.dead)
  }

  lemma StepKeepsInitInHand(s: State, l: Label)
    requires Inv(s) && InitInHand(s) && Enabled(s, l)
    ensures InitInHand(Apply(s, l))
  {
  }

  lemma AnswerKeepsDeathTrue(s: State, l: Label)
    requires DeathIsTrue(s) && Enabled(s, l)
    requires l.Connect? || l.RewriteFails? || l.Receive? || l.RemoveAndFail?
    ensures DeathIsTrue(Apply(s, l))
  {
  }

  lemma RegisterKeepsDeathTrue(s: State, l: Label)
    requires DeathIsTrue(s) && Enabled(s, l) && l.RegisterIt?
    ensures DeathIsTrue(Apply(s, l))
  {
  }

  lemma StepKeepsDeathTrue(s: State, l: Label)
    requires DeathIsTrue(s) && Enabled(s, l)
    ensures DeathIsTrue(Apply(s, l))
  {
    match l
    case Connect(_, _) | RewriteFails(_) | Receive(_) | RemoveAndFail(_) => AnswerKeepsDeathTrue(s, l);
    case RegisterIt(_) => RegisterKeepsDeathTrue(s, l);
    case _ =>
  }

  lemma {:induction false} RunTellsTheTruth(ls: seq<Label>)
    requires After(ls).Some?
    ensures InitInHand(After(ls).value) && DeathIsTrue(After(ls).value)
  {
    if ls != [] {
      var p := After(ls[..|ls| - 1]).value;
      RunKeepsInv(ls[..|ls| - 1]);
      RunTellsTheTruth(ls[..|ls| - 1]);
      StepKeepsInitInHand(p, ls[|ls| - 1]);
      StepKeepsDeathTrue(p, ls[|ls| - 1]);
    }
  }

  /** A connection that is told that the broker died, or is not available, is told so by a dead broker. */
  lemma DeathIsReportedOnlyWhenDead(ls: seq<Label>, c: nat)
    requires After(ls).Some? && c in After(ls).value.wire && |After(ls).value.wire[c]| > 0
    requires var r := After(ls).value.wire[c][0];
      r.Failed? && (r.message == "cbm: MCP broker died" || r.message == "cbm: MCP broker not available")
    ensures After(ls).value.sh.dead
  {
    RunTellsTheTruth(ls);
    assert SaysDead(After(ls).value.wire[c][0].message);
  }

  // ----- what every run guarantees -----------------------------------------------------------

  /** A connection is written to at most once.  What it gets bears the id it sent; if it is a line
      of the child, then it is a line the child wrote under the internal id that was issued for this
      very connection, and one the reader looked up in `pending` after the request was registered. */
  lemma AnsweredAtMostOnceByOwnReply(ls: seq<Label>, c: nat)
    requires After(ls).Some? && c in After(ls).value.wire
    ensures var s := After(ls).value;
      && c in s.clients && |s.wire[c]| == 1
      && match s.wire[c][0]
         case Unrewritten(_) => false
         case Failed(id, _, _) => id == s.clients[c].orig
         case Forwarded(id, ChildExited) => id == s.clients[c].orig
         case Forwarded(id, Child(n, text)) =>
           && id == s.clients[c].orig
           && s.clients[c].Answered?
           && s.issued.Keys >= {s.clients[c].iid} && s.issued[s.clients[c].iid] == c
           && s.clients[c].regAt <= n < s.lookedUp <= |s.output|
           && s.output[n] == Line(Some(s.clients[c].iid), Child(n, text))
  {
    RunKeepsInv(ls);
  }

  /** No line of the child reaches two connections: in particular a reply that comes after its
      waiter gave up is not handed to anybody else. */
  lemma ChildLineReachesOneConnection(ls: seq<Label>, c1: nat, c2: nat)
    requires After(ls).Some?
    requires c1 in After(ls).value.wire && c2 in After(ls).value.wire && c1 != c2
    ensures var w := After(ls).value.wire;
      |w[c1]| == 1 && |w[c2]| == 1 &&
      (w[c1][0].Forwarded? && w[c1][0].body.Child? && w[c2][0].Forwarded? && w[c2][0].body.Child?
       ==> w[c1][0].body.lineNo != w[c2][0].body.lineNo)
  {
    RunKeepsInv(ls);
  }

  /** Once the broker is dead nothing is pending, except the request of a handshake that is under way. */
  lemma DeadHasNoPendingClient(ls: seq<Label>)
    requires After(ls).Some? && After(ls).value.sh.dead
    ensures var s := After(ls).value;
      && (forall id :: id in s.sh.pending ==> id == 1)
      && (!s.init.InitRegistered? && !s.init.InitWaiting? ==> s.sh.pending == map[])
  {
    RunKeepsInv(ls);
    RunTellsTheTruth(ls);
  }

  /** No non-blocking send ever finds its channel full, and a channel never gets a second message. */
  lemma ChannelGetsAtMostOneMessage(ls: seq<Label>, i: nat)
    requires After(ls).Some? && i < |After(ls).value.sh.chans|
    ensures After(ls).value.sh.chans[i].accepted <= 1 && After(ls).value.sh.chans[i].dropped == 0
  {
    RunKeepsInv(ls);
  }

  /** An internal id is issued once, and registering it overwrites nothing. */
  lemma IdsAreFresh(ls: seq<Label>, c: nat)
    requires After(ls).Some? && c in After(ls).value.clients
    ensures var s := After(ls).value;
      && (Enabled(s, TakeId(c)) ==>
        && s.sh.nextId + 1 >= 2 && s.sh.nextId + 1 !in s.issued
        && s.sh.nextId + 1 !in s.sh.pending)
      && (Enabled(s, RegisterIt(c)) ==> s.clients[c].iid !in s.sh.pending)
  {
    RunKeepsInv(ls);
  }

  lemma StepTakesNothingBack(s: State, l: Label)
    requires Inv(s) && Enabled(s, l)
    ensures NothingTakenBack(s, Apply(s, l))
  {
    WireOnlyGrows(s, l);
  }

  lemma AnswerStays(s: State, l: Label, c: nat)
    requires Enabled(s, l) && c in s.wire && c in s.clients && (s.clients[c].Finished? || s.clients[c].Answered?)
    ensures c in Apply(s, l).wire && Apply(s, l).wire[c] == s.wire[c]
  {
  }

  lemma WireOnlyGrows(s: State, l: Label)
    requires Inv(s) && Enabled(s, l)
    ensures forall c :: c in s.wire ==> c in Apply(s, l).wire && Apply(s, l).wire[c] == s.wire[c]
  {
    forall c | c in s.wire ensures c in Apply(s, l).wire && Apply(s, l).wire[c] == s.wire[c] {
      AnswerStays(s, l, c);
    }
  }

  ghost predicate NothingTakenBack(s: State, s': State) {
    && (s.sh.dead ==> s'.sh.dead)
    && s.output <= s'.output
    && (forall c :: c in s.wire ==> c in s'.wire && s'.wire[c] == s.wire[c])
    && (forall id :: id in s.issued ==> id in s'.issued && s'.issued[id] == s.issued[id])
    && (forall c :: c in s.clients ==> c in s'.clients && s'.clients[c].orig == s.clients[c].orig)
  }

  /** Along a run: death is final, an answer is final, an internal id stays with its connection, and
      the id that a connection sent is the one that is kept for its answer. */
  lemma {:induction false} RunTakesNothingBack(ls: seq<Label>, n: nat)
    requires n <= |ls| && After(ls).Some?
    ensures After(ls[..n]).Some? && NothingTakenBack(After(ls[..n]).value, After(ls).value)
  {
    if n == |ls| {
      assert ls[..n] == ls;
    } else {
      var ms := ls[..|ls| - 1];
      assert ms[..n] == ls[..n];
      RunTakesNothingBack(ms, n);
      RunKeepsInv(ms);
      StepTakesNothingBack(After(ms).value, ls[|ls| - 1]);
    }
  }

  /** The id a connection is answered with is the id that was in its request, and `Null` exactly
      when the request could not be parsed or had none. */
  lemma {:induction false} OrigIsWhatWasSent(ls: seq<Label>, c: nat)
    requires After(ls).Some? && c in After(ls).value.clients
    ensures exists i :: 0 <= i < |ls| && SentWith(ls[i], c, After(ls).value.clients[c].orig)
  {
    var ms := ls[..|ls| - 1];
    if c in After(ms).value.clients {
      OrigIsWhatWasSent(ms, c);
      RunTakesNothingBack(ls, |ms|);
      var i :| 0 <= i < |ms| && SentWith(ms[i], c, After(ms).value.clients[c].orig);
      assert ls[i] == ms[i];
    } else {
      assert SentWith(ls[|ms|], c, After(ls).value.clients[c].orig);
    }
  }

  predicate SentWith(l: Label, c: nat, id: JsonId) {
    l.Connect? && l.c == c && (if l.request.None? then id == Null else id == l.request.value)
  }

  // ----- a line written ahead of the request -------------------------------------------------

  lemma Extend(ls: seq<Label>, l: Label)
    requires After(ls).Some? && Enabled(After(ls).value, l)
    ensures After(ls + [l]) == Some(Apply(After(ls).value, l))
  {
    assert (ls + [l])[..|ls|] == ls;
  }

  /** The handshake goes through. */
  lemma Initialised() returns (ls: seq<Label>)
    ensures After(ls).Some?
    ensures var s := After(ls).value;
      && s.sh.nextId == 1 && s.sh.pending == map[] && |s.sh.chans| == 1 && !s.sh.dead
      && s.reader.Reading? && s.init.InitOk? && s.clients == map[] && s.wire == map[] && s.lookedUp == |s.output| == 1
  {
    ls := [];
    assert After(ls) == Some(START);
    Extend(ls, InitRegister);
    ls := ls + [InitRegister];
    Extend(ls, InitWritten);
    ls := ls + [InitWritten];
    Extend(ls, ChildWrites(Some(1), "{}"));
    ls := ls + [ChildWrites(Some(1), "{}")];
    Extend(ls, ReadLine);
    ls := ls + [ReadLine];
    Extend(ls, LookUp);
    ls := ls + [LookUp];
    Extend(ls, Deliver);
    ls := ls + [Deliver];
    Extend(ls, InitReceive);
    ls := ls + [InitReceive];
    assert After(ls).value.sh.pending == map[];
  }

  /** The child guesses the next id: its line has been read when the request is registered. */
  lemma LineIsReadFirst(text: string) returns (ls: seq<Label>)
    ensures After(ls).Some?
    ensures var s := After(ls).value;
      && s.sh.pending == map[] && |s.sh.chans| == 1 && !s.sh.dead && s.lookedUp == 1 && s.wire == map[]
      && |s.output| == 2 && s.output[1] == Line(Some(2), Child(1, text)) && s.reader == Holding(s.output[1])
      && 0 in s.clients && s.clients[0] == HasId(Null, 2)
  {
    ls := Initialised();
    Extend(ls, Connect(0, Some(Null)));
    ls := ls + [Connect(0, Some(Null))];
    Extend(ls, TakeId(0));
    ls := ls + [TakeId(0)];
    Extend(ls, ChildWrites(Some(2), text));
    ls := ls + [ChildWrites(Some(2), text)];
    Extend(ls, ReadLine);
    ls := ls + [ReadLine];
  }

  /** Then it is registered, and only then the line is looked up. */
  lemma LineIsRouted(text: string) returns (ls: seq<Label>, n: nat)
    ensures n <= |ls| && After(ls).Some? && After(ls[..n]).Some?
    ensures var s := After(ls[..n]).value;
      0 in s.clients && s.clients[0].HasId? && 1 < |s.output| && s.reader == Holding(s.output[1])
    ensures var t := After(ls).value;
      && |t.sh.chans| == 2 && t.sh.chans[1].buf.None? && t.wire == map[]
      && t.reader == Delivering(Line(Some(2), Child(1, text)), 1)
      && 0 in t.clients && t.clients[0] == Registered(Null, 2, 1, 1)
  {
    ls := LineIsReadFirst(text);
    n := |ls|;
    var first := ls;
    Extend(ls, RegisterIt(0));
    ls := ls + [RegisterIt(0)];
    Extend(ls, LookUp);
    ls := ls + [LookUp];
    assert ls[..n] == first;
  }

  /** The reader is never stuck: whatever the next line is, it can deal with it on its own and be ready
      for the one after it. */
  lemma ReaderDealsWithTheNextLine(ls: seq<Label>) returns (ms: seq<Label>)
    requires After(ls).Some?
    requires After(ls).value.reader.Reading? && After(ls).value.lookedUp < |After(ls).value.output|
    ensures ls <= ms && After(ms).Some?
    ensures var s, t := After(ls).value, After(ms).value;
      t.reader.Reading? && t.lookedUp == s.lookedUp + 1 && t.output == s.output && t.clients == s.clients
  {
    RunKeepsInv(ls);
    Extend(ls, ReadLine);
    ms := ls + [ReadLine];
    if After(ms).value.reader.Holding? {
      ms := LineIsLookedUp(ms);
    }
  }

  lemma LineIsLookedUp(ls: seq<Label>) returns (ms: seq<Label>)
    requires After(ls).Some? && After(ls).value.reader.Holding? && After(ls).value.reader.line.id.Some?
    ensures ls <= ms && After(ms).Some?
    ensures var s, t := After(ls).value, After(ms).value;
      t.reader.Reading? && t.lookedUp == s.lookedUp + 1 && t.output == s.output && t.clients == s.clients
  {
    Extend(ls, LookUp);
    ms := ls + [LookUp];
    RunKeepsInv(ms);
    if After(ms).value.reader.Delivering? {
      Extend(ms, Deliver);
      ms := ms + [Deliver];
    }
  }

  /** A line can be the answer to a request although the child wrote it, and the reader had read it,
      before the request was registered: `n` steps into this run it is there and the request is not. */
  lemma EarlyLineIsForwarded(text: string) returns (ls: seq<Label>, n: nat)
    ensures n <= |ls| && After(ls).Some? && After(ls[..n]).Some?
    ensures var s := After(ls[..n]).value;
      0 in s.clients && s.clients[0].HasId? && 1 < |s.output| && s.reader == Holding(s.output[1])
    ensures var t := After(ls).value;
      0 in t.wire && t.wire[0] == [Forwarded(Null, Child(1, text))]
  {
    ls, n := LineIsRouted(text);
    var routed := ls;
    Extend(ls, Deliver);
    ls := ls + [Deliver];
    Extend(ls, Written(0));
    ls := ls + [Written(0)];
    Extend(ls, Receive(0));
    ls := ls + [Receive(0)];
    assert ls[..n] == routed[..n];
  }
}
