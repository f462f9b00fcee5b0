/**
The handlers as code over the shared store and node objects. Before each of its actions a
handler yields: any number of other workers, blocks, faults and crashes may happen there.
The ghost `trace` records every action of everyone, and `Valid` says that the objects are
where the step system is after that trace. So each handler, in every interleaving, is a
run of the step system, and the theorems about runs are theorems about this code.
*/
module Pipeline {

  import opened Common
  import opened States
  import opened Chain
  import opened Store
  import opened Protocol
  import opened MemoryStore
  import opened MockNode
  import opened Fencing

  /** How a handler ends: with a row, fenced out, or with an exception. */
  datatype HandlerResult = Stepped(row: Row) | LostClaim | HandlerError

  function Result(reply: CasReply): HandlerResult {
    match reply
    case Accepted(row) => Stepped(row)
    case TokenMismatch => LostClaim
    case NotAllowed => HandlerError
  }

  /** Everything of a drive that a handler in progress does not touch. */
  predicate SameTurn(d: Drive, d': Drive) {
    d'.worker == d.worker && d'.id == d.id && d'.base == d.base && d'.steps == d.steps && d'.advanced == d.advanced
  }

  /** The drive `d` after its handler ended with `r`. */
  predicate Ended(d: Drive, d': Drive, r: HandlerResult) {
    match r
    case Stepped(row) => d' == Returned(d, row)
    case LostClaim => SameTurn(d, d') && d'.pc == Done(Fenced)
    case HandlerError => SameTurn(d, d') && d'.pc == Raised
  }

  /** The drives in `mine` are all there and as they were. */
  ghost predicate Kept(mine: set<nat>, before: seq<Drive>, after: seq<Drive>) {
    forall j :: j in mine ==> j < |before| && j < |after| && after[j] == before[j]
  }

  /** How often the drives in `mine` were thrown an exception or crashed from outside. */
  function Interference(trace: seq<Action>, mine: set<nat>): nat {
    if trace == [] then 0
    else
      var a := trace[|trace| - 1];
      Interference(trace[..|trace| - 1], mine) + if (a.Throw? || a.Crash?) && a.i in mine then 1 else 0
  }

  lemma CalmSnoc(trace: seq<Action>, a: Action)
    requires !a.Throw? && !a.Crash?
    ensures forall mine :: Interference(trace + [a], mine) == Interference(trace, mine)
  {
    assert (trace + [a])[..|trace|] == trace;
  }

  /** The trace has grown, without an exception or a crash for any drive in `mine`. */
  ghost predicate Undisturbed(mine: set<nat>, before: seq<Action>, after: seq<Action>) {
    before <= after && Interference(after, mine) == Interference(before, mine)
  }

  class Pipeline {
    const c: Config
    const setup: Setup
    const store: MemoryStore
    const node: MockTronNode
    ghost var drives: seq<Drive>
    ghost var clock: int
    ghost var trace: seq<Action>

    ghost function World(): Sys
      requires node.Valid()
      reads this, store, node
    {
      Sys(store.View(), node.View(), drives, clock)
    }

    ghost predicate Valid()
      reads this, store, node
    {
      node.Valid() && !c.clockFirst && World() == Exec(c, Init(setup), trace)
    }

    constructor (c: Config, setup: Setup)
      requires !c.clockFirst
      ensures Valid() && trace == [] && this.c == c && this.setup == setup
      ensures fresh(store) && fresh(node)
    {
      this.c, this.setup := c, setup;
      store := new MemoryStore();
      node := new MockTronNode(setup.lag, setup.delay, setup.key, setup.start);
      drives, clock, trace := [], setup.start, [];
    }

    ghost predicate Mine(mine: set<nat>, i: nat)
      reads this
    {
      i in mine && forall j :: j in mine ==> j < |drives|
    }

    /** Drive `i`, of this worker, has the row `op` of operation `id` in hand. */
    ghost predicate Holding(mine: set<nat>, i: nat, id: OpId, op: Row, worker: WorkerId)
      reads this, store, node
    {
      Valid() && Mine(mine, i) && drives[i].id == id && drives[i].op == op && drives[i].worker == worker
    }

    // -------------------------------------------------------------- single actions

    /** The rest of the world runs for a while; then the clock is read. */
    method Yield(ghost mine: set<nat>) returns (now: int)
      requires Valid() && forall j :: j in mine ==> j < |drives|
      modifies this, store, node
      ensures Valid() && Undisturbed(mine, old(trace), trace) && Kept(mine, old(drives), drives)
    {
      now := 0;
    }

    /** What just happened to the objects was the next action of drive `i`. */
    ghost method Record(i: nat, now: int, before: Sys)
      requires node.Valid() && !c.clockFirst
      requires before == Exec(c, Init(setup), trace) && drives == before.drives
      requires i < |drives| && |before.node.times| > 0
      requires var r := DriveStep(c, before.db, before.node, drives[i], now);
        store.View() == r.db && node.View() == r.node
      modifies this`drives, this`clock, this`trace
      ensures Valid() && trace == old(trace) + [Act(i, now)]
      ensures forall mine :: Interference(trace, mine) == Interference(old(trace), mine)
      ensures drives == old(drives)[i := DriveStep(c, before.db, before.node, old(drives)[i], now).drive]
    {
      ExecSnoc(c, Init(setup), trace, Act(i, now));
      CalmSnoc(trace, Act(i, now));
      drives := drives[i := DriveStep(c, before.db, before.node, drives[i], now).drive];
      clock, trace := now, trace + [Act(i, now)];
    }

    /** A node call or a clock reading, after the fact. */
    ghost method RecordRead(i: nat, now: int, before: Sys)
      requires node.Valid() && !c.clockFirst
      requires before == Exec(c, Init(setup), trace) && drives == before.drives
      requires i < |drives| && |before.node.times| > 0
      requires Running(drives[i].pc) && Plan(c, drives[i], now).None?
      requires store.View() == before.db && node.View() == ReadStep(c, before.node, drives[i], now).0
      modifies this`drives, this`clock, this`trace
      ensures Valid() && trace == old(trace) + [Act(i, now)]
      ensures forall mine :: Interference(trace, mine) == Interference(old(trace), mine)
      ensures drives == old(drives)[i := ReadStep(c, before.node, old(drives)[i], now).1]
    {
      Record(i, now, before);
    }

    /** The fenced write every handler goes through. */
    method Write(ghost mine: set<nat>, ghost i: nat, id: OpId, op: Row, worker: WorkerId, p: CasPlan, now: int)
      returns (reply: CasReply)
      requires Holding(mine, i, id, op, worker) && Running(drives[i].pc) && Plan(c, drives[i], now) == Some(p)
      modifies this, store, node
      ensures Valid() && Undisturbed(mine, old(trace), trace) && Mine(mine, i) && Kept(mine - {i}, old(drives), drives)
      ensures var d := old(drives[i]);
        match reply
        case Accepted(row) => drives[i] == AfterWrite(d, row) && (p.patch.signed.Keep? ==> row.signed == op.signed)
        case TokenMismatch => drives[i] == d.(pc := Done(Fenced))
        case NotAllowed => drives[i] == d.(pc := Raised)
    {
      ghost var before := World();
      if CasHits(before.db, id, op.token, op.state) {
        HitsOwnSnapshot(c, setup, trace, i);
      }
      reply := store.Cas(id, op.token, op.state, p.to, p.patch, p.detail, Some(c.leaseMs), worker, now);
      Record(i, now, before);
    }

    /** Yield, then a write that does not depend on the time. */
    method WriteNow(ghost mine: set<nat>, ghost i: nat, id: OpId, op: Row, worker: WorkerId, p: CasPlan)
      returns (reply: CasReply)
      requires Holding(mine, i, id, op, worker) && Running(drives[i].pc)
      requires forall now :: Plan(c, drives[i], now) == Some(p)
      modifies this, store, node
      ensures Valid() && Undisturbed(mine, old(trace), trace) && Mine(mine, i) && Kept(mine - {i}, old(drives), drives)
      ensures var d := old(drives[i]);
        match reply
        case Accepted(row) => drives[i] == AfterWrite(d, row) && (p.patch.signed.Keep? ==> row.signed == op.signed)
        case TokenMismatch => drives[i] == d.(pc := Done(Fenced))
        case NotAllowed => drives[i] == d.(pc := Raised)
    {
      var now := Yield(mine);
      reply := Write(mine, i, id, op, worker, p, now);
    }

    /** A write that ends the handler. */
    method WriteAndReturn(ghost mine: set<nat>, ghost i: nat, id: OpId, op: Row, worker: WorkerId,
                          p: CasPlan, now: int)
      returns (r: HandlerResult)
      requires Holding(mine, i, id, op, worker) && Running(drives[i].pc) && Plan(c, drives[i], now) == Some(p)
      requires !drives[i].pc.Envelope? && !drives[i].pc.Announce? && !(drives[i].pc.Ready? && op.state == Validated)
      modifies this, store, node
      ensures Valid() && Undisturbed(mine, old(trace), trace) && Mine(mine, i)
      ensures Ended(old(drives[i]), drives[i], r) && Kept(mine - {i}, old(drives), drives)
    {
      var reply := Write(mine, i, id, op, worker, p, now);
      r := Result(reply);
    }

    method ReadRef(ghost mine: set<nat>, ghost i: nat) returns (ref: int)
      requires Valid() && Mine(mine, i)
      requires drives[i].pc.Build? || (drives[i].pc.Ready? && drives[i].op.state == Signing)
      requires drives[i].op.attempts < c.maxAttempts
      modifies this, store, node
      ensures Valid() && Undisturbed(mine, old(trace), trace) && Mine(mine, i) && Kept(mine - {i}, old(drives), drives)
      ensures drives[i] == old(drives[i]).(pc := HaveRef(ref))
    {
      var now := Yield(mine);
      ghost var before := World();
      ref := node.ReferenceBlock();
      RecordRead(i, now, before);
    }

    method ReadClock(ghost mine: set<nat>, ghost i: nat, op: Row, ref: int) returns (raw: RawData)
      requires Valid() && Mine(mine, i) && drives[i].pc == HaveRef(ref) && drives[i].op == op
      modifies this, store, node
      ensures Valid() && Undisturbed(mine, old(trace), trace) && Mine(mine, i) && Kept(mine - {i}, old(drives), drives)
      ensures drives[i] == old(drives[i]).(pc := Envelope(raw))
    {
      var now := Yield(mine);
      ghost var before := World();
      raw := RawData(op.to, op.amount, ref, now, now + c.ttlMs);
      RecordRead(i, now, before);
    }

    method CheckExpiry(ghost mine: set<nat>, ghost i: nat, tx: SignedTx) returns (expired: bool)
      requires Valid() && Mine(mine, i)
      requires drives[i].pc.Ready? && drives[i].op.state == Signed && drives[i].op.signed == Some(tx)
      modifies this, store, node
      ensures Valid() && Undisturbed(mine, old(trace), trace) && Mine(mine, i) && Kept(mine - {i}, old(drives), drives)
      ensures drives[i] == old(drives[i]).(pc := if expired then Retire(ExpiredUnsent, NeverBroadcast) else Announce)
    {
      var now := Yield(mine);
      ghost var before := World();
      expired := now >= tx.expiration;
      RecordRead(i, now, before);
    }

    method Send(ghost mine: set<nat>, ghost i: nat, worker: WorkerId, tx: SignedTx) returns (answer: Answer)
      requires Valid() && Mine(mine, i)
      requires drives[i].pc.Wire? && drives[i].op.signed == Some(tx) && drives[i].worker == worker
      modifies this, store, node
      ensures Valid() && Undisturbed(mine, old(trace), trace) && Mine(mine, i) && Kept(mine - {i}, old(drives), drives)
      ensures var d := old(drives[i]);
              drives[i] == if answer.Timeout? then Returned(d, d.op) else d.(pc := Settle(answer.code))
    {
      var now := Yield(mine);
      ghost var before := World();
      answer := node.Broadcast(tx, worker, now);
      RecordRead(i, now, before);
    }

    method Lookup(ghost mine: set<nat>, ghost i: nat, tx: SignedTx) returns (status: TxStatus)
      requires Valid() && Mine(mine, i)
      requires drives[i].pc.Ready? && drives[i].op.state in {Broadcasting, Broadcast}
      requires drives[i].op.signed == Some(tx)
      modifies this, store, node
      ensures Valid() && Undisturbed(mine, old(trace), trace) && Mine(mine, i) && Kept(mine - {i}, old(drives), drives)
      ensures status.QueryFailed? ==> drives[i] == Returned(old(drives[i]), old(drives[i].op))
      ensures status.Unknown? ==> drives[i].pc.LookedUp? && drives[i] == old(drives[i]).(pc := drives[i].pc)
      ensures status.Pending? || status.Included? ==>
                var d := old(drives[i]);
                drives[i] == if d.op.state == Broadcasting then d.(pc := Found)
                             else if status.Included? && status.solid then d.(pc := Landed(status.block, status.receipt))
                             else Returned(d, d.op)
    {
      var now := Yield(mine);
      ghost var before := World();
      status := node.FindTx(tx.txid, now);
      RecordRead(i, now, before);
    }

    /** Chain time is read after the lookup, as a second call. */
    method ProofOfDeath(ghost mine: set<nat>, ghost i: nat, tx: SignedTx) returns (dead: bool, evidence: Evidence)
      requires Valid() && Mine(mine, i) && drives[i].pc.LookedUp? && drives[i].op.signed == Some(tx)
      modifies this, store, node
      ensures Valid() && Undisturbed(mine, old(trace), trace) && Mine(mine, i) && Kept(mine - {i}, old(drives), drives)
      ensures evidence.ChainProof? && dead == (evidence.solidTime >= evidence.deadline)
      ensures var d := old(drives[i]);
        drives[i] == if dead then d.(pc := Retire(if d.op.state == Broadcasting then ExpiredUnseen else NeverMined, evidence))
                     else KeepWaiting(d)
    {
      var now := Yield(mine);
      ghost var before := World();
      var solid := node.SolidTime();
      var deadline := tx.expiration + c.marginMs;
      dead, evidence := solid >= deadline, ChainProof(solid, deadline);
      RecordRead(i, now, before);
    }

    /** A missing envelope or a state without a handler is an exception. */
    method Fail(ghost mine: set<nat>, ghost i: nat)
      requires Valid() && Mine(mine, i)
      requires drives[i].pc.Ready? && drives[i].op.state !in {Requested, Validated, Signing}
      requires drives[i].op.state in {Signed, Broadcasting, Broadcast} ==> drives[i].op.signed.None?
      modifies this, store, node
      ensures Valid() && Undisturbed(mine, old(trace), trace) && Mine(mine, i) && Kept(mine - {i}, old(drives), drives)
      ensures drives[i] == old(drives[i]).(pc := Raised)
    {
      var now := Yield(mine);
      ghost var before := World();
      RecordRead(i, now, before);
    }

    /** The node was busy: keep the row, the same bytes go out again next time. */
    method Shrug(ghost mine: set<nat>, ghost i: nat)
      requires Valid() && Mine(mine, i) && drives[i].pc == Settle(ServerBusy) && drives[i].op.signed.Some?
      modifies this, store, node
      ensures Valid() && Undisturbed(mine, old(trace), trace) && Mine(mine, i) && Kept(mine - {i}, old(drives), drives)
      ensures drives[i] == Returned(old(drives[i]), old(drives[i]).op)
    {
      var now := Yield(mine);
      ghost var before := World();
      RecordRead(i, now, before);
    }

    // -------------------------------------------------------------- validate

    method Validate(ghost mine: set<nat>, ghost i: nat, id: OpId, op: Row, worker: WorkerId)
      returns (r: HandlerResult)
      requires Holding(mine, i, id, op, worker) && drives[i].pc == Ready && op.state == Requested
      modifies this, store, node
      ensures Valid() && Undisturbed(mine, old(trace), trace) && Mine(mine, i)
      ensures Ended(old(drives[i]), drives[i], r) && Kept(mine - {i}, old(drives), drives)
    {
      var p;
      if !c.addressOk(op.to) {
        p := CasPlan(Rejected, Patch(failure := Set(Some(InvalidAddress))), NoDetail);
      } else if op.asset != c.asset {
        p := CasPlan(Rejected, Patch(failure := Set(Some(UnsupportedAsset(op.asset)))), NoDetail);
      } else if !(c.minAmount <= op.amount <= c.maxAmount) {
        p := CasPlan(Rejected, Patch(failure := Set(Some(AmountOutOfBounds))), NoDetail);
      } else {
        p := CasPlan(Validated, Patch(), NoDetail);
      }
      var now := Yield(mine);
      r := WriteAndReturn(mine, i, id, op, worker, p, now);
    }

    // -------------------------------------------------------------- build and sign

    method BuildAndSign(ghost mine: set<nat>, ghost i: nat, id: OpId, op: Row, worker: WorkerId)
      returns (r: HandlerResult)
      requires Holding(mine, i, id, op, worker) && drives[i].pc == Ready && op.state in {Validated, Signing}
      modifies this, store, node
      ensures Valid() && Undisturbed(mine, old(trace), trace) && Mine(mine, i)
      ensures Ended(old(drives[i]), drives[i], r) && Kept(mine - {i}, old(drives), drives)
    {
      if op.state == Signing {
        r := BuildEnvelope(mine, i, id, op, worker);
        return;
      }
      var reply := WriteNow(mine, i, id, op, worker, CasPlan(Signing, Patch(), NoDetail));
      if reply.Accepted? {
        r := BuildEnvelope(mine, i, id, reply.row, worker);
      } else {
        r := Result(reply);
      }
    }

    /** Give up after too many attempts; otherwise reference block, clock, envelope. */
    method BuildEnvelope(ghost mine: set<nat>, ghost i: nat, id: OpId, op: Row, worker: WorkerId)
      returns (r: HandlerResult)
      requires Holding(mine, i, id, op, worker)
      requires (drives[i].pc.Build? || (drives[i].pc.Ready? && op.state == Signing))
      modifies this, store, node
      ensures Valid() && Undisturbed(mine, old(trace), trace) && Mine(mine, i)
      ensures Ended(old(drives[i]), drives[i], r) && Kept(mine - {i}, old(drives), drives)
    {
      if op.attempts >= c.maxAttempts {
        var now := Yield(mine);
        r := WriteAndReturn(mine, i, id, op, worker,
                            CasPlan(Failed, Patch(failure := Set(Some(GaveUp(op.attempts)))), NoDetail), now);
      } else {
        var ref := ReadRef(mine, i);
        var raw := ReadClock(mine, i, op, ref);
        r := PersistEnvelope(mine, i, id, op, worker, raw);
      }
    }

    /** The txid is durable before a signature exists. */
    method PersistEnvelope(ghost mine: set<nat>, ghost i: nat, id: OpId, op: Row, worker: WorkerId, raw: RawData)
      returns (r: HandlerResult)
      requires Holding(mine, i, id, op, worker) && drives[i].pc == Envelope(raw)
      modifies this, store, node
      ensures Valid() && Undisturbed(mine, old(trace), trace) && Mine(mine, i)
      ensures Ended(old(drives[i]), drives[i], r) && Kept(mine - {i}, old(drives), drives)
    {
      var reply := WriteNow(mine, i, id, op, worker, EnvelopePlan(raw));
      if reply.Accepted? {
        r := SignEnvelope(mine, i, id, reply.row, worker, raw);
      } else {
        r := Result(reply);
      }
    }

    method SignEnvelope(ghost mine: set<nat>, ghost i: nat, id: OpId, op: Row, worker: WorkerId, raw: RawData)
      returns (r: HandlerResult)
      requires Holding(mine, i, id, op, worker) && drives[i].pc == ToSign(raw)
      modifies this, store, node
      ensures Valid() && Undisturbed(mine, old(trace), trace) && Mine(mine, i)
      ensures Ended(old(drives[i]), drives[i], r) && Kept(mine - {i}, old(drives), drives)
    {
      var signed := Sign(c.signer, raw);
      var now := Yield(mine);
      r := WriteAndReturn(mine, i, id, op, worker, CasPlan(Signed, Patch(signed := Set(Some(signed))), NoDetail), now);
    }

    // -------------------------------------------------------------- broadcast

    method BroadcastFirst(ghost mine: set<nat>, ghost i: nat, id: OpId, op: Row, worker: WorkerId)
      returns (r: HandlerResult)
      requires Holding(mine, i, id, op, worker) && drives[i].pc == Ready && op.state == Signed
      modifies this, store, node
      ensures Valid() && Undisturbed(mine, old(trace), trace) && Mine(mine, i)
      ensures Ended(old(drives[i]), drives[i], r) && Kept(mine - {i}, old(drives), drives)
    {
      if op.signed.None? {
        Fail(mine, i);
        r := HandlerError;
      } else {
        r := CheckAndSend(mine, i, id, op, worker, op.signed.value);
      }
    }

    method CheckAndSend(ghost mine: set<nat>, ghost i: nat, id: OpId, op: Row, worker: WorkerId, tx: SignedTx)
      returns (r: HandlerResult)
      requires Holding(mine, i, id, op, worker) && drives[i].pc == Ready && op.state == Signed && op.signed == Some(tx)
      modifies this, store, node
      ensures Valid() && Undisturbed(mine, old(trace), trace) && Mine(mine, i)
      ensures Ended(old(drives[i]), drives[i], r) && Kept(mine - {i}, old(drives), drives)
    {
      var expired := CheckExpiry(mine, i, tx);
      if expired {
        r := Rebuild(mine, i, id, op, worker, ExpiredUnsent, NeverBroadcast);
      } else {
        r := AnnounceAndSend(mine, i, id, op, worker, tx);
      }
    }

    /** Write ahead, then touch the wire. */
    method AnnounceAndSend(ghost mine: set<nat>, ghost i: nat, id: OpId, op: Row, worker: WorkerId, tx: SignedTx)
      returns (r: HandlerResult)
      requires Holding(mine, i, id, op, worker) && drives[i].pc == Announce && op.signed == Some(tx)
      modifies this, store, node
      ensures Valid() && Undisturbed(mine, old(trace), trace) && Mine(mine, i)
      ensures Ended(old(drives[i]), drives[i], r) && Kept(mine - {i}, old(drives), drives)
    {
      var reply := WriteNow(mine, i, id, op, worker, CasPlan(Broadcasting, Patch(), WriteAhead(tx.txid)));
      if reply.Accepted? {
        r := Transmit(mine, i, id, reply.row, worker, tx);
      } else {
        r := Result(reply);
      }
    }

    method Transmit(ghost mine: set<nat>, ghost i: nat, id: OpId, op: Row, worker: WorkerId, tx: SignedTx)
      returns (r: HandlerResult)
      requires Holding(mine, i, id, op, worker) && drives[i].pc == Wire && op.signed == Some(tx)
      modifies this, store, node
      ensures Valid() && Undisturbed(mine, old(trace), trace) && Mine(mine, i)
      ensures Ended(old(drives[i]), drives[i], r) && Kept(mine - {i}, old(drives), drives)
    {
      var answer := Send(mine, i, worker, tx);
      if answer.Timeout? {
        return Stepped(op);
      }
      r := SettleBroadcastResult(mine, i, id, op, worker, tx, answer.code);
    }

    method SettleBroadcastResult(ghost mine: set<nat>, ghost i: nat, id: OpId, op: Row, worker: WorkerId,
                                 tx: SignedTx, code: Code)
      returns (r: HandlerResult)
      requires Holding(mine, i, id, op, worker) && drives[i].pc == Settle(code) && op.signed == Some(tx)
      modifies this, store, node
      ensures Valid() && Undisturbed(mine, old(trace), trace) && Mine(mine, i)
      ensures Ended(old(drives[i]), drives[i], r) && Kept(mine - {i}, old(drives), drives)
    {
      if code == ServerBusy {
        Shrug(mine, i);
        return Stepped(op);
      }
      var now := Yield(mine);
      var p;
      if code in {CodeSuccess, DupTransaction} {
        p := CasPlan(Broadcast, Patch(broadcastAt := Set(Some(now))), Answered(tx.txid, code));
      } else if code in {SigError, ContractValidateError} {
        p := CasPlan(Failed, Patch(failure := Set(Some(NodeRejected(code)))), Answered(tx.txid, code));
      } else if code in {TaposError, ExpirationError} {
        p := CasPlan(Broadcasting, Patch(lastError := Set(Some(AwaitingProof(code)))), Answered(tx.txid, code));
      } else {
        p := CasPlan(Broadcasting, Patch(lastError := Set(Some(Unclassified(code)))), Answered(tx.txid, code));
      }
      r := WriteAndReturn(mine, i, id, op, worker, p, now);
    }

    // -------------------------------------------------------------- reconcile and confirm

    method ReconcileBroadcast(ghost mine: set<nat>, ghost i: nat, id: OpId, op: Row, worker: WorkerId)
      returns (r: HandlerResult)
      requires Holding(mine, i, id, op, worker) && drives[i].pc == Ready && op.state == Broadcasting
      modifies this, store, node
      ensures Valid() && Undisturbed(mine, old(trace), trace) && Mine(mine, i)
      ensures Ended(old(drives[i]), drives[i], r) && Kept(mine - {i}, old(drives), drives)
    {
      if op.signed.None? {
        Fail(mine, i);
        r := HandlerError;
      } else {
        r := LookUpAndReconcile(mine, i, id, op, worker, op.signed.value);
      }
    }

    method LookUpAndReconcile(ghost mine: set<nat>, ghost i: nat, id: OpId, op: Row, worker: WorkerId, tx: SignedTx)
      returns (r: HandlerResult)
      requires Holding(mine, i, id, op, worker) && drives[i].pc == Ready && op.state == Broadcasting && op.signed == Some(tx)
      modifies this, store, node
      ensures Valid() && Undisturbed(mine, old(trace), trace) && Mine(mine, i)
      ensures Ended(old(drives[i]), drives[i], r) && Kept(mine - {i}, old(drives), drives)
    {
      var status := Lookup(mine, i, tx);
      if status.QueryFailed? {
        r := Stepped(op);
      } else if status.Unknown? {
        r := ResendOrRebuild(mine, i, id, op, worker, tx);
      } else {
        r := Reconcile(mine, i, id, op, worker, tx);
      }
    }

    method Reconcile(ghost mine: set<nat>, ghost i: nat, id: OpId, op: Row, worker: WorkerId, tx: SignedTx)
      returns (r: HandlerResult)
      requires Holding(mine, i, id, op, worker) && drives[i].pc == Found && op.signed == Some(tx)
      modifies this, store, node
      ensures Valid() && Undisturbed(mine, old(trace), trace) && Mine(mine, i)
      ensures Ended(old(drives[i]), drives[i], r) && Kept(mine - {i}, old(drives), drives)
    {
      var now := Yield(mine);
      var at := if op.broadcastAt.Some? then op.broadcastAt else Some(now);
      r := WriteAndReturn(mine, i, id, op, worker,
                          CasPlan(Broadcast, Patch(broadcastAt := Set(at)), Reconciled(tx.txid)), now);
    }

    method ResendOrRebuild(ghost mine: set<nat>, ghost i: nat, id: OpId, op: Row, worker: WorkerId, tx: SignedTx)
      returns (r: HandlerResult)
      requires Holding(mine, i, id, op, worker)
      requires drives[i].pc.LookedUp? && op.state == Broadcasting && op.signed == Some(tx)
      modifies this, store, node
      ensures Valid() && Undisturbed(mine, old(trace), trace) && Mine(mine, i)
      ensures Ended(old(drives[i]), drives[i], r) && Kept(mine - {i}, old(drives), drives)
    {
      var dead, evidence := ProofOfDeath(mine, i, tx);
      if dead {
        r := Rebuild(mine, i, id, op, worker, ExpiredUnseen, evidence);
      } else {
        r := Transmit(mine, i, id, op, worker, tx);
      }
    }

    method AwaitConfirmation(ghost mine: set<nat>, ghost i: nat, id: OpId, op: Row, worker: WorkerId)
      returns (r: HandlerResult)
      requires Holding(mine, i, id, op, worker) && drives[i].pc == Ready && op.state == Broadcast
      modifies this, store, node
      ensures Valid() && Undisturbed(mine, old(trace), trace) && Mine(mine, i)
      ensures Ended(old(drives[i]), drives[i], r) && Kept(mine - {i}, old(drives), drives)
    {
      if op.signed.None? {
        Fail(mine, i);
        r := HandlerError;
      } else {
        r := LookUpAndConfirm(mine, i, id, op, worker, op.signed.value);
      }
    }

    method LookUpAndConfirm(ghost mine: set<nat>, ghost i: nat, id: OpId, op: Row, worker: WorkerId, tx: SignedTx)
      returns (r: HandlerResult)
      requires Holding(mine, i, id, op, worker) && drives[i].pc == Ready && op.state == Broadcast && op.signed == Some(tx)
      modifies this, store, node
      ensures Valid() && Undisturbed(mine, old(trace), trace) && Mine(mine, i)
      ensures Ended(old(drives[i]), drives[i], r) && Kept(mine - {i}, old(drives), drives)
    {
      var status := Lookup(mine, i, tx);
      if status.Included? && status.solid {
        r := RecordReceipt(mine, i, id, op, worker, tx, status.block, status.receipt);
      } else if status.Unknown? {
        r := WaitOrRebuild(mine, i, id, op, worker, tx);
      } else {
        r := Stepped(op);
      }
    }

    method RecordReceipt(ghost mine: set<nat>, ghost i: nat, id: OpId, op: Row, worker: WorkerId,
                         tx: SignedTx, block: int, receipt: Option<Receipt>)
      returns (r: HandlerResult)
      requires Holding(mine, i, id, op, worker) && drives[i].pc == Landed(block, receipt) && op.signed == Some(tx)
      modifies this, store, node
      ensures Valid() && Undisturbed(mine, old(trace), trace) && Mine(mine, i)
      ensures Ended(old(drives[i]), drives[i], r) && Kept(mine - {i}, old(drives), drives)
    {
      var now := Yield(mine);
      var p;
      if receipt == Some(Success) {
        p := CasPlan(Confirmed, Patch(includedBlock := Set(Some(block)), confirmedAt := Set(Some(now))),
                     Settled(tx.txid, block, receipt));
      } else {
        p := CasPlan(Failed, Patch(includedBlock := Set(Some(block)), failure := Set(Some(RevertedNote))),
                     Settled(tx.txid, block, receipt));
      }
      r := WriteAndReturn(mine, i, id, op, worker, p, now);
    }

    method WaitOrRebuild(ghost mine: set<nat>, ghost i: nat, id: OpId, op: Row, worker: WorkerId, tx: SignedTx)
      returns (r: HandlerResult)
      requires Holding(mine, i, id, op, worker)
      requires drives[i].pc.LookedUp? && op.state == Broadcast && op.signed == Some(tx)
      modifies this, store, node
      ensures Valid() && Undisturbed(mine, old(trace), trace) && Mine(mine, i)
      ensures Ended(old(drives[i]), drives[i], r) && Kept(mine - {i}, old(drives), drives)
    {
      var dead, evidence := ProofOfDeath(mine, i, tx);
      if dead {
        r := Rebuild(mine, i, id, op, worker, NeverMined, evidence);
      } else {
        r := Stepped(op);
      }
    }

    // -------------------------------------------------------------- rebuild and dispatch

    method Rebuild(ghost mine: set<nat>, ghost i: nat, id: OpId, op: Row, worker: WorkerId,
                   reason: Note, evidence: Evidence)
      returns (r: HandlerResult)
      requires Holding(mine, i, id, op, worker) && drives[i].pc == Retire(reason, evidence)
      modifies this, store, node
      ensures Valid() && Undisturbed(mine, old(trace), trace) && Mine(mine, i)
      ensures Ended(old(drives[i]), drives[i], r) && Kept(mine - {i}, old(drives), drives)
    {
      var now := Yield(mine);
      r := WriteAndReturn(mine, i, id, op, worker, RetirePlan(op, reason, evidence), now);
    }

    /** One macro-step: the handler of a state is also its crash recovery. */
    method Advance(ghost mine: set<nat>, ghost i: nat, id: OpId, op: Row, worker: WorkerId)
      returns (r: HandlerResult)
      requires Holding(mine, i, id, op, worker) && drives[i].pc == Ready
      modifies this, store, node
      ensures Valid() && Undisturbed(mine, old(trace), trace) && Mine(mine, i)
      ensures Ended(old(drives[i]), drives[i], r) && Kept(mine - {i}, old(drives), drives)
    {
      match op.state
      case Requested => r := Validate(mine, i, id, op, worker);
      case Validated => r := BuildAndSign(mine, i, id, op, worker);
      case Signing => r := BuildAndSign(mine, i, id, op, worker);
      case Signed => r := BroadcastFirst(mine, i, id, op, worker);
      case Broadcasting => r := ReconcileBroadcast(mine, i, id, op, worker);
      case Broadcast => r := AwaitConfirmation(mine, i, id, op, worker);
      case _ => Fail(mine, i); r := HandlerError;
    }
  }
}
