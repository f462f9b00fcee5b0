/**
The withdrawal protocol as a step system. Any number of workers share one store and one
node. Each claimed operation is a `Drive`: the local variables of one pass through the
worker loop plus the point it has reached. One step is one lock acquisition or one clock
reading; a drive that is never scheduled again has stalled or crashed.
*/
module Protocol {

  import opened Common
  import opened States
  import opened Chain
  import opened Store

  datatype Config = Config(
    asset: string,
    decimals: nat,
    minAmount: nat,
    maxAmount: int,
    leaseMs: int,
    batch: int,
    ttlMs: int,
    marginMs: nat,
    maxAttempts: nat,
    signer: Key,
    // what the deployment takes for a valid destination, see module Address
    addressOk: string -> bool,
    // false: look the txid up, then read chain time, as the code does; true: the other order
    clockFirst: bool)

  const MAX_STEPS_PER_CLAIM := 8

  datatype Outcome = Finished | Fenced | Released | Crashed

  /** Where a drive is. Every point names the action that comes next. */
  datatype Pc =
    | Ready                                            // dispatch on the state of the snapshot
    | Build                                            // attempts check, then the reference block
    | HaveRef(ref: int)                                // read the clock, assemble the envelope
    | Envelope(raw: RawData)                           // persist txid and expiration
    | ToSign(raw: RawData)                             // sign and persist the signature
    | Announce                                         // write-ahead: commit `broadcasting`
    | Wire                                             // hand the signed bytes to the node
    | Settle(code: Code)                               // classify the node's answer
    | Found                                            // reconcile found the txid
    | LookedUp(head: int)                              // lookup said unknown when `head` was the head block
    | HaveSolid(solid: int)                            // chain time read before the lookup
    | Landed(block: int, receipt: Option<Receipt>)     // included and solid
    | Retire(reason: Note, evidence: Evidence)         // give the envelope up, back to `signing`
    | Raised                                           // a handler exception reached the loop
    | Releasing                                        // parked: drop the lease
    | Done(outcome: Outcome)

  /** `base` is the loop's variable, `op` the handler's; they differ in the middle of a handler. */
  datatype Drive = Drive(worker: WorkerId, id: OpId, base: Row, op: Row, pc: Pc, steps: nat, advanced: bool)

  predicate Running(pc: Pc) {
    !pc.Raised? && !pc.Releasing? && !pc.Done?
  }

  // ---------------------------------------------------------------- the worker loop

  /** A handler returned `row`: finish, park, or take another turn. */
  function Returned(d: Drive, row: Row): Drive {
    var d' := d.(base := row, op := row, steps := d.steps + 1, advanced := d.advanced || row.state != d.base.state);
    if Terminal(row.state) then d'.(pc := Done(Finished))
    else if row.state == d.base.state || d.steps + 1 >= MAX_STEPS_PER_CLAIM then d'.(pc := Releasing)
    else d'.(pc := Ready)
  }

  // ---------------------------------------------------------------- store writes

  datatype CasPlan = CasPlan(to: OpState, patch: Patch, detail: Detail)

  predicate Acceptable(c: Config, row: Row) {
    c.addressOk(row.to) && row.asset == c.asset && c.minAmount <= row.amount <= c.maxAmount
  }

  function ValidatePlan(c: Config, op: Row): CasPlan {
    if !c.addressOk(op.to) then
      CasPlan(Rejected, Patch(failure := Set(Some(InvalidAddress))), NoDetail)
    else if op.asset != c.asset then
      CasPlan(Rejected, Patch(failure := Set(Some(UnsupportedAsset(op.asset)))), NoDetail)
    else if !(c.minAmount <= op.amount <= c.maxAmount) then
      CasPlan(Rejected, Patch(failure := Set(Some(AmountOutOfBounds))), NoDetail)
    else
      CasPlan(Validated, Patch(), NoDetail)
  }

  function EnvelopePlan(raw: RawData): CasPlan {
    CasPlan(Signing,
            Patch(unsigned := Set(Some(raw)), txid := Set(Some(Txid(raw))),
                  expiration := Set(Some(raw.expiration)), signed := Set(None)),
            EnvelopeBuilt(Txid(raw)))
  }

  function RetirePlan(op: Row, reason: Note, evidence: Evidence): CasPlan {
    CasPlan(Signing,
            Patch(attempts := Set(op.attempts + 1), lastError := Set(Some(reason)), signed := Set(None),
                  unsigned := Set(None), txid := Set(None), expiration := Set(None)),
            Retired(op.txid, reason, evidence))
  }

  function SettlePlan(tx: SignedTx, code: Code, now: int): Option<CasPlan> {
    match code
    case CodeSuccess => Some(CasPlan(Broadcast, Patch(broadcastAt := Set(Some(now))), Answered(tx.txid, code)))
    case DupTransaction => Some(CasPlan(Broadcast, Patch(broadcastAt := Set(Some(now))), Answered(tx.txid, code)))
    case SigError => Some(CasPlan(Failed, Patch(failure := Set(Some(NodeRejected(code)))), Answered(tx.txid, code)))
    case ContractValidateError =>
      Some(CasPlan(Failed, Patch(failure := Set(Some(NodeRejected(code)))), Answered(tx.txid, code)))
    case TaposError =>
      Some(CasPlan(Broadcasting, Patch(lastError := Set(Some(AwaitingProof(code)))), Answered(tx.txid, code)))
    case ExpirationError =>
      Some(CasPlan(Broadcasting, Patch(lastError := Set(Some(AwaitingProof(code)))), Answered(tx.txid, code)))
    case ServerBusy => None
    case Novel(_) =>
      Some(CasPlan(Broadcasting, Patch(lastError := Set(Some(Unclassified(code)))), Answered(tx.txid, code)))
  }

  function LandedPlan(tx: SignedTx, block: int, receipt: Option<Receipt>, now: int): CasPlan {
    if receipt == Some(Success) then
      CasPlan(Confirmed, Patch(includedBlock := Set(Some(block)), confirmedAt := Set(Some(now))),
              Settled(tx.txid, block, receipt))
    else
      CasPlan(Failed, Patch(includedBlock := Set(Some(block)), failure := Set(Some(RevertedNote))),
              Settled(tx.txid, block, receipt))
  }

  predicate GivesUp(c: Config, d: Drive) {
    (d.pc.Build? || (d.pc.Ready? && d.op.state == Signing)) && d.op.attempts >= c.maxAttempts
  }

  /** The write a drive is about to attempt, if its next action is a write. */
  function Plan(c: Config, d: Drive, now: int): Option<CasPlan> {
    if GivesUp(c, d) then
      Some(CasPlan(Failed, Patch(failure := Set(Some(GaveUp(d.op.attempts)))), NoDetail))
    else
      match d.pc
      case Ready =>
        if d.op.state == Requested then Some(ValidatePlan(c, d.op))
        else if d.op.state == Validated then Some(CasPlan(Signing, Patch(), NoDetail))
        else None
      case Envelope(raw) => Some(EnvelopePlan(raw))
      case ToSign(raw) => Some(CasPlan(Signed, Patch(signed := Set(Some(Sign(c.signer, raw)))), NoDetail))
      case Retire(reason, evidence) => Some(RetirePlan(d.op, reason, evidence))
      case _ => if d.op.signed.None? then None else SendPlan(d, d.op.signed.value, now)
  }

  /** The writes whose event names the signed transaction. */
  function SendPlan(d: Drive, tx: SignedTx, now: int): Option<CasPlan> {
    match d.pc
    case Announce => Some(CasPlan(Broadcasting, Patch(), WriteAhead(tx.txid)))
    case Settle(code) => SettlePlan(tx, code, now)
    case Found =>
      Some(CasPlan(Broadcast, Patch(broadcastAt := Set(if d.op.broadcastAt.Some? then d.op.broadcastAt else Some(now))),
                   Reconciled(tx.txid)))
    case Landed(block, receipt) => Some(LandedPlan(tx, block, receipt, now))
    case _ => None
  }

  /** The write went through and gave `row` back. */
  function AfterWrite(d: Drive, row: Row): Drive {
    if d.pc.Ready? && d.op.state == Validated then d.(op := row, pc := Build)
    else if d.pc.Envelope? then d.(op := row, pc := ToSign(d.pc.raw))
    else if d.pc.Announce? then d.(op := row, pc := Wire)
    else Returned(d, row)
  }

  // ---------------------------------------------------------------- node calls and clock readings

  function BuildRaw(c: Config, op: Row, ref: int, now: int): RawData {
    RawData(op.to, op.amount, ref, now, now + c.ttlMs)
  }

  predicate ProvenDead(c: Config, tx: SignedTx, solid: int) {
    solid >= tx.expiration + c.marginMs
  }

  function RetireDead(c: Config, d: Drive, tx: SignedTx, solid: int): Pc {
    Retire(if d.op.state == Broadcasting then ExpiredUnseen else NeverMined,
           ChainProof(solid, tx.expiration + c.marginMs))
  }

  /** Reads and node calls never touch the handler's copy of the row. */
  predicate SameSnapshot(d: Drive, r: Drive) {
    r.op == d.op && r.id == d.id && r.worker == d.worker
  }

  /** Not provably dead: `broadcasting` sends the same bytes again, `broadcast` parks. */
  function KeepWaiting(d: Drive): (r: Drive)
    ensures SameSnapshot(d, r)
  {
    if d.op.state == Broadcasting then d.(pc := Wire) else Returned(d, d.op)
  }

  function AfterLookup(c: Config, n: Node, d: Drive, tx: SignedTx, status: TxStatus): (r: Drive)
    requires |n.times| > 0
    ensures SameSnapshot(d, r)
  {
    match status
    case QueryFailed => Returned(d, d.op)
    case Pending => if d.op.state == Broadcasting then d.(pc := Found) else Returned(d, d.op)
    case Included(block, solid, receipt) =>
      if d.op.state == Broadcasting then d.(pc := Found)
      else if solid then d.(pc := Landed(block, receipt))
      else Returned(d, d.op)
    case Unknown =>
      if d.pc.HaveSolid? then
        if ProvenDead(c, tx, d.pc.solid) then d.(pc := RetireDead(c, d, tx, d.pc.solid)) else KeepWaiting(d)
      else d.(pc := LookedUp(Head(n)))
  }

  function Lookup(c: Config, n: Node, d: Drive, tx: SignedTx, now: int): (r: (Node, Drive))
    requires |n.times| > 0
    ensures SameSnapshot(d, r.1)
  {
    var (m, status) := Find(n, tx.txid, now);
    (m, AfterLookup(c, n, d, tx, status))
  }

  function ReadyStep(c: Config, n: Node, d: Drive, now: int): (r: (Node, Drive))
    requires |n.times| > 0
    ensures SameSnapshot(d, r.1)
  {
    if d.op.state == Signing then (n, d.(pc := HaveRef(RefBlock(n))))
    else if d.op.state in {Signed, Broadcasting, Broadcast} && d.op.signed.Some? then
      var tx := d.op.signed.value;
      if d.op.state == Signed then
        (n, d.(pc := if now >= tx.expiration then Retire(ExpiredUnsent, NeverBroadcast) else Announce))
      else if c.clockFirst then (n, d.(pc := HaveSolid(SolidNow(n))))
      else Lookup(c, n, d, tx, now)
    else (n, d.(pc := Raised))
  }

  function WireStep(n: Node, d: Drive, tx: SignedTx, now: int): (r: (Node, Drive))
    ensures SameSnapshot(d, r.1)
  {
    var (m, answer) := Send(n, tx, d.worker, now);
    (m, if answer.Timeout? then Returned(d, d.op) else d.(pc := Settle(answer.code)))
  }

  function SolidStep(c: Config, n: Node, d: Drive, tx: SignedTx): (r: Drive)
    requires |n.times| > 0
    ensures SameSnapshot(d, r)
  {
    if ProvenDead(c, tx, SolidNow(n)) then d.(pc := RetireDead(c, d, tx, SolidNow(n))) else KeepWaiting(d)
  }

  /** A step that writes nothing to the store. */
  function ReadStep(c: Config, n: Node, d: Drive, now: int): (r: (Node, Drive))
    requires |n.times| > 0
    ensures SameSnapshot(d, r.1)
  {
    match d.pc
    case Ready => ReadyStep(c, n, d, now)
    case Build => (n, d.(pc := HaveRef(RefBlock(n))))
    case HaveRef(ref) => (n, d.(pc := Envelope(BuildRaw(c, d.op, ref, now))))
    case Wire => if d.op.signed.Some? then WireStep(n, d, d.op.signed.value, now) else (n, d.(pc := Raised))
    case LookedUp(_) =>
      if d.op.signed.Some? then (n, SolidStep(c, n, d, d.op.signed.value)) else (n, d.(pc := Raised))
    case HaveSolid(_) =>
      if d.op.signed.Some? then Lookup(c, n, d, d.op.signed.value, now) else (n, d.(pc := Raised))
    case Settle(_) => (n, if d.op.signed.Some? then Returned(d, d.op) else d.(pc := Raised))
    case _ => (n, d.(pc := Raised))
  }

  // ---------------------------------------------------------------- one action of one drive

  datatype Local = Local(db: Db, node: Node, drive: Drive)

  function WriteStep(c: Config, db: Db, n: Node, d: Drive, p: CasPlan, now: int): Local {
    match Cas(db, d.id, d.op.token, d.op.state, p.to, p.patch, p.detail, Some(c.leaseMs), d.worker, now)
    case Written(db', row) => Local(db', n, AfterWrite(d, row))
    case Missed => Local(db, n, d.(pc := Done(Fenced)))
    case IllegalTransition => Local(db, n, d.(pc := Raised))
  }

  /** The breadcrumb after a handler exception: same state, no lease renewal, result ignored. */
  function BreadcrumbStep(db: Db, d: Drive, now: int): Db {
    match Cas(db, d.id, d.base.token, d.base.state, d.base.state, Patch(lastError := Set(Some(HandlerException))),
              NoDetail, None, d.worker, now)
    case Written(db', _) => db'
    case _ => db
  }

  function DriveStep(c: Config, db: Db, n: Node, d: Drive, now: int): Local
    requires |n.times| > 0
  {
    if d.pc.Done? then Local(db, n, d)
    else if d.pc.Raised? then Local(BreadcrumbStep(db, d, now), n, d.(pc := Releasing))
    else if d.pc.Releasing? then Local(Release(db, d.id, d.base.token, now), n, d.(pc := Done(Released)))
    else
      var p := Plan(c, d, now);
      if p.Some? then WriteStep(c, db, n, d, p.value, now)
      else
        var (n', d') := ReadStep(c, n, d, now);
        Local(db, n', d')
  }

  // ---------------------------------------------------------------- the whole system

  datatype Sys = Sys(db: Db, node: Node, drives: seq<Drive>, clock: int)

  datatype Action =
    | Submit(id: OpId, to: string, asset: string, amount: int, now: int)
    | ClaimBatch(worker: WorkerId, limit: int, now: int)
    | Act(i: nat, now: int)
    | Throw(i: nat)                                    // an exception out of the handler of drive i
    | Crash(i: nat)                                    // the worker dies, nothing is cleaned up
    | Block(now: int)
    | Inject(channel: Channel, faults: seq<Fault>)

  /** How the node is set up; `key` is the one it verifies with. */
  datatype Setup = Setup(lag: nat, delay: int, key: Key, start: int)

  function Init(w: Setup): Sys {
    Sys(EMPTY_DB, NewNode(w.lag, w.delay, w.key, w.start), [], w.start)
  }

  function Started(worker: WorkerId, claims: seq<Claimed>): (ds: seq<Drive>)
    ensures |ds| == |claims|
    ensures forall k :: 0 <= k < |ds| ==>
              ds[k] == Drive(worker, claims[k].id, claims[k].row, claims[k].row, Ready, 0, false)
  {
    seq(|claims|, k requires 0 <= k < |claims| =>
          Drive(worker, claims[k].id, claims[k].row, claims[k].row, Ready, 0, false))
  }

  function Step(c: Config, s: Sys, a: Action): Sys {
    if |s.node.times| == 0 then s
    else
      match a
      case Submit(id, to, asset, amount, now) =>
        s.(db := Insert(s.db, id, NewRow(to, asset, amount, now)), clock := now)
      case ClaimBatch(worker, limit, now) =>
        var (db, claims) := Claim(s.db, CLAIMABLE, limit, worker, c.leaseMs, now);
        s.(db := db, drives := s.drives + Started(worker, claims), clock := now)
      case Act(i, now) =>
        if i >= |s.drives| then s.(clock := now)
        else
          var r := DriveStep(c, s.db, s.node, s.drives[i], now);
          Sys(r.db, r.node, s.drives[i := r.drive], now)
      case Throw(i) =>
        if i < |s.drives| && Running(s.drives[i].pc)
        then s.(drives := s.drives[i := s.drives[i].(pc := Raised)]) else s
      case Crash(i) =>
        if i < |s.drives| && !s.drives[i].pc.Done?
        then s.(drives := s.drives[i := s.drives[i].(pc := Done(Crashed))]) else s
      case Block(now) => s.(node := Produce(s.node, now), clock := now)
      case Inject(channel, faults) => s.(node := Script(s.node, channel, faults))
  }

  function Exec(c: Config, s: Sys, actions: seq<Action>): Sys
    decreases |actions|
  {
    if actions == [] then s else Exec(c, Step(c, s, actions[0]), actions[1..])
  }

  /** A run and one more action. */
  lemma {:induction false} ExecSnoc(c: Config, s: Sys, actions: seq<Action>, a: Action)
    ensures Exec(c, s, actions + [a]) == Step(c, Exec(c, s, actions), a)
    decreases |actions|
  {
    var all := actions + [a];
    if actions == [] {
      assert all[1..] == [];
    } else {
      assert all[1..] == actions[1..] + [a];
      ExecSnoc(c, Step(c, s, actions[0]), actions[1..], a);
    }
  }
}
