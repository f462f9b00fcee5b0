/**
The fenced store as values: operation rows, the append-only event log, and the four
operations that touch them. One call is one atomic step, as under the store's lock.
*/
module Store {

  import opened Common
  import opened States
  import opened Chain

  type OpId = nat
  type WorkerId = string

  /** sha256 over the normalised payload, taken as an injective constructor. */
  datatype RequestHash = RequestHash(to: string, amount: int, asset: string)

  /** The texts written to last_error and failure_reason. */
  datatype Note =
    | InvalidAddress
    | UnsupportedAsset(asset: string)
    | AmountOutOfBounds
    | GaveUp(attempts: nat)
    | NodeRejected(code: Code)
    | AwaitingProof(code: Code)
    | Unclassified(code: Code)
    | ExpiredUnsent
    | ExpiredUnseen
    | NeverMined
    | RevertedNote
    | HandlerException

  datatype Row = Row(
    hash: RequestHash,
    state: OpState,
    to: string,
    asset: string,
    amount: int,
    unsigned: Option<RawData>,
    txid: Option<Txid>,
    expiration: Option<int>,
    signed: Option<SignedTx>,
    attempts: nat,
    claimedBy: Option<WorkerId>,
    lease: Option<int>,
    token: nat,
    lastError: Option<Note>,
    failure: Option<Note>,
    broadcastAt: Option<int>,
    includedBlock: Option<int>,
    confirmedAt: Option<int>,
    createdAt: int,
    updatedAt: int)

  /** The row intake hands to `insert_new`. */
  function NewRow(to: string, asset: string, amount: int, now: int): Row {
    Row(RequestHash(to, amount, asset), Requested, to, asset, amount,
        None, None, None, None, 0, None, None, 0, None, None, None, None, None, now, now)
  }

  /** What a retirement records: the local rule, or the chain-time proof of death. */
  datatype Evidence = NeverBroadcast | ChainProof(solidTime: int, deadline: int)

  datatype Detail =
    | NoDetail
    | Intake
    | EnvelopeBuilt(txid: Txid)
    | WriteAhead(txid: Txid)
    | Answered(txid: Txid, code: Code)
    | Reconciled(txid: Txid)
    | Settled(txid: Txid, block: int, receipt: Option<Receipt>)
    | Retired(retired: Option<Txid>, reason: Note, evidence: Evidence)

  datatype Event = Event(
    id: OpId,
    from: Option<OpState>,
    to: OpState,
    worker: Option<WorkerId>,
    token: nat,
    detail: Detail,
    at: int,
    number: nat)

  /** `arrival` lists the ids in the order they came in. */
  datatype Db = Db(ops: map<OpId, Row>, arrival: seq<OpId>, events: seq<Event>)

  const EMPTY_DB := Db(map[], [], [])

  datatype Update<+T> = Keep | Set(value: T)

  function Updated<T>(old_: T, u: Update<T>): T {
    if u.Set? then u.value else old_
  }

  /** One optional assignment per mutable column; nothing else of a row can be written by `cas`. */
  datatype Patch = Patch(
    unsigned: Update<Option<RawData>> := Keep,
    txid: Update<Option<Txid>> := Keep,
    expiration: Update<Option<int>> := Keep,
    signed: Update<Option<SignedTx>> := Keep,
    attempts: Update<nat> := Keep,
    lastError: Update<Option<Note>> := Keep,
    failure: Update<Option<Note>> := Keep,
    broadcastAt: Update<Option<int>> := Keep,
    includedBlock: Update<Option<int>> := Keep,
    confirmedAt: Update<Option<int>> := Keep)

  function Patched(row: Row, p: Patch): Row {
    row.(unsigned := Updated(row.unsigned, p.unsigned),
         txid := Updated(row.txid, p.txid),
         expiration := Updated(row.expiration, p.expiration),
         signed := Updated(row.signed, p.signed),
         attempts := Updated(row.attempts, p.attempts),
         lastError := Updated(row.lastError, p.lastError),
         failure := Updated(row.failure, p.failure),
         broadcastAt := Updated(row.broadcastAt, p.broadcastAt),
         includedBlock := Updated(row.includedBlock, p.includedBlock),
         confirmedAt := Updated(row.confirmedAt, p.confirmedAt))
  }

  function Appended(events: seq<Event>, id: OpId, from: Option<OpState>, to: OpState, worker: Option<WorkerId>,
                    token: nat, detail: Detail, now: int): seq<Event>
  {
    events + [Event(id, from, to, worker, token, detail, now, |events| + 1)]
  }

  // ---------------------------------------------------------------- insert_new

  function Insert(db: Db, id: OpId, row: Row): Db {
    if id in db.ops then db
    else Db(db.ops[id := row], db.arrival + [id],
            Appended(db.events, id, None, row.state, None, 0, Intake, row.createdAt))
  }

  // ---------------------------------------------------------------- claim

  predicate Claimable(row: Row, wanted: set<OpState>, now: int) {
    row.state in wanted && (row.lease.None? || row.lease.value <= now)
  }

  function Leased(row: Row, worker: WorkerId, leaseMs: int, now: int): Row {
    row.(claimedBy := Some(worker), lease := Some(now + leaseMs), token := row.token + 1, updatedAt := now)
  }

  datatype Claimed = Claimed(id: OpId, row: Row)

  function ClaimFrom(ops: map<OpId, Row>, ids: seq<OpId>, wanted: set<OpState>, limit: int,
                     worker: WorkerId, leaseMs: int, now: int): (map<OpId, Row>, seq<Claimed>)
    decreases |ids|
  {
    if ids == [] || limit <= 0 then (ops, [])
    else if ids[0] in ops && Claimable(ops[ids[0]], wanted, now) then
      var row := Leased(ops[ids[0]], worker, leaseMs, now);
      var (ops', rest) := ClaimFrom(ops[ids[0] := row], ids[1..], wanted, limit - 1, worker, leaseMs, now);
      (ops', [Claimed(ids[0], row)] + rest)
    else
      ClaimFrom(ops, ids[1..], wanted, limit, worker, leaseMs, now)
  }

  function Claim(db: Db, wanted: set<OpState>, limit: int, worker: WorkerId, leaseMs: int, now: int)
    : (Db, seq<Claimed>)
  {
    var (ops, out) := ClaimFrom(db.ops, db.arrival, wanted, limit, worker, leaseMs, now);
    (db.(ops := ops), out)
  }

  // ---------------------------------------------------------------- cas

  datatype CasResult = IllegalTransition | Missed | Written(db: Db, row: Row)

  function CasRow(row: Row, to: OpState, p: Patch, renewMs: Option<int>, now: int): Row {
    var r := Patched(row, p).(state := to, updatedAt := now);
    if Terminal(to) then r.(claimedBy := None, lease := None)
    else if renewMs.Some? then r.(lease := Some(now + renewMs.value))
    else r
  }

  predicate CasHits(db: Db, id: OpId, token: nat, from: OpState) {
    id in db.ops && db.ops[id].token == token && db.ops[id].state == from && !Terminal(from)
  }

  function Cas(db: Db, id: OpId, token: nat, from: OpState, to: OpState, p: Patch, detail: Detail,
               renewMs: Option<int>, worker: WorkerId, now: int): CasResult
  {
    if !CanTransition(from, to) then IllegalTransition
    else if !CasHits(db, id, token, from) then Missed
    else
      var row := CasRow(db.ops[id], to, p, renewMs, now);
      Written(db.(ops := db.ops[id := row],
                  events := Appended(db.events, id, Some(from), to, Some(worker), token, detail, now)),
              row)
  }

  // ---------------------------------------------------------------- release

  function Release(db: Db, id: OpId, token: nat, now: int): Db {
    if id in db.ops && db.ops[id].token == token
    then db.(ops := db.ops[id := db.ops[id].(claimedBy := None, lease := None, updatedAt := now)])
    else db
  }

  // ---------------------------------------------------------------- reading the log

  /** The events of one operation, oldest first. */
  function Log(events: seq<Event>, id: OpId): seq<Event>
    decreases |events|
  {
    if events == [] then []
    else
      var rest := Log(events[..|events| - 1], id);
      var last := events[|events| - 1];
      if last.id == id then rest + [last] else rest
  }

  function TxidOf(d: Detail): Option<Txid> {
    match d
    case EnvelopeBuilt(t) => Some(t)
    case WriteAhead(t) => Some(t)
    case Answered(t, _) => Some(t)
    case Reconciled(t) => Some(t)
    case Settled(t, _, _) => Some(t)
    case _ => None
  }

  /** `txid` is one of the ids this operation was ever given: membership in `all_txids`. */
  ghost predicate Given(events: seq<Event>, id: OpId, txid: Txid) {
    exists k :: 0 <= k < |events| && events[k].id == id && TxidOf(events[k].detail) == Some(txid)
  }

  /** The intent to send `txid` was committed for this operation. */
  ghost predicate WroteAhead(events: seq<Event>, id: OpId, txid: Txid) {
    exists k :: 0 <= k < |events| && events[k].id == id && events[k].detail == WriteAhead(txid)
  }
}
