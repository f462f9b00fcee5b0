/**
The store's operations said column by column, without the functions that define them: what
a claim takes, what a write changes, what a release leaves, and what the log of one
operation is.
*/
module StoreLaws {

  import opened Common
  import opened States
  import opened Store
  import opened StoreProperties

  // ---------------------------------------------------------------- the table

  /** The main line of the state machine; the two states beside it have no place on it. */
  function Place(s: OpState): Option<nat> {
    match s
    case Requested => Some(0)
    case Validated => Some(1)
    case Signing => Some(2)
    case Signed => Some(3)
    case Broadcasting => Some(4)
    case Broadcast => Some(5)
    case Confirmed => Some(6)
    case Failed => None
    case Rejected => None
  }

  predicate Final(s: OpState) {
    s == Confirmed || s == Failed || s == Rejected
  }

  /**
  A write may stay where it is, go one place forward, reject before signing, fail while a
  transaction is being built or is out, or fall back to `signing` with an envelope in hand.
  Nothing else, and nothing leaves a final state.
  */
  lemma TableExactly(src: OpState, dst: OpState)
    ensures CanTransition(src, dst) <==>
            || src == dst
            || (Place(src).Some? && Place(dst) == Some(Place(src).value + 1))
            || (dst == Rejected && Place(src).Some? && Place(src).value < 2)
            || (dst == Failed && src in {Signing, Broadcasting, Broadcast})
            || (dst == Signing && Place(src).Some? && 3 <= Place(src).value <= 5)
    ensures Terminal(src) <==> Final(src)
    ensures src in CLAIMABLE <==> !Final(src)
  {
  }

  // ---------------------------------------------------------------- claims

  /** In a wanted state, and without a lease that runs beyond `now`. */
  predicate Free(row: Row, wanted: set<OpState>, now: int) {
    row.state in wanted && match row.lease case None => true case Some(t) => t <= now
  }

  /** The free operations, in order of arrival. */
  function FreeIds(ops: map<OpId, Row>, ids: seq<OpId>, wanted: set<OpState>, now: int): seq<OpId> {
    if ids == [] then []
    else (if ids[0] in ops && Free(ops[ids[0]], wanted, now) then [ids[0]] else []) + FreeIds(ops, ids[1..], wanted, now)
  }

  function FirstOf(ids: seq<OpId>, limit: int): seq<OpId> {
    if limit <= 0 then [] else if |ids| <= limit then ids else ids[..limit]
  }

  lemma {:induction false} FreeIsEligible(ops: map<OpId, Row>, ids: seq<OpId>, wanted: set<OpState>, now: int)
    ensures FreeIds(ops, ids, wanted, now) == EligibleIds(ops, ids, wanted, now)
    decreases |ids|
  {
    if ids != [] {
      FreeIsEligible(ops, ids[1..], wanted, now);
    }
  }

  /** What a claim does to the store and hands to the caller, in columns. */
  ghost predicate ClaimDone(db: Db, db': Db, out: seq<Claimed>, wanted: set<OpState>, limit: int, worker: WorkerId,
                            leaseMs: int, now: int)
  {
    && IdsOf(out) == FirstOf(FreeIds(db.ops, db.arrival, wanted, now), limit)
    && db'.ops.Keys == db.ops.Keys && db'.arrival == db.arrival && db'.events == db.events
    && (forall k :: 0 <= k < |out| ==>
          && out[k].id in db.ops && Free(db.ops[out[k].id], wanted, now)
          && db'.ops[out[k].id] == out[k].row
          && out[k].row == db.ops[out[k].id].(claimedBy := Some(worker), lease := Some(now + leaseMs),
                                              token := db.ops[out[k].id].token + 1, updatedAt := now))
    && (forall id :: id in db.ops && id !in IdsOf(out) ==> db'.ops[id] == db.ops[id])
  }

  /**
  A claim takes the earliest free operations up to the limit. A row leased beyond `now` is
  not free. What is taken is leased until `now + leaseMs` under the next token.
  */
  lemma ClaimExactly(db: Db, wanted: set<OpState>, limit: int, worker: WorkerId, leaseMs: int, now: int)
    requires DistinctIds(db.arrival)
    ensures var (db', out) := Claim(db, wanted, limit, worker, leaseMs, now);
      ClaimDone(db, db', out, wanted, limit, worker, leaseMs, now)
  {
    ClaimExact(db.ops, db.arrival, wanted, limit, worker, leaseMs, now);
    FreeIsEligible(db.ops, db.arrival, wanted, now);
    var eligible := EligibleIds(db.ops, db.arrival, wanted, now);
    assert FirstOf(eligible, limit) == eligible[..Room(limit, |eligible|)];
  }

  // ---------------------------------------------------------------- writes

  function Column<T>(was: T, u: Update<T>): T {
    match u
    case Keep => was
    case Set(v) => v
  }

  /** The row a write makes: the columns it sets, the new state, a renewed lease, or none at all at the end. */
  ghost predicate Rewritten(row: Row, row': Row, to: OpState, p: Patch, renewMs: Option<int>, now: int) {
    && row'.state == to && row'.updatedAt == now
    && row'.hash == row.hash && row'.to == row.to && row'.asset == row.asset && row'.amount == row.amount
    && row'.createdAt == row.createdAt && row'.token == row.token
    && row'.unsigned == Column(row.unsigned, p.unsigned) && row'.txid == Column(row.txid, p.txid)
    && row'.expiration == Column(row.expiration, p.expiration) && row'.signed == Column(row.signed, p.signed)
    && row'.attempts == Column(row.attempts, p.attempts) && row'.lastError == Column(row.lastError, p.lastError)
    && row'.failure == Column(row.failure, p.failure) && row'.broadcastAt == Column(row.broadcastAt, p.broadcastAt)
    && row'.includedBlock == Column(row.includedBlock, p.includedBlock)
    && row'.confirmedAt == Column(row.confirmedAt, p.confirmedAt)
    && row'.claimedBy == (if Final(to) then None else row.claimedBy)
    && row'.lease == (if Final(to) then None else if renewMs.Some? then Some(now + renewMs.value) else row.lease)
  }

  lemma RewrittenByCas(row: Row, to: OpState, p: Patch, renewMs: Option<int>, now: int)
    ensures Rewritten(row, CasRow(row, to, p, renewMs, now), to, p, renewMs, now)
  {
    TableExactly(to, to);
  }

  /**
  A write goes through if and only if the move is in the table, the operation exists, token
  and state are those the caller last saw, and the state is not final. Then one row changes
  and one event is appended, numbered by its place; otherwise nothing changes.
  */
  lemma CasExactly(db: Db, id: OpId, token: nat, from: OpState, to: OpState, p: Patch, detail: Detail,
                   renewMs: Option<int>, worker: WorkerId, now: int)
    ensures var r := Cas(db, id, token, from, to, p, detail, renewMs, worker, now);
      && (r.IllegalTransition? <==> !CanTransition(from, to))
      && (r.Written? <==> && CanTransition(from, to) && id in db.ops && db.ops[id].token == token
                          && db.ops[id].state == from && !Final(from))
      && (r.Written? ==>
            && Rewritten(db.ops[id], r.row, to, p, renewMs, now)
            && r.db.ops == db.ops[id := r.row] && r.db.arrival == db.arrival
            && r.db.events == db.events + [Event(id, Some(from), to, Some(worker), token, detail, now, |db.events| + 1)])
  {
    TableExactly(from, to);
    if id in db.ops {
      RewrittenByCas(db.ops[id], to, p, renewMs, now);
    }
  }

  /** A release with the current token drops claim and lease and nothing else; with any other token it does nothing. */
  lemma ReleaseExactly(db: Db, id: OpId, token: nat, now: int)
    ensures var db' := Release(db, id, token, now);
      && db'.arrival == db.arrival && db'.events == db.events && db'.ops.Keys == db.ops.Keys
      && (forall x :: x in db.ops && x != id ==> db'.ops[x] == db.ops[x])
      && (id in db.ops && db.ops[id].token == token ==>
            db'.ops[id] == db.ops[id].(claimedBy := None, lease := None, updatedAt := now))
      && (id in db.ops && db.ops[id].token != token ==> db'.ops[id] == db.ops[id])
  {
  }

  /** The first submission makes the row and its intake event; a second one changes nothing. */
  lemma InsertExactly(db: Db, id: OpId, to: string, asset: string, amount: int, now: int)
    ensures var db' := Insert(db, id, NewRow(to, asset, amount, now));
      if id in db.ops then db' == db
      else
        && db'.arrival == db.arrival + [id] && db'.ops.Keys == db.ops.Keys + {id}
        && (forall x :: x in db.ops ==> db'.ops[x] == db.ops[x])
        && db'.events == db.events + [Event(id, None, Requested, None, 0, Intake, now, |db.events| + 1)]
        && var row := db'.ops[id];
           && row.state == Requested && row.to == to && row.asset == asset && row.amount == amount
           && row.hash == RequestHash(to, amount, asset) && row.createdAt == row.updatedAt == now
           && row.attempts == 0 && row.token == 0 && row.claimedBy == None && row.lease == None
           && row.unsigned == None && row.txid == None && row.expiration == None && row.signed == None
           && row.lastError == None && row.failure == None && row.broadcastAt == None
           && row.includedBlock == None && row.confirmedAt == None
  {
  }

  // ---------------------------------------------------------------- the log

  /** The log of an operation holds its events, all of them, no others, in the order in which they were numbered. */
  lemma {:induction false} LogExactly(events: seq<Event>, id: OpId)
    requires forall k :: 0 <= k < |events| ==> events[k].number == k + 1
    ensures forall e :: e in Log(events, id) <==> e in events && e.id == id
    ensures forall i, j :: 0 <= i < j < |Log(events, id)| ==> Log(events, id)[i].number < Log(events, id)[j].number
    decreases |events|
  {
    if events != [] {
      var front, last := events[..|events| - 1], events[|events| - 1];
      LogExactly(front, id);
      assert events == front + [last];
      forall e | e in Log(front, id) ensures e.number < last.number {
        assert e in front;
      }
    }
  }
}
