/**
What the store guarantees to every caller, whatever sequence of calls with whatever
arguments is made: rows and log agree, the log is a legal path, tokens only rise, and a
claim takes exactly the earliest eligible rows.
*/
module StoreProperties {

  import opened Common
  import opened States
  import opened Store

  ghost predicate DistinctIds(ids: seq<OpId>) {
    forall i, j :: 0 <= i < j < |ids| ==> ids[i] != ids[j]
  }

  /** Event `e` may follow event `prev` in the log of one operation. */
  predicate Follows(prev: Event, e: Event) {
    && e.from == Some(prev.to)
    && CanTransition(prev.to, e.to)
    && !Terminal(prev.to)
    && prev.token <= e.token
  }

  /** The log starts with intake, is gap-free and legal, ends in the row's state, and stops when that is terminal. */
  ghost predicate Trail(log: seq<Event>, row: Row) {
    && |log| > 0
    && log[0].from == None && log[0].to == Requested
    && (forall k :: 0 < k < |log| ==> Follows(log[k - 1], log[k]))
    && log[|log| - 1].to == row.state
    && log[|log| - 1].token <= row.token
  }

  ghost predicate DbInv(db: Db) {
    && DistinctIds(db.arrival)
    && (forall id :: id in db.arrival <==> id in db.ops)
    && (forall k :: 0 <= k < |db.events| ==> db.events[k].id in db.ops && db.events[k].number == k + 1)
    && (forall id :: id in db.ops ==> Trail(Log(db.events, id), db.ops[id]))
  }

  // ---------------------------------------------------------------- the log of one operation

  lemma LogSnoc(events: seq<Event>, e: Event, id: OpId)
    ensures Log(events + [e], id) == if e.id == id then Log(events, id) + [e] else Log(events, id)
  {
    assert (events + [e])[..|events|] == events;
  }

  lemma {:induction false} LogOf(events: seq<Event>, id: OpId, k: nat)
    requires k < |Log(events, id)|
    ensures Log(events, id)[k].id == id && Log(events, id)[k] in events
    decreases |events|
  {
    var front := events[..|events| - 1];
    if k < |Log(front, id)| {
      LogOf(front, id, k);
    }
  }

  lemma {:induction false} NoEventsNoLog(events: seq<Event>, id: OpId)
    requires forall k :: 0 <= k < |events| ==> events[k].id != id
    ensures Log(events, id) == []
    decreases |events|
  {
    if events != [] {
      NoEventsNoLog(events[..|events| - 1], id);
    }
  }

  /** The log of a new operation is its intake. */
  lemma InsertLog(db: Db, id: OpId, row: Row)
    requires DbInv(db) && id !in db.ops
    ensures Log(Insert(db, id, row).events, id) ==
            [Event(id, None, row.state, None, 0, Intake, row.createdAt, |db.events| + 1)]
  {
    var e := Event(id, None, row.state, None, 0, Intake, row.createdAt, |db.events| + 1);
    LogSnoc(db.events, e, id);
    NoEventsNoLog(db.events, id);
    assert [] + [e] == [e];
  }

  // ---------------------------------------------------------------- every call keeps the invariant

  lemma InsertKeeps(db: Db, id: OpId, row: Row)
    requires DbInv(db) && row.state == Requested
    ensures DbInv(Insert(db, id, row))
  {
    if id !in db.ops {
      var db' := Insert(db, id, row);
      var e := db'.events[|db.events|];
      assert db'.events == db.events + [e];
      forall x | x in db'.ops ensures Trail(Log(db'.events, x), db'.ops[x]) {
        LogSnoc(db.events, e, x);
        if x == id {
          NoEventsNoLog(db.events, id);
        }
      }
    }
  }

  lemma CasKeeps(db: Db, id: OpId, token: nat, from: OpState, to: OpState, p: Patch, detail: Detail,
                 renewMs: Option<int>, worker: WorkerId, now: int)
    requires DbInv(db)
    ensures var r := Cas(db, id, token, from, to, p, detail, renewMs, worker, now);
      r.Written? ==> DbInv(r.db)
  {
    var r := Cas(db, id, token, from, to, p, detail, renewMs, worker, now);
    if r.Written? {
      var e := r.db.events[|db.events|];
      assert r.db.events == db.events + [e];
      forall x | x in r.db.ops ensures Trail(Log(r.db.events, x), r.db.ops[x]) {
        LogSnoc(db.events, e, x);
        assert Trail(Log(db.events, x), db.ops[x]);
      }
    }
  }

  lemma ReleaseKeeps(db: Db, id: OpId, token: nat, now: int)
    requires DbInv(db)
    ensures DbInv(Release(db, id, token, now))
  {
    var db' := Release(db, id, token, now);
    forall x | x in db'.ops ensures Trail(Log(db'.events, x), db'.ops[x]) {
      assert Trail(Log(db.events, x), db.ops[x]);
    }
  }

  lemma ClaimKeeps(db: Db, wanted: set<OpState>, limit: int, worker: WorkerId, leaseMs: int, now: int)
    requires DbInv(db)
    ensures DbInv(Claim(db, wanted, limit, worker, leaseMs, now).0)
  {
    var (db', out) := Claim(db, wanted, limit, worker, leaseMs, now);
    ClaimExact(db.ops, db.arrival, wanted, limit, worker, leaseMs, now);
    forall x | x in db'.ops ensures Trail(Log(db'.events, x), db'.ops[x]) {
      assert Trail(Log(db.events, x), db.ops[x]);
      ClaimedOrNot(db.ops, db.arrival, wanted, limit, worker, leaseMs, now, x);
    }
  }

  // ---------------------------------------------------------------- claims

  /** The ids a claim could take, earliest arrival first. */
  function EligibleIds(ops: map<OpId, Row>, ids: seq<OpId>, wanted: set<OpState>, now: int): seq<OpId> {
    if ids == [] then []
    else
      var rest := EligibleIds(ops, ids[1..], wanted, now);
      if ids[0] in ops && Claimable(ops[ids[0]], wanted, now) then [ids[0]] + rest else rest
  }

  function IdsOf(claims: seq<Claimed>): (ids: seq<OpId>)
    ensures |ids| == |claims|
    ensures forall k :: 0 <= k < |ids| ==> ids[k] == claims[k].id
  {
    seq(|claims|, k requires 0 <= k < |claims| => claims[k].id)
  }

  function Room(limit: int, n: nat): nat {
    if limit <= 0 then 0 else if limit <= n then limit else n
  }

  lemma {:induction false} EligibleFrame(ops: map<OpId, Row>, ids: seq<OpId>, wanted: set<OpState>, now: int,
                                         id: OpId, row: Row)
    requires id !in ids
    ensures EligibleIds(ops[id := row], ids, wanted, now) == EligibleIds(ops, ids, wanted, now)
    decreases |ids|
  {
    if ids != [] {
      EligibleFrame(ops, ids[1..], wanted, now, id, row);
    }
  }

  lemma {:induction false} EligibleIn(ops: map<OpId, Row>, ids: seq<OpId>, wanted: set<OpState>, now: int)
    ensures forall k :: 0 <= k < |EligibleIds(ops, ids, wanted, now)| ==>
              var id := EligibleIds(ops, ids, wanted, now)[k];
              id in ids && id in ops && Claimable(ops[id], wanted, now)
    decreases |ids|
  {
    if ids != [] {
      EligibleIn(ops, ids[1..], wanted, now);
    }
  }

  /**
  A claim takes the first `limit` eligible rows in arrival order, no more and no fewer.
  Each taken row is what it was, leased, with the token raised by one, and that is what
  the caller is handed. Every other row is untouched.
  */
  lemma {:induction false} ClaimExact(ops: map<OpId, Row>, ids: seq<OpId>, wanted: set<OpState>, limit: int,
                                      worker: WorkerId, leaseMs: int, now: int)
    requires DistinctIds(ids)
    ensures var (ops', out) := ClaimFrom(ops, ids, wanted, limit, worker, leaseMs, now);
      var eligible := EligibleIds(ops, ids, wanted, now);
      && ops'.Keys == ops.Keys
      && IdsOf(out) == eligible[..Room(limit, |eligible|)]
      && (forall k :: 0 <= k < |out| ==>
            && out[k].id in ops
            && Claimable(ops[out[k].id], wanted, now)
            && out[k].row == Leased(ops[out[k].id], worker, leaseMs, now)
            && ops'[out[k].id] == out[k].row)
      && (forall id :: id in ops && id !in IdsOf(out) ==> ops'[id] == ops[id])
    decreases |ids|
  {
    var eligible := EligibleIds(ops, ids, wanted, now);
    if ids == [] || limit <= 0 {
      assert IdsOf([]) == eligible[..Room(limit, |eligible|)];
    } else {
      var id := ids[0];
      assert id !in ids[1..];
      if id in ops && Claimable(ops[id], wanted, now) {
        var row := Leased(ops[id], worker, leaseMs, now);
        ClaimExact(ops[id := row], ids[1..], wanted, limit - 1, worker, leaseMs, now);
        EligibleFrame(ops, ids[1..], wanted, now, id, row);
        EligibleIn(ops, ids[1..], wanted, now);
        var rest := ClaimFrom(ops[id := row], ids[1..], wanted, limit - 1, worker, leaseMs, now).1;
        ConsClaim(id, row, rest);
        assert id !in IdsOf(rest);
      } else {
        ClaimExact(ops, ids[1..], wanted, limit, worker, leaseMs, now);
      }
    }
  }

  lemma ConsClaim(id: OpId, row: Row, rest: seq<Claimed>)
    ensures IdsOf([Claimed(id, row)] + rest) == [id] + IdsOf(rest)
  {
  }

  lemma ClaimedOrNot(ops: map<OpId, Row>, ids: seq<OpId>, wanted: set<OpState>, limit: int,
                     worker: WorkerId, leaseMs: int, now: int, id: OpId)
    requires DistinctIds(ids) && id in ops
    ensures var ops' := ClaimFrom(ops, ids, wanted, limit, worker, leaseMs, now).0;
      && id in ops'
      && (ops'[id] == ops[id] || (Claimable(ops[id], wanted, now) && ops'[id] == Leased(ops[id], worker, leaseMs, now)))
  {
    ClaimExact(ops, ids, wanted, limit, worker, leaseMs, now);
  }

  lemma {:induction false} EligibleDistinct(ops: map<OpId, Row>, ids: seq<OpId>, wanted: set<OpState>, now: int)
    requires DistinctIds(ids)
    ensures DistinctIds(EligibleIds(ops, ids, wanted, now))
    decreases |ids|
  {
    if ids != [] {
      EligibleDistinct(ops, ids[1..], wanted, now);
      EligibleIn(ops, ids[1..], wanted, now);
    }
  }

  lemma ClaimDistinct(ops: map<OpId, Row>, ids: seq<OpId>, wanted: set<OpState>, limit: int,
                      worker: WorkerId, leaseMs: int, now: int)
    requires DistinctIds(ids)
    ensures DistinctIds(IdsOf(ClaimFrom(ops, ids, wanted, limit, worker, leaseMs, now).1))
  {
    ClaimExact(ops, ids, wanted, limit, worker, leaseMs, now);
    EligibleDistinct(ops, ids, wanted, now);
  }

  // ---------------------------------------------------------------- what no call ever undoes

  predicate SamePayload(r: Row, r': Row) {
    r'.hash == r.hash && r'.to == r.to && r'.asset == r.asset && r'.amount == r.amount && r'.createdAt == r.createdAt
  }

  /** A row later in time: same payload, no smaller token, and frozen once terminal except for the lease columns. */
  predicate RowLater(r: Row, r': Row) {
    && SamePayload(r, r')
    && r.token <= r'.token
    && (Terminal(r.state) ==>
          r' == r.(claimedBy := r'.claimedBy, lease := r'.lease, updatedAt := r'.updatedAt))
  }

  ghost predicate Later(db: Db, db': Db) {
    && db.events <= db'.events
    && db.arrival <= db'.arrival
    && (forall id :: id in db.ops ==> id in db'.ops && RowLater(db.ops[id], db'.ops[id]))
  }

  lemma LaterTrans(a: Db, b: Db, c: Db)
    requires Later(a, b) && Later(b, c)
    ensures Later(a, c)
  {
    forall id | id in a.ops ensures id in c.ops && RowLater(a.ops[id], c.ops[id]) {
      assert RowLater(a.ops[id], b.ops[id]) && RowLater(b.ops[id], c.ops[id]);
    }
  }

  lemma InsertLater(db: Db, id: OpId, row: Row)
    ensures Later(db, Insert(db, id, row))
  {
  }

  lemma CasLater(db: Db, id: OpId, token: nat, from: OpState, to: OpState, p: Patch, detail: Detail,
                 renewMs: Option<int>, worker: WorkerId, now: int)
    ensures var r := Cas(db, id, token, from, to, p, detail, renewMs, worker, now);
      r.Written? ==> Later(db, r.db)
  {
  }

  lemma ReleaseLater(db: Db, id: OpId, token: nat, now: int)
    ensures Later(db, Release(db, id, token, now))
  {
  }

  lemma ClaimLater(db: Db, wanted: set<OpState>, limit: int, worker: WorkerId, leaseMs: int, now: int)
    requires DbInv(db) && forall st :: st in wanted ==> !Terminal(st)
    ensures Later(db, Claim(db, wanted, limit, worker, leaseMs, now).0)
  {
    var db' := Claim(db, wanted, limit, worker, leaseMs, now).0;
    forall id | id in db.ops ensures id in db'.ops && RowLater(db.ops[id], db'.ops[id]) {
      ClaimedOrNot(db.ops, db.arrival, wanted, limit, worker, leaseMs, now, id);
    }
  }
}
