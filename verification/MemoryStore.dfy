/**
The in-memory store as an object whose tables change in place. Every method is proved
equal to the store function of the same name, and those functions keep `DbInv`.
*/
module MemoryStore {

  import opened Common
  import opened States
  import opened Chain
  import opened Store
  import opened StoreProperties
  import opened StoreLaws

  /** What `cas` tells its caller. */
  datatype CasReply = NotAllowed | TokenMismatch | Accepted(row: Row)

  function ReplyTo(r: CasResult): CasReply {
    match r
    case IllegalTransition => NotAllowed
    case Missed => TokenMismatch
    case Written(_, row) => Accepted(row)
  }

  function After(db: Db, r: CasResult): Db {
    if r.Written? then r.db else db
  }

  /** The rows in one of the wanted states, earliest arrival first. */
  function Candidates(ops: map<OpId, Row>, ids: seq<OpId>, wanted: set<OpState>): seq<OpId> {
    if ids == [] then []
    else
      var last := ids[|ids| - 1];
      Candidates(ops, ids[..|ids| - 1], wanted) + if last in ops && ops[last].state in wanted then [last] else []
  }

  /** Two claims in a row, the second over the ids that were left. */
  function Chained(first: seq<Claimed>, r: (map<OpId, Row>, seq<Claimed>)): (map<OpId, Row>, seq<Claimed>) {
    (r.0, first + r.1)
  }

  lemma {:induction false} CandidatesIn(ops: map<OpId, Row>, ids: seq<OpId>, wanted: set<OpState>)
    ensures forall id :: id in Candidates(ops, ids, wanted) <==> id in ids && id in ops && ops[id].state in wanted
    decreases |ids|
  {
    if ids != [] {
      CandidatesIn(ops, ids[..|ids| - 1], wanted);
      assert ids == ids[..|ids| - 1] + [ids[|ids| - 1]];
    }
  }

  lemma Reassociate(a: seq<OpId>, b: seq<OpId>, c: seq<OpId>)
    ensures a + b + c == a + (b + c)
  {
  }

  lemma {:induction false} CandidatesCons(ops: map<OpId, Row>, ids: seq<OpId>, wanted: set<OpState>)
    requires ids != []
    ensures Candidates(ops, ids, wanted) ==
            (if ids[0] in ops && ops[ids[0]].state in wanted then [ids[0]] else []) + Candidates(ops, ids[1..], wanted)
    decreases |ids|
  {
    if |ids| > 1 {
      var init, tail, last := ids[..|ids| - 1], ids[1..], ids[|ids| - 1];
      CandidatesCons(ops, init, wanted);
      assert tail[..|tail| - 1] == init[1..] && tail[|tail| - 1] == last;
      Reassociate(if ids[0] in ops && ops[ids[0]].state in wanted then [ids[0]] else [], Candidates(ops, init[1..], wanted),
                  if last in ops && ops[last].state in wanted then [last] else []);
    }
  }

  lemma {:induction false} CandidatesFrame(ops: map<OpId, Row>, ids: seq<OpId>, wanted: set<OpState>, id: OpId, row: Row)
    requires id !in ids
    ensures Candidates(ops[id := row], ids, wanted) == Candidates(ops, ids, wanted)
    decreases |ids|
  {
    if ids != [] {
      CandidatesFrame(ops, ids[..|ids| - 1], wanted, id, row);
    }
  }

  /** Filtering by state first and skipping the leased rows later is the same claim. */
  lemma {:induction false} ClaimCandidates(ops: map<OpId, Row>, ids: seq<OpId>, wanted: set<OpState>, limit: int,
                                           worker: WorkerId, leaseMs: int, now: int)
    requires DistinctIds(ids)
    ensures ClaimFrom(ops, Candidates(ops, ids, wanted), wanted, limit, worker, leaseMs, now)
            == ClaimFrom(ops, ids, wanted, limit, worker, leaseMs, now)
    decreases |ids|
  {
    if ids != [] {
      var id, rest := ids[0], ids[1..];
      CandidatesCons(ops, ids, wanted);
      assert id !in rest;
      if id in ops && ops[id].state in wanted {
        assert Candidates(ops, ids, wanted)[1..] == Candidates(ops, rest, wanted);
      }
      if id in ops && Claimable(ops[id], wanted, now) {
        var row := Leased(ops[id], worker, leaseMs, now);
        CandidatesFrame(ops, rest, wanted, id, row);
        ClaimCandidates(ops[id := row], rest, wanted, limit - 1, worker, leaseMs, now);
      } else {
        assert [] + Candidates(ops, rest, wanted) == Candidates(ops, rest, wanted);
        ClaimCandidates(ops, rest, wanted, limit, worker, leaseMs, now);
      }
    }
  }

  lemma ClaimUnfold(ops: map<OpId, Row>, ids: seq<OpId>, wanted: set<OpState>, limit: int,
                    worker: WorkerId, leaseMs: int, now: int, out: seq<Claimed>)
    requires ids != [] && limit > 0 && ids[0] in ops && ops[ids[0]].state in wanted
    ensures var row := Leased(ops[ids[0]], worker, leaseMs, now);
      Chained(out, ClaimFrom(ops, ids, wanted, limit, worker, leaseMs, now)) ==
      if Claimable(ops[ids[0]], wanted, now)
      then Chained(out + [Claimed(ids[0], row)],
                   ClaimFrom(ops[ids[0] := row], ids[1..], wanted, limit - 1, worker, leaseMs, now))
      else Chained(out, ClaimFrom(ops, ids[1..], wanted, limit, worker, leaseMs, now))
  {
    var row := Leased(ops[ids[0]], worker, leaseMs, now);
    var tail := ClaimFrom(ops[ids[0] := row], ids[1..], wanted, limit - 1, worker, leaseMs, now);
    assert out + ([Claimed(ids[0], row)] + tail.1) == out + [Claimed(ids[0], row)] + tail.1;
  }

  class MemoryStore {
    var ops: map<OpId, Row>
    var arrival: seq<OpId>
    var events: seq<Event>

    ghost function View(): Db
      reads this
    {
      Db(ops, arrival, events)
    }

    constructor ()
      ensures View() == EMPTY_DB
    {
      ops, arrival, events := map[], [], [];
    }

    method AppendEvent(id: OpId, from: Option<OpState>, to: OpState, worker: Option<WorkerId>, token: nat,
                       detail: Detail, now: int)
      modifies this`events
      ensures events == Appended(old(events), id, from, to, worker, token, detail, now)
    {
      events := events + [Event(id, from, to, worker, token, detail, now, |events| + 1)];
    }

    /** Insert once: the row of the first submission wins, whatever the second one says. */
    method InsertNew(id: OpId, op: Row, now: int) returns (row: Row, created: bool)
      modifies this
      ensures View() == Insert(old(View()), id, op.(createdAt := now, updatedAt := now))
      ensures created == (id !in old(ops)) && id in ops && row == ops[id]
    {
      if id in ops {
        return ops[id], false;
      }
      row, created := op.(createdAt := now, updatedAt := now), true;
      ops := ops[id := row];
      arrival := arrival + [id];
      AppendEvent(id, None, row.state, None, 0, Intake, now);
    }

    method Wanted(wanted: set<OpState>) returns (candidates: seq<OpId>)
      ensures candidates == Candidates(ops, arrival, wanted)
    {
      candidates := [];
      for k := 0 to |arrival|
        invariant candidates == Candidates(ops, arrival[..k], wanted)
      {
        assert arrival[..k + 1][..k] == arrival[..k];
        if arrival[k] in ops && ops[arrival[k]].state in wanted {
          candidates := candidates + [arrival[k]];
        }
      }
      assert arrival[..|arrival|] == arrival;
    }

    /** The sweep over the candidates: skip what is leased, lease what is not, stop at the limit. */
    method Take(candidates: seq<OpId>, wanted: set<OpState>, limit: int, worker: WorkerId, leaseMs: int, now: int)
      returns (out: seq<Claimed>)
      requires forall id :: id in candidates ==> id in ops && ops[id].state in wanted
      modifies this`ops
      ensures (ops, out) == ClaimFrom(old(ops), candidates, wanted, limit, worker, leaseMs, now)
    {
      out := [];
      var k := 0;
      ghost var goal := ClaimFrom(ops, candidates, wanted, limit, worker, leaseMs, now);
      assert candidates[0..] == candidates && out + goal.1 == goal.1;
      while k < |candidates| && |out| < limit
        invariant 0 <= k <= |candidates|
        invariant forall j :: k <= j < |candidates| ==> candidates[j] in ops && ops[candidates[j]].state in wanted
        invariant goal == Chained(out, ClaimFrom(ops, candidates[k..], wanted, limit - |out|, worker, leaseMs, now))
      {
        var id := candidates[k];
        assert candidates[k..][1..] == candidates[k + 1..];
        ClaimUnfold(ops, candidates[k..], wanted, limit - |out|, worker, leaseMs, now, out);
        if ops[id].lease.None? || ops[id].lease.value <= now {
          ops := ops[id := Leased(ops[id], worker, leaseMs, now)];
          out := out + [Claimed(id, ops[id])];
        }
        k := k + 1;
      }
      assert out + [] == out;
    }

    /** Take the free rows among the wanted ones, first come first served, and raise their tokens. */
    method Claim(wanted: set<OpState>, limit: int, worker: WorkerId, leaseMs: int, now: int) returns (out: seq<Claimed>)
      requires DistinctIds(arrival)
      modifies this`ops
      ensures (View(), out) == Store.Claim(old(View()), wanted, limit, worker, leaseMs, now)
      ensures ClaimDone(old(View()), View(), out, wanted, limit, worker, leaseMs, now)
    {
      ClaimExactly(View(), wanted, limit, worker, leaseMs, now);
      var candidates := Wanted(wanted);
      CandidatesIn(ops, arrival, wanted);
      ClaimCandidates(ops, arrival, wanted, limit, worker, leaseMs, now);
      out := Take(candidates, wanted, limit, worker, leaseMs, now);
    }

    /** The columns a successful write changes. */
    method Rewrite(row: Row, to: OpState, sets: Patch, renewMs: Option<int>, now: int) returns (op: Row)
      ensures op == CasRow(row, to, sets, renewMs, now)
    {
      op := Patched(row, sets);
      op := op.(state := to, updatedAt := now);
      if renewMs.Some? {
        op := op.(lease := Some(now + renewMs.value));
      }
      if Terminal(to) {
        op := op.(claimedBy := None, lease := None);
      }
    }

    /** The fencing check: token and state must be those the caller last saw. */
    method StillHeld(id: OpId, token: nat, from: OpState) returns (held: bool)
      ensures held == CasHits(View(), id, token, from)
    {
      if id !in ops {
        return false;
      }
      if ops[id].token != token || ops[id].state != from {
        return false;
      }
      return !Terminal(ops[id].state);
    }

    /** The write itself, once every check has passed. */
    method Commit(id: OpId, row: Row, from: OpState, to: OpState, sets: Patch, detail: Detail,
                  renewMs: Option<int>, worker: WorkerId, now: int) returns (op: Row)
      modifies this
      ensures op == CasRow(row, to, sets, renewMs, now)
      ensures View() == old(View()).(
                ops := old(ops)[id := op],
                events := Appended(old(events), id, Some(from), to, Some(worker), row.token, detail, now))
    {
      op := Rewrite(row, to, sets, renewMs, now);
      ops := ops[id := op];
      AppendEvent(id, Some(from), to, Some(worker), row.token, detail, now);
    }

    /** The one write path: state, token and table decide, and only a hit leaves an event. */
    method Cas(id: OpId, token: nat, from: OpState, to: OpState, sets: Patch, detail: Detail,
               renewMs: Option<int>, worker: WorkerId, now: int) returns (reply: CasReply)
      modifies this
      ensures var r := Store.Cas(old(View()), id, token, from, to, sets, detail, renewMs, worker, now);
        reply == ReplyTo(r) && View() == After(old(View()), r)
    {
      if !CanTransition(from, to) {
        return NotAllowed;
      }
      var current := StillHeld(id, token, from);
      if !current {
        return TokenMismatch;
      }
      var op := Commit(id, ops[id], from, to, sets, detail, renewMs, worker, now);
      return Accepted(op);
    }

    /** Drop the lease, terminal row or not, if the token is still the current one. */
    method Release(id: OpId, token: nat, now: int)
      modifies this`ops
      ensures View() == Store.Release(old(View()), id, token, now)
    {
      if id !in ops || ops[id].token != token {
        return;
      }
      ops := ops[id := ops[id].(claimedBy := None, lease := None, updatedAt := now)];
    }

    method Events(id: OpId) returns (log: seq<Event>)
      ensures log == Log(events, id)
    {
      log := [];
      for k := 0 to |events|
        invariant log == Log(events[..k], id)
      {
        assert events[..k + 1][..k] == events[..k];
        if events[k].id == id {
          log := log + [events[k]];
        }
      }
      assert events[..|events|] == events;
    }

    method AllTxids(id: OpId) returns (txids: set<Txid>)
      ensures forall txid :: txid in txids <==> Given(events, id, txid)
    {
      txids := {};
      for k := 0 to |events|
        invariant forall txid :: txid in txids <==> Given(events[..k], id, txid)
      {
        GivenSnoc(events, k, id);
        if events[k].id == id && TxidOf(events[k].detail).Some? {
          txids := txids + {TxidOf(events[k].detail).value};
        }
      }
      assert events[..|events|] == events;
    }
  }

  lemma GivenSnoc(es: seq<Event>, k: nat, id: OpId)
    requires k < |es|
    ensures forall txid ::
              Given(es[..k + 1], id, txid) <==>
              Given(es[..k], id, txid) || (es[k].id == id && TxidOf(es[k].detail) == Some(txid))
  {
    var fs := es[..k + 1];
    forall txid
      ensures Given(fs, id, txid) <==> Given(es[..k], id, txid) || (es[k].id == id && TxidOf(es[k].detail) == Some(txid))
    {
      if Given(es[..k], id, txid) {
        var j :| 0 <= j < k && es[..k][j].id == id && TxidOf(es[..k][j].detail) == Some(txid);
        assert fs[j] == es[..k][j];
      }
      if Given(fs, id, txid) {
        var j :| 0 <= j < |fs| && fs[j].id == id && TxidOf(fs[j].detail) == Some(txid);
        assert j < k ==> es[..k][j] == fs[j];
      }
      assert fs[k] == es[k];
    }
  }
}
