/**
Building blocks for runs that are exhibited: drives that nobody disturbs for a while. Each
lemma takes a state, reached from some origin `o`, a few actions further.
*/
module Scenario {

  import opened Common
  import opened States
  import opened Chain
  import opened Store
  import opened StoreProperties
  import opened Protocol
  import opened InvariantWrites
  import opened ReadOrder

  /** Drive `i` is at work and holds the current row of its operation. */
  predicate Holder(s: Sys, i: nat) {
    && |s.node.times| > 0 && i < |s.drives| && s.drives[i].id in s.db.ops
    && s.drives[i].op == s.db.ops[s.drives[i].id]
    && Running(s.drives[i].pc) && !Terminal(s.drives[i].op.state)
  }

  /** Nothing but drive `i` and the row of its operation has changed. */
  predicate OnlyMoves(s: Sys, s': Sys, i: nat) {
    && i < |s.drives| && i < |s'.drives| && s'.drives == s.drives[i := s'.drives[i]]
    && s'.drives[i].id == s.drives[i].id && s'.drives[i].worker == s.drives[i].worker
    && s'.drives[i].id in s'.db.ops && s'.db.ops == s.db.ops[s.drives[i].id := s'.db.ops[s.drives[i].id]]
    && s'.db.arrival == s.db.arrival && s'.node == s.node && s.db.events <= s'.db.events
  }

  predicate SamePayment(a: Row, b: Row) {
    a.to == b.to && a.amount == b.amount && a.attempts == b.attempts
  }

  /** Nothing but claim, lease and token may differ. */
  predicate SameWork(a: Row, b: Row) {
    SamePayment(a, b) && a.state == b.state && a.asset == b.asset
  }

  /** One event more, of the operation of drive `i`. */
  predicate Appends(s: Sys, s': Sys, i: nat, detail: Detail) {
    && |s'.db.events| == |s.db.events| + 1 && s.db.events <= s'.db.events && i < |s.drives|
    && s'.db.events[|s.db.events|].id == s.drives[i].id && s'.db.events[|s.db.events|].detail == detail
  }

  /** A write by the holder, as a step of the system. */
  lemma Writes(c: Config, o: Sys, s: Sys, i: nat, now: int, p: CasPlan)
    requires Leads(c, o, s) && s.clock <= now && Holder(s, i)
    requires Plan(c, s.drives[i], now) == Some(p) && CanTransition(s.drives[i].op.state, p.to)
    ensures var s' := Step(c, s, Act(i, now));
      var row := NewOp(c, s.drives[i], p, now);
      && Leads(c, o, s') && s'.clock == now && OnlyMoves(s, s', i) && Appends(s, s', i, p.detail)
      && s'.drives[i] == AfterWrite(s.drives[i], row) && s'.drives[i].op == row && s'.db.ops[s.drives[i].id] == row
  {
    Next(c, o, s, Act(i, now));
    AfterWriteOwner(s.drives[i], NewOp(c, s.drives[i], p, now));
  }

  /** A read, node call or clock reading, as a step of the system. */
  lemma Reads(c: Config, o: Sys, s: Sys, i: nat, now: int)
    requires Leads(c, o, s) && s.clock <= now && |s.node.times| > 0
    requires i < |s.drives| && Running(s.drives[i].pc) && Plan(c, s.drives[i], now).None?
    ensures var s' := Step(c, s, Act(i, now));
      && Leads(c, o, s') && s'.db == s.db && s'.clock == now
      && s'.node == ReadStep(c, s.node, s.drives[i], now).0
      && s'.drives == s.drives[i := ReadStep(c, s.node, s.drives[i], now).1]
  {
    Next(c, o, s, Act(i, now));
  }

  // ---------------------------------------------------------------- an undisturbed drive forges and announces

  lemma Assembles(c: Config, o: Sys, s: Sys, i: nat, ref: int, now: int) returns (s': Sys)
    requires Leads(c, o, s) && s.clock <= now && Holder(s, i) && s.drives[i].pc == HaveRef(ref)
    ensures Leads(c, o, s') && s'.db == s.db && s'.node == s.node && s'.clock == now
    ensures s'.drives == s.drives[i := s.drives[i].(pc := Envelope(BuildRaw(c, s.drives[i].op, ref, now)))]
  {
    Reads(c, o, s, i, now);
    s' := Step(c, s, Act(i, now));
  }

  lemma Persists(c: Config, o: Sys, s: Sys, i: nat, raw: RawData, now: int) returns (s': Sys)
    requires Leads(c, o, s) && s.clock <= now && Holder(s, i) && s.drives[i].op.state == Signing
    requires s.drives[i].pc == Envelope(raw)
    ensures Leads(c, o, s') && Holder(s', i) && s'.clock == now && OnlyMoves(s, s', i)
    ensures Appends(s, s', i, EnvelopeBuilt(Txid(raw)))
    ensures var d, d' := s.drives[i], s'.drives[i];
      && d'.pc == ToSign(raw) && d'.base == d.base && d'.steps == d.steps
      && d'.op.txid == Some(Txid(raw)) && d'.op.state == Signing && SamePayment(d.op, d'.op)
  {
    Writes(c, o, s, i, now, EnvelopePlan(raw));
    s' := Step(c, s, Act(i, now));
  }

  lemma SignIt(c: Config, o: Sys, s: Sys, i: nat, raw: RawData, now: int) returns (s': Sys)
    requires Leads(c, o, s) && s.clock <= now && Holder(s, i) && s.drives[i].op.state == Signing
    requires s.drives[i].pc == ToSign(raw) && s.drives[i].steps < 7 && s.drives[i].base.state != Signed
    ensures Leads(c, o, s') && Holder(s', i) && s'.clock == now && OnlyMoves(s, s', i)
    ensures var d, d' := s.drives[i], s'.drives[i];
      && d'.pc == Ready && d'.steps == d.steps + 1 && d'.base == d'.op
      && d'.op.state == Signed && SamePayment(d.op, d'.op) && d'.op.txid == d.op.txid
      && d'.op.signed == Some(Sign(c.signer, raw))
  {
    Writes(c, o, s, i, now, CasPlan(Signed, Patch(signed := Set(Some(Sign(c.signer, raw)))), NoDetail));
    s' := Step(c, s, Act(i, now));
  }

  lemma StillValid(c: Config, o: Sys, s: Sys, i: nat, now: int) returns (s': Sys)
    requires Leads(c, o, s) && s.clock <= now && Holder(s, i) && s.drives[i].op.state == Signed
    requires s.drives[i].pc == Ready && s.drives[i].op.signed.Some? && now < s.drives[i].op.signed.value.expiration
    ensures Leads(c, o, s') && s'.db == s.db && s'.node == s.node && s'.clock == now
    ensures s'.drives == s.drives[i := s.drives[i].(pc := Announce)]
  {
    Reads(c, o, s, i, now);
    s' := Step(c, s, Act(i, now));
  }

  lemma Announces(c: Config, o: Sys, s: Sys, i: nat, tx: SignedTx, now: int) returns (s': Sys)
    requires Leads(c, o, s) && s.clock <= now && Holder(s, i) && s.drives[i].op.state == Signed
    requires s.drives[i].pc == Announce && s.drives[i].op.signed == Some(tx)
    ensures Leads(c, o, s') && Holder(s', i) && s'.clock == now && OnlyMoves(s, s', i)
    ensures Appends(s, s', i, WriteAhead(tx.txid))
    ensures var d, d' := s.drives[i], s'.drives[i];
      && d'.pc == Wire && d'.steps == d.steps && d'.base == d.base
      && d'.op.state == Broadcasting && SamePayment(d.op, d'.op) && d'.op.txid == d.op.txid
      && d'.op.signed == Some(tx) && d'.op.lease == Some(now + c.leaseMs)
  {
    Writes(c, o, s, i, now, CasPlan(Broadcasting, Patch(), WriteAhead(tx.txid)));
    s' := Step(c, s, Act(i, now));
  }

  lemma MovesOn(a: Sys, b: Sys, d: Sys, i: nat)
    requires OnlyMoves(a, b, i) && OnlyMoves(b, d, i)
    ensures OnlyMoves(a, d, i)
  {
  }

  lemma SignedAndAnnounced(c: Config, o: Sys, s: Sys, i: nat, raw: RawData, now: int) returns (s': Sys)
    requires Leads(c, o, s) && s.clock <= now && Holder(s, i) && s.drives[i].op.state == Signing && now < raw.expiration
    requires s.drives[i].pc == ToSign(raw) && s.drives[i].steps < 7 && s.drives[i].base.state != Signed
    ensures Leads(c, o, s') && Holder(s', i) && s'.clock == now && OnlyMoves(s, s', i)
    ensures var d, d' := s.drives[i], s'.drives[i];
      && d'.pc == Wire && d'.steps == d.steps + 1 && d'.base.state == Signed
      && d'.op.state == Broadcasting && SamePayment(d.op, d'.op) && d'.op.txid == d.op.txid
      && d'.op.signed == Some(Sign(c.signer, raw)) && d'.op.lease == Some(now + c.leaseMs)
      && WroteAhead(s'.db.events, d.id, Txid(raw))
  {
    var t := SignIt(c, o, s, i, raw, now);
    var u := StillValid(c, o, t, i, now);
    s' := Announces(c, o, u, i, Sign(c.signer, raw), now);
    assert s'.db.events[|u.db.events|].detail == WriteAhead(Txid(raw));
  }

  /** From a reference block to the brink of the send. */
  lemma UpToTheWire(c: Config, o: Sys, s: Sys, i: nat, ref: int, now: int) returns (s': Sys)
    requires Leads(c, o, s) && s.clock <= now && Holder(s, i) && s.drives[i].op.state == Signing && c.ttlMs >= 1
    requires s.drives[i].pc == HaveRef(ref) && s.drives[i].steps < 7 && s.drives[i].base.state != Signed
    ensures Leads(c, o, s') && Holder(s', i) && s'.clock == now && OnlyMoves(s, s', i)
    ensures var d, d' := s.drives[i], s'.drives[i];
      var raw := BuildRaw(c, d.op, ref, now);
      && d'.pc == Wire && d'.steps == d.steps + 1 && d'.base.state == Signed
      && d'.op.state == Broadcasting && SamePayment(d.op, d'.op) && d'.op.txid == Some(Txid(raw))
      && d'.op.signed == Some(Sign(c.signer, raw)) && d'.op.lease == Some(now + c.leaseMs)
      && WroteAhead(s'.db.events, d.id, Txid(raw))
  {
    var raw := BuildRaw(c, s.drives[i].op, ref, now);
    var t := Assembles(c, o, s, i, ref, now);
    var u := Persists(c, o, t, i, raw, now);
    s' := SignedAndAnnounced(c, o, u, i, raw, now);
    MovesOn(t, u, s', i);
  }

  /** The node takes a transaction it has not seen. */
  lemma Transmits(c: Config, o: Sys, s: Sys, i: nat, raw: RawData, now: int) returns (s': Sys)
    requires Leads(c, o, s) && s.clock <= now && |s.node.times| > 0 && i < |s.drives|
    requires s.drives[i].pc == Wire && s.drives[i].op.signed == Some(Sign(c.signer, raw))
    requires s.node.key == c.signer && s.node.broadcastFaults == [] && now < raw.expiration && Txid(raw) !in s.node.txs
    ensures Leads(c, o, s') && s'.db == s.db && s'.clock == now
    ensures s'.drives == s.drives[i := s.drives[i].(pc := Settle(CodeSuccess))]
    ensures s'.node == Logged(Admit(s.node, Sign(c.signer, raw)), Txid(raw), LoggedAccepted, s.drives[i].worker)
  {
    Reads(c, o, s, i, now);
    s' := Step(c, s, Act(i, now));
  }

  // ---------------------------------------------------------------- blocks

  /** Without scripted reverts every eligible transaction gets a success receipt, the others keep their records. */
  lemma {:induction false} HonestMine(txs: map<Txid, TxRecord>, order: seq<Txid>, head: int, t: int, delay: int)
    ensures var (r, faults) := Mine(txs, order, head, t, delay, []);
      && faults == [] && r.Keys == txs.Keys
      && forall txid :: txid in txs ==>
           r[txid] == if txid in order && Eligible(txs[txid], head, t, delay) then Mined(txs[txid], head, []) else txs[txid]
    decreases |order|
  {
    if order != [] {
      var first := order[0];
      assert order == [first] + order[1..];
      if first in txs && Eligible(txs[first], head, t, delay) {
        HonestMine(txs[first := Mined(txs[first], head, [])], order[1..], head, t, delay);
      } else {
        HonestMine(txs, order[1..], head, t, delay);
      }
    }
  }

  lemma Blocks(c: Config, o: Sys, s: Sys, now: int) returns (s': Sys)
    requires Leads(c, o, s) && s.clock <= now && |s.node.times| > 0
    requires s.node.receiptFaults == []
    ensures Leads(c, o, s') && s'.db == s.db && s'.drives == s.drives && s'.clock == now
    ensures s'.node == s.node.(times := s.node.times + [NextTime(s.node, now)], txs := s'.node.txs)
    ensures s'.node.txs.Keys == s.node.txs.Keys
    ensures forall txid :: txid in s.node.txs ==>
              s'.node.txs[txid] ==
              if txid in s.node.order && Eligible(s.node.txs[txid], Head(s.node) + 1, NextTime(s.node, now), s.node.delay)
              then Mined(s.node.txs[txid], Head(s.node) + 1, []) else s.node.txs[txid]
  {
    Next(c, o, s, Block(now));
    HonestMine(s.node.txs, s.node.order, Head(s.node) + 1, NextTime(s.node, now), s.node.delay);
    s' := Step(c, s, Block(now));
  }

  // ---------------------------------------------------------------- claims

  /** A claim with room for everyone, at a time when the operation is free, starts a drive on it. */
  lemma Claims(c: Config, o: Sys, s: Sys, id: OpId, worker: WorkerId, now: int) returns (s': Sys, j: nat)
    requires Leads(c, o, s) && s.clock <= now && |s.node.times| > 0
    requires DistinctIds(s.db.arrival) && id in s.db.arrival && id in s.db.ops && Claimable(s.db.ops[id], CLAIMABLE, now)
    ensures Leads(c, o, s') && s'.node == s.node && s'.clock == now
    ensures s'.db.events == s.db.events && s'.db.arrival == s.db.arrival
    ensures s.drives <= s'.drives && |s.drives| <= j < |s'.drives| && Holder(s', j)
    ensures id in s'.db.ops && s'.drives[j] == Drive(worker, id, s'.db.ops[id], s'.db.ops[id], Ready, 0, false)
    ensures s'.db.ops[id] == Leased(s.db.ops[id], worker, c.leaseMs, now)
    ensures forall x :: x in s.db.ops ==> x in s'.db.ops && SameWork(s.db.ops[x], s'.db.ops[x])
  {
    var limit := |s.db.arrival|;
    Next(c, o, s, ClaimBatch(worker, limit, now));
    s' := Step(c, s, ClaimBatch(worker, limit, now));
    var k := ClaimedAt(s.db.ops, s.db.arrival, limit, worker, c.leaseMs, now, id);
    j := |s.drives| + k;
    forall x | x in s.db.ops ensures x in s'.db.ops && SameWork(s.db.ops[x], s'.db.ops[x]) {
      ClaimedOrNot(s.db.ops, s.db.arrival, CLAIMABLE, limit, worker, c.leaseMs, now, x);
    }
  }

  lemma ClaimedAt(ops: map<OpId, Row>, ids: seq<OpId>, limit: int, worker: WorkerId, leaseMs: int, now: int, id: OpId)
    returns (k: nat)
    requires DistinctIds(ids) && id in ids && id in ops && Claimable(ops[id], CLAIMABLE, now) && limit >= |ids|
    ensures var (ops', out) := ClaimFrom(ops, ids, CLAIMABLE, limit, worker, leaseMs, now);
      && k < |out| && id in ops' && ops'[id] == Leased(ops[id], worker, leaseMs, now)
      && out[k] == Claimed(id, ops'[id])
  {
    ClaimExact(ops, ids, CLAIMABLE, limit, worker, leaseMs, now);
    var (ops', out) := ClaimFrom(ops, ids, CLAIMABLE, limit, worker, leaseMs, now);
    var eligible := EligibleIds(ops, ids, CLAIMABLE, now);
    EligibleCovers(ops, ids, now, id);
    assert IdsOf(out) == eligible[..|eligible|] == eligible;
    k :| 0 <= k < |eligible| && eligible[k] == id;
    assert IdsOf(out)[k] == id;
  }

  lemma {:induction false} EligibleCovers(ops: map<OpId, Row>, ids: seq<OpId>, now: int, id: OpId)
    requires id in ids && id in ops && Claimable(ops[id], CLAIMABLE, now)
    ensures id in EligibleIds(ops, ids, CLAIMABLE, now)
    ensures |EligibleIds(ops, ids, CLAIMABLE, now)| <= |ids|
    decreases |ids|
  {
    EligibleShort(ops, ids, now);
    if ids[0] != id {
      EligibleCovers(ops, ids[1..], now, id);
    }
  }

  lemma {:induction false} EligibleShort(ops: map<OpId, Row>, ids: seq<OpId>, now: int)
    ensures |EligibleIds(ops, ids, CLAIMABLE, now)| <= |ids|
    decreases |ids|
  {
    if ids != [] {
      EligibleShort(ops, ids[1..], now);
    }
  }

  // ---------------------------------------------------------------- from intake to the first reference block

  /** The node of the concrete runs before anything is sent. */
  function NewChain(c: Config): Node {
    NewNode(2, 1, c.signer, 0)
  }

  /** Where the concrete runs start. */
  function Origin(c: Config): Sys {
    Init(Setup(2, 1, c.signer, 0))
  }

  lemma Submits(c: Config, o: Sys, s: Sys, id: OpId, to: string, amount: int) returns (s': Sys)
    requires Leads(c, o, s) && |s.node.times| > 0 && id !in s.db.ops
    ensures Leads(c, o, s') && s'.drives == s.drives && s'.node == s.node && s'.clock == s.clock
    ensures s'.db.arrival == s.db.arrival + [id] && s'.db.ops == s.db.ops[id := NewRow(to, c.asset, amount, s.clock)]
    ensures s.db.events <= s'.db.events
  {
    Next(c, o, s, Submit(id, to, c.asset, amount, s.clock));
    s' := Step(c, s, Submit(id, to, c.asset, amount, s.clock));
  }

  lemma Validates(c: Config, o: Sys, s: Sys, i: nat) returns (s': Sys)
    requires Leads(c, o, s) && Holder(s, i) && s.drives[i].pc == Ready && s.drives[i].steps == 0
    requires s.drives[i].base == s.drives[i].op && s.drives[i].op.state == Requested && Acceptable(c, s.drives[i].op)
    ensures Leads(c, o, s') && Holder(s', i) && s'.clock == s.clock && OnlyMoves(s, s', i)
    ensures var d, d' := s.drives[i], s'.drives[i];
      && d'.pc == Ready && d'.steps == 1 && d'.base == d'.op && d'.op.state == Validated && SamePayment(d.op, d'.op)
  {
    Writes(c, o, s, i, s.clock, CasPlan(Validated, Patch(), NoDetail));
    s' := Step(c, s, Act(i, s.clock));
  }

  lemma FirstRef(c: Config, o: Sys, s: Sys, i: nat) returns (s': Sys)
    requires Leads(c, o, s) && Holder(s, i) && s.drives[i].pc == Ready
    requires s.drives[i].base == s.drives[i].op && s.drives[i].op.state == Validated
    requires s.drives[i].op.attempts < c.maxAttempts
    ensures Leads(c, o, s') && Holder(s', i) && s'.clock == s.clock && OnlyMoves(s, s', i)
    ensures var d, d' := s.drives[i], s'.drives[i];
      && d'.pc == HaveRef(RefBlock(s.node)) && d'.steps == d.steps && d'.base.state == Validated
      && d'.op.state == Signing && SamePayment(d.op, d'.op)
  {
    Writes(c, o, s, i, s.clock, CasPlan(Signing, Patch(), NoDetail));
    var t := Step(c, s, Act(i, s.clock));
    Reads(c, o, t, i, s.clock);
    s' := Step(c, t, Act(i, s.clock));
  }

  /** A drive that has just claimed a new operation, taken to the brink of the send. */
  lemma FirstEnvelope(c: Config, o: Sys, s: Sys, i: nat) returns (s': Sys, raw: RawData)
    requires Leads(c, o, s) && Holder(s, i) && s.drives[i].pc == Ready && s.drives[i].steps == 0
    requires s.drives[i].base == s.drives[i].op && s.drives[i].op.state == Requested && Acceptable(c, s.drives[i].op)
    requires s.drives[i].op.attempts < c.maxAttempts && c.ttlMs >= 1
    ensures Leads(c, o, s') && Holder(s', i) && s'.clock == s.clock && OnlyMoves(s, s', i)
    ensures var d, d' := s.drives[i], s'.drives[i];
      && raw == BuildRaw(c, d.op, RefBlock(s.node), s.clock)
      && d'.pc == Wire && d'.steps == 2 && d'.base.state == Signed
      && d'.op.state == Broadcasting && SamePayment(d.op, d'.op) && d'.op.txid == Some(Txid(raw))
      && d'.op.signed == Some(Sign(c.signer, raw)) && d'.op.lease == Some(s.clock + c.leaseMs)
      && WroteAhead(s'.db.events, d.id, Txid(raw))
  {
    var t := Validates(c, o, s, i);
    var u := FirstRef(c, o, t, i);
    MovesOn(s, t, u, i);
    raw := BuildRaw(c, s.drives[i].op, RefBlock(s.node), s.clock);
    s' := UpToTheWire(c, o, u, i, RefBlock(s.node), s.clock);
    MovesOn(s, u, s', i);
  }
}
