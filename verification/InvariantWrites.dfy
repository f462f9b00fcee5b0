/** Fenced writes keep the invariant: what each handler writes is true and legal. */
module InvariantWrites {

  import opened Common
  import opened States
  import opened Chain
  import opened ChainProperties
  import opened Store
  import opened StoreProperties
  import opened Protocol
  import opened Invariant
  import opened InvariantProof

  /** The row a planned write produces from the snapshot it was planned on. */
  function NewOp(c: Config, d: Drive, p: CasPlan, now: int): Row {
    CasRow(d.op, p.to, p.patch, Some(c.leaseMs), now)
  }

  function NewEvent(es: seq<Event>, d: Drive, p: CasPlan, now: int): Event {
    Event(d.id, Some(d.op.state), p.to, Some(d.worker), d.op.token, p.detail, now, |es| + 1)
  }

  /** A drive in order whose next action is the write `p`. */
  ghost predicate Planned(c: Config, n: Node, es: seq<Event>, d: Drive, p: CasPlan, now: int) {
    NodeInv(n) && DriveOk(c, n, es, d) && Running(d.pc) && Plan(c, d, now) == Some(p)
  }

  /** No handler ever asks for a transition outside the table. */
  lemma WriteLegal(c: Config, n: Node, es: seq<Event>, d: Drive, p: CasPlan, now: int)
    requires Planned(c, n, es, d, p, now)
    ensures CanTransition(d.op.state, p.to)
  {
  }

  /** The writes from `signed` onwards that carry the envelope along. */
  predicate CarriesEnvelope(pc: Pc) {
    pc.Announce? || pc.Settle? || pc.Found? || pc.Landed?
  }

  lemma DispatchRowOk(c: Config, n: Node, es: seq<Event>, d: Drive, p: CasPlan, now: int)
    requires Planned(c, n, es, d, p, now) && (d.pc.Ready? || d.pc.Build?)
    ensures RowOk(c, NewOp(c, d, p, now))
  {
  }

  lemma EnvelopeRowOk(c: Config, n: Node, es: seq<Event>, d: Drive, p: CasPlan, now: int)
    requires Planned(c, n, es, d, p, now) && (d.pc.Envelope? || d.pc.ToSign?)
    ensures RowOk(c, NewOp(c, d, p, now))
  {
  }

  lemma RetireRowOk(c: Config, n: Node, es: seq<Event>, d: Drive, p: CasPlan, now: int)
    requires Planned(c, n, es, d, p, now) && d.pc.Retire?
    ensures RowOk(c, NewOp(c, d, p, now))
  {
  }

  /** A write that carries the envelope along touches neither the txid nor the bytes. */
  lemma CarryShape(c: Config, n: Node, es: seq<Event>, d: Drive, p: CasPlan, now: int)
    requires Planned(c, n, es, d, p, now) && CarriesEnvelope(d.pc)
    ensures d.op.signed.Some? && SendPlan(d, d.op.signed.value, now) == Some(p)
    ensures p.to in {Broadcasting, Broadcast, Confirmed, Failed}
    ensures p.patch == Patch(lastError := p.patch.lastError, failure := p.patch.failure,
                             broadcastAt := p.patch.broadcastAt, includedBlock := p.patch.includedBlock,
                             confirmedAt := p.patch.confirmedAt)
  {
    SignedBytes(c, d.op);
  }

  /** The row with its envelope as it was. */
  predicate Carried(row: Row, row': Row) {
    && row' == row.(state := row'.state, claimedBy := row'.claimedBy, lease := row'.lease, lastError := row'.lastError,
                    failure := row'.failure, broadcastAt := row'.broadcastAt, includedBlock := row'.includedBlock,
                    confirmedAt := row'.confirmedAt, updatedAt := row'.updatedAt)
    && row'.state in {Broadcasting, Broadcast, Confirmed, Failed}
    && (Terminal(row'.state) ==> row'.lease == None && row'.claimedBy == None)
  }

  lemma CarriedByCas(row: Row, to: OpState, p: Patch, renewMs: Option<int>, now: int)
    requires to in {Broadcasting, Broadcast, Confirmed, Failed}
    requires p == Patch(lastError := p.lastError, failure := p.failure, broadcastAt := p.broadcastAt,
                        includedBlock := p.includedBlock, confirmedAt := p.confirmedAt)
    ensures Carried(row, CasRow(row, to, p, renewMs, now)) && CasRow(row, to, p, renewMs, now).state == to
  {
  }

  lemma CarriedRowOk(c: Config, row: Row, row': Row)
    requires RowOk(c, row) && InFlight(row.state) && Carried(row, row')
    ensures RowOk(c, row')
  {
  }

  lemma CarryRowOk(c: Config, n: Node, es: seq<Event>, d: Drive, p: CasPlan, now: int)
    requires Planned(c, n, es, d, p, now) && CarriesEnvelope(d.pc)
    ensures RowOk(c, NewOp(c, d, p, now))
  {
    CarryShape(c, n, es, d, p, now);
    CarriedByCas(d.op, p.to, p.patch, Some(c.leaseMs), now);
    CarriedRowOk(c, d.op, NewOp(c, d, p, now));
  }

  lemma WriteRowOk(c: Config, n: Node, es: seq<Event>, d: Drive, p: CasPlan, now: int)
    requires Planned(c, n, es, d, p, now)
    ensures RowOk(c, NewOp(c, d, p, now))
  {
    if CarriesEnvelope(d.pc) {
      CarryRowOk(c, n, es, d, p, now);
    } else if d.pc.Ready? || d.pc.Build? {
      DispatchRowOk(c, n, es, d, p, now);
    } else if d.pc.Retire? {
      RetireRowOk(c, n, es, d, p, now);
    } else {
      EnvelopeRowOk(c, n, es, d, p, now);
    }
  }

  lemma Snoc(es: seq<Event>, e: Event, id: OpId, txid: Txid)
    ensures WroteAhead(es + [e], id, txid) <==> WroteAhead(es, id, txid) || (e.id == id && e.detail == WriteAhead(txid))
    ensures Given(es + [e], id, txid) <==> Given(es, id, txid) || (e.id == id && TxidOf(e.detail) == Some(txid))
  {
    var fs := es + [e];
    if WroteAhead(es, id, txid) {
      var k :| 0 <= k < |es| && es[k].id == id && es[k].detail == WriteAhead(txid);
      assert fs[k] == es[k];
    }
    if Given(es, id, txid) {
      var k :| 0 <= k < |es| && es[k].id == id && TxidOf(es[k].detail) == Some(txid);
      assert fs[k] == es[k];
    }
    assert fs[|es|] == e;
  }

  lemma BuildFacts(c: Config, n: Node, es: seq<Event>, d: Drive, p: CasPlan, now: int)
    requires Planned(c, n, es, d, p, now) && !CarriesEnvelope(d.pc)
    ensures p.to in {Validated, Rejected, Signing, Signed, Failed}
    ensures p.to == Failed ==> NewOp(c, d, p, now).signed == None
  {
  }

  lemma LandedFacts(c: Config, n: Node, es: seq<Event>, d: Drive, p: CasPlan, now: int)
    requires Planned(c, n, es, d, p, now) && d.pc.Landed?
    ensures Facts(n, es + [NewEvent(es, d, p, now)], d.id, NewOp(c, d, p, now))
  {
    SignedBytes(c, d.op);
    CarryShape(c, n, es, d, p, now);
    Snoc(es, NewEvent(es, d, p, now), d.id, d.op.txid.value);
    var receipt := d.pc.receipt.value;
    assert receipt.Success? || receipt.Reverted?;
  }

  lemma CarryFacts(c: Config, n: Node, es: seq<Event>, d: Drive, p: CasPlan, now: int)
    requires Planned(c, n, es, d, p, now) && (d.pc.Announce? || d.pc.Settle? || d.pc.Found?)
    ensures Facts(n, es + [NewEvent(es, d, p, now)], d.id, NewOp(c, d, p, now))
  {
    SignedBytes(c, d.op);
    CarryShape(c, n, es, d, p, now);
    Snoc(es, NewEvent(es, d, p, now), d.id, d.op.txid.value);
  }

  lemma WriteFacts(c: Config, n: Node, es: seq<Event>, d: Drive, p: CasPlan, now: int)
    requires Planned(c, n, es, d, p, now)
    ensures Facts(n, es + [NewEvent(es, d, p, now)], d.id, NewOp(c, d, p, now))
  {
    if d.pc.Landed? {
      LandedFacts(c, n, es, d, p, now);
    } else if CarriesEnvelope(d.pc) {
      CarryFacts(c, n, es, d, p, now);
    } else {
      BuildFacts(c, n, es, d, p, now);
      var row := NewOp(c, d, p, now);
      if row.txid.Some? {
        Snoc(es, NewEvent(es, d, p, now), d.id, row.txid.value);
      }
    }
  }

  lemma WritePays(c: Config, n: Node, es: seq<Event>, d: Drive, p: CasPlan, now: int)
    requires Planned(c, n, es, d, p, now) && PaysAsAsked(c, es, d.id, d.op)
    ensures PaysAsAsked(c, es + [NewEvent(es, d, p, now)], d.id, NewOp(c, d, p, now))
  {
    var e := NewEvent(es, d, p, now);
    var row := NewOp(c, d, p, now);
    if d.op.signed.Some? {
      SignedBytes(c, d.op);
    }
    forall txid | Given(es + [e], d.id, txid) ensures Pays(c, row, txid) {
      Snoc(es, e, d.id, txid);
    }
  }

  /** The three writes after which the handler goes on. */
  predicate MidHandler(d: Drive) {
    (d.pc.Ready? && d.op.state == Validated) || d.pc.Envelope? || d.pc.Announce?
  }

  lemma MidHandlerOk(c: Config, n: Node, es: seq<Event>, d: Drive, p: CasPlan, now: int)
    requires NodeInv(n) && DriveOk(c, n, es, d) && Running(d.pc) && Plan(c, d, now) == Some(p) && MidHandler(d)
    requires RowOk(c, NewOp(c, d, p, now)) && Facts(n, es, d.id, NewOp(c, d, p, now))
    ensures DriveOk(c, n, es, AfterWrite(d, NewOp(c, d, p, now)))
  {
  }

  /** The point a drive is at after its write, given what the new row satisfies. */
  lemma AfterWriteOk(c: Config, n: Node, es: seq<Event>, d: Drive, p: CasPlan, now: int)
    requires NodeInv(n) && DriveOk(c, n, es, d) && Running(d.pc) && Plan(c, d, now) == Some(p)
    requires RowOk(c, NewOp(c, d, p, now)) && Facts(n, es, d.id, NewOp(c, d, p, now))
    ensures DriveOk(c, n, es, AfterWrite(d, NewOp(c, d, p, now)))
  {
    if MidHandler(d) {
      MidHandlerOk(c, n, es, d, p, now);
    } else {
      ReturnedOk(c, n, es, d, NewOp(c, d, p, now));
    }
  }

  lemma WriteDriveOk(c: Config, n: Node, es: seq<Event>, d: Drive, p: CasPlan, now: int)
    requires Planned(c, n, es, d, p, now)
    ensures DriveOk(c, n, es + [NewEvent(es, d, p, now)], AfterWrite(d, NewOp(c, d, p, now)))
  {
    var fs := es + [NewEvent(es, d, p, now)];
    RelabelForward(n, n);
    DriveGrows(c, n, es, n, fs, d);
    WriteRowOk(c, n, es, d, p, now);
    WriteFacts(c, n, es, d, p, now);
    AfterWriteOk(c, n, fs, d, p, now);
  }

  // ---------------------------------------------------------------- the write inside the system

  /** Rows of other operations do not notice an event that is not theirs. */
  lemma OtherRow(c: Config, n: Node, es: seq<Event>, e: Event, id: OpId, row: Row)
    requires NodeInv(n) && RowInv(c, n, es, id, row) && e.id != id
    ensures RowInv(c, n, es + [e], id, row)
  {
    RelabelForward(n, n);
    FactsGrow(n, es, n, es + [e], id, row);
    forall txid | Given(es + [e], id, txid) ensures Pays(c, row, txid) {
      Snoc(es, e, id, txid);
    }
  }

  lemma RowsAfterWrite(c: Config, n: Node, db: Db, d: Drive, p: CasPlan, now: int)
    requires Planned(c, n, db.events, d, p, now) && RowsInv(c, n, db)
    requires d.id in db.ops && db.ops[d.id] == d.op
    ensures RowsInv(c, n, db.(ops := db.ops[d.id := NewOp(c, d, p, now)],
                              events := db.events + [NewEvent(db.events, d, p, now)]))
  {
    var e := NewEvent(db.events, d, p, now);
    var row := NewOp(c, d, p, now);
    var db' := db.(ops := db.ops[d.id := row], events := db.events + [e]);
    forall id | id in db'.ops ensures RowInv(c, n, db'.events, id, db'.ops[id]) {
      assert RowInv(c, n, db.events, id, db.ops[id]);
      if id == d.id {
        WriteRowOk(c, n, db.events, d, p, now);
        WriteFacts(c, n, db.events, d, p, now);
        WritePays(c, n, db.events, d, p, now);
      } else {
        OtherRow(c, n, db.events, e, id, db.ops[id]);
      }
    }
  }

  lemma AcceptedGrows(c: Config, n: Node, es: seq<Event>, fs: seq<Event>)
    requires es <= fs && AcceptedOk(c, n, es)
    ensures AcceptedOk(c, n, fs)
  {
    forall txid | Announced(es, txid) ensures Announced(fs, txid) {
      var id :| WroteAhead(es, id, txid);
      WroteAheadGrows(es, fs, id, txid);
    }
  }

  /** The other drives: those on the same row are fenced, the rest see nothing. */
  lemma OthersAfterWrite(c: Config, n: Node, db: Db, db': Db, drives: seq<Drive>, i: nat)
    requires NodeInv(n) && DrivesInv(c, n, db, drives) && DistinctTokens(drives) && i < |drives|
    requires db.events <= db'.events
    requires drives[i].id in db.ops && drives[i].op.token == db.ops[drives[i].id].token
    requires db'.ops.Keys == db.ops.Keys
    requires forall id :: id in db.ops && id != drives[i].id ==> db'.ops[id] == db.ops[id]
    requires db'.ops[drives[i].id].token == db.ops[drives[i].id].token
    ensures forall j :: 0 <= j < |drives| && j != i ==>
              DriveOk(c, n, db'.events, drives[j]) && Owns(db', drives[j])
  {
    RelabelForward(n, n);
    forall j | 0 <= j < |drives| && j != i ensures DriveOk(c, n, db'.events, drives[j]) && Owns(db', drives[j]) {
      assert DriveOk(c, n, db.events, drives[j]) && Owns(db, drives[j]);
      DriveGrows(c, n, db.events, n, db'.events, drives[j]);
      if i < j {
        assert drives[i].id == drives[j].id ==> drives[i].op.token != drives[j].op.token;
      }
    }
  }

  /** A write by the holder of the current token goes through, and its snapshot was the row. */
  lemma HolderWrites(c: Config, n: Node, db: Db, d: Drive, p: CasPlan, now: int)
    requires Planned(c, n, db.events, d, p, now) && Owns(db, d) && d.op.token == db.ops[d.id].token
    ensures CasHits(db, d.id, d.op.token, d.op.state) && db.ops[d.id] == d.op
    ensures WriteStep(c, db, n, d, p, now) ==
            Local(db.(ops := db.ops[d.id := NewOp(c, d, p, now)], events := db.events + [NewEvent(db.events, d, p, now)]),
                  n, AfterWrite(d, NewOp(c, d, p, now)))
  {
    WriteLegal(c, n, db.events, d, p, now);
  }

  /** A write by anyone else is fenced out: a strictly larger token has been issued. */
  lemma OthersMiss(c: Config, n: Node, db: Db, d: Drive, p: CasPlan, now: int)
    requires Planned(c, n, db.events, d, p, now) && Owns(db, d) && d.op.token != db.ops[d.id].token
    ensures d.op.token < db.ops[d.id].token
    ensures WriteStep(c, db, n, d, p, now) == Local(db, n, d.(pc := Done(Fenced)))
  {
    WriteLegal(c, n, db.events, d, p, now);
  }

  lemma AfterWriteOwner(d: Drive, row: Row)
    ensures AfterWrite(d, row).id == d.id && AfterWrite(d, row).op == row
  {
  }

  lemma WriteKeeps(c: Config, s: Sys, i: nat, p: CasPlan, now: int)
    requires Inv(c, s) && i < |s.drives| && Running(s.drives[i].pc) && Plan(c, s.drives[i], now) == Some(p)
    ensures var r := WriteStep(c, s.db, s.node, s.drives[i], p, now);
      Inv(c, Sys(r.db, r.node, s.drives[i := r.drive], now))
  {
    var d := s.drives[i];
    assert DriveOk(c, s.node, s.db.events, d) && Owns(s.db, d);
    if d.op.token == s.db.ops[d.id].token {
      HolderWrites(c, s.node, s.db, d, p, now);
      WriteHit(c, s, i, p, now);
    } else {
      OthersMiss(c, s.node, s.db, d, p, now);
      DriveReplaced(c, s, i, d.(pc := Done(Fenced)));
    }
  }

  lemma WriteHit(c: Config, s: Sys, i: nat, p: CasPlan, now: int)
    requires Inv(c, s) && i < |s.drives| && Running(s.drives[i].pc) && Plan(c, s.drives[i], now) == Some(p)
    requires s.drives[i].op.token == s.db.ops[s.drives[i].id].token
    ensures var r := WriteStep(c, s.db, s.node, s.drives[i], p, now);
      Inv(c, Sys(r.db, r.node, s.drives[i := r.drive], now))
  {
    var d := s.drives[i];
    var n := s.node;
    HolderWrites(c, n, s.db, d, p, now);
    var r := WriteStep(c, s.db, n, d, p, now);
    CasKeeps(s.db, d.id, d.op.token, d.op.state, p.to, p.patch, p.detail, Some(c.leaseMs), d.worker, now);
    RowsAfterWrite(c, n, s.db, d, p, now);
    AcceptedGrows(c, n, s.db.events, r.db.events);
    WriteHitDrives(c, n, s.db, s.drives, i, p, now);
  }

  lemma WriteHitDrives(c: Config, n: Node, db: Db, drives: seq<Drive>, i: nat, p: CasPlan, now: int)
    requires NodeInv(n) && DrivesInv(c, n, db, drives) && DistinctTokens(drives) && i < |drives|
    requires Running(drives[i].pc) && Plan(c, drives[i], now) == Some(p)
    requires drives[i].op.token == db.ops[drives[i].id].token
    ensures var r := WriteStep(c, db, n, drives[i], p, now);
      DrivesInv(c, n, r.db, drives[i := r.drive]) && DistinctTokens(drives[i := r.drive])
  {
    var d := drives[i];
    HolderWrites(c, n, db, d, p, now);
    var r := WriteStep(c, db, n, d, p, now);
    WriteDriveOk(c, n, db.events, d, p, now);
    AfterWriteOwner(d, NewOp(c, d, p, now));
    OthersAfterWrite(c, n, db, r.db, drives, i);
    DrivesAssembled(c, n, r.db, drives, i, r.drive);
  }
}
