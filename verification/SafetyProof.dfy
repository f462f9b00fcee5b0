/**
Every step keeps `SafeInv`, provided the two reads behind a death verdict are not torn
apart by a block that carries the very transaction being buried.
*/
module SafetyProof {

  import opened Common
  import opened States
  import opened Chain
  import opened ChainProperties
  import opened Store
  import opened StoreProperties
  import opened Protocol
  import opened Invariant
  import opened InvariantWrites
  import opened InvariantSteps
  import opened History

  /**
  The condition on the gap between the two reads of a death verdict. It constrains a drive
  only at the moment it has looked its txid up, found nothing, and now reads a chain time
  that declares the txid dead: none of the blocks produced in between carries that txid.
  */
  predicate Clean(c: Config, n: Node, d: Drive)
    requires |n.times| > 0
  {
    d.pc.LookedUp? && d.op.signed.Some? && ProvenDead(c, d.op.signed.value, SolidNow(n)) ==>
      !InBlockAfter(n, d.op.signed.value.txid, d.pc.head)
  }

  predicate Careful(c: Config, s: Sys, a: Action) {
    a.Act? && a.i < |s.drives| && |s.node.times| > 0 ==> Clean(c, s.node, s.drives[a.i])
  }

  predicate CarefulRun(c: Config, s: Sys, actions: seq<Action>)
    decreases |actions|
  {
    actions == [] || (Careful(c, s, actions[0]) && CarefulRun(c, Step(c, s, actions[0]), actions[1..]))
  }

  // ---------------------------------------------------------------- progress of the node

  lemma SafeGrows(n: Node, m: Node, es: seq<Event>, id: OpId, row: Row)
    requires NodeInv(n) && NodeInv(m) && Forward(n, m) && Safe(n, es, id, row)
    ensures Safe(m, es, id, row)
  {
    forall txid | WroteAhead(es, id, txid) ensures Dead(m, txid) || (row.txid == Some(txid) && Live(row)) {
      if Dead(n, txid) {
        DeadStays(n, m, txid);
      }
    }
  }

  lemma SoundGrows(n: Node, m: Node, d: Drive)
    requires NodeInv(n) && NodeInv(m) && Forward(n, m) && RetireSound(n, d)
    ensures RetireSound(m, d)
  {
    if d.pc.Retire? && d.op.state != Signed {
      DeadStays(n, m, d.op.txid.value);
    }
  }

  lemma NodeSafe(s: Sys, m: Node, now: int)
    requires SafeInv(s) && NodeInv(s.node) && NodeInv(m) && Forward(s.node, m)
    ensures SafeInv(s.(node := m, clock := now))
  {
    forall id | id in s.db.ops ensures Safe(m, s.db.events, id, s.db.ops[id]) {
      SafeGrows(s.node, m, s.db.events, id, s.db.ops[id]);
    }
    forall i | 0 <= i < |s.drives| ensures RetireSound(m, s.drives[i]) {
      SoundGrows(s.node, m, s.drives[i]);
    }
  }

  // ---------------------------------------------------------------- the verdict

  /** The heart of the matter: a verdict of death, once reached, is true. */
  lemma VerdictTrue(c: Config, n: Node, d: Drive, solid: int)
    requires NodeInv(n) && RowOk(c, d.op) && d.op.signed.Some?
    requires solid <= HeadTime(n) && ProvenDead(c, d.op.signed.value, solid)
    requires !InBlock(n, d.op.txid.value)
    ensures Dead(n, d.op.txid.value)
  {
    SignedBytes(c, d.op);
  }

  /** Chain time read last: sound because no block in the gap carried the txid. */
  lemma SolidSound(c: Config, n: Node, es: seq<Event>, d: Drive)
    requires NodeInv(n) && DriveOk(c, n, es, d) && d.pc.LookedUp? && Clean(c, n, d)
    ensures d.op.signed.Some? && RetireSound(n, SolidStep(c, n, d, d.op.signed.value))
  {
    SignedBytes(c, d.op);
    SolidBelowHead(n);
    if ProvenDead(c, d.op.signed.value, SolidNow(n)) {
      VerdictTrue(c, n, d, SolidNow(n));
    }
  }

  /** Chain time read first: sound whatever happened in the gap. */
  lemma LookupSound(c: Config, n: Node, es: seq<Event>, d: Drive, now: int)
    requires NodeInv(n) && DriveOk(c, n, es, d) && d.pc.HaveSolid?
    ensures d.op.signed.Some?
    ensures RetireSound(n, AfterLookup(c, n, d, d.op.signed.value, StatusOf(n, d.op.signed.value.txid, now)))
  {
    SignedBytes(c, d.op);
    if StatusOf(n, d.op.signed.value.txid, now).Unknown? && ProvenDead(c, d.op.signed.value, d.pc.solid) {
      VerdictTrue(c, n, d, d.pc.solid);
    }
  }

  /** Retirements are decided in three places only. */
  lemma ReadRetires(c: Config, n: Node, d: Drive, now: int)
    requires |n.times| > 0 && ReadStep(c, n, d, now).1.pc.Retire?
    ensures d.op.state == Signed || d.pc.LookedUp? || d.pc.HaveSolid?
  {
  }

  lemma ReadSound(c: Config, n: Node, es: seq<Event>, d: Drive, now: int)
    requires NodeInv(n) && DriveOk(c, n, es, d) && Clean(c, n, d)
    requires NodeInv(ReadStep(c, n, d, now).0) && Forward(n, ReadStep(c, n, d, now).0)
    ensures RetireSound(ReadStep(c, n, d, now).0, ReadStep(c, n, d, now).1)
  {
    var (m, d') := ReadStep(c, n, d, now);
    if d.pc.LookedUp? {
      SolidSound(c, n, es, d);
    } else if d.pc.HaveSolid? {
      LookupSound(c, n, es, d, now);
      SoundGrows(n, m, d');
    } else if d'.pc.Retire? {
      ReadRetires(c, n, d, now);
    }
  }

  lemma ReadSafe(c: Config, s: Sys, i: nat, now: int)
    requires Inv(c, s) && SafeInv(s) && i < |s.drives| && Running(s.drives[i].pc)
    requires Plan(c, s.drives[i], now).None? && Clean(c, s.node, s.drives[i])
    ensures var (m, d') := ReadStep(c, s.node, s.drives[i], now);
      SafeInv(Sys(s.db, m, s.drives[i := d'], now))
  {
    var d := s.drives[i];
    assert DriveOk(c, s.node, s.db.events, d);
    ReadForward(c, s.node, s.db.events, d, now);
    ReadSound(c, s.node, s.db.events, d, now);
    NodeSafe(s, ReadStep(c, s.node, d, now).0, now);
  }

  // ---------------------------------------------------------------- writes

  /** What a write does to the one envelope that may be alive. */
  ghost predicate Accounts(d: Drive, p: CasPlan, row: Row) {
    && (p.detail.WriteAhead? ==> row.txid == Some(p.detail.txid) && Live(row))
    && (Live(d.op) ==> (row.txid == d.op.txid && Live(row)) || (d.pc.Retire? && d.op.state != Signed))
  }

  lemma CarryAccounts(c: Config, n: Node, es: seq<Event>, d: Drive, p: CasPlan, now: int)
    requires Planned(c, n, es, d, p, now) && CarriesEnvelope(d.pc)
    ensures Accounts(d, p, NewOp(c, d, p, now))
  {
    SignedBytes(c, d.op);
    CarryShape(c, n, es, d, p, now);
    CarriedByCas(d.op, p.to, p.patch, Some(c.leaseMs), now);
  }

  lemma BuildAccounts(c: Config, n: Node, es: seq<Event>, d: Drive, p: CasPlan, now: int)
    requires Planned(c, n, es, d, p, now) && !CarriesEnvelope(d.pc)
    ensures Accounts(d, p, NewOp(c, d, p, now))
  {
  }

  /** A retirement leaves nothing alive behind; an announcement adds exactly the current envelope. */
  lemma WriteSafe(c: Config, n: Node, es: seq<Event>, d: Drive, p: CasPlan, now: int)
    requires Planned(c, n, es, d, p, now) && Safe(n, es, d.id, d.op) && RetireSound(n, d)
    ensures Safe(n, es + [NewEvent(es, d, p, now)], d.id, NewOp(c, d, p, now))
  {
    var e := NewEvent(es, d, p, now);
    if CarriesEnvelope(d.pc) {
      CarryAccounts(c, n, es, d, p, now);
    } else {
      BuildAccounts(c, n, es, d, p, now);
    }
    SafeSnoc(n, es, e, d, NewOp(c, d, p, now));
  }

  lemma SafeSnoc(n: Node, es: seq<Event>, e: Event, d: Drive, row: Row)
    requires |n.times| > 0 && Safe(n, es, d.id, d.op) && RetireSound(n, d) && e.id == d.id
    requires e.detail.WriteAhead? ==> row.txid == Some(e.detail.txid) && Live(row)
    requires Live(d.op) ==> (row.txid == d.op.txid && Live(row)) || (d.pc.Retire? && d.op.state != Signed)
    ensures Safe(n, es + [e], d.id, row)
  {
    forall txid | WroteAhead(es + [e], d.id, txid) ensures Dead(n, txid) || (row.txid == Some(txid) && Live(row)) {
      Snoc(es, e, d.id, txid);
    }
  }

  lemma OtherSafe(n: Node, es: seq<Event>, e: Event, id: OpId, row: Row)
    requires |n.times| > 0 && Safe(n, es, id, row) && e.id != id
    ensures Safe(n, es + [e], id, row)
  {
    forall txid | WroteAhead(es + [e], id, txid) ensures Dead(n, txid) || (row.txid == Some(txid) && Live(row)) {
      Snoc(es, e, id, txid);
    }
  }

  lemma RowsAfterWriteSafe(c: Config, n: Node, db: Db, d: Drive, p: CasPlan, now: int)
    requires Planned(c, n, db.events, d, p, now) && RetireSound(n, d) && d.id in db.ops && db.ops[d.id] == d.op
    requires forall id :: id in db.ops ==> Safe(n, db.events, id, db.ops[id])
    ensures var ops := db.ops[d.id := NewOp(c, d, p, now)];
      forall id :: id in ops ==> Safe(n, db.events + [NewEvent(db.events, d, p, now)], id, ops[id])
  {
    var ops := db.ops[d.id := NewOp(c, d, p, now)];
    var e := NewEvent(db.events, d, p, now);
    forall id | id in ops ensures Safe(n, db.events + [e], id, ops[id]) {
      if id == d.id {
        WriteSafe(c, n, db.events, d, p, now);
      } else {
        OtherSafe(n, db.events, e, id, db.ops[id]);
      }
    }
  }

  lemma WriteHitSafe(c: Config, s: Sys, i: nat, p: CasPlan, now: int)
    requires SafeInv(s) && i < |s.drives| && Planned(c, s.node, s.db.events, s.drives[i], p, now)
    requires Owns(s.db, s.drives[i]) && s.drives[i].op.token == s.db.ops[s.drives[i].id].token
    ensures var r := WriteStep(c, s.db, s.node, s.drives[i], p, now);
      SafeInv(Sys(r.db, r.node, s.drives[i := r.drive], now))
  {
    var d := s.drives[i];
    HolderWrites(c, s.node, s.db, d, p, now);
    RowsAfterWriteSafe(c, s.node, s.db, d, p, now);
  }

  lemma WriteStepSafe(c: Config, s: Sys, i: nat, p: CasPlan, now: int)
    requires Inv(c, s) && SafeInv(s) && i < |s.drives| && Running(s.drives[i].pc)
    requires Plan(c, s.drives[i], now) == Some(p)
    ensures var r := WriteStep(c, s.db, s.node, s.drives[i], p, now);
      SafeInv(Sys(r.db, r.node, s.drives[i := r.drive], now))
  {
    var d := s.drives[i];
    assert DriveOk(c, s.node, s.db.events, d) && Owns(s.db, d);
    if d.op.token == s.db.ops[d.id].token {
      WriteHitSafe(c, s, i, p, now);
    } else {
      OthersMiss(c, s.node, s.db, d, p, now);
    }
  }

  // ---------------------------------------------------------------- the other store operations

  /** The columns `Safe` looks at. */
  predicate SameMoney(row: Row, row': Row) {
    row'.txid == row.txid && row'.state == row.state && row'.signed == row.signed
  }

  ghost predicate Unannounced(es: seq<Event>, id: OpId) {
    forall txid :: !WroteAhead(es, id, txid)
  }

  lemma RowsSafe(n: Node, db: Db, db': Db)
    requires |n.times| > 0 && forall id :: id in db.ops ==> Safe(n, db.events, id, db.ops[id])
    requires forall id, txid :: WroteAhead(db'.events, id, txid) ==> WroteAhead(db.events, id, txid)
    requires forall id :: id in db'.ops ==>
               (id in db.ops && SameMoney(db.ops[id], db'.ops[id])) || Unannounced(db.events, id)
    ensures forall id :: id in db'.ops ==> Safe(n, db'.events, id, db'.ops[id])
  {
    forall id, txid | id in db'.ops && WroteAhead(db'.events, id, txid)
      ensures Dead(n, txid) || (db'.ops[id].txid == Some(txid) && Live(db'.ops[id]))
    {
      assert WroteAhead(db.events, id, txid);
      assert !Unannounced(db.events, id);
    }
  }

  lemma QuietSnoc(es: seq<Event>, e: Event)
    requires !e.detail.WriteAhead?
    ensures forall id, txid :: WroteAhead(es + [e], id, txid) ==> WroteAhead(es, id, txid)
  {
    forall id, txid | WroteAhead(es + [e], id, txid) ensures WroteAhead(es, id, txid) {
      Snoc(es, e, id, txid);
    }
  }

  lemma SubmitSafe(c: Config, s: Sys, id: OpId, to: string, asset: string, amount: int, now: int)
    requires DbInv(s.db) && SafeInv(s)
    ensures SafeInv(Step(c, s, Submit(id, to, asset, amount, now)))
  {
    var db' := Insert(s.db, id, NewRow(to, asset, amount, now));
    if id !in s.db.ops {
      assert db'.events == s.db.events + [db'.events[|s.db.events|]];
      QuietSnoc(s.db.events, db'.events[|s.db.events|]);
      RowsSafe(s.node, s.db, db');
    }
  }

  lemma ClaimSameMoney(db: Db, limit: int, worker: WorkerId, leaseMs: int, now: int)
    requires DbInv(db)
    ensures var db' := Claim(db, CLAIMABLE, limit, worker, leaseMs, now).0;
      db'.events == db.events && forall id :: id in db'.ops ==> id in db.ops && SameMoney(db.ops[id], db'.ops[id])
  {
    var db' := Claim(db, CLAIMABLE, limit, worker, leaseMs, now).0;
    ClaimExact(db.ops, db.arrival, CLAIMABLE, limit, worker, leaseMs, now);
    forall id | id in db'.ops ensures id in db.ops && SameMoney(db.ops[id], db'.ops[id]) {
      ClaimedOrNot(db.ops, db.arrival, CLAIMABLE, limit, worker, leaseMs, now, id);
    }
  }

  lemma ClaimSafe(c: Config, s: Sys, worker: WorkerId, limit: int, now: int)
    requires DbInv(s.db) && SafeInv(s)
    ensures SafeInv(Step(c, s, ClaimBatch(worker, limit, now)))
  {
    ClaimSameMoney(s.db, limit, worker, c.leaseMs, now);
    RowsSafe(s.node, s.db, Claim(s.db, CLAIMABLE, limit, worker, c.leaseMs, now).0);
  }

  lemma CleanupSafe(c: Config, s: Sys, i: nat, now: int)
    requires SafeInv(s) && i < |s.drives| && !Running(s.drives[i].pc)
    ensures var r := DriveStep(c, s.db, s.node, s.drives[i], now);
      SafeInv(Sys(r.db, r.node, s.drives[i := r.drive], now))
  {
    var d := s.drives[i];
    var db' := DriveStep(c, s.db, s.node, d, now).db;
    if d.pc.Raised? && CasHits(s.db, d.id, d.base.token, d.base.state) {
      BreadcrumbShape(s.db, d, now);
      QuietSnoc(s.db.events, db'.events[|s.db.events|]);
    }
    RowsSafe(s.node, s.db, db');
  }

  // ---------------------------------------------------------------- all steps, all careful runs

  lemma ActSafe(c: Config, s: Sys, i: nat, now: int)
    requires Inv(c, s) && SafeInv(s) && Careful(c, s, Act(i, now))
    ensures SafeInv(Step(c, s, Act(i, now)))
  {
    if i < |s.drives| {
      var d := s.drives[i];
      if !Running(d.pc) {
        CleanupSafe(c, s, i, now);
      } else if Plan(c, d, now).Some? {
        WriteStepSafe(c, s, i, Plan(c, d, now).value, now);
      } else {
        ReadSafe(c, s, i, now);
      }
    }
  }

  lemma WorldSafe(c: Config, s: Sys, a: Action)
    requires NodeInv(s.node) && SafeInv(s) && (a.Throw? || a.Crash? || a.Block? || a.Inject?)
    ensures SafeInv(Step(c, s, a))
  {
    match a
    case Throw(i) =>
    case Crash(i) =>
    case Block(now) =>
      ProduceForward(s.node, now);
      NodeSafe(s, Produce(s.node, now), now);
    case Inject(channel, faults) =>
      RelabelForward(s.node, Script(s.node, channel, faults));
      NodeSafe(s, Script(s.node, channel, faults), s.clock);
  }

  lemma StepSafe(c: Config, s: Sys, a: Action)
    requires Inv(c, s) && SafeInv(s) && Careful(c, s, a)
    ensures SafeInv(Step(c, s, a))
  {
    match a
    case Submit(id, to, asset, amount, now) => SubmitSafe(c, s, id, to, asset, amount, now);
    case ClaimBatch(worker, limit, now) => ClaimSafe(c, s, worker, limit, now);
    case Act(i, now) => ActSafe(c, s, i, now);
    case _ => WorldSafe(c, s, a);
  }

  lemma {:induction false} RunSafe(c: Config, s: Sys, actions: seq<Action>)
    requires Inv(c, s) && SafeInv(s) && CarefulRun(c, s, actions)
    ensures SafeInv(Exec(c, s, actions))
    decreases |actions|
  {
    if actions != [] {
      StepKeeps(c, s, actions[0]);
      StepSafe(c, s, actions[0]);
      RunSafe(c, Step(c, s, actions[0]), actions[1..]);
    }
  }

  /** `s` is the state of some careful run. */
  ghost predicate SafelyReachable(c: Config, s: Sys) {
    exists w: Setup, actions: seq<Action> :: CarefulRun(c, Init(w), actions) && s == Exec(c, Init(w), actions)
  }

  lemma SafelyReachableInv(c: Config, s: Sys)
    requires SafelyReachable(c, s)
    ensures Inv(c, s) && SafeInv(s)
  {
    var w: Setup, actions: seq<Action> :| CarefulRun(c, Init(w), actions) && s == Exec(c, Init(w), actions);
    InitInv(c, w);
    RunKeeps(c, Init(w), actions);
    RunSafe(c, Init(w), actions);
  }
}
