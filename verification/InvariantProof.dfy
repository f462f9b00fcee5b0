/** Steps of the node, reads, node calls and clock readings keep the invariant. */
module InvariantProof {

  import opened States
  import opened Chain
  import opened ChainProperties
  import opened Store
  import opened Protocol
  import opened Invariant

  // ---------------------------------------------------------------- steps of the node

  lemma RowsProgress(c: Config, n: Node, m: Node, db: Db)
    requires NodeInv(n) && NodeInv(m) && Forward(n, m) && RowsInv(c, n, db)
    ensures RowsInv(c, m, db)
  {
    forall id | id in db.ops ensures RowInv(c, m, db.events, id, db.ops[id]) {
      RowGrows(c, n, m, db.events, id, db.ops[id]);
    }
  }

  lemma DrivesProgress(c: Config, n: Node, m: Node, db: Db, drives: seq<Drive>)
    requires NodeInv(n) && NodeInv(m) && Forward(n, m) && DrivesInv(c, n, db, drives)
    ensures DrivesInv(c, m, db, drives)
  {
    forall i | 0 <= i < |drives| ensures DriveOk(c, m, db.events, drives[i]) {
      DriveGrows(c, n, db.events, m, db.events, drives[i]);
    }
  }

  lemma AcceptedSame(c: Config, n: Node, m: Node, es: seq<Event>)
    requires Forward(n, m) && AcceptedOk(c, n, es) && m.txs.Keys == n.txs.Keys && m.log == n.log
    ensures AcceptedOk(c, m, es)
  {
    forall txid | txid in m.txs ensures Announced(es, txid) && m.txs[txid].tx == Sign(c.signer, txid.raw) {
      assert txid in n.txs;
    }
  }

  lemma NodeKeeps(c: Config, s: Sys, m: Node, now: int)
    requires Inv(c, s) && NodeInv(m) && Forward(s.node, m) && AcceptedOk(c, m, s.db.events)
    ensures Inv(c, s.(node := m, clock := now))
  {
    RowsProgress(c, s.node, m, s.db);
    DrivesProgress(c, s.node, m, s.db, s.drives);
  }

  lemma BlockKeeps(c: Config, s: Sys, now: int)
    requires Inv(c, s)
    ensures Inv(c, Step(c, s, Block(now)))
  {
    var m := Produce(s.node, now);
    ProduceForward(s.node, now);
    MinePointwise(s.node.txs, s.node.order, Head(s.node) + 1, NextTime(s.node, now), s.node.delay, s.node.receiptFaults);
    AcceptedSame(c, s.node, m, s.db.events);
    NodeKeeps(c, s, m, now);
  }

  lemma InjectKeeps(c: Config, s: Sys, channel: Channel, faults: seq<Fault>)
    requires Inv(c, s)
    ensures Inv(c, Step(c, s, Inject(channel, faults)))
  {
    var m := Script(s.node, channel, faults);
    RelabelForward(s.node, m);
    AcceptedSame(c, s.node, m, s.db.events);
    NodeKeeps(c, s, m, s.clock);
  }

  // ---------------------------------------------------------------- one drive changes

  lemma DrivesAssembled(c: Config, n: Node, db: Db, drives: seq<Drive>, i: nat, d: Drive)
    requires |n.times| > 0 && i < |drives|
    requires forall j :: 0 <= j < |drives| && j != i ==> DriveOk(c, n, db.events, drives[j]) && Owns(db, drives[j])
    requires DriveOk(c, n, db.events, d) && Owns(db, d)
    requires d.id == drives[i].id && d.op.token == drives[i].op.token && DistinctTokens(drives)
    ensures DrivesInv(c, n, db, drives[i := d]) && DistinctTokens(drives[i := d])
  {
  }

  lemma DriveReplaced(c: Config, s: Sys, i: nat, d: Drive)
    requires Inv(c, s) && i < |s.drives|
    requires d.id == s.drives[i].id && d.op.token == s.drives[i].op.token
    requires DriveOk(c, s.node, s.db.events, d) && Owns(s.db, d)
    ensures Inv(c, s.(drives := s.drives[i := d]))
  {
    DrivesAssembled(c, s.node, s.db, s.drives, i, d);
  }

  lemma ThrowKeeps(c: Config, s: Sys, i: nat)
    requires Inv(c, s)
    ensures Inv(c, Step(c, s, Throw(i)))
  {
    if i < |s.drives| && Running(s.drives[i].pc) {
      DriveReplaced(c, s, i, s.drives[i].(pc := Raised));
    }
  }

  lemma CrashKeeps(c: Config, s: Sys, i: nat)
    requires Inv(c, s)
    ensures Inv(c, Step(c, s, Crash(i)))
  {
    if i < |s.drives| && !s.drives[i].pc.Done? {
      DriveReplaced(c, s, i, s.drives[i].(pc := Done(Crashed)));
    }
  }

  // ---------------------------------------------------------------- reads, node calls, clock readings

  lemma ReturnedOk(c: Config, n: Node, es: seq<Event>, d: Drive, row: Row)
    requires |n.times| > 0 && DriveOk(c, n, es, d) && Running(d.pc)
    requires RowOk(c, row) && Facts(n, es, d.id, row) && row.token == d.op.token
    ensures DriveOk(c, n, es, Returned(d, row))
  {
  }

  lemma SolidStepOk(c: Config, n: Node, es: seq<Event>, d: Drive)
    requires NodeInv(n) && DriveOk(c, n, es, d) && d.pc.LookedUp?
    ensures d.op.signed.Some? && DriveOk(c, n, es, SolidStep(c, n, d, d.op.signed.value))
  {
    ReturnedOk(c, n, es, d, d.op);
  }

  lemma UnknownOk(c: Config, n: Node, es: seq<Event>, d: Drive)
    requires NodeInv(n) && DriveOk(c, n, es, d) && (d.pc.Ready? || d.pc.HaveSolid?)
    requires d.op.state in {Broadcasting, Broadcast} && !InBlock(n, d.op.txid.value)
    ensures d.op.signed.Some? && DriveOk(c, n, es, AfterLookup(c, n, d, d.op.signed.value, Unknown))
  {
    ReturnedOk(c, n, es, d, d.op);
  }

  lemma KnownOk(c: Config, n: Node, es: seq<Event>, d: Drive, now: int)
    requires NodeInv(n) && DriveOk(c, n, es, d) && (d.pc.Ready? || d.pc.HaveSolid?)
    requires d.op.state in {Broadcasting, Broadcast} && d.op.txid.value in n.txs
    ensures d.op.signed.Some?
    ensures var status := StatusOf(n, d.op.signed.value.txid, now);
      status != Unknown ==> DriveOk(c, n, es, AfterLookup(c, n, d, d.op.signed.value, status))
  {
    SignedBytes(c, d.op);
    assert RecordOk(n, d.op.txid.value);
    ReturnedOk(c, n, es, d, d.op);
  }

  lemma LookupOk(c: Config, n: Node, es: seq<Event>, d: Drive, now: int)
    requires NodeInv(n) && DriveOk(c, n, es, d) && (d.pc.Ready? || d.pc.HaveSolid?)
    requires d.op.state in {Broadcasting, Broadcast}
    ensures d.op.signed.Some?
    ensures DriveOk(c, n, es, AfterLookup(c, n, d, d.op.signed.value, StatusOf(n, d.op.signed.value.txid, now)))
  {
    SignedBytes(c, d.op);
    if StatusOf(n, d.op.signed.value.txid, now).Unknown? {
      UnknownOk(c, n, es, d);
    } else {
      KnownOk(c, n, es, d, now);
    }
  }

  lemma QueryForward(n: Node, txid: Txid, now: int)
    requires NodeInv(n)
    ensures var m := Find(n, txid, now).0; NodeInv(m) && Forward(n, m) && m.txs == n.txs && m.log == n.log
  {
    RelabelForward(n, Find(n, txid, now).0);
  }

  lemma LookupStepOk(c: Config, n: Node, es: seq<Event>, d: Drive, now: int)
    requires NodeInv(n) && DriveOk(c, n, es, d) && (d.pc.Ready? || d.pc.HaveSolid?)
    requires d.op.state in {Broadcasting, Broadcast}
    ensures d.op.signed.Some?
    ensures var (m, d') := Lookup(c, n, d, d.op.signed.value, now);
      NodeInv(m) && Forward(n, m) && m.txs == n.txs && m.log == n.log && DriveOk(c, m, es, d')
  {
    var tx := d.op.signed.value;
    var (m, d') := Lookup(c, n, d, tx, now);
    QueryForward(n, tx.txid, now);
    LookupOk(c, n, es, d, now);
    ReturnedOk(c, n, es, d, d.op);
    DriveGrows(c, n, es, m, es, d');
  }

  /** What the node's answer to a transmission entitles the sender to believe. */
  lemma AnswerTrue(n: Node, tx: SignedTx, worker: string, now: int)
    ensures var (m, a) := Send(n, tx, worker, now);
      && (a == Reply(CodeSuccess) || a == Reply(DupTransaction) ==> tx.txid in m.txs)
      && (a == Reply(SigError) || a == Reply(ContractValidateError) ==> !Verify(m.key, tx))
      && (forall t :: t in m.txs && t !in n.txs ==> t == tx.txid && m.txs[t].tx == tx)
      && |m.log| == |n.log| + 1 && m.log[..|n.log|] == n.log && m.log[|n.log|].txid == tx.txid
  {
  }

  lemma AcceptedExtended(c: Config, n: Node, m: Node, es: seq<Event>, tx: SignedTx)
    requires AcceptedOk(c, n, es) && Announced(es, tx.txid) && tx == Sign(c.signer, tx.txid.raw) && Forward(n, m)
    requires forall t :: t in m.txs && t !in n.txs ==> t == tx.txid && m.txs[t].tx == tx
    requires |m.log| == |n.log| + 1 && m.log[..|n.log|] == n.log && m.log[|n.log|].txid == tx.txid
    ensures AcceptedOk(c, m, es)
  {
    forall k | 0 <= k < |m.log| ensures Announced(es, m.log[k].txid) {
      assert k < |n.log| ==> m.log[k] == n.log[k];
    }
  }

  lemma WireStepOk(c: Config, n: Node, es: seq<Event>, d: Drive, now: int)
    requires NodeInv(n) && AcceptedOk(c, n, es) && DriveOk(c, n, es, d) && d.pc.Wire?
    ensures d.op.signed.Some?
    ensures var (m, d') := WireStep(n, d, d.op.signed.value, now);
      NodeInv(m) && Forward(n, m) && AcceptedOk(c, m, es) && DriveOk(c, m, es, d')
  {
    var tx := d.op.signed.value;
    SignedBytes(c, d.op);
    var (m, d') := WireStep(n, d, tx, now);
    SendForward(n, tx, d.worker, now);
    AnswerTrue(n, tx, d.worker, now);
    assert WroteAhead(es, d.id, tx.txid);
    AcceptedExtended(c, n, m, es, tx);
    DriveGrows(c, n, es, m, es, d);
    ReturnedOk(c, m, es, d, d.op);
  }

  /** The result of a read step: node and drive still in order, the snapshot untouched. */
  ghost predicate ReadOk(c: Config, n: Node, es: seq<Event>, d: Drive, m: Node, d': Drive) {
    && NodeInv(m) && Forward(n, m) && AcceptedOk(c, m, es) && DriveOk(c, m, es, d')
    && SameSnapshot(d, d')
  }

  lemma ReadyStepOk(c: Config, n: Node, es: seq<Event>, d: Drive, now: int)
    requires NodeInv(n) && AcceptedOk(c, n, es) && DriveOk(c, n, es, d) && d.pc.Ready?
    requires Plan(c, d, now).None?
    ensures var (m, d') := ReadStep(c, n, d, now);
      NodeInv(m) && Forward(n, m) && AcceptedOk(c, m, es) && DriveOk(c, m, es, d')
  {
    RelabelForward(n, n);
    if d.op.state in {Broadcasting, Broadcast} {
      SignedBytes(c, d.op);
      if c.clockFirst {
        SolidBelowHead(n);
      } else {
        LookupStepOk(c, n, es, d, now);
        AcceptedSame(c, n, ReadStep(c, n, d, now).0, es);
      }
    }
  }

  lemma BuildStepOk(c: Config, n: Node, es: seq<Event>, d: Drive, now: int)
    requires NodeInv(n) && AcceptedOk(c, n, es) && DriveOk(c, n, es, d)
    requires d.pc.Build? || d.pc.HaveRef? || d.pc.Settle?
    requires Plan(c, d, now).None?
    ensures var (m, d') := ReadStep(c, n, d, now); m == n && DriveOk(c, m, es, d')
  {
    ReturnedOk(c, n, es, d, d.op);
  }

  lemma ReadStepOk(c: Config, n: Node, es: seq<Event>, d: Drive, now: int)
    requires NodeInv(n) && AcceptedOk(c, n, es) && DriveOk(c, n, es, d) && Running(d.pc)
    requires Plan(c, d, now).None?
    ensures ReadOk(c, n, es, d, ReadStep(c, n, d, now).0, ReadStep(c, n, d, now).1)
  {
    RelabelForward(n, n);
    match d.pc {
      case Ready => ReadyStepOk(c, n, es, d, now);
      case Wire => WireStepOk(c, n, es, d, now);
      case LookedUp(_) => SolidStepOk(c, n, es, d);
      case HaveSolid(_) =>
        LookupStepOk(c, n, es, d, now);
        AcceptedSame(c, n, ReadStep(c, n, d, now).0, es);
      case Build => BuildStepOk(c, n, es, d, now);
      case HaveRef(_) => BuildStepOk(c, n, es, d, now);
      case Settle(_) => BuildStepOk(c, n, es, d, now);
      case _ => SignedBytes(c, d.op);
    }
  }
}
