/** What no step of the protocol ever undoes, and therefore holds for the rest of every run. */
module History {

  import opened Common
  import opened States
  import opened Chain
  import opened ChainProperties
  import opened Store
  import opened StoreProperties
  import opened Protocol
  import opened Invariant
  import opened InvariantWrites
  import opened InvariantSteps

  /** Store and node both move forward, and no drive is forgotten. */
  ghost predicate Onward(s: Sys, s': Sys) {
    && Later(s.db, s'.db)
    && Forward(s.node, s'.node)
    && |s.drives| <= |s'.drives|
    && (forall i :: 0 <= i < |s.drives| ==>
          s'.drives[i].id == s.drives[i].id && s'.drives[i].op.token == s.drives[i].op.token)
  }

  lemma OnwardTrans(a: Sys, b: Sys, c: Sys)
    requires Onward(a, b) && Onward(b, c)
    ensures Onward(a, c)
  {
    LaterTrans(a.db, b.db, c.db);
    ForwardTrans(a.node, b.node, c.node);
  }

  /** One action of one drive, seen from outside. */
  ghost predicate LocalOnward(db: Db, n: Node, d: Drive, r: Local) {
    Later(db, r.db) && Forward(n, r.node) && r.drive.id == d.id && r.drive.op.token == d.op.token
  }

  lemma LaterRefl(db: Db)
    ensures Later(db, db)
  {
  }

  lemma CleanupOnward(c: Config, db: Db, n: Node, d: Drive, now: int)
    requires NodeInv(n) && !Running(d.pc)
    ensures LocalOnward(db, n, d, DriveStep(c, db, n, d, now))
  {
    RelabelForward(n, n);
    LaterRefl(db);
    if d.pc.Releasing? {
      ReleaseLater(db, d.id, d.base.token, now);
    } else if d.pc.Raised? {
      CasLater(db, d.id, d.base.token, d.base.state, d.base.state, Patch(lastError := Set(Some(HandlerException))),
               NoDetail, None, d.worker, now);
    }
  }

  lemma WriteOnward(c: Config, db: Db, n: Node, d: Drive, p: CasPlan, now: int)
    requires NodeInv(n)
    ensures LocalOnward(db, n, d, WriteStep(c, db, n, d, p, now))
  {
    RelabelForward(n, n);
    LaterRefl(db);
    CasLater(db, d.id, d.op.token, d.op.state, p.to, p.patch, p.detail, Some(c.leaseMs), d.worker, now);
    var r := Cas(db, d.id, d.op.token, d.op.state, p.to, p.patch, p.detail, Some(c.leaseMs), d.worker, now);
    if r.Written? {
      AfterWriteOwner(d, r.row);
    }
  }

  lemma DriveOnward(c: Config, db: Db, n: Node, d: Drive, now: int)
    requires NodeInv(n) && DriveOk(c, n, db.events, d)
    ensures LocalOnward(db, n, d, DriveStep(c, db, n, d, now))
  {
    if !Running(d.pc) {
      CleanupOnward(c, db, n, d, now);
    } else if Plan(c, d, now).Some? {
      WriteOnward(c, db, n, d, Plan(c, d, now).value, now);
    } else {
      LaterRefl(db);
      ReadForward(c, n, db.events, d, now);
    }
  }

  /** Whatever a drive does to the node is a query, a transmission or nothing. */
  lemma ReadIsNodeCall(c: Config, n: Node, d: Drive, now: int)
    requires |n.times| > 0
    ensures var m := ReadStep(c, n, d, now).0;
      || m == n
      || (d.op.signed.Some? && m == NodeStep(n, Query(d.op.signed.value.txid, now)))
      || (d.op.signed.Some? && m == NodeStep(n, Transmit(d.op.signed.value, d.worker, now)))
  {
  }

  /** Node calls move the node forward whether or not the caller's verdict is sound. */
  lemma ReadForward(c: Config, n: Node, es: seq<Event>, d: Drive, now: int)
    requires NodeInv(n) && DriveOk(c, n, es, d)
    ensures Forward(n, ReadStep(c, n, d, now).0) && NodeInv(ReadStep(c, n, d, now).0)
  {
    RelabelForward(n, n);
    ReadIsNodeCall(c, n, d, now);
    if d.op.signed.Some? {
      SignedBytes(c, d.op);
      StepForward(n, Query(d.op.signed.value.txid, now));
      StepForward(n, Transmit(d.op.signed.value, d.worker, now));
    }
  }

  lemma ActOnward(c: Config, s: Sys, i: nat, now: int)
    requires NodeInv(s.node) && (i < |s.drives| ==> DriveOk(c, s.node, s.db.events, s.drives[i]))
    ensures Onward(s, Step(c, s, Act(i, now)))
  {
    RelabelForward(s.node, s.node);
    LaterRefl(s.db);
    if i < |s.drives| {
      DriveOnward(c, s.db, s.node, s.drives[i], now);
    }
  }

  lemma StoreOnward(c: Config, s: Sys, a: Action)
    requires NodeInv(s.node) && DbInv(s.db) && (a.Submit? || a.ClaimBatch?)
    ensures Onward(s, Step(c, s, a))
  {
    RelabelForward(s.node, s.node);
    match a
    case Submit(id, to, asset, amount, now) => InsertLater(s.db, id, NewRow(to, asset, amount, now));
    case ClaimBatch(worker, limit, now) => ClaimLater(s.db, CLAIMABLE, limit, worker, c.leaseMs, now);
  }

  lemma WorldOnward(c: Config, s: Sys, a: Action)
    requires NodeInv(s.node) && (a.Throw? || a.Crash? || a.Block? || a.Inject?)
    ensures Onward(s, Step(c, s, a))
  {
    RelabelForward(s.node, s.node);
    LaterRefl(s.db);
    match a
    case Throw(_) =>
    case Crash(_) =>
    case Block(now) => ProduceForward(s.node, now);
    case Inject(channel, faults) => RelabelForward(s.node, Script(s.node, channel, faults));
  }

  lemma StepOnward(c: Config, s: Sys, a: Action)
    requires Inv(c, s)
    ensures Onward(s, Step(c, s, a))
  {
    if a.Act? {
      ActOnward(c, s, a.i, a.now);
    } else if a.Submit? || a.ClaimBatch? {
      StoreOnward(c, s, a);
    } else {
      WorldOnward(c, s, a);
    }
  }

  lemma {:induction false} RunOnward(c: Config, s: Sys, actions: seq<Action>)
    requires Inv(c, s)
    ensures Inv(c, Exec(c, s, actions)) && Onward(s, Exec(c, s, actions))
    decreases |actions|
  {
    if actions == [] {
      RelabelForward(s.node, s.node);
      LaterRefl(s.db);
    } else {
      var s' := Step(c, s, actions[0]);
      StepKeeps(c, s, actions[0]);
      StepOnward(c, s, actions[0]);
      RunOnward(c, s', actions[1..]);
      OnwardTrans(s, s', Exec(c, s, actions));
    }
  }

  /** A step leaves a drive as it is, moves it, stops it, or starts it at the top. */
  lemma DriveAfter(c: Config, s: Sys, a: Action, i: nat)
    requires |s.node.times| > 0 && i < |Step(c, s, a).drives|
    ensures var s' := Step(c, s, a);
      || (i < |s.drives| && s'.drives[i] == s.drives[i])
      || (a.Act? && a.i == i && i < |s.drives|
          && var r := DriveStep(c, s.db, s.node, s.drives[i], a.now);
             s'.drives[i] == r.drive && s'.db == r.db && s'.node == r.node && s'.clock == a.now)
      || s'.drives[i].pc.Raised? || s'.drives[i].pc == Done(Crashed) || s'.drives[i].pc.Ready?
  {
  }

  /** Only intake brings a new row. */
  lemma NewKeys(c: Config, s: Sys, a: Action, id: OpId)
    requires DbInv(s.db) && id in Step(c, s, a).db.ops && id !in s.db.ops
    ensures a.Submit? && a.id == id
  {
    if a.ClaimBatch? {
      ClaimExact(s.db.ops, s.db.arrival, CLAIMABLE, a.limit, a.worker, c.leaseMs, a.now);
    }
  }
}
