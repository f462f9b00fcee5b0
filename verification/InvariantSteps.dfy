/** Intake, claims, releases and breadcrumbs keep the invariant; so does every run. */
module InvariantSteps {

  import opened Common
  import opened States
  import opened Chain
  import opened ChainProperties
  import opened Store
  import opened StoreProperties
  import opened Protocol
  import opened Invariant
  import opened InvariantProof
  import opened InvariantWrites

  // ---------------------------------------------------------------- changes that are only bookkeeping

  /** The columns that say nothing about money: claim, lease, token, breadcrumb, timestamp. */
  predicate SameButBookkeeping(row: Row, row': Row) {
    row' == row.(claimedBy := row'.claimedBy, lease := row'.lease, token := row'.token,
                 lastError := row'.lastError, updatedAt := row'.updatedAt)
  }

  lemma BookkeepingOk(c: Config, n: Node, es: seq<Event>, id: OpId, row: Row, row': Row)
    requires RowInv(c, n, es, id, row) && SameButBookkeeping(row, row')
    requires Terminal(row.state) ==> row'.lease == None && row'.claimedBy == None
    ensures RowInv(c, n, es, id, row')
  {
  }

  // ---------------------------------------------------------------- release

  lemma ReleaseRows(c: Config, n: Node, db: Db, id: OpId, token: nat, now: int)
    requires RowsInv(c, n, db)
    ensures RowsInv(c, n, Release(db, id, token, now))
  {
    var db' := Release(db, id, token, now);
    forall x | x in db'.ops ensures RowInv(c, n, db'.events, x, db'.ops[x]) {
      BookkeepingOk(c, n, db.events, x, db.ops[x], db'.ops[x]);
    }
  }

  lemma ReleaseStepKeeps(c: Config, s: Sys, i: nat, now: int)
    requires Inv(c, s) && i < |s.drives| && s.drives[i].pc.Releasing?
    ensures Inv(c, Sys(Release(s.db, s.drives[i].id, s.drives[i].base.token, now), s.node,
                       s.drives[i := s.drives[i].(pc := Done(Released))], now))
  {
    var d := s.drives[i];
    assert DriveOk(c, s.node, s.db.events, d) && Owns(s.db, d);
    var d' := d.(pc := Done(Released));
    var db' := Release(s.db, d.id, d.base.token, now);
    ReleaseKeeps(s.db, d.id, d.base.token, now);
    ReleaseRows(c, s.node, s.db, d.id, d.base.token, now);
    if d.op.token == s.db.ops[d.id].token {
      OthersAfterWrite(c, s.node, s.db, db', s.drives, i);
      DrivesAssembled(c, s.node, db', s.drives, i, d');
    } else {
      DriveReplaced(c, s, i, d');
    }
  }

  // ---------------------------------------------------------------- the breadcrumb

  lemma QuietEvent(c: Config, n: Node, es: seq<Event>, e: Event, id: OpId, row: Row)
    requires NodeInv(n) && RowInv(c, n, es, id, row) && TxidOf(e.detail).None?
    ensures RowInv(c, n, es + [e], id, row)
  {
    RelabelForward(n, n);
    FactsGrow(n, es, n, es + [e], id, row);
    forall txid | Given(es + [e], id, txid) ensures Pays(c, row, txid) {
      Snoc(es, e, id, txid);
    }
  }

  lemma BreadcrumbRows(c: Config, n: Node, db: Db, db': Db, id: OpId, row: Row, e: Event)
    requires NodeInv(n) && RowsInv(c, n, db) && id in db.ops && !Terminal(db.ops[id].state)
    requires SameButBookkeeping(db.ops[id], row) && TxidOf(e.detail).None?
    requires db' == db.(ops := db.ops[id := row], events := db.events + [e])
    ensures RowsInv(c, n, db')
  {
    forall x | x in db'.ops ensures RowInv(c, n, db'.events, x, db'.ops[x]) {
      QuietEvent(c, n, db.events, e, x, db.ops[x]);
      if x == id {
        BookkeepingOk(c, n, db'.events, x, db.ops[x], row);
      }
    }
  }

  /** What the breadcrumb writes, when the fencing check lets it through. */
  lemma BreadcrumbShape(db: Db, d: Drive, now: int)
    requires CasHits(db, d.id, d.base.token, d.base.state)
    ensures var db' := BreadcrumbStep(db, d, now);
      && |db'.events| == |db.events| + 1
      && TxidOf(db'.events[|db.events|].detail).None?
      && d.id in db'.ops
      && SameButBookkeeping(db.ops[d.id], db'.ops[d.id])
      && db'.ops[d.id].token == db.ops[d.id].token
      && db' == db.(ops := db.ops[d.id := db'.ops[d.id]], events := db.events + [db'.events[|db.events|]])
  {
  }

  lemma BreadcrumbKeeps(c: Config, s: Sys, i: nat, now: int)
    requires Inv(c, s) && i < |s.drives| && s.drives[i].pc.Raised?
    ensures Inv(c, Sys(BreadcrumbStep(s.db, s.drives[i], now), s.node,
                       s.drives[i := s.drives[i].(pc := Releasing)], now))
  {
    var d := s.drives[i];
    assert DriveOk(c, s.node, s.db.events, d) && Owns(s.db, d);
    if CasHits(s.db, d.id, d.base.token, d.base.state) {
      BreadcrumbHit(c, s, i, now);
    } else {
      DriveReplaced(c, s, i, d.(pc := Releasing));
    }
  }

  lemma BreadcrumbHit(c: Config, s: Sys, i: nat, now: int)
    requires Inv(c, s) && i < |s.drives| && s.drives[i].pc.Raised?
    requires s.drives[i].base.token == s.drives[i].op.token
    requires CasHits(s.db, s.drives[i].id, s.drives[i].base.token, s.drives[i].base.state)
    ensures Inv(c, Sys(BreadcrumbStep(s.db, s.drives[i], now), s.node,
                       s.drives[i := s.drives[i].(pc := Releasing)], now))
  {
    var d := s.drives[i];
    var db' := BreadcrumbStep(s.db, d, now);
    BreadcrumbShape(s.db, d, now);
    CasKeeps(s.db, d.id, d.base.token, d.base.state, d.base.state,
             Patch(lastError := Set(Some(HandlerException))), NoDetail, None, d.worker, now);
    BreadcrumbRows(c, s.node, s.db, db', d.id, db'.ops[d.id], db'.events[|s.db.events|]);
    BreadcrumbDrives(c, s, i, db');
    AcceptedGrows(c, s.node, s.db.events, db'.events);
  }

  lemma BreadcrumbDrives(c: Config, s: Sys, i: nat, db': Db)
    requires Inv(c, s) && i < |s.drives| && s.drives[i].pc.Raised?
    requires s.drives[i].op.token == s.db.ops[s.drives[i].id].token
    requires s.db.events <= db'.events && s.drives[i].id in db'.ops
    requires db'.ops == s.db.ops[s.drives[i].id := db'.ops[s.drives[i].id]]
    requires db'.ops[s.drives[i].id].token == s.db.ops[s.drives[i].id].token
    ensures var ds := s.drives[i := s.drives[i].(pc := Releasing)];
      DrivesInv(c, s.node, db', ds) && DistinctTokens(ds)
  {
    var d := s.drives[i];
    RelabelForward(s.node, s.node);
    DriveGrows(c, s.node, s.db.events, s.node, db'.events, d);
    OthersAfterWrite(c, s.node, s.db, db', s.drives, i);
    DrivesAssembled(c, s.node, db', s.drives, i, d.(pc := Releasing));
  }

  // ---------------------------------------------------------------- intake

  lemma FreshRow(c: Config, n: Node, es: seq<Event>, id: OpId, to: string, asset: string, amount: int, now: int)
    requires forall k :: 0 <= k < |es| ==> es[k].id != id
    ensures RowInv(c, n, es, id, NewRow(to, asset, amount, now))
  {
  }

  lemma SubmitKeeps(c: Config, s: Sys, id: OpId, to: string, asset: string, amount: int, now: int)
    requires Inv(c, s)
    ensures Inv(c, Step(c, s, Submit(id, to, asset, amount, now)))
  {
    var row := NewRow(to, asset, amount, now);
    var db' := Insert(s.db, id, row);
    InsertKeeps(s.db, id, row);
    if id !in s.db.ops {
      var e := db'.events[|s.db.events|];
      assert db'.events == s.db.events + [e];
      SubmitRows(c, s.node, s.db, id, row, e);
      AcceptedGrows(c, s.node, s.db.events, db'.events);
      SubmitDrives(c, s, db');
    }
  }

  lemma SubmitRows(c: Config, n: Node, db: Db, id: OpId, row: Row, e: Event)
    requires NodeInv(n) && DbInv(db) && RowsInv(c, n, db) && id !in db.ops
    requires row == NewRow(row.to, row.asset, row.amount, row.createdAt) && TxidOf(e.detail).None?
    ensures RowsInv(c, n, Db(db.ops[id := row], db.arrival + [id], db.events + [e]))
  {
    FreshRow(c, n, db.events, id, row.to, row.asset, row.amount, row.createdAt);
    var ops := db.ops[id := row];
    forall x | x in ops ensures RowInv(c, n, db.events + [e], x, ops[x]) {
      QuietEvent(c, n, db.events, e, x, ops[x]);
    }
  }

  lemma SubmitDrives(c: Config, s: Sys, db': Db)
    requires Inv(c, s) && s.db.events <= db'.events
    requires forall id :: id in s.db.ops ==> id in db'.ops && db'.ops[id] == s.db.ops[id]
    ensures DrivesInv(c, s.node, db', s.drives)
  {
    RelabelForward(s.node, s.node);
    forall j | 0 <= j < |s.drives| ensures DriveOk(c, s.node, db'.events, s.drives[j]) && Owns(db', s.drives[j]) {
      DriveGrows(c, s.node, s.db.events, s.node, db'.events, s.drives[j]);
    }
  }

  // ---------------------------------------------------------------- claims

  lemma ClaimRow(c: Config, n: Node, db: Db, limit: int, worker: WorkerId, now: int, id: OpId)
    requires DbInv(db) && id in db.ops && RowInv(c, n, db.events, id, db.ops[id])
    ensures var ops' := ClaimFrom(db.ops, db.arrival, CLAIMABLE, limit, worker, c.leaseMs, now).0;
      id in ops' && RowInv(c, n, db.events, id, ops'[id])
  {
    ClaimedOrNot(db.ops, db.arrival, CLAIMABLE, limit, worker, c.leaseMs, now, id);
    var ops' := ClaimFrom(db.ops, db.arrival, CLAIMABLE, limit, worker, c.leaseMs, now).0;
    if ops'[id] != db.ops[id] {
      BookkeepingOk(c, n, db.events, id, db.ops[id], ops'[id]);
    }
  }

  lemma ClaimRows(c: Config, n: Node, db: Db, limit: int, worker: WorkerId, now: int)
    requires NodeInv(n) && DbInv(db) && RowsInv(c, n, db)
    ensures RowsInv(c, n, Claim(db, CLAIMABLE, limit, worker, c.leaseMs, now).0)
  {
    var db' := Claim(db, CLAIMABLE, limit, worker, c.leaseMs, now).0;
    ClaimExact(db.ops, db.arrival, CLAIMABLE, limit, worker, c.leaseMs, now);
    forall id | id in db'.ops ensures RowInv(c, n, db'.events, id, db'.ops[id]) {
      ClaimRow(c, n, db, limit, worker, now, id);
    }
  }

  /** Drives that were there before: their operations kept their token, or now have a larger one. */
  lemma ClaimOldDrives(c: Config, s: Sys, limit: int, worker: WorkerId, now: int)
    requires Inv(c, s)
    ensures DrivesInv(c, s.node, Claim(s.db, CLAIMABLE, limit, worker, c.leaseMs, now).0, s.drives)
  {
    var db' := Claim(s.db, CLAIMABLE, limit, worker, c.leaseMs, now).0;
    forall j | 0 <= j < |s.drives| ensures DriveOk(c, s.node, db'.events, s.drives[j]) && Owns(db', s.drives[j]) {
      assert Owns(s.db, s.drives[j]);
      ClaimedOrNot(s.db.ops, s.db.arrival, CLAIMABLE, limit, worker, c.leaseMs, now, s.drives[j].id);
    }
  }

  lemma StartedOk(c: Config, n: Node, db: Db, id: OpId, row: Row, worker: WorkerId)
    requires |n.times| > 0 && id in db.ops && db.ops[id] == row && RowInv(c, n, db.events, id, row)
    requires row.token > 0 && row.state in CLAIMABLE
    ensures DriveOk(c, n, db.events, Drive(worker, id, row, row, Ready, 0, false))
    ensures Owns(db, Drive(worker, id, row, row, Ready, 0, false))
  {
  }

  lemma ClaimNewDrives(c: Config, s: Sys, limit: int, worker: WorkerId, now: int)
    requires Inv(c, s)
    ensures var (db', claims) := Claim(s.db, CLAIMABLE, limit, worker, c.leaseMs, now);
      DrivesInv(c, s.node, db', Started(worker, claims))
  {
    var (db', claims) := Claim(s.db, CLAIMABLE, limit, worker, c.leaseMs, now);
    ClaimExact(s.db.ops, s.db.arrival, CLAIMABLE, limit, worker, c.leaseMs, now);
    ClaimRows(c, s.node, s.db, limit, worker, now);
    var ds := Started(worker, claims);
    forall k | 0 <= k < |ds| ensures DriveOk(c, s.node, db'.events, ds[k]) && Owns(db', ds[k]) {
      StartedOk(c, s.node, db', claims[k].id, claims[k].row, worker);
    }
  }

  lemma ClaimTokens(db: Db, drives: seq<Drive>, limit: int, worker: WorkerId, leaseMs: int, now: int)
    requires DbInv(db) && DistinctTokens(drives)
    requires forall i :: 0 <= i < |drives| ==> Owns(db, drives[i])
    ensures var claims := Claim(db, CLAIMABLE, limit, worker, leaseMs, now).1;
      DistinctTokens(drives + Started(worker, claims))
  {
    var claims := Claim(db, CLAIMABLE, limit, worker, leaseMs, now).1;
    ClaimExact(db.ops, db.arrival, CLAIMABLE, limit, worker, leaseMs, now);
    ClaimDistinct(db.ops, db.arrival, CLAIMABLE, limit, worker, leaseMs, now);
    var ds := drives + Started(worker, claims);
    forall i, j | 0 <= i < j < |ds| ensures ds[i].id == ds[j].id ==> ds[i].op.token != ds[j].op.token {
      if i < |drives| <= j {
        assert Owns(db, drives[i]);
        assert ds[j].op == claims[j - |drives|].row;
      } else if |drives| <= i {
        assert IdsOf(claims)[i - |drives|] != IdsOf(claims)[j - |drives|];
      }
    }
  }

  lemma ClaimBatchKeeps(c: Config, s: Sys, worker: WorkerId, limit: int, now: int)
    requires Inv(c, s)
    ensures Inv(c, Step(c, s, ClaimBatch(worker, limit, now)))
  {
    ClaimKeeps(s.db, CLAIMABLE, limit, worker, c.leaseMs, now);
    ClaimRows(c, s.node, s.db, limit, worker, now);
    ClaimOldDrives(c, s, limit, worker, now);
    ClaimNewDrives(c, s, limit, worker, now);
    ClaimTokens(s.db, s.drives, limit, worker, c.leaseMs, now);
  }

  // ---------------------------------------------------------------- all steps, all runs

  lemma ReadKeeps(c: Config, s: Sys, i: nat, now: int)
    requires Inv(c, s) && i < |s.drives| && Running(s.drives[i].pc) && Plan(c, s.drives[i], now).None?
    ensures var (m, d') := ReadStep(c, s.node, s.drives[i], now);
      Inv(c, Sys(s.db, m, s.drives[i := d'], now))
  {
    var d := s.drives[i];
    assert DriveOk(c, s.node, s.db.events, d) && Owns(s.db, d);
    ReadStepOk(c, s.node, s.db.events, d, now);
    var (m, d') := ReadStep(c, s.node, d, now);
    NodeKeeps(c, s, m, now);
    DriveReplaced(c, s.(node := m, clock := now), i, d');
  }

  lemma ActKeeps(c: Config, s: Sys, i: nat, now: int)
    requires Inv(c, s)
    ensures Inv(c, Step(c, s, Act(i, now)))
  {
    if i < |s.drives| {
      var d := s.drives[i];
      if d.pc.Releasing? {
        ReleaseStepKeeps(c, s, i, now);
      } else if d.pc.Raised? {
        BreadcrumbKeeps(c, s, i, now);
      } else if d.pc.Done? {
        assert s.drives[i := d] == s.drives;
      } else if Plan(c, d, now).Some? {
        WriteKeeps(c, s, i, Plan(c, d, now).value, now);
      } else {
        ReadKeeps(c, s, i, now);
      }
    }
  }

  lemma StepKeeps(c: Config, s: Sys, a: Action)
    requires Inv(c, s)
    ensures Inv(c, Step(c, s, a))
  {
    match a
    case Submit(id, to, asset, amount, now) => SubmitKeeps(c, s, id, to, asset, amount, now);
    case ClaimBatch(worker, limit, now) => ClaimBatchKeeps(c, s, worker, limit, now);
    case Act(i, now) => ActKeeps(c, s, i, now);
    case Throw(i) => ThrowKeeps(c, s, i);
    case Crash(i) => CrashKeeps(c, s, i);
    case Block(now) => BlockKeeps(c, s, now);
    case Inject(channel, faults) => InjectKeeps(c, s, channel, faults);
  }

  lemma {:induction false} RunKeeps(c: Config, s: Sys, actions: seq<Action>)
    requires Inv(c, s)
    ensures Inv(c, Exec(c, s, actions))
    decreases |actions|
  {
    if actions != [] {
      StepKeeps(c, s, actions[0]);
      RunKeeps(c, Step(c, s, actions[0]), actions[1..]);
    }
  }

  // ---------------------------------------------------------------- reachable states

  /** `s` is the state of some run, from some set-up of the node, with any schedule and any clock readings. */
  ghost predicate Reachable(c: Config, s: Sys) {
    exists w: Setup, actions: seq<Action> :: s == Exec(c, Init(w), actions)
  }

  lemma ReachableInv(c: Config, s: Sys)
    requires Reachable(c, s)
    ensures Inv(c, s)
  {
    var w: Setup, actions: seq<Action> :| s == Exec(c, Init(w), actions);
    InitInv(c, w);
    RunKeeps(c, Init(w), actions);
  }
}
