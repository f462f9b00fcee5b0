/**
The audit trail: rows and logs agree, the work per operation is bounded, and every
retirement carries evidence that can be checked against the chain afterwards.
*/
module Audit {

  import opened Common
  import opened States
  import opened Chain
  import opened ChainProperties
  import opened Store
  import opened StoreProperties
  import opened Protocol
  import opened Invariant
  import opened InvariantWrites
  import opened InvariantSteps
  import opened History
  import opened Fencing

  // ---------------------------------------------------------------- the log is a legal path

  /**
  The log of an operation starts with intake, each event starts where the one before
  ended, every move is in the table, nothing follows a terminal state, and the last state
  is the row's.
  */
  lemma LogIsTheRowsHistory(c: Config, s: Sys, id: OpId, k: nat)
    requires Reachable(c, s) && id in s.db.ops && k < |Log(s.db.events, id)|
    ensures var log := Log(s.db.events, id);
      && log[0].from == None && log[0].to == Requested
      && log[|log| - 1].to == s.db.ops[id].state
      && (k > 0 ==> log[k].from == Some(log[k - 1].to) && CanTransition(log[k - 1].to, log[k].to))
      && (Terminal(log[k].to) ==> k == |log| - 1)
  {
    TrailOf(c, s, id);
    var log := Log(s.db.events, id);
    assert k > 0 ==> Follows(log[k - 1], log[k]);
    assert k + 1 < |log| ==> Follows(log[k], log[k + 1]);
  }

  // ---------------------------------------------------------------- bounded work

  /** Events that changed the state, intake not counted. */
  function Changes(log: seq<Event>): nat {
    if log == [] then 0
    else
      var e := log[|log| - 1];
      Changes(log[..|log| - 1]) + if e.from.Some? && e.from != Some(e.to) then 1 else 0
  }

  function WriteAheads(log: seq<Event>): nat {
    if log == [] then 0
    else WriteAheads(log[..|log| - 1]) + if log[|log| - 1].detail.WriteAhead? then 1 else 0
  }

  lemma CountsSnoc(log: seq<Event>, e: Event)
    ensures Changes(log + [e]) == Changes(log) + if e.from.Some? && e.from != Some(e.to) then 1 else 0
    ensures WriteAheads(log + [e]) == WriteAheads(log) + if e.detail.WriteAhead? then 1 else 0
  {
    assert (log + [e])[..|log|] == log;
  }

  /** State changes an operation can have behind it: four per retired envelope, and its way so far. */
  function ChangeBudget(c: Config, row: Row): int {
    match row.state
    case Requested => 0
    case Validated => 1
    case Rejected => 2
    case Signing => 2 + 4 * row.attempts
    case Signed => 3 + 4 * row.attempts
    case Broadcasting => 4 + 4 * row.attempts
    case Broadcast => 5 + 4 * row.attempts
    case Confirmed => 6 + 4 * row.attempts
    case Failed => 3 + 4 * c.maxAttempts
  }

  function WriteAheadBudget(row: Row): int {
    row.attempts + if Live(row) then 1 else 0
  }

  predicate WithinBudget(c: Config, log: seq<Event>, row: Row) {
    Changes(log) <= ChangeBudget(c, row) && WriteAheads(log) <= WriteAheadBudget(row)
    && WriteAheads(log) <= c.maxAttempts
  }

  ghost predicate BudgetInv(c: Config, db: Db) {
    forall id :: id in db.ops ==> WithinBudget(c, Log(db.events, id), db.ops[id])
  }

  lemma BuildBudget(c: Config, n: Node, es: seq<Event>, d: Drive, p: CasPlan, now: int, log: seq<Event>)
    requires Planned(c, n, es, d, p, now) && WithinBudget(c, log, d.op) && !CarriesEnvelope(d.pc)
    ensures WithinBudget(c, log + [NewEvent(es, d, p, now)], NewOp(c, d, p, now))
  {
    CountsSnoc(log, NewEvent(es, d, p, now));
  }

  /** The moves of a row that keeps its envelope, and the only one of them that announces. */
  predicate CarryMove(from: OpState, to: OpState, announces: bool) {
    || (from == Signed && to == Broadcasting && announces)
    || (from == Broadcasting && to in {Broadcasting, Broadcast, Failed} && !announces)
    || (from == Broadcast && to in {Confirmed, Failed} && !announces)
  }

  lemma CarryMoves(c: Config, n: Node, es: seq<Event>, d: Drive, p: CasPlan, now: int)
    requires Planned(c, n, es, d, p, now) && CarriesEnvelope(d.pc)
    ensures CarryMove(d.op.state, p.to, p.detail.WriteAhead?)
  {
    CarryShape(c, n, es, d, p, now);
  }

  lemma CarriedBudget(c: Config, log: seq<Event>, e: Event, row: Row, row': Row)
    requires WithinBudget(c, log, row) && Carried(row, row') && row.attempts < c.maxAttempts && row.signed.Some?
    requires e.from == Some(row.state) && e.to == row'.state && CarryMove(row.state, row'.state, e.detail.WriteAhead?)
    ensures WithinBudget(c, log + [e], row')
  {
    CountsSnoc(log, e);
  }

  lemma CarryBudget(c: Config, n: Node, es: seq<Event>, d: Drive, p: CasPlan, now: int, log: seq<Event>)
    requires Planned(c, n, es, d, p, now) && WithinBudget(c, log, d.op) && CarriesEnvelope(d.pc)
    ensures WithinBudget(c, log + [NewEvent(es, d, p, now)], NewOp(c, d, p, now))
  {
    CarryShape(c, n, es, d, p, now);
    CarryMoves(c, n, es, d, p, now);
    CarriedByCas(d.op, p.to, p.patch, Some(c.leaseMs), now);
    CarriedBudget(c, log, NewEvent(es, d, p, now), d.op, NewOp(c, d, p, now));
  }

  lemma WriteBudget(c: Config, db: Db, n: Node, d: Drive, p: CasPlan, now: int)
    requires Planned(c, n, db.events, d, p, now) && Owns(db, d) && Holds(db, d, d.id)
    requires WithinBudget(c, Log(db.events, d.id), db.ops[d.id])
    ensures var db' := WriteStep(c, db, n, d, p, now).db;
      d.id in db'.ops && WithinBudget(c, Log(db'.events, d.id), db'.ops[d.id])
  {
    HolderWrites(c, n, db, d, p, now);
    LogSnoc(db.events, NewEvent(db.events, d, p, now), d.id);
    if CarriesEnvelope(d.pc) {
      CarryBudget(c, n, db.events, d, p, now, Log(db.events, d.id));
    } else {
      BuildBudget(c, n, db.events, d, p, now, Log(db.events, d.id));
    }
  }

  /** A note that changes neither state nor envelope costs nothing. */
  lemma NoteBudget(c: Config, log: seq<Event>, e: Event, row: Row, row': Row)
    requires WithinBudget(c, log, row) && e.from == Some(e.to) && e.detail.NoDetail?
    requires row'.state == row.state && row'.attempts == row.attempts && row'.signed == row.signed
    ensures WithinBudget(c, log + [e], row')
  {
    CountsSnoc(log, e);
  }

  lemma CleanupBudget(c: Config, db: Db, n: Node, d: Drive, now: int)
    requires |n.times| > 0 && !Running(d.pc) && d.id in db.ops
    requires WithinBudget(c, Log(db.events, d.id), db.ops[d.id])
    ensures var db' := DriveStep(c, db, n, d, now).db;
      d.id in db'.ops && WithinBudget(c, Log(db'.events, d.id), db'.ops[d.id])
  {
    if d.pc.Raised? && CasHits(db, d.id, d.base.token, d.base.state) {
      var e := BreadcrumbStep(db, d, now).events[|db.events|];
      assert BreadcrumbStep(db, d, now).events == db.events + [e];
      LogSnoc(db.events, e, d.id);
      NoteBudget(c, Log(db.events, d.id), e, db.ops[d.id], BreadcrumbStep(db, d, now).ops[d.id]);
    }
  }

  lemma HolderBudget(c: Config, db: Db, n: Node, d: Drive, now: int)
    requires NodeInv(n) && DriveOk(c, n, db.events, d) && Owns(db, d) && Holds(db, d, d.id)
    requires WithinBudget(c, Log(db.events, d.id), db.ops[d.id])
    ensures var db' := DriveStep(c, db, n, d, now).db;
      d.id in db'.ops && WithinBudget(c, Log(db'.events, d.id), db'.ops[d.id])
  {
    if !Running(d.pc) {
      CleanupBudget(c, db, n, d, now);
    } else if Plan(c, d, now).Some? {
      WriteBudget(c, db, n, d, Plan(c, d, now).value, now);
    }
  }

  lemma BudgetStepAt(c: Config, s: Sys, a: Action, id: OpId)
    requires Inv(c, s) && id in s.db.ops && WithinBudget(c, Log(s.db.events, id), s.db.ops[id])
    ensures var db' := Step(c, s, a).db; id in db'.ops && WithinBudget(c, Log(db'.events, id), db'.ops[id])
  {
    if a.Act? && a.i < |s.drives| && Holds(s.db, s.drives[a.i], id) {
      assert DriveOk(c, s.node, s.db.events, s.drives[a.i]) && Owns(s.db, s.drives[a.i]);
      ActBudget(c, s, a.i, a.now);
    } else {
      SingleWriter(c, s, a, id);
    }
  }

  lemma ActBudget(c: Config, s: Sys, i: nat, now: int)
    requires NodeInv(s.node) && i < |s.drives| && Holds(s.db, s.drives[i], s.drives[i].id)
    requires DriveOk(c, s.node, s.db.events, s.drives[i]) && Owns(s.db, s.drives[i])
    requires WithinBudget(c, Log(s.db.events, s.drives[i].id), s.db.ops[s.drives[i].id])
    ensures var db' := Step(c, s, Act(i, now)).db;
      var id := s.drives[i].id; id in db'.ops && WithinBudget(c, Log(db'.events, id), db'.ops[id])
  {
    HolderBudget(c, s.db, s.node, s.drives[i], now);
  }

  lemma FirstBudget(c: Config, e: Event, row: Row)
    requires e.from == None && e.detail.Intake? && row.state == Requested
    ensures WithinBudget(c, [e], row)
  {
    CountsSnoc([], e);
    assert [] + [e] == [e];
  }

  lemma NewRowBudget(c: Config, db: Db, id: OpId, row: Row)
    requires DbInv(db) && id !in db.ops && row.state == Requested
    ensures var db' := Insert(db, id, row); WithinBudget(c, Log(db'.events, id), db'.ops[id])
  {
    InsertLog(db, id, row);
    FirstBudget(c, Event(id, None, row.state, None, 0, Intake, row.createdAt, |db.events| + 1), row);
  }

  lemma BudgetStep(c: Config, s: Sys, a: Action)
    requires Inv(c, s) && BudgetInv(c, s.db)
    ensures BudgetInv(c, Step(c, s, a).db)
  {
    var db' := Step(c, s, a).db;
    forall id | id in db'.ops ensures WithinBudget(c, Log(db'.events, id), db'.ops[id]) {
      if id in s.db.ops {
        BudgetStepAt(c, s, a, id);
      } else {
        NewKeys(c, s, a, id);
        NewRowBudget(c, s.db, id, NewRow(a.to, a.asset, a.amount, a.now));
      }
    }
  }

  lemma {:induction false} BudgetRun(c: Config, s: Sys, actions: seq<Action>)
    requires Inv(c, s) && BudgetInv(c, s.db)
    ensures BudgetInv(c, Exec(c, s, actions).db)
    decreases |actions|
  {
    if actions != [] {
      BudgetStep(c, s, actions[0]);
      StepKeeps(c, s, actions[0]);
      BudgetRun(c, Step(c, s, actions[0]), actions[1..]);
    }
  }

  /**
  The work on one operation is bounded, whatever the schedule: attempts and write-aheads by
  the configured maximum, state changes after intake by three plus four times it.
  */
  lemma BoundedWork(c: Config, s: Sys, id: OpId)
    requires Reachable(c, s) && id in s.db.ops
    ensures s.db.ops[id].attempts <= c.maxAttempts
    ensures WriteAheads(Log(s.db.events, id)) <= c.maxAttempts
    ensures Changes(Log(s.db.events, id)) <= 3 + 4 * c.maxAttempts
  {
    ReachableInv(c, s);
    var w: Setup, actions: seq<Action> :| s == Exec(c, Init(w), actions);
    InitInv(c, w);
    BudgetRun(c, Init(w), actions);
    assert RowInv(c, s.node, s.db.events, id, s.db.ops[id]);
    assert WithinBudget(c, Log(s.db.events, id), s.db.ops[id]);
  }

  // ---------------------------------------------------------------- evidence

  /** The evidence for giving up the envelope of `row`: never sent, or outlived by a block that exists. */
  predicate EvidenceFor(c: Config, n: Node, from: OpState, txid: Option<Txid>, evidence: Evidence) {
    match evidence
    case NeverBroadcast => from == Signed
    case ChainProof(solidTime, deadline) =>
      && from in {Broadcasting, Broadcast}
      && txid.Some?
      && deadline == txid.value.raw.expiration + c.marginMs
      && solidTime >= deadline
      && solidTime in n.times
  }

  predicate DriveEvidence(c: Config, n: Node, d: Drive) {
    && (d.pc.HaveSolid? ==> d.pc.solid in n.times)
    && (d.pc.Retire? ==> EvidenceFor(c, n, d.op.state, d.op.txid, d.pc.evidence))
  }

  predicate EventEvidence(c: Config, n: Node, e: Event) {
    e.detail.Retired? ==>
      e.from.Some? && e.to == Signing && EvidenceFor(c, n, e.from.value, e.detail.retired, e.detail.evidence)
  }

  /** What is retired is an envelope the operation was given. */
  ghost predicate RetiredGiven(es: seq<Event>, e: Event) {
    e.detail.Retired? ==> e.detail.retired.Some? && Given(es, e.id, e.detail.retired.value)
  }

  ghost predicate EvidenceInv(c: Config, s: Sys) {
    && (forall i :: 0 <= i < |s.drives| ==> DriveEvidence(c, s.node, s.drives[i]))
    && (forall k :: 0 <= k < |s.db.events| ==>
          EventEvidence(c, s.node, s.db.events[k]) && RetiredGiven(s.db.events, s.db.events[k]))
  }

  lemma ReadyEvidence(c: Config, n: Node, es: seq<Event>, d: Drive, now: int)
    requires NodeInv(n) && DriveOk(c, n, es, d) && d.pc.Ready?
    ensures DriveEvidence(c, n, ReadyStep(c, n, d, now).1)
  {
    assert SolidNow(n) in n.times;
  }

  /** A verdict on the envelope in hand, reached with a chain time that some block carries. */
  lemma VerdictEvidence(c: Config, n: Node, es: seq<Event>, d: Drive, solid: int)
    requires |n.times| > 0 && DriveOk(c, n, es, d) && d.op.state in {Broadcasting, Broadcast} && solid in n.times
    requires d.op.signed.Some? && ProvenDead(c, d.op.signed.value, solid)
    ensures DriveEvidence(c, n, d.(pc := RetireDead(c, d, d.op.signed.value, solid)))
  {
    SignedBytes(c, d.op);
  }

  lemma LookedUpEvidence(c: Config, n: Node, es: seq<Event>, d: Drive)
    requires NodeInv(n) && DriveOk(c, n, es, d) && d.pc.LookedUp? && d.op.signed.Some?
    ensures DriveEvidence(c, n, SolidStep(c, n, d, d.op.signed.value))
  {
    assert SolidNow(n) in n.times;
    if ProvenDead(c, d.op.signed.value, SolidNow(n)) {
      VerdictEvidence(c, n, es, d, SolidNow(n));
    }
  }

  lemma HaveSolidEvidence(c: Config, n: Node, es: seq<Event>, d: Drive, now: int)
    requires NodeInv(n) && DriveOk(c, n, es, d) && DriveEvidence(c, n, d) && d.pc.HaveSolid? && d.op.signed.Some?
    ensures DriveEvidence(c, n, Lookup(c, n, d, d.op.signed.value, now).1)
  {
    if ProvenDead(c, d.op.signed.value, d.pc.solid) {
      VerdictEvidence(c, n, es, d, d.pc.solid);
    }
  }

  lemma ReadEvidence(c: Config, n: Node, es: seq<Event>, d: Drive, now: int)
    requires NodeInv(n) && DriveOk(c, n, es, d) && DriveEvidence(c, n, d) && Running(d.pc)
    ensures DriveEvidence(c, n, ReadStep(c, n, d, now).1)
  {
    if d.pc.Ready? {
      ReadyEvidence(c, n, es, d, now);
    } else if d.pc.LookedUp? && d.op.signed.Some? {
      LookedUpEvidence(c, n, es, d);
    } else if d.pc.HaveSolid? && d.op.signed.Some? {
      HaveSolidEvidence(c, n, es, d, now);
    }
  }

  lemma WriteGiven(c: Config, db: Db, n: Node, d: Drive, p: CasPlan, now: int)
    requires Planned(c, n, db.events, d, p, now)
    ensures RetiredGiven(db.events, NewEvent(db.events, d, p, now))
  {
    if d.pc.Retire? {
      SignedBytes(c, d.op);
    }
  }

  lemma WriteEvidence(c: Config, db: Db, n: Node, d: Drive, p: CasPlan, now: int)
    requires Planned(c, n, db.events, d, p, now) && DriveEvidence(c, n, d)
    ensures EventEvidence(c, n, NewEvent(db.events, d, p, now))
  {
  }

  lemma TimesStay(n: Node, m: Node, t: int)
    requires n.times <= m.times && t in n.times
    ensures t in m.times
  {
    var k :| 0 <= k < |n.times| && n.times[k] == t;
    assert m.times[k] == t;
  }

  lemma DriveEvidenceGrows(c: Config, n: Node, m: Node, d: Drive)
    requires n.times <= m.times && DriveEvidence(c, n, d)
    ensures DriveEvidence(c, m, d)
  {
    if d.pc.HaveSolid? {
      TimesStay(n, m, d.pc.solid);
    } else if d.pc.Retire? && d.pc.evidence.ChainProof? {
      TimesStay(n, m, d.pc.evidence.solidTime);
    }
  }

  lemma EventEvidenceGrows(c: Config, n: Node, m: Node, e: Event)
    requires n.times <= m.times && EventEvidence(c, n, e)
    ensures EventEvidence(c, m, e)
  {
    if e.detail.Retired? && e.detail.evidence.ChainProof? {
      TimesStay(n, m, e.detail.evidence.solidTime);
    }
  }

  lemma RetiredGivenGrows(es: seq<Event>, fs: seq<Event>, e: Event)
    requires es <= fs && RetiredGiven(es, e)
    ensures RetiredGiven(fs, e)
  {
    if e.detail.Retired? {
      GivenGrows(es, fs, e.id, e.detail.retired.value);
    }
  }

  /** What one action adds to the log is evidence for itself. */
  ghost predicate AddsEvidence(c: Config, n: Node, db: Db, r: Local) {
    && DriveEvidence(c, n, r.drive)
    && db.events <= r.db.events
    && forall k :: |db.events| <= k < |r.db.events| ==>
         EventEvidence(c, n, r.db.events[k]) && RetiredGiven(db.events, r.db.events[k])
  }

  lemma WriteStepEvidence(c: Config, db: Db, n: Node, d: Drive, p: CasPlan, now: int)
    requires Planned(c, n, db.events, d, p, now) && Owns(db, d) && DriveEvidence(c, n, d)
    ensures AddsEvidence(c, n, db, WriteStep(c, db, n, d, p, now))
  {
    WriteEvidence(c, db, n, d, p, now);
    WriteGiven(c, db, n, d, p, now);
    if d.op.token == db.ops[d.id].token {
      HolderWrites(c, n, db, d, p, now);
      AfterWriteEvidence(c, n, d, NewOp(c, d, p, now));
    } else {
      OthersMiss(c, n, db, d, p, now);
    }
  }

  lemma AfterWriteEvidence(c: Config, n: Node, d: Drive, row: Row)
    ensures DriveEvidence(c, n, AfterWrite(d, row))
  {
  }

  lemma DriveStepEvidence(c: Config, db: Db, n: Node, d: Drive, now: int)
    requires NodeInv(n) && DriveOk(c, n, db.events, d) && Owns(db, d) && DriveEvidence(c, n, d)
    ensures AddsEvidence(c, n, db, DriveStep(c, db, n, d, now))
  {
    if Running(d.pc) {
      var p := Plan(c, d, now);
      if p.None? {
        ReadEvidence(c, n, db.events, d, now);
      } else {
        WriteStepEvidence(c, db, n, d, p.value, now);
      }
    }
  }

  lemma EvidenceStep(c: Config, s: Sys, a: Action)
    requires Inv(c, s) && EvidenceInv(c, s)
    ensures EvidenceInv(c, Step(c, s, a))
  {
    var s' := Step(c, s, a);
    StepOnward(c, s, a);
    if a.Act? && a.i < |s.drives| {
      var d := s.drives[a.i];
      assert DriveOk(c, s.node, s.db.events, d) && Owns(s.db, d);
      DriveStepEvidence(c, s.db, s.node, d, a.now);
    }
    forall i | 0 <= i < |s'.drives| ensures DriveEvidence(c, s'.node, s'.drives[i]) {
      DriveAfter(c, s, a, i);
      DriveEvidenceGrows(c, s.node, s'.node, s'.drives[i]);
    }
    forall k | 0 <= k < |s'.db.events|
      ensures EventEvidence(c, s'.node, s'.db.events[k]) && RetiredGiven(s'.db.events, s'.db.events[k])
    {
      NewEvents(c, s, a, k);
      EventEvidenceGrows(c, s.node, s'.node, s'.db.events[k]);
      RetiredGivenGrows(s.db.events, s'.db.events, s'.db.events[k]);
    }
  }

  /** An event is an old one, the intake of a submission, or written by the acting drive. */
  lemma NewEvents(c: Config, s: Sys, a: Action, k: nat)
    requires k < |Step(c, s, a).db.events| && |s.node.times| > 0
    ensures var s' := Step(c, s, a);
      || (k < |s.db.events| && s'.db.events[k] == s.db.events[k])
      || s'.db.events[k].detail.Intake?
      || (a.Act? && a.i < |s.drives| && |s.db.events| <= k
          && s'.db.events == DriveStep(c, s.db, s.node, s.drives[a.i], a.now).db.events)
  {
  }

  lemma {:induction false} EvidenceRun(c: Config, s: Sys, actions: seq<Action>)
    requires Inv(c, s) && EvidenceInv(c, s)
    ensures EvidenceInv(c, Exec(c, s, actions))
    decreases |actions|
  {
    if actions != [] {
      EvidenceStep(c, s, actions[0]);
      StepKeeps(c, s, actions[0]);
      EvidenceRun(c, Step(c, s, actions[0]), actions[1..]);
    }
  }

  /**
  Every retirement in the log can be audited again: either the envelope was given up in
  `signed`, or the recorded chain time is the timestamp of a block of this chain and lies
  past the recorded deadline, which is the retired txid's expiration plus the margin.
  */
  lemma EveryRetirementHasEvidence(c: Config, s: Sys, k: nat)
    requires Reachable(c, s) && k < |s.db.events| && s.db.events[k].detail.Retired?
    ensures var e := s.db.events[k];
      && e.from.Some? && e.to == Signing && EvidenceFor(c, s.node, e.from.value, e.detail.retired, e.detail.evidence)
      && e.detail.retired.Some? && Given(s.db.events, e.id, e.detail.retired.value)
  {
    var w: Setup, actions: seq<Action> :| s == Exec(c, Init(w), actions);
    InitInv(c, w);
    EvidenceRun(c, Init(w), actions);
    assert EventEvidence(c, s.node, s.db.events[k]);
  }
}
