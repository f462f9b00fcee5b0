/**
Single writer: claims hand out each token once, a row and its log change only through the
drive that holds the current token, and a drive that was fenced out writes nothing ever again.
*/
module Fencing {

  import opened Common
  import opened States
  import opened Chain
  import opened ChainProperties
  import opened Store
  import opened StoreProperties
  import opened Protocol
  import opened Invariant
  import opened InvariantWrites
  import opened InvariantSteps
  import opened History

  // ---------------------------------------------------------------- tokens

  /** No two claims of an operation ever return the same token. */
  lemma TokensNeverRepeat(c: Config, s: Sys, i: nat, j: nat)
    requires Reachable(c, s) && i < j < |s.drives| && s.drives[i].id == s.drives[j].id
    ensures s.drives[i].op.token != s.drives[j].op.token
  {
    ReachableInv(c, s);
  }

  /** Along the log of an operation tokens never decrease, and none exceeds the row's. */
  lemma {:induction false} LogTokensRise(c: Config, s: Sys, id: OpId, j: nat, k: nat)
    requires Reachable(c, s) && id in s.db.ops && j <= k < |Log(s.db.events, id)|
    ensures Log(s.db.events, id)[j].token <= Log(s.db.events, id)[k].token <= s.db.ops[id].token
  {
    TrailOf(c, s, id);
    var log := Log(s.db.events, id);
    TrailTokens(log, s.db.ops[id], j, k);
    TrailTokens(log, s.db.ops[id], k, |log| - 1);
  }

  lemma TrailOf(c: Config, s: Sys, id: OpId)
    requires Reachable(c, s) && id in s.db.ops
    ensures Trail(Log(s.db.events, id), s.db.ops[id])
  {
    ReachableInv(c, s);
  }

  lemma {:induction false} TrailTokens(log: seq<Event>, row: Row, j: nat, k: nat)
    requires Trail(log, row) && j <= k < |log|
    ensures log[j].token <= log[k].token
    decreases k
  {
    if j < k {
      TrailTokens(log, row, j, k - 1);
      assert Follows(log[k - 1], log[k]);
    }
  }

  /** The holder of the current token sees exactly the stored row, all the way through a handler. */
  lemma HolderSeesTheRow(c: Config, s: Sys, i: nat)
    requires Reachable(c, s) && i < |s.drives| && Running(s.drives[i].pc)
    ensures s.drives[i].id in s.db.ops
    ensures s.drives[i].op.token == s.db.ops[s.drives[i].id].token ==> s.drives[i].op == s.db.ops[s.drives[i].id]
    ensures s.drives[i].op.token <= s.db.ops[s.drives[i].id].token
  {
    ReachableInv(c, s);
  }

  /** A write that gets past the fencing check replaces the very row the handler has in hand. */
  lemma HitsOwnSnapshot(c: Config, w: Setup, actions: seq<Action>, i: nat)
    requires var s := Exec(c, Init(w), actions);
      i < |s.drives| && Running(s.drives[i].pc) && s.drives[i].id in s.db.ops
      && s.db.ops[s.drives[i].id].token == s.drives[i].op.token
    ensures var s := Exec(c, Init(w), actions); s.db.ops[s.drives[i].id] == s.drives[i].op
  {
    InitInv(c, w);
    RunKeeps(c, Init(w), actions);
    assert Owns(Exec(c, Init(w), actions).db, Exec(c, Init(w), actions).drives[i]);
  }

  // ---------------------------------------------------------------- who may write

  /** Drive `d` holds the current token of operation `id`. */
  predicate Holds(db: Db, d: Drive, id: OpId) {
    d.id == id && id in db.ops && d.op.token == db.ops[id].token && !d.pc.Done?
  }

  lemma WriteTouches(c: Config, db: Db, n: Node, d: Drive, p: CasPlan, now: int, id: OpId)
    requires Planned(c, n, db.events, d, p, now) && Owns(db, d) && id in db.ops && !Holds(db, d, id)
    ensures var db' := WriteStep(c, db, n, d, p, now).db;
      id in db'.ops && db'.ops[id] == db.ops[id] && Log(db'.events, id) == Log(db.events, id)
  {
    if d.op.token == db.ops[d.id].token {
      HolderWrites(c, n, db, d, p, now);
      LogSnoc(db.events, NewEvent(db.events, d, p, now), id);
    } else {
      OthersMiss(c, n, db, d, p, now);
    }
  }

  lemma CleanupTouches(c: Config, db: Db, n: Node, d: Drive, now: int, id: OpId)
    requires |n.times| > 0 && !Running(d.pc) && d.base.token == d.op.token && id in db.ops && !Holds(db, d, id)
    ensures var db' := DriveStep(c, db, n, d, now).db;
      id in db'.ops && db'.ops[id] == db.ops[id] && Log(db'.events, id) == Log(db.events, id)
  {
    if d.pc.Raised? && CasHits(db, d.id, d.base.token, d.base.state) {
      BreadcrumbShape(db, d, now);
      LogSnoc(db.events, BreadcrumbStep(db, d, now).events[|db.events|], id);
    }
  }

  lemma DriveTouches(c: Config, db: Db, n: Node, d: Drive, now: int, id: OpId)
    requires NodeInv(n) && DriveOk(c, n, db.events, d) && Owns(db, d) && id in db.ops && !Holds(db, d, id)
    ensures var db' := DriveStep(c, db, n, d, now).db;
      id in db'.ops && db'.ops[id] == db.ops[id] && Log(db'.events, id) == Log(db.events, id)
  {
    if !Running(d.pc) {
      CleanupTouches(c, db, n, d, now, id);
    } else if Plan(c, d, now).Some? {
      WriteTouches(c, db, n, d, Plan(c, d, now).value, now, id);
    }
  }

  /**
  Single writer. In any step from any reachable state, a row and its log change in one of
  two ways only: a claim raises the token by one and leases the row, or the one drive that
  holds the current token acts.
  */
  lemma SingleWriter(c: Config, s: Sys, a: Action, id: OpId)
    requires Inv(c, s) && id in s.db.ops
    requires !(a.Act? && a.i < |s.drives| && Holds(s.db, s.drives[a.i], id))
    ensures var s' := Step(c, s, a);
      && id in s'.db.ops
      && Log(s'.db.events, id) == Log(s.db.events, id)
      && (s'.db.ops[id] == s.db.ops[id] ||
          (a.ClaimBatch? && s'.db.ops[id] == Leased(s.db.ops[id], a.worker, c.leaseMs, a.now)))
  {
    match a
    case Submit(x, to, asset, amount, now) =>
      if x !in s.db.ops {
        LogSnoc(s.db.events, Insert(s.db, x, NewRow(to, asset, amount, now)).events[|s.db.events|], id);
      }
    case ClaimBatch(worker, limit, now) =>
      ClaimedOrNot(s.db.ops, s.db.arrival, CLAIMABLE, limit, worker, c.leaseMs, now, id);
    case Act(i, now) =>
      if i < |s.drives| {
        DriveTouches(c, s.db, s.node, s.drives[i], now, id);
      }
    case _ =>
  }

  // ---------------------------------------------------------------- fenced for ever

  /** The same for every state of every run: row and log change only in the hands of the current holder. */
  lemma OnlyTheHolderWrites(c: Config, s: Sys, a: Action, id: OpId)
    requires Reachable(c, s) && id in s.db.ops
    requires !(a.Act? && a.i < |s.drives| && Holds(s.db, s.drives[a.i], id))
    ensures var s' := Step(c, s, a);
      && id in s'.db.ops
      && Log(s'.db.events, id) == Log(s.db.events, id)
      && (s'.db.ops[id] == s.db.ops[id] ||
          (a.ClaimBatch? && s'.db.ops[id] == Leased(s.db.ops[id], a.worker, c.leaseMs, a.now)))
  {
    ReachableInv(c, s);
    SingleWriter(c, s, a, id);
  }

  lemma FencedWritesNothing(c: Config, s: Sys, i: nat, now: int)
    requires Inv(c, s) && i < |s.drives| && s.drives[i].op.token < s.db.ops[s.drives[i].id].token
    ensures Step(c, s, Act(i, now)).db == s.db
  {
    var d := s.drives[i];
    assert DriveOk(c, s.node, s.db.events, d) && Owns(s.db, d);
    if Running(d.pc) && Plan(c, d, now).Some? {
      OthersMiss(c, s.node, s.db, d, Plan(c, d, now).value, now);
    }
  }

  /** Once a larger token has been issued, the old holder changes nothing in the store, at any later time. */
  lemma FencedForEver(c: Config, s: Sys, more: seq<Action>, i: nat, now: int)
    requires Reachable(c, s) && i < |s.drives| && s.drives[i].id in s.db.ops
    requires s.drives[i].op.token < s.db.ops[s.drives[i].id].token
    ensures Step(c, Exec(c, s, more), Act(i, now)).db == Exec(c, s, more).db
  {
    ReachableInv(c, s);
    RunOnward(c, s, more);
    assert RowLater(s.db.ops[s.drives[i].id], Exec(c, s, more).db.ops[s.drives[i].id]);
    FencedWritesNothing(c, Exec(c, s, more), i, now);
  }

  // ---------------------------------------------------------------- how a drive ends

  /** What each way of ending says about the store, for ever after. */
  predicate OutcomeOk(db: Db, d: Drive) {
    d.pc.Done? ==>
      && d.id in db.ops
      && match d.pc.outcome
         case Finished =>
           d.op.token == db.ops[d.id].token && d.op.state == db.ops[d.id].state && Terminal(d.op.state)
         case Fenced => d.op.token < db.ops[d.id].token
         case Released =>
           d.op.token < db.ops[d.id].token || (db.ops[d.id].lease == None && db.ops[d.id].claimedBy == None)
         case Crashed => true
  }

  ghost predicate OutcomesOk(s: Sys) {
    forall i :: 0 <= i < |s.drives| ==> OutcomeOk(s.db, s.drives[i])
  }

  lemma WriteOutcome(c: Config, db: Db, n: Node, d: Drive, p: CasPlan, now: int)
    requires Planned(c, n, db.events, d, p, now) && Owns(db, d)
    ensures var r := WriteStep(c, db, n, d, p, now); OutcomeOk(r.db, r.drive)
  {
    if d.op.token == db.ops[d.id].token {
      HolderWrites(c, n, db, d, p, now);
    } else {
      OthersMiss(c, n, db, d, p, now);
    }
  }

  lemma ReadOutcome(c: Config, n: Node, es: seq<Event>, d: Drive, now: int)
    requires |n.times| > 0 && DriveOk(c, n, es, d) && Running(d.pc)
    ensures !ReadStep(c, n, d, now).1.pc.Done?
  {
  }

  lemma DriveOutcome(c: Config, db: Db, n: Node, d: Drive, now: int)
    requires NodeInv(n) && DriveOk(c, n, db.events, d) && Owns(db, d) && OutcomeOk(db, d)
    ensures var r := DriveStep(c, db, n, d, now); OutcomeOk(r.db, r.drive)
  {
    if Running(d.pc) {
      if Plan(c, d, now).Some? {
        WriteOutcome(c, db, n, d, Plan(c, d, now).value, now);
      } else {
        ReadOutcome(c, n, db.events, d, now);
      }
    }
  }

  /** An outcome already reached stays true: the row is frozen, taken over, or untouched since. */
  lemma OldOutcome(c: Config, s: Sys, a: Action, i: nat)
    requires Inv(c, s) && i < |s.drives| && s.drives[i].pc.Done? && OutcomeOk(s.db, s.drives[i])
    ensures OutcomeOk(Step(c, s, a).db, s.drives[i])
  {
    var d := s.drives[i];
    StepOnward(c, s, a);
    assert RowLater(s.db.ops[d.id], Step(c, s, a).db.ops[d.id]);
    if d.op.token == s.db.ops[d.id].token {
      NotTheHolder(c, s, a, i);
      SingleWriter(c, s, a, d.id);
    }
  }

  lemma NotTheHolder(c: Config, s: Sys, a: Action, i: nat)
    requires DistinctTokens(s.drives) && i < |s.drives| && s.drives[i].pc.Done? && s.drives[i].id in s.db.ops
    requires s.drives[i].op.token == s.db.ops[s.drives[i].id].token
    ensures !(a.Act? && a.i < |s.drives| && Holds(s.db, s.drives[a.i], s.drives[i].id))
  {
    if a.Act? && a.i < |s.drives| && a.i != i {
      var lo, hi := if a.i < i then a.i else i, if a.i < i then i else a.i;
      assert s.drives[lo].id == s.drives[hi].id ==> s.drives[lo].op.token != s.drives[hi].op.token;
    }
  }

  lemma OutcomeStep(c: Config, s: Sys, a: Action)
    requires Inv(c, s) && OutcomesOk(s)
    ensures OutcomesOk(Step(c, s, a))
  {
    var s' := Step(c, s, a);
    forall i | 0 <= i < |s'.drives| ensures OutcomeOk(s'.db, s'.drives[i]) {
      DriveAfter(c, s, a, i);
      if i < |s.drives| {
        assert DriveOk(c, s.node, s.db.events, s.drives[i]) && Owns(s.db, s.drives[i]);
        if s.drives[i].pc.Done? {
          OldOutcome(c, s, a, i);
        }
        if a.Act? && a.i == i {
          DriveOutcome(c, s.db, s.node, s.drives[i], a.now);
        }
      }
    }
  }

  lemma {:induction false} OutcomeRun(c: Config, s: Sys, actions: seq<Action>)
    requires Inv(c, s) && OutcomesOk(s)
    ensures OutcomesOk(Exec(c, s, actions))
    decreases |actions|
  {
    if actions != [] {
      OutcomeStep(c, s, actions[0]);
      StepKeeps(c, s, actions[0]);
      OutcomeRun(c, Step(c, s, actions[0]), actions[1..]);
    }
  }

  /**
  A drive makes at most eight turns of the loop. Unless it crashed it ends with the
  operation terminal, or fenced out by a strictly larger token, or with its own lease dropped.
  */
  lemma DriveEnds(c: Config, s: Sys, i: nat)
    requires Reachable(c, s) && i < |s.drives|
    ensures s.drives[i].steps <= 8 && OutcomeOk(s.db, s.drives[i])
  {
    ReachableInv(c, s);
    assert DriveOk(c, s.node, s.db.events, s.drives[i]);
    var w: Setup, actions: seq<Action> :| s == Exec(c, Init(w), actions);
    InitInv(c, w);
    OutcomeRun(c, Init(w), actions);
  }
}
