/**
The worker loop over the shared objects: claim a batch, drive each operation until it
finishes, parks, is fenced out or raises, and drop the lease where the loop does.
*/
module Worker {

  import opened Common
  import opened States
  import opened Store
  import opened StoreProperties
  import opened Protocol
  import opened Invariant
  import opened InvariantSteps
  import opened StoreLaws
  import opened Fencing
  import opened Pipeline

  function CountAdvanced(ds: seq<Drive>): nat {
    if ds == [] then 0 else CountAdvanced(ds[..|ds| - 1]) + if ds[|ds| - 1].advanced then 1 else 0
  }

  /** A drive of a worker that did not crash has come to its end. */
  predicate Over(d: Drive) {
    d.pc.Done? && d.pc.outcome != Crashed
  }

  /** The four ways out of the loop. */
  datatype Exit = Completed | FencedOut | Threw | Parked

  function PcAt(exit: Exit): Pc {
    match exit
    case Completed => Done(Finished)
    case FencedOut => Done(Fenced)
    case Threw => Raised
    case Parked => Releasing
  }

  function Range(lo: nat, hi: nat): (r: set<nat>)
    ensures forall j :: j in r <==> lo <= j < hi
  {
    if hi <= lo then {} else Range(lo, hi - 1) + {hi - 1}
  }

  /** The drives of one pass: those before `k` are over, the others wait at the top. */
  ghost predicate PassAt(ds: seq<Drive>, claims: seq<Claimed>, worker: WorkerId, lo: nat, k: nat) {
    && lo + |claims| <= |ds|
    && k <= |claims|
    && (forall j :: 0 <= j < k ==> Driven(ds[lo + j], claims[j]))
    && (forall j :: k <= j < |claims| ==> Starting(ds[lo + j], claims[j], worker))
  }

  predicate Driven(d: Drive, claim: Claimed) {
    Over(d) && d.id == claim.id
  }

  predicate Starting(d: Drive, claim: Claimed, worker: WorkerId) {
    d == Drive(worker, claim.id, claim.row, claim.row, Ready, 0, false) && !Terminal(claim.row.state)
  }

  /** One more drive is over, the others are as they were. */
  lemma PassStep(before: seq<Drive>, after: seq<Drive>, claims: seq<Claimed>, worker: WorkerId, lo: nat, k: nat)
    requires PassAt(before, claims, worker, lo, k) && k < |claims| && lo + k < |after|
    requires Driven(after[lo + k], claims[k])
    requires Kept(Range(lo, lo + |claims|) - {lo + k}, before, after)
    ensures PassAt(after, claims, worker, lo, k + 1)
    ensures CountAdvanced(after[lo..lo + k + 1]) ==
            CountAdvanced(before[lo..lo + k]) + if after[lo + k].advanced then 1 else 0
  {
    var others := Range(lo, lo + |claims|) - {lo + k};
    assert k == |claims| - 1 || lo + |claims| - 1 in others;
    forall j | lo <= j < lo + |claims| && j != lo + k ensures after[j] == before[j] {
      assert j in others;
    }
    forall j | k + 1 <= j < |claims| ensures Starting(after[lo + j], claims[j], worker) {
      assert lo + j in others;
    }
    forall j | 0 <= j < k ensures Driven(after[lo + j], claims[j]) {
      assert lo + j in others && Driven(before[lo + j], claims[j]);
    }
    assert after[lo..lo + k + 1][..k] == before[lo..lo + k];
  }

  class Worker {
    const pipeline: Pipeline
    const workerId: WorkerId

    constructor (pipeline: Pipeline, workerId: WorkerId)
      ensures this.pipeline == pipeline && this.workerId == workerId
    {
      this.pipeline, this.workerId := pipeline, workerId;
    }

    /** Park: drop the lease if the token is still ours. */
    method Release(ghost mine: set<nat>, ghost i: nat, id: OpId, op: Row)
      requires pipeline.Valid() && pipeline.Mine(mine, i)
      requires pipeline.drives[i].pc.Releasing? && pipeline.drives[i].id == id && pipeline.drives[i].base == op
      modifies pipeline, pipeline.store, pipeline.node
      ensures pipeline.Valid() && Undisturbed(mine, old(pipeline.trace), pipeline.trace) && pipeline.Mine(mine, i)
      ensures Kept(mine - {i}, old(pipeline.drives), pipeline.drives)
      ensures pipeline.drives[i] == old(pipeline.drives[i]).(pc := Done(Released))
    {
      var now := pipeline.Yield(mine);
      ghost var before := pipeline.World();
      pipeline.store.Release(id, op.token, now);
      pipeline.Record(i, now, before);
    }

    /** After an exception: leave a note if the token is still ours, whatever comes of it. */
    method LeaveBreadcrumb(ghost mine: set<nat>, ghost i: nat, id: OpId, op: Row)
      requires pipeline.Valid() && pipeline.Mine(mine, i)
      requires pipeline.drives[i].pc.Raised? && pipeline.drives[i].id == id && pipeline.drives[i].base == op
      requires pipeline.drives[i].worker == workerId
      modifies pipeline, pipeline.store, pipeline.node
      ensures pipeline.Valid() && Undisturbed(mine, old(pipeline.trace), pipeline.trace) && pipeline.Mine(mine, i)
      ensures Kept(mine - {i}, old(pipeline.drives), pipeline.drives)
      ensures pipeline.drives[i] == old(pipeline.drives[i]).(pc := Releasing)
    {
      var now := pipeline.Yield(mine);
      ghost var before := pipeline.World();
      var _ := pipeline.store.Cas(id, op.token, op.state, op.state, Patch(lastError := Set(Some(HandlerException))),
                                  NoDetail, None, workerId, now);
      pipeline.Record(i, now, before);
    }

    /** The body of the loop's try block: macro-steps until one of the four ways out. */
    method TakeSteps(ghost mine: set<nat>, ghost i: nat, id: OpId, first: Row)
      returns (exit: Exit, op: Row, advanced: nat)
      requires pipeline.Holding(mine, i, id, first, workerId) && !Terminal(first.state)
      requires pipeline.drives[i] == Drive(workerId, id, first, first, Ready, 0, false)
      modifies pipeline, pipeline.store, pipeline.node
      ensures pipeline.Valid() && Undisturbed(mine, old(pipeline.trace), pipeline.trace) && pipeline.Mine(mine, i)
      ensures Kept(mine - {i}, old(pipeline.drives), pipeline.drives)
      ensures pipeline.drives[i].pc == PcAt(exit) && pipeline.drives[i].base == op
      ensures pipeline.drives[i].id == id && pipeline.drives[i].worker == workerId
      ensures advanced == if pipeline.drives[i].advanced then 1 else 0
    {
      op := first;
      advanced := 0;
      for k := 0 to MAX_STEPS_PER_CLAIM
        invariant pipeline.Valid() && Undisturbed(mine, old(pipeline.trace), pipeline.trace) && pipeline.Mine(mine, i)
        invariant Kept(mine - {i}, old(pipeline.drives), pipeline.drives)
        invariant advanced <= 1 && !Terminal(op.state)
        invariant pipeline.drives[i] ==
                  Drive(workerId, id, op, op, if k < MAX_STEPS_PER_CLAIM then Ready else Releasing, k, advanced == 1)
      {
        var before := op.state;
        var r := pipeline.Advance(mine, i, id, op, workerId);
        if r.LostClaim? {
          return FencedOut, op, advanced;
        }
        if r.HandlerError? {
          return Threw, op, advanced;
        }
        op := r.row;
        if op.state != before {
          advanced := 1;
        }
        if Terminal(op.state) {
          return Completed, op, 1;
        }
        if op.state == before {
          return Parked, op, advanced;
        }
      }
      exit := Parked;
    }

    /** One claimed operation, driven until it is terminal, fenced out, or released. */
    method DriveOperation(ghost mine: set<nat>, ghost i: nat, id: OpId, first: Row) returns (advanced: nat)
      requires pipeline.Holding(mine, i, id, first, workerId) && !Terminal(first.state)
      requires pipeline.drives[i] == Drive(workerId, id, first, first, Ready, 0, false)
      modifies pipeline, pipeline.store, pipeline.node
      ensures pipeline.Valid() && Undisturbed(mine, old(pipeline.trace), pipeline.trace) && pipeline.Mine(mine, i)
      ensures Kept(mine - {i}, old(pipeline.drives), pipeline.drives)
      ensures Over(pipeline.drives[i]) && pipeline.drives[i].id == id
      ensures advanced == if pipeline.drives[i].advanced then 1 else 0
    {
      var exit, op;
      exit, op, advanced := TakeSteps(mine, i, id, first);
      if exit.Completed? || exit.FencedOut? {
        return;
      }
      if exit.Threw? {
        LeaveBreadcrumb(mine, i, id, op);
      }
      Release(mine, i, id, op);
    }

    /** The claim, as an action of the step system: the batch size of the settings, and what it takes. */
    method ClaimOperations() returns (claims: seq<Claimed>, ghost lo: nat, ghost at: nat, ghost now: int)
      requires pipeline.Valid()
      modifies pipeline, pipeline.store, pipeline.node
      ensures pipeline.Valid() && |old(pipeline.trace)| <= at && |pipeline.trace| == at + 1
      ensures old(pipeline.trace) <= pipeline.trace && PassAt(pipeline.drives, claims, workerId, lo, 0)
      ensures ClaimedAtStep(pipeline.c, pipeline.setup, pipeline.trace, at, workerId, now, lo, IdsOf(claims))
    {
      var t := pipeline.Yield({});
      now, at := t, |pipeline.trace|;
      ghost var before := pipeline.World();
      ArrivalsDistinct(pipeline.c, pipeline.setup, pipeline.trace);
      claims := pipeline.store.Claim(CLAIMABLE, pipeline.c.batch, workerId, pipeline.c.leaseMs, t);
      lo := |pipeline.drives|;
      ClaimsAreLive(before.db, CLAIMABLE, pipeline.c.batch, workerId, pipeline.c.leaseMs, t);
      ClaimRecorded(pipeline.c, pipeline.setup, pipeline.trace, workerId, t);
      ExecSnoc(pipeline.c, Init(pipeline.setup), pipeline.trace, ClaimBatch(workerId, pipeline.c.batch, t));
      pipeline.drives := pipeline.drives + Started(workerId, claims);
      pipeline.clock := t;
      pipeline.trace := pipeline.trace + [ClaimBatch(workerId, pipeline.c.batch, t)];
    }

    method DriveNext(claims: seq<Claimed>, ghost lo: nat, k: nat) returns (advanced: nat)
      requires pipeline.Valid() && k < |claims| && PassAt(pipeline.drives, claims, workerId, lo, k)
      modifies pipeline, pipeline.store, pipeline.node
      ensures pipeline.Valid() && Undisturbed(Range(lo, lo + |claims|), old(pipeline.trace), pipeline.trace)
      ensures PassAt(pipeline.drives, claims, workerId, lo, k + 1)
      ensures CountAdvanced(pipeline.drives[lo..lo + k + 1]) == old(CountAdvanced(pipeline.drives[lo..lo + k])) + advanced
    {
      ghost var before := pipeline.drives;
      assert Starting(before[lo + k], claims[k], workerId);
      advanced := DriveOperation(Range(lo, lo + |claims|), lo + k, claims[k].id, claims[k].row);
      PassStep(before, pipeline.drives, claims, workerId, lo, k);
    }

    method DriveAll(claims: seq<Claimed>, ghost lo: nat) returns (touched: nat)
      requires pipeline.Valid() && PassAt(pipeline.drives, claims, workerId, lo, 0)
      modifies pipeline, pipeline.store, pipeline.node
      ensures pipeline.Valid() && Undisturbed(Range(lo, lo + |claims|), old(pipeline.trace), pipeline.trace)
      ensures PassAt(pipeline.drives, claims, workerId, lo, |claims|)
      ensures touched == CountAdvanced(pipeline.drives[lo..lo + |claims|])
    {
      touched := 0;
      for k := 0 to |claims|
        invariant pipeline.Valid() && Undisturbed(Range(lo, lo + |claims|), old(pipeline.trace), pipeline.trace)
        invariant PassAt(pipeline.drives, claims, workerId, lo, k)
        invariant touched == CountAdvanced(pipeline.drives[lo..lo + k])
      {
        var n := DriveNext(claims, lo, k);
        touched := touched + n;
      }
    }

    /**
    One pass. At one point `at` of the trace the worker claims: the operations of the drives
    from `lo` to `hi` are the first `batch` that are live and unleased there, in order of
    arrival. Every one of them is then driven to an end that is true in the store, and the
    count is the number of them that changed state.
    */
    method RunOnce() returns (touched: nat, ghost lo: nat, ghost hi: nat, ghost at: nat, ghost now: int)
      requires pipeline.Valid()
      modifies pipeline, pipeline.store, pipeline.node
      ensures pipeline.Valid() && old(pipeline.trace) <= pipeline.trace && |old(pipeline.trace)| <= at < |pipeline.trace|
      ensures lo <= hi <= |pipeline.drives| && touched == CountAdvanced(pipeline.drives[lo..hi])
      ensures ClaimedAtStep(pipeline.c, pipeline.setup, pipeline.trace, at, workerId, now, lo,
                            DriveIds(pipeline.drives[lo..hi]))
      ensures Undisturbed(Range(lo, hi), pipeline.trace[..at + 1], pipeline.trace)
      ensures forall j :: lo <= j < hi ==>
                Over(pipeline.drives[j]) && OutcomeOk(pipeline.store.View(), pipeline.drives[j])
    {
      var claims;
      claims, lo, at, now := ClaimOperations();
      hi := lo + |claims|;
      ghost var start := pipeline.trace;
      touched := DriveAll(claims, lo);
      EndsAreTrue(pipeline.c, pipeline.setup, pipeline.trace);
      ClaimStays(pipeline.c, pipeline.setup, start, pipeline.trace, at, workerId, now, lo, IdsOf(claims));
      PassIds(pipeline.drives, claims, workerId, lo);
    }
  }

  /** The operations of these drives. */
  function DriveIds(ds: seq<Drive>): (ids: seq<OpId>)
    ensures |ids| == |ds| && forall k :: 0 <= k < |ds| ==> ids[k] == ds[k].id
  {
    seq(|ds|, k requires 0 <= k < |ds| => ds[k].id)
  }

  lemma PassIds(ds: seq<Drive>, claims: seq<Claimed>, worker: WorkerId, lo: nat)
    requires PassAt(ds, claims, worker, lo, |claims|)
    ensures DriveIds(ds[lo..lo + |claims|]) == IdsOf(claims)
    ensures forall j :: lo <= j < lo + |claims| ==> Over(ds[j])
  {
    forall j | lo <= j < lo + |claims| ensures Over(ds[j]) && ds[j].id == claims[j - lo].id {
      var k := j - lo;
      assert Driven(ds[lo + k], claims[k]);
    }
  }

  /** Neither final nor leased beyond `now`. */
  predicate LiveAndUnleased(row: Row, now: int) {
    && row.state != Confirmed && row.state != Failed && row.state != Rejected
    && match row.lease case None => true case Some(t) => t <= now
  }

  function LiveUnleased(ops: map<OpId, Row>, ids: seq<OpId>, now: int): seq<OpId> {
    if ids == [] then []
    else (if ids[0] in ops && LiveAndUnleased(ops[ids[0]], now) then [ids[0]] else []) + LiveUnleased(ops, ids[1..], now)
  }

  lemma {:induction false} FreeAndLive(ops: map<OpId, Row>, ids: seq<OpId>, now: int)
    ensures FreeIds(ops, ids, CLAIMABLE, now) == LiveUnleased(ops, ids, now)
    decreases |ids|
  {
    if ids != [] {
      FreeAndLive(ops, ids[1..], now);
      if ids[0] in ops {
        TableExactly(ops[ids[0]].state, Requested);
      }
    }
  }

  /** The action `at` is this worker's claim at `now`, and `ids` is what it finds, for drives numbered from `lo`. */
  ghost predicate ClaimedAtStep(c: Config, w: Setup, trace: seq<Action>, at: nat, worker: WorkerId, now: int, lo: nat,
                                ids: seq<OpId>)
  {
    && at < |trace| && trace[at] == ClaimBatch(worker, c.batch, now)
    && var s := Exec(c, Init(w), trace[..at]);
    && lo == |s.drives|
    && ids == FirstOf(LiveUnleased(s.db.ops, s.db.arrival, now), c.batch)
  }

  lemma ClaimRecorded(c: Config, w: Setup, trace: seq<Action>, worker: WorkerId, now: int)
    ensures var s := Exec(c, Init(w), trace);
      var claims := Claim(s.db, CLAIMABLE, c.batch, worker, c.leaseMs, now).1;
      ClaimedAtStep(c, w, trace + [ClaimBatch(worker, c.batch, now)], |trace|, worker, now, |s.drives|, IdsOf(claims))
  {
    ArrivalsDistinct(c, w, trace);
    var s := Exec(c, Init(w), trace);
    ClaimExactly(s.db, CLAIMABLE, c.batch, worker, c.leaseMs, now);
    FreeAndLive(s.db.ops, s.db.arrival, now);
    assert (trace + [ClaimBatch(worker, c.batch, now)])[..|trace|] == trace;
  }

  lemma ClaimStays(c: Config, w: Setup, start: seq<Action>, trace: seq<Action>, at: nat, worker: WorkerId, now: int,
                   lo: nat, ids: seq<OpId>)
    requires ClaimedAtStep(c, w, start, at, worker, now, lo, ids) && start <= trace && |start| == at + 1
    ensures ClaimedAtStep(c, w, trace, at, worker, now, lo, ids) && trace[..at + 1] == start
  {
    assert start[..at] == trace[..at];
  }

  lemma EndsAreTrue(c: Config, w: Setup, actions: seq<Action>)
    ensures OutcomesOk(Exec(c, Init(w), actions))
  {
    InitInv(c, w);
    OutcomeRun(c, Init(w), actions);
  }

  lemma ArrivalsDistinct(c: Config, w: Setup, actions: seq<Action>)
    ensures DistinctIds(Exec(c, Init(w), actions).db.arrival)
  {
    InitInv(c, w);
    RunKeeps(c, Init(w), actions);
  }

  lemma ClaimsAreLive(db: Db, wanted: set<OpState>, limit: int, worker: WorkerId, leaseMs: int, now: int)
    requires DistinctIds(db.arrival) && forall st :: st in wanted ==> !Terminal(st)
    ensures forall k :: 0 <= k < |Claim(db, wanted, limit, worker, leaseMs, now).1| ==>
              !Terminal(Claim(db, wanted, limit, worker, leaseMs, now).1[k].row.state)
  {
    ClaimExact(db.ops, db.arrival, wanted, limit, worker, leaseMs, now);
  }
}
