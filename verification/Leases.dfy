/** A lease is exclusive: until it runs out, or its holder writes or lets go, nobody else is handed the operation. */
module Leases {

  import opened Common
  import opened States
  import opened Store
  import opened StoreProperties
  import opened StoreLaws
  import opened Protocol
  import opened Invariant
  import opened InvariantSteps
  import opened History
  import opened Fencing

  /** Drive `i` is the one that holds the current token of operation `id`. */
  predicate HeldBy(s: Sys, i: nat, id: OpId) {
    && i < |s.drives| && s.drives[i].id == id && id in s.db.ops
    && s.drives[i].op.token == s.db.ops[id].token
  }

  /** No claim reads a time at which the lease has run out, and no action of drive `i` changes the store. */
  predicate Keeps(c: Config, s: Sys, a: Action, i: nat, until: int) {
    && (a.ClaimBatch? ==> a.now < until)
    && (a.Act? && a.i == i ==> Step(c, s, a).db == s.db)
  }

  predicate KeepsAll(c: Config, s: Sys, more: seq<Action>, i: nat, until: int)
    decreases |more|
  {
    more == [] || (Keeps(c, s, more[0], i, until) && KeepsAll(c, Step(c, s, more[0]), more[1..], i, until))
  }

  lemma OthersDoNotHold(s: Sys, a: Action, i: nat, id: OpId)
    requires DistinctTokens(s.drives) && HeldBy(s, i, id) && !(a.Act? && a.i == i)
    ensures !(a.Act? && a.i < |s.drives| && Holds(s.db, s.drives[a.i], id))
  {
    if a.Act? && a.i < |s.drives| {
      var lo, hi := if a.i < i then a.i else i, if a.i < i then i else a.i;
      assert s.drives[lo].id == s.drives[hi].id ==> s.drives[lo].op.token != s.drives[hi].op.token;
    }
  }

  /** A claim before the lease has run out neither touches the row nor starts a drive on it. */
  lemma ClaimPassesBy(c: Config, s: Sys, worker: WorkerId, limit: int, now: int, id: OpId)
    requires DbInv(s.db) && |s.node.times| > 0 && id in s.db.ops
    requires s.db.ops[id].lease.Some? && now < s.db.ops[id].lease.value
    ensures var s' := Step(c, s, ClaimBatch(worker, limit, now));
      && id in s'.db.ops && s'.db.ops[id] == s.db.ops[id] && s.drives <= s'.drives
      && forall j :: |s.drives| <= j < |s'.drives| ==> s'.drives[j].id != id
  {
    ClaimExactly(s.db, CLAIMABLE, limit, worker, c.leaseMs, now);
    var out := Claim(s.db, CLAIMABLE, limit, worker, c.leaseMs, now).1;
    forall k | 0 <= k < |out| ensures out[k].id != id {
    }
  }

  lemma OneAction(c: Config, s: Sys, a: Action, i: nat, id: OpId, until: int)
    requires Inv(c, s) && HeldBy(s, i, id) && s.db.ops[id].lease == Some(until) && Keeps(c, s, a, i, until)
    ensures var s' := Step(c, s, a);
      && HeldBy(s', i, id) && s'.db.ops[id] == s.db.ops[id] && |s.drives| <= |s'.drives|
      && forall j :: |s.drives| <= j < |s'.drives| ==> s'.drives[j].id != id
  {
    DriveStays(c, s, a, i);
    if a.ClaimBatch? {
      ClaimPassesBy(c, s, a.worker, a.limit, a.now, id);
    } else if !(a.Act? && a.i == i) {
      OthersDoNotHold(s, a, i, id);
      SingleWriter(c, s, a, id);
      OnlyClaimsStartDrives(c, s, a);
    } else {
      OnlyClaimsStartDrives(c, s, a);
    }
  }

  lemma OnlyClaimsStartDrives(c: Config, s: Sys, a: Action)
    requires |s.node.times| > 0 && !a.ClaimBatch?
    ensures |Step(c, s, a).drives| == |s.drives|
  {
  }

  lemma DriveStays(c: Config, s: Sys, a: Action, i: nat)
    requires Inv(c, s) && i < |s.drives|
    ensures var s' := Step(c, s, a);
      && |s.drives| <= |s'.drives|
      && s'.drives[i].id == s.drives[i].id && s'.drives[i].op.token == s.drives[i].op.token
  {
    StepOnward(c, s, a);
  }

  /**
  From any reachable state in which a drive holds an operation under a lease: through every
  run in which each claim reads a time before the lease runs out and the holder neither
  writes nor releases, the row stays as it is and no other drive is started on it.
  */
  lemma {:induction false} LeaseHolds(c: Config, s: Sys, more: seq<Action>, i: nat, id: OpId, until: int)
    requires Reachable(c, s) && HeldBy(s, i, id) && s.db.ops[id].lease == Some(until) && KeepsAll(c, s, more, i, until)
    ensures var s' := Exec(c, s, more);
      && HeldBy(s', i, id) && s'.db.ops[id] == s.db.ops[id] && |s.drives| <= |s'.drives|
      && forall j :: |s.drives| <= j < |s'.drives| ==> s'.drives[j].id != id
  {
    ReachableInv(c, s);
    HoldsOn(c, s, more, i, id, until);
  }

  lemma {:induction false} HoldsOn(c: Config, s: Sys, more: seq<Action>, i: nat, id: OpId, until: int)
    requires Inv(c, s) && HeldBy(s, i, id) && s.db.ops[id].lease == Some(until) && KeepsAll(c, s, more, i, until)
    ensures var s' := Exec(c, s, more);
      && HeldBy(s', i, id) && s'.db.ops[id] == s.db.ops[id] && |s.drives| <= |s'.drives|
      && forall j :: |s.drives| <= j < |s'.drives| ==> s'.drives[j].id != id
    decreases |more|
  {
    if more != [] {
      var t := Step(c, s, more[0]);
      OneAction(c, s, more[0], i, id, until);
      StepKeeps(c, s, more[0]);
      HoldsOn(c, t, more[1..], i, id, until);
      SameDrives(c, t, more[1..], id);
      forall j | |s.drives| <= j < |Exec(c, s, more).drives| ensures Exec(c, s, more).drives[j].id != id {
        assert j < |t.drives| ==> Exec(c, t, more[1..]).drives[j].id == t.drives[j].id;
      }
    }
  }

  lemma SameDrives(c: Config, s: Sys, more: seq<Action>, id: OpId)
    requires Inv(c, s)
    ensures var s' := Exec(c, s, more);
      |s.drives| <= |s'.drives| && forall j :: 0 <= j < |s.drives| ==> s'.drives[j].id == s.drives[j].id
  {
    RunOnward(c, s, more);
  }

  lemma StartedUnderLease(c: Config, s: Sys, worker: WorkerId, limit: int, now: int, i: nat)
    requires DbInv(s.db) && |s.node.times| > 0
    requires |s.drives| <= i < |Step(c, s, ClaimBatch(worker, limit, now)).drives|
    ensures var s' := Step(c, s, ClaimBatch(worker, limit, now));
      var id := s'.drives[i].id;
      && HeldBy(s', i, id) && s'.db.ops[id].lease == Some(now + c.leaseMs) && s'.db.ops[id].claimedBy == Some(worker)
      && id in s.db.ops && s'.db.ops[id].token == s.db.ops[id].token + 1
      && (s.db.ops[id].lease == None || s.db.ops[id].lease.value <= now)
  {
    ClaimExactly(s.db, CLAIMABLE, limit, worker, c.leaseMs, now);
    var (db, out) := Claim(s.db, CLAIMABLE, limit, worker, c.leaseMs, now);
    var k := i - |s.drives|;
    assert out[k].id in s.db.ops;
  }

  /** A claim at `now` starts a lease of exactly `leaseMs` for each drive it starts, and each of them holds its row. */
  lemma ClaimGivesLease(c: Config, s: Sys, worker: WorkerId, limit: int, now: int, i: nat)
    requires Reachable(c, s) && |s.drives| <= i < |Step(c, s, ClaimBatch(worker, limit, now)).drives|
    ensures var s' := Step(c, s, ClaimBatch(worker, limit, now));
      var id := s'.drives[i].id;
      && HeldBy(s', i, id) && s'.db.ops[id].lease == Some(now + c.leaseMs) && s'.db.ops[id].claimedBy == Some(worker)
      && id in s.db.ops && s'.db.ops[id].token == s.db.ops[id].token + 1
      && (s.db.ops[id].lease == None || s.db.ops[id].lease.value <= now)
  {
    ReachableDb(c, s);
    StartedUnderLease(c, s, worker, limit, now, i);
  }

  lemma ReachableDb(c: Config, s: Sys)
    requires Reachable(c, s)
    ensures DbInv(s.db) && |s.node.times| > 0
  {
    ReachableInv(c, s);
  }
}
