/**
A rebuilt envelope is a new transaction. What makes it new is the clock when the old
envelope expired unsent, and the reference block when chain time proved it dead: the
timestamp alone decides nothing, because chain time may run ahead of the clock.
*/
module Freshness {

  import opened Common
  import opened Chain
  import opened ChainProperties
  import opened Store
  import opened StoreProperties
  import opened Protocol
  import opened Invariant
  import opened InvariantWrites
  import opened InvariantSteps
  import opened History
  import opened ReadOrder
  import opened Fencing
  import opened Audit
  import opened Safety

  // ---------------------------------------------------------------- retired envelopes

  predicate Retires(e: Event) {
    e.detail.Retired? && e.detail.retired.Some?
  }

  function Expiry(e: Event): int
    requires Retires(e)
  {
    e.detail.retired.value.raw.expiration
  }

  /** The block the envelope refers to was already past the envelope's own deadline. */
  predicate BornLate(c: Config, n: Node, raw: RawData) {
    && GENESIS <= raw.refBlock <= Head(n)
    && n.times[raw.refBlock - GENESIS] >= raw.expiration + c.marginMs
  }

  /** Every retired envelope in the log is past its expiration by the clock, or past its deadline by `chain`. */
  predicate PastAll(c: Config, clock: int, chain: int, log: seq<Event>) {
    forall k :: 0 <= k < |log| && Retires(log[k]) ==> clock >= Expiry(log[k]) || chain >= Expiry(log[k]) + c.marginMs
  }

  /** `raw` repeats none of the retired envelopes, unless that one was born late. */
  predicate NewTo(c: Config, n: Node, raw: RawData, log: seq<Event>) {
    forall k :: 0 <= k < |log| && Retires(log[k]) && log[k].detail.retired.value.raw == raw ==> BornLate(c, n, raw)
  }

  /** No envelope in the log repeats one retired before it. */
  predicate LogFresh(c: Config, n: Node, log: seq<Event>) {
    forall k :: 0 <= k < |log| && log[k].detail.EnvelopeBuilt? ==> NewTo(c, n, log[k].detail.txid.raw, log[..k])
  }

  // ---------------------------------------------------------------- the invariant

  ghost predicate FreshOp(c: Config, n: Node, clock: int, log: seq<Event>)
    requires |n.times| > 0
  {
    PastAll(c, clock, SolidNow(n), log) && LogFresh(c, n, log)
  }

  /** What a drive knows of its own, fenced or not. */
  predicate FreshPc(c: Config, n: Node, clock: int, d: Drive)
    requires |n.times| > 0
  {
    && (d.pc.HaveSolid? ==> d.pc.solid <= SolidNow(n))
    && (d.pc.Retire? && d.op.txid.Some? ==>
          clock >= d.op.txid.value.raw.expiration || SolidNow(n) >= d.op.txid.value.raw.expiration + c.marginMs)
  }

  /** What the holder of the row knows about the envelope it is building. */
  predicate FreshBuild(c: Config, n: Node, clock: int, log: seq<Event>, pc: Pc) {
    && (pc.HaveRef? ==> GENESIS <= pc.ref <= Head(n) && PastAll(c, clock, n.times[pc.ref - GENESIS], log))
    && (pc.Envelope? ==> NewTo(c, n, pc.raw, log))
  }

  predicate Current(db: Db, d: Drive) {
    d.id in db.ops && d.op.token == db.ops[d.id].token
  }

  ghost predicate FreshInv(c: Config, s: Sys)
    requires |s.node.times| > 0
  {
    && (forall id :: id in s.db.ops ==> FreshOp(c, s.node, s.clock, Log(s.db.events, id)))
    && (forall i :: 0 <= i < |s.drives| ==>
          && FreshPc(c, s.node, s.clock, s.drives[i])
          && (Current(s.db, s.drives[i]) ==>
                FreshBuild(c, s.node, s.clock, Log(s.db.events, s.drives[i].id), s.drives[i].pc)))
  }

  // ---------------------------------------------------------------- time passes

  lemma SolidNowGrows(n: Node, m: Node)
    requires NodeInv(n) && NodeInv(m) && Forward(n, m)
    ensures SolidNow(n) <= SolidNow(m)
  {
    assert m.times[RefBlock(n) - GENESIS] == SolidNow(n);
    TimesMonotone(m, RefBlock(n) - GENESIS, RefBlock(m) - GENESIS);
  }

  lemma PastGrows(c: Config, clock: int, chain: int, clock': int, chain': int, log: seq<Event>)
    requires PastAll(c, clock, chain, log) && clock <= clock' && chain <= chain'
    ensures PastAll(c, clock', chain', log)
  {
  }

  lemma NewGrows(c: Config, n: Node, m: Node, raw: RawData, log: seq<Event>)
    requires NewTo(c, n, raw, log) && n.times <= m.times
    ensures NewTo(c, m, raw, log)
  {
  }

  lemma FreshOpGrows(c: Config, n: Node, m: Node, clock: int, clock': int, log: seq<Event>)
    requires NodeInv(n) && NodeInv(m) && Forward(n, m) && clock <= clock' && FreshOp(c, n, clock, log)
    ensures FreshOp(c, m, clock', log)
  {
    SolidNowGrows(n, m);
    PastGrows(c, clock, SolidNow(n), clock', SolidNow(m), log);
    forall k | 0 <= k < |log| && log[k].detail.EnvelopeBuilt? ensures NewTo(c, m, log[k].detail.txid.raw, log[..k]) {
      NewGrows(c, n, m, log[k].detail.txid.raw, log[..k]);
    }
  }

  lemma FreshDriveGrows(c: Config, n: Node, m: Node, clock: int, clock': int, log: seq<Event>, d: Drive)
    requires NodeInv(n) && NodeInv(m) && Forward(n, m) && clock <= clock'
    ensures FreshPc(c, n, clock, d) ==> FreshPc(c, m, clock', d)
    ensures FreshBuild(c, n, clock, log, d.pc) ==> FreshBuild(c, m, clock', log, d.pc)
  {
    SolidNowGrows(n, m);
    if d.pc.Envelope? && NewTo(c, n, d.pc.raw, log) {
      NewGrows(c, n, m, d.pc.raw, log);
    }
    if d.pc.HaveRef? && GENESIS <= d.pc.ref <= Head(n) && PastAll(c, clock, n.times[d.pc.ref - GENESIS], log) {
      assert m.times[d.pc.ref - GENESIS] == n.times[d.pc.ref - GENESIS];
    }
  }

  // ---------------------------------------------------------------- one event more

  lemma FreshOpSnoc(c: Config, n: Node, clock: int, log: seq<Event>, e: Event)
    requires |n.times| > 0 && FreshOp(c, n, clock, log)
    requires Retires(e) ==> clock >= Expiry(e) || SolidNow(n) >= Expiry(e) + c.marginMs
    requires e.detail.EnvelopeBuilt? ==> NewTo(c, n, e.detail.txid.raw, log)
    ensures FreshOp(c, n, clock, log + [e])
  {
    var all := log + [e];
    forall k | 0 <= k < |all| && all[k].detail.EnvelopeBuilt? ensures NewTo(c, n, all[k].detail.txid.raw, all[..k]) {
      assert all[..k] == if k < |log| then log[..k] else log;
    }
  }

  // ---------------------------------------------------------------- one action of a drive

  lemma ReadyFreshPc(c: Config, n: Node, es: seq<Event>, d: Drive, now: int)
    requires NodeInv(n) && DriveOk(c, n, es, d) && d.pc.Ready?
    ensures FreshPc(c, n, now, ReadyStep(c, n, d, now).1)
  {
    if d.op.signed.Some? {
      SignedBytes(c, d.op);
    }
  }

  lemma VerdictFreshPc(c: Config, n: Node, es: seq<Event>, d: Drive, solid: int, now: int)
    requires |n.times| > 0 && DriveOk(c, n, es, d) && d.op.signed.Some? && solid <= SolidNow(n)
    requires ProvenDead(c, d.op.signed.value, solid)
    ensures FreshPc(c, n, now, d.(pc := RetireDead(c, d, d.op.signed.value, solid)))
  {
    SignedBytes(c, d.op);
  }

  lemma LookedUpFreshPc(c: Config, n: Node, es: seq<Event>, d: Drive, now: int)
    requires |n.times| > 0 && DriveOk(c, n, es, d) && d.pc.LookedUp? && d.op.signed.Some?
    ensures FreshPc(c, n, now, SolidStep(c, n, d, d.op.signed.value))
  {
    if ProvenDead(c, d.op.signed.value, SolidNow(n)) {
      VerdictFreshPc(c, n, es, d, SolidNow(n), now);
    }
  }

  lemma HaveSolidFreshPc(c: Config, n: Node, es: seq<Event>, d: Drive, now: int)
    requires |n.times| > 0 && DriveOk(c, n, es, d) && d.pc.HaveSolid? && d.pc.solid <= SolidNow(n) && d.op.signed.Some?
    ensures FreshPc(c, n, now, Lookup(c, n, d, d.op.signed.value, now).1)
  {
    if ProvenDead(c, d.op.signed.value, d.pc.solid) {
      VerdictFreshPc(c, n, es, d, d.pc.solid, now);
    }
  }

  /** The remaining reads neither retire anything nor read chain time. */
  lemma OtherFreshPc(c: Config, n: Node, d: Drive, now: int)
    requires |n.times| > 0 && Running(d.pc) && !d.pc.Ready? && !d.pc.LookedUp? && !d.pc.HaveSolid?
    ensures FreshPc(c, n, now, ReadStep(c, n, d, now).1)
  {
  }

  lemma ReadFreshPc(c: Config, n: Node, es: seq<Event>, clock: int, d: Drive, now: int)
    requires NodeInv(n) && DriveOk(c, n, es, d) && Running(d.pc) && clock <= now && FreshPc(c, n, clock, d)
    ensures FreshPc(c, n, now, ReadStep(c, n, d, now).1)
  {
    match d.pc
    case Ready => ReadyFreshPc(c, n, es, d, now);
    case LookedUp(_) =>
      if d.op.signed.Some? {
        LookedUpFreshPc(c, n, es, d, now);
      }
    case HaveSolid(_) =>
      if d.op.signed.Some? {
        HaveSolidFreshPc(c, n, es, d, now);
      }
    case _ => OtherFreshPc(c, n, d, now);
  }

  /** Where the two points of a build come from. */
  lemma ReadShape(c: Config, n: Node, d: Drive, now: int)
    requires |n.times| > 0 && Running(d.pc)
    ensures var pc := ReadStep(c, n, d, now).1.pc;
      && (pc.HaveRef? ==> pc.ref == RefBlock(n))
      && (pc.Envelope? ==> d.pc.HaveRef? && pc.raw == BuildRaw(c, d.op, d.pc.ref, now))
  {
  }

  lemma ReadFreshBuild(c: Config, n: Node, clock: int, log: seq<Event>, d: Drive, now: int)
    requires NodeInv(n) && Running(d.pc) && clock <= now && c.ttlMs >= 1
    requires FreshOp(c, n, clock, log) && FreshBuild(c, n, clock, log, d.pc)
    ensures FreshBuild(c, n, now, log, ReadStep(c, n, d, now).1.pc)
  {
    ReadShape(c, n, d, now);
    BuildFresh(c, n, clock, log, d.pc, ReadStep(c, n, d, now).1.pc, d.op, now);
  }

  lemma BuildFresh(c: Config, n: Node, clock: int, log: seq<Event>, pc: Pc, pc': Pc, op: Row, now: int)
    requires NodeInv(n) && clock <= now && c.ttlMs >= 1 && FreshOp(c, n, clock, log) && FreshBuild(c, n, clock, log, pc)
    requires pc'.HaveRef? ==> pc'.ref == RefBlock(n)
    requires pc'.Envelope? ==> pc.HaveRef? && pc'.raw == BuildRaw(c, op, pc.ref, now)
    ensures FreshBuild(c, n, now, log, pc')
  {
    PastGrows(c, clock, SolidNow(n), now, SolidNow(n), log);
  }

  /** Which points write the two kinds of event that matter here. */
  lemma PlanDetail(c: Config, d: Drive, p: CasPlan, now: int)
    requires Plan(c, d, now) == Some(p)
    ensures p.detail.EnvelopeBuilt? ==> d.pc.Envelope? && p.detail.txid == Txid(d.pc.raw)
    ensures p.detail.Retired? ==> d.pc.Retire? && p.detail.retired == d.op.txid
    ensures var row := NewOp(c, d, p, now);
      var pc := AfterWrite(d, row).pc; !pc.HaveRef? && !pc.Envelope? && !pc.Retire? && !pc.HaveSolid?
  {
  }

  lemma WriteFreshOp(c: Config, db: Db, n: Node, clock: int, d: Drive, p: CasPlan, now: int)
    requires Planned(c, n, db.events, d, p, now) && Owns(db, d) && Current(db, d) && clock <= now
    requires FreshOp(c, n, clock, Log(db.events, d.id)) && FreshPc(c, n, clock, d)
    requires FreshBuild(c, n, clock, Log(db.events, d.id), d.pc)
    ensures FreshOp(c, n, now, Log(WriteStep(c, db, n, d, p, now).db.events, d.id))
  {
    HolderWrites(c, n, db, d, p, now);
    var e := NewEvent(db.events, d, p, now);
    LogSnoc(db.events, e, d.id);
    PlanDetail(c, d, p, now);
    PastGrows(c, clock, SolidNow(n), now, SolidNow(n), Log(db.events, d.id));
    FreshOpSnoc(c, n, now, Log(db.events, d.id), e);
  }

  lemma CleanupFreshOp(c: Config, db: Db, n: Node, clock: int, d: Drive, now: int)
    requires NodeInv(n) && !Running(d.pc) && clock <= now && FreshOp(c, n, clock, Log(db.events, d.id))
    ensures FreshOp(c, n, now, Log(DriveStep(c, db, n, d, now).db.events, d.id))
  {
    var log := Log(db.events, d.id);
    PastGrows(c, clock, SolidNow(n), now, SolidNow(n), log);
    if d.pc.Raised? && CasHits(db, d.id, d.base.token, d.base.state) {
      var e := BreadcrumbStep(db, d, now).events[|db.events|];
      LogSnoc(db.events, e, d.id);
      FreshOpSnoc(c, n, now, log, e);
    }
  }

  /** The holder's own action keeps its operation's log fresh. */
  lemma HolderFreshOp(c: Config, db: Db, n: Node, clock: int, d: Drive, now: int)
    requires NodeInv(n) && DriveOk(c, n, db.events, d) && Owns(db, d) && Current(db, d) && clock <= now
    requires FreshOp(c, n, clock, Log(db.events, d.id)) && FreshPc(c, n, clock, d)
    requires FreshBuild(c, n, clock, Log(db.events, d.id), d.pc)
    ensures FreshOp(c, n, now, Log(DriveStep(c, db, n, d, now).db.events, d.id))
  {
    if !Running(d.pc) {
      CleanupFreshOp(c, db, n, clock, d, now);
    } else if Plan(c, d, now).Some? {
      WriteFreshOp(c, db, n, clock, d, Plan(c, d, now).value, now);
    } else {
      PastGrows(c, clock, SolidNow(n), now, SolidNow(n), Log(db.events, d.id));
    }
  }

  /** The acting drive itself: a write leaves it at a point where nothing is claimed. */
  lemma ActorFresh(c: Config, db: Db, n: Node, clock: int, d: Drive, now: int)
    requires NodeInv(n) && DriveOk(c, n, db.events, d) && Owns(db, d) && clock <= now && c.ttlMs >= 1
    requires FreshPc(c, n, clock, d)
    requires Current(db, d) ==>
               FreshOp(c, n, clock, Log(db.events, d.id)) && FreshBuild(c, n, clock, Log(db.events, d.id), d.pc)
    ensures var r := DriveStep(c, db, n, d, now);
      && FreshPc(c, n, now, r.drive)
      && (Current(db, d) ==> FreshBuild(c, n, now, Log(r.db.events, d.id), r.drive.pc))
  {
    if Running(d.pc) {
      if Plan(c, d, now).Some? {
        ActorWrites(c, db, n, d, Plan(c, d, now).value, now);
      } else {
        ReadFreshPc(c, n, db.events, clock, d, now);
        if Current(db, d) {
          ReadFreshBuild(c, n, clock, Log(db.events, d.id), d, now);
        }
      }
    }
  }

  lemma ActorWrites(c: Config, db: Db, n: Node, d: Drive, p: CasPlan, now: int)
    requires Planned(c, n, db.events, d, p, now) && Owns(db, d)
    ensures var pc := WriteStep(c, db, n, d, p, now).drive.pc;
      !pc.HaveRef? && !pc.Envelope? && !pc.Retire? && !pc.HaveSolid?
  {
    PlanDetail(c, d, p, now);
    if Current(db, d) {
      HolderWrites(c, n, db, d, p, now);
    } else {
      OthersMiss(c, n, db, d, p, now);
    }
  }

  // ---------------------------------------------------------------- all steps, all runs

  /** No one but drive `i` can be holding the row that drive `i` holds. */
  lemma OneHolder(s: Sys, a: Action, i: nat)
    requires DistinctTokens(s.drives) && i < |s.drives| && Current(s.db, s.drives[i]) && !(a.Act? && a.i == i)
    ensures !(a.Act? && a.i < |s.drives| && Holds(s.db, s.drives[a.i], s.drives[i].id))
  {
    if a.Act? && a.i < |s.drives| {
      var lo, hi := if a.i < i then a.i else i, if a.i < i then i else a.i;
      assert s.drives[lo].id == s.drives[hi].id ==> s.drives[lo].op.token != s.drives[hi].op.token;
    }
  }

  /** What this module needs to know about any step. */
  lemma StepFacts(c: Config, s: Sys, a: Action)
    requires Inv(c, s) && Timely(s, a)
    ensures var s' := Step(c, s, a); NodeInv(s'.node) && Forward(s.node, s'.node) && s.clock <= s'.clock
  {
    StepOnward(c, s, a);
    StepKeeps(c, s, a);
  }

  /** The log of operation `id` is fresh after the step. */
  ghost predicate FreshAfter(c: Config, s: Sys, a: Action, id: OpId) {
    var s' := Step(c, s, a);
    |s'.node.times| > 0 && FreshOp(c, s'.node, s'.clock, Log(s'.db.events, id))
  }

  lemma HolderOpStep(c: Config, s: Sys, i: nat, now: int)
    requires Inv(c, s) && s.clock <= now && i < |s.drives| && Current(s.db, s.drives[i])
    requires var log := Log(s.db.events, s.drives[i].id);
      FreshOp(c, s.node, s.clock, log) && FreshPc(c, s.node, s.clock, s.drives[i])
      && FreshBuild(c, s.node, s.clock, log, s.drives[i].pc)
    ensures FreshAfter(c, s, Act(i, now), s.drives[i].id)
  {
    var d := s.drives[i];
    assert DriveOk(c, s.node, s.db.events, d) && Owns(s.db, d);
    HolderFreshOp(c, s.db, s.node, s.clock, d, now);
    StepFacts(c, s, Act(i, now));
    var s' := Step(c, s, Act(i, now));
    FreshOpGrows(c, s.node, s'.node, now, now, Log(s'.db.events, d.id));
  }

  lemma OtherOpStep(c: Config, s: Sys, a: Action, id: OpId)
    requires Inv(c, s) && FreshOp(c, s.node, s.clock, Log(s.db.events, id)) && Timely(s, a) && id in s.db.ops
    requires !(a.Act? && a.i < |s.drives| && Holds(s.db, s.drives[a.i], id))
    ensures FreshAfter(c, s, a, id)
  {
    var s' := Step(c, s, a);
    StepFacts(c, s, a);
    SingleWriter(c, s, a, id);
    FreshOpGrows(c, s.node, s'.node, s.clock, s'.clock, Log(s.db.events, id));
  }

  lemma NewOpStep(c: Config, s: Sys, a: Action, id: OpId)
    requires Inv(c, s) && Timely(s, a) && id !in s.db.ops && id in Step(c, s, a).db.ops
    ensures FreshAfter(c, s, a, id)
  {
    StepFacts(c, s, a);
    NewOpLog(c, s, a, id);
    IntakeFresh(c, Step(c, s, a).node, Step(c, s, a).clock, Log(Step(c, s, a).db.events, id));
  }

  lemma IntakeFresh(c: Config, n: Node, clock: int, log: seq<Event>)
    requires |n.times| > 0 && |log| == 1 && log[0].detail.Intake?
    ensures FreshOp(c, n, clock, log)
  {
  }

  lemma OpStep(c: Config, s: Sys, a: Action, id: OpId)
    requires Inv(c, s) && FreshInv(c, s) && Timely(s, a) && id in Step(c, s, a).db.ops
    ensures FreshAfter(c, s, a, id)
  {
    if id !in s.db.ops {
      NewOpStep(c, s, a, id);
    } else if a.Act? && a.i < |s.drives| && Holds(s.db, s.drives[a.i], id) {
      HolderOpStep(c, s, a.i, a.now);
    } else {
      OtherOpStep(c, s, a, id);
    }
  }

  lemma NewOpLog(c: Config, s: Sys, a: Action, id: OpId)
    requires DbInv(s.db) && |s.node.times| > 0 && id !in s.db.ops && id in Step(c, s, a).db.ops
    ensures |Log(Step(c, s, a).db.events, id)| == 1 && Log(Step(c, s, a).db.events, id)[0].detail.Intake?
  {
    NewKeys(c, s, a, id);
    InsertLog(s.db, id, NewRow(a.to, a.asset, a.amount, a.now));
  }

  /** A token that is current after a step was current before it. */
  lemma StillCurrent(c: Config, s: Sys, a: Action, i: nat)
    requires Inv(c, s) && i < |s.drives| && Current(Step(c, s, a).db, s.drives[i])
    ensures Current(s.db, s.drives[i])
  {
    assert Owns(s.db, s.drives[i]);
    StepOnward(c, s, a);
    assert RowLater(s.db.ops[s.drives[i].id], Step(c, s, a).db.ops[s.drives[i].id]);
  }

  lemma BystanderStep(c: Config, s: Sys, a: Action, i: nat)
    requires Inv(c, s) && FreshInv(c, s) && Timely(s, a) && i < |s.drives| && !(a.Act? && a.i == i)
    ensures var s' := Step(c, s, a); var d := s.drives[i];
      && |s'.node.times| > 0 && FreshPc(c, s'.node, s'.clock, d)
      && (Current(s'.db, d) ==> FreshBuild(c, s'.node, s'.clock, Log(s'.db.events, d.id), d.pc))
  {
    var s' := Step(c, s, a);
    var d := s.drives[i];
    StepFacts(c, s, a);
    FreshDriveGrows(c, s.node, s'.node, s.clock, s'.clock, Log(s.db.events, d.id), d);
    if Current(s'.db, d) {
      StillCurrent(c, s, a, i);
      OneHolder(s, a, i);
      SingleWriter(c, s, a, d.id);
    }
  }

  /** What the acting drive knew before its action. */
  lemma ActorParts(c: Config, s: Sys, i: nat)
    requires |s.node.times| > 0 && FreshInv(c, s) && i < |s.drives|
    ensures FreshPc(c, s.node, s.clock, s.drives[i])
    ensures Current(s.db, s.drives[i]) ==>
              && FreshOp(c, s.node, s.clock, Log(s.db.events, s.drives[i].id))
              && FreshBuild(c, s.node, s.clock, Log(s.db.events, s.drives[i].id), s.drives[i].pc)
  {
  }

  lemma ActorCurrent(c: Config, s: Sys, i: nat, now: int)
    requires Inv(c, s) && i < |s.drives|
    ensures var s' := Step(c, s, Act(i, now));
      && s'.drives[i].id == s.drives[i].id
      && (Current(s'.db, s'.drives[i]) ==> Current(s.db, s.drives[i]))
  {
    StepOnward(c, s, Act(i, now));
    var s' := Step(c, s, Act(i, now));
    if Current(s'.db, s'.drives[i]) {
      StillCurrent(c, s, Act(i, now), i);
    }
  }

  /** What drive `i` knows after the step. */
  ghost predicate DriveFreshAfter(c: Config, s: Sys, a: Action, i: nat) {
    var s' := Step(c, s, a);
    && |s'.node.times| > 0 && i < |s'.drives| && FreshPc(c, s'.node, s'.clock, s'.drives[i])
    && (Current(s'.db, s'.drives[i]) ==>
          FreshBuild(c, s'.node, s'.clock, Log(s'.db.events, s'.drives[i].id), s'.drives[i].pc))
  }

  /** The action alone, with the facts about the step taken as given. */
  lemma ActorMoves(c: Config, s: Sys, i: nat, now: int)
    requires NodeInv(s.node) && i < |s.drives| && DriveOk(c, s.node, s.db.events, s.drives[i]) && Owns(s.db, s.drives[i])
    requires s.clock <= now && c.ttlMs >= 1 && FreshPc(c, s.node, s.clock, s.drives[i])
    requires Current(s.db, s.drives[i]) ==>
               && FreshOp(c, s.node, s.clock, Log(s.db.events, s.drives[i].id))
               && FreshBuild(c, s.node, s.clock, Log(s.db.events, s.drives[i].id), s.drives[i].pc)
    requires var s' := Step(c, s, Act(i, now));
      && NodeInv(s'.node) && Forward(s.node, s'.node) && s'.drives[i].id == s.drives[i].id
      && (Current(s'.db, s'.drives[i]) ==> Current(s.db, s.drives[i]))
    ensures DriveFreshAfter(c, s, Act(i, now), i)
  {
    var s' := Step(c, s, Act(i, now));
    ActorFresh(c, s.db, s.node, s.clock, s.drives[i], now);
    FreshDriveGrows(c, s.node, s'.node, now, now, Log(s'.db.events, s.drives[i].id), s'.drives[i]);
  }

  lemma ActorStep(c: Config, s: Sys, i: nat, now: int)
    requires Inv(c, s) && FreshInv(c, s) && s.clock <= now && i < |s.drives| && c.ttlMs >= 1
    ensures DriveFreshAfter(c, s, Act(i, now), i)
  {
    assert DriveOk(c, s.node, s.db.events, s.drives[i]) && Owns(s.db, s.drives[i]);
    StepFacts(c, s, Act(i, now));
    ActorCurrent(c, s, i, now);
    ActorParts(c, s, i);
    ActorMoves(c, s, i, now);
  }

  lemma FreshStep(c: Config, s: Sys, a: Action)
    requires Inv(c, s) && FreshInv(c, s) && Timely(s, a) && c.ttlMs >= 1
    ensures |Step(c, s, a).node.times| > 0 && FreshInv(c, Step(c, s, a))
  {
    var s' := Step(c, s, a);
    StepFacts(c, s, a);
    forall id | id in s'.db.ops ensures FreshOp(c, s'.node, s'.clock, Log(s'.db.events, id)) {
      OpStep(c, s, a, id);
    }
    forall i | 0 <= i < |s'.drives|
      ensures FreshPc(c, s'.node, s'.clock, s'.drives[i])
      ensures Current(s'.db, s'.drives[i]) ==>
                FreshBuild(c, s'.node, s'.clock, Log(s'.db.events, s'.drives[i].id), s'.drives[i].pc)
    {
      DriveAfter(c, s, a, i);
      if a.Act? && a.i == i && i < |s.drives| {
        ActorStep(c, s, i, a.now);
      } else if i < |s.drives| {
        BystanderStep(c, s, a, i);
      }
    }
  }

  lemma {:induction false} FreshRun(c: Config, s: Sys, actions: seq<Action>)
    requires Inv(c, s) && FreshInv(c, s) && TimelyRun(c, s, actions) && c.ttlMs >= 1
    ensures |Exec(c, s, actions).node.times| > 0 && FreshInv(c, Exec(c, s, actions))
    decreases |actions|
  {
    if actions != [] {
      FreshStep(c, s, actions[0]);
      StepKeeps(c, s, actions[0]);
      FreshRun(c, Step(c, s, actions[0]), actions[1..]);
    }
  }

  /** Both envelopes of a rebuild are on record as given to the operation. */
  lemma BothGiven(c: Config, s: Sys, id: OpId, j: nat, k: nat)
    requires Reachable(c, s) && j < |Log(s.db.events, id)| && k < |Log(s.db.events, id)|
    requires Retires(Log(s.db.events, id)[j]) && Log(s.db.events, id)[k].detail.EnvelopeBuilt?
    ensures Given(s.db.events, id, Log(s.db.events, id)[j].detail.retired.value)
    ensures Given(s.db.events, id, Log(s.db.events, id)[k].detail.txid)
  {
    LogOf(s.db.events, id, j);
    LogOf(s.db.events, id, k);
    var m :| 0 <= m < |s.db.events| && s.db.events[m] == Log(s.db.events, id)[j];
    EveryRetirementHasEvidence(c, s, m);
    var n :| 0 <= n < |s.db.events| && s.db.events[n] == Log(s.db.events, id)[k];
    assert TxidOf(s.db.events[n].detail) == Some(Log(s.db.events, id)[k].detail.txid);
  }

  /**
  With clocks that never run backwards and a lifetime of at least a millisecond, an
  envelope built after a retirement repeats the retired one exactly when neither the
  reference block nor the millisecond has moved, and that takes a retired envelope which
  already referred to a block past its own deadline when it was built.
  */
  lemma RebuildIsFresh(c: Config, s: Sys, id: OpId, j: nat, k: nat)
    requires TimelyReached(c, s) && c.ttlMs >= 1 && id in s.db.ops && j < k < |Log(s.db.events, id)|
    requires Retires(Log(s.db.events, id)[j]) && Log(s.db.events, id)[k].detail.EnvelopeBuilt?
    ensures var retired := Log(s.db.events, id)[j].detail.retired.value;
      var built := Log(s.db.events, id)[k].detail.txid;
      && (built == retired <==>
            built.raw.refBlock == retired.raw.refBlock && built.raw.timestamp == retired.raw.timestamp)
      && (built == retired ==> BornLate(c, s.node, retired.raw))
  {
    var log := Log(s.db.events, id);
    TimelyIsReachable(c, s);
    BothGiven(c, s, id, j, k);
    SameTxidExactly(c, s, id, id, log[j].detail.retired.value, log[k].detail.txid);
    FreshLog(c, s, id);
    assert NewTo(c, s.node, log[k].detail.txid.raw, log[..k]);
    assert log[..k][j] == log[j];
  }

  lemma FreshLog(c: Config, s: Sys, id: OpId)
    requires TimelyReached(c, s) && c.ttlMs >= 1 && id in s.db.ops
    ensures LogFresh(c, s.node, Log(s.db.events, id))
  {
    var w: Setup :| Leads(c, Init(w), s);
    var actions: seq<Action> :| s == Exec(c, Init(w), actions) && TimelyRun(c, Init(w), actions);
    InitInv(c, w);
    FreshRun(c, Init(w), actions);
  }
}
