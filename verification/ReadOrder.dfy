/**
The two reads behind a death verdict. The code looks the txid up first and reads chain
time second, as two separate calls. This module says exactly when the verdict is sound,
and names four disciplines under which every verdict of every run is.
*/
module ReadOrder {

  import opened Common
  import opened States
  import opened Chain
  import opened ChainProperties
  import opened Store
  import opened Protocol
  import opened Invariant
  import opened InvariantSteps
  import opened History
  import opened SafetyProof
  import opened Safety
  import opened NodeAnswers

  // ---------------------------------------------------------------- node level

  /**
  Chain time first, lookup second: whatever the node did in between, a time past the
  deadline followed by an unknown txid means that txid never lands.
  */
  lemma TimeThenLookup(n: Node, between: seq<NodeAction>, after: seq<NodeAction>, txid: Txid, margin: nat, now: int)
    requires NodeInv(n) && GenuineSends(between) && GenuineSends(after)
    requires SolidNow(n) >= txid.raw.expiration + margin
    requires StatusOf(NodeExec(n, between), txid, now) == Unknown
    ensures !InBlock(NodeExec(NodeExec(n, between), after), txid)
  {
    var m := NodeExec(n, between);
    ExecForward(n, between);
    SolidBelowHead(n);
    SolidGrows(n, m);
    assert Dead(m, txid);
    ExecForward(m, after);
    DeadStays(m, NodeExec(m, after), txid);
  }

  /** Some block produced since `h` is stamped before `t`. */
  predicate BlockInGap(n: Node, h: int, t: int) {
    exists k :: 0 <= k < |n.times| && h - GENESIS < k && n.times[k] < t
  }

  /** The txid can never be included, whatever the node goes through. */
  ghost predicate NeverLands(n: Node, txid: Txid) {
    forall after :: GenuineSends(after) ==> !InBlock(NodeExec(n, after), txid)
  }

  lemma DeadNeverLands(n: Node, txid: Txid)
    requires NodeInv(n) && Dead(n, txid)
    ensures NeverLands(n, txid)
  {
    forall after | GenuineSends(after) ensures !InBlock(NodeExec(n, after), txid) {
      ExecForward(n, after);
      DeadStays(n, NodeExec(n, after), txid);
    }
  }

  lemma NeverLandsNow(n: Node, txid: Txid)
    requires NeverLands(n, txid)
    ensures !InBlock(n, txid)
  {
    assert GenuineSends([]) && NodeExec(n, []) == n;
  }

  lemma EarlyBlock(n: Node, txid: Txid, h: int)
    requires NodeInv(n) && InBlockAfter(n, txid, h)
    ensures BlockInGap(n, h, txid.raw.expiration)
  {
    assert RecordOk(n, txid);
    assert n.times[n.txs[txid].included.value - GENESIS] < txid.raw.expiration;
  }

  /**
  Lookup first, chain time second: the verdict is wrong exactly when a block produced in the
  gap carries the txid, and only a block stamped before the expiration can.
  */
  lemma LookupThenTime(n: Node, between: seq<NodeAction>, txid: Txid, margin: nat, now: int)
    requires NodeInv(n) && GenuineSends(between)
    requires StatusOf(n, txid, now) == Unknown
    requires |NodeExec(n, between).times| > 0 && SolidNow(NodeExec(n, between)) >= txid.raw.expiration + margin
    ensures !InBlockAfter(NodeExec(n, between), txid, Head(n)) <==> NeverLands(NodeExec(n, between), txid)
    ensures !BlockInGap(NodeExec(n, between), Head(n), txid.raw.expiration) ==> NeverLands(NodeExec(n, between), txid)
  {
    var m := NodeExec(n, between);
    ExecForward(n, between);
    SolidBelowHead(m);
    if InBlockAfter(m, txid, Head(n)) {
      EarlyBlock(m, txid, Head(n));
      if NeverLands(m, txid) {
        NeverLandsNow(m, txid);
      }
    } else {
      DeadNeverLands(m, txid);
    }
  }

  // ---------------------------------------------------------------- the verdict inside the protocol

  /** In every reachable state, a verdict about to be taken is sound if and only if the gap is clean. */
  lemma VerdictExact(c: Config, s: Sys, i: nat)
    requires Reachable(c, s) && i < |s.drives| && s.drives[i].pc.LookedUp?
    ensures |s.node.times| > 0 && s.drives[i].op.signed.Some?
    ensures var d := s.drives[i];
      var tx := d.op.signed.value;
      ProvenDead(c, tx, SolidNow(s.node)) ==> (Clean(c, s.node, d) <==> NeverLands(s.node, tx.txid))
  {
    ReachableInv(c, s);
    var d := s.drives[i];
    assert DriveOk(c, s.node, s.db.events, d);
    SignedBytes(c, d.op);
    var tx := d.op.signed.value;
    if ProvenDead(c, tx, SolidNow(s.node)) {
      VerdictExactAt(c, s.node, d, tx);
    }
  }

  lemma VerdictExactAt(c: Config, n: Node, d: Drive, tx: SignedTx)
    requires NodeInv(n) && d.pc.LookedUp? && d.op.signed == Some(tx) && Genuine(tx)
    requires ProvenDead(c, tx, SolidNow(n))
    requires InBlock(n, tx.txid) ==> InBlockAfter(n, tx.txid, d.pc.head)
    ensures Clean(c, n, d) <==> NeverLands(n, tx.txid)
  {
    SolidBelowHead(n);
    if Clean(c, n, d) {
      DeadNeverLands(n, tx.txid);
    } else if NeverLands(n, tx.txid) {
      NeverLandsNow(n, tx.txid);
    }
  }

  // ---------------------------------------------------------------- discipline 1: no early block in the gap

  /** No block stamped before the txid's expiration was produced between the two reads. */
  predicate Quiet(c: Config, n: Node, d: Drive)
    requires |n.times| > 0
  {
    d.pc.LookedUp? && d.op.signed.Some? && ProvenDead(c, d.op.signed.value, SolidNow(n)) ==>
      !BlockInGap(n, d.pc.head, d.op.signed.value.expiration)
  }

  predicate QuietRun(c: Config, s: Sys, actions: seq<Action>)
    decreases |actions|
  {
    actions == [] ||
    (&& (actions[0].Act? && actions[0].i < |s.drives| && |s.node.times| > 0 ==>
           Quiet(c, s.node, s.drives[actions[0].i]))
     && QuietRun(c, Step(c, s, actions[0]), actions[1..]))
  }

  lemma QuietIsClean(c: Config, n: Node, es: seq<Event>, d: Drive)
    requires NodeInv(n) && DriveOk(c, n, es, d) && Quiet(c, n, d)
    ensures Clean(c, n, d)
  {
    if d.pc.LookedUp? && d.op.signed.Some? && InBlockAfter(n, d.op.signed.value.txid, d.pc.head) {
      SignedBytes(c, d.op);
      EarlyBlock(n, d.op.signed.value.txid, d.pc.head);
    }
  }

  lemma {:induction false} QuietIsCareful(c: Config, s: Sys, actions: seq<Action>)
    requires Inv(c, s) && QuietRun(c, s, actions)
    ensures CarefulRun(c, s, actions)
    decreases |actions|
  {
    if actions != [] {
      var a := actions[0];
      if a.Act? && a.i < |s.drives| {
        QuietIsClean(c, s.node, s.db.events, s.drives[a.i]);
      }
      StepKeeps(c, s, a);
      QuietIsCareful(c, Step(c, s, a), actions[1..]);
    }
  }

  lemma QuietRunsAreSafe(c: Config, w: Setup, actions: seq<Action>, id: OpId)
    requires QuietRun(c, Init(w), actions)
    ensures |LandedTxids(Exec(c, Init(w), actions), id)| <= 1
  {
    InitInv(c, w);
    QuietIsCareful(c, Init(w), actions);
    AtMostOnce(c, Exec(c, Init(w), actions), id);
  }

  // ---------------------------------------------------------------- discipline 2: chain time first

  /** A drive gets between the two reads in one way only: by looking its txid up from the top of a handler. */
  lemma ReadLookedUp(c: Config, n: Node, d: Drive, now: int)
    requires |n.times| > 0
    ensures var (m, d') := ReadStep(c, n, d, now);
      d'.pc.LookedUp? ==>
        && d.pc.Ready? && !c.clockFirst && d.op.state in {Broadcasting, Broadcast} && d.op.signed.Some?
        && d'.pc.head == Head(n) && m.times == n.times && m.txs == n.txs
        && StatusOf(n, d.op.signed.value.txid, now) == Unknown
  {
  }

  lemma DriveLookedUp(c: Config, db: Db, n: Node, d: Drive, now: int)
    requires |n.times| > 0
    ensures var r := DriveStep(c, db, n, d, now);
      r.drive.pc.LookedUp? ==>
        && d.pc.Ready? && !c.clockFirst && d.op.state in {Broadcasting, Broadcast} && d.op.signed.Some?
        && r.drive.pc.head == Head(n) && r.node.times == n.times && r.node.txs == n.txs && SameSnapshot(d, r.drive)
        && StatusOf(n, d.op.signed.value.txid, now) == Unknown
  {
    if Running(d.pc) && Plan(c, d, now).None? {
      ReadLookedUp(c, n, d, now);
    }
  }

  predicate NoTornReads(drives: seq<Drive>) {
    forall i :: 0 <= i < |drives| ==> !drives[i].pc.LookedUp?
  }

  lemma ClockFirstStep(c: Config, s: Sys, a: Action)
    requires c.clockFirst && NoTornReads(s.drives)
    ensures NoTornReads(Step(c, s, a).drives)
  {
    if a.Act? && a.i < |s.drives| && |s.node.times| > 0 {
      DriveLookedUp(c, s.db, s.node, s.drives[a.i], a.now);
    }
  }

  lemma {:induction false} ClockFirstIsCareful(c: Config, s: Sys, actions: seq<Action>)
    requires c.clockFirst && NoTornReads(s.drives)
    ensures CarefulRun(c, s, actions)
    decreases |actions|
  {
    if actions != [] {
      ClockFirstStep(c, s, actions[0]);
      ClockFirstIsCareful(c, Step(c, s, actions[0]), actions[1..]);
    }
  }

  /** Chain time first and lookup second: at most once, in every run whatsoever. */
  lemma ClockFirstIsSafe(c: Config, s: Sys, id: OpId)
    requires Reachable(c, s) && c.clockFirst
    ensures |LandedTxids(s, id)| <= 1
  {
    var w: Setup, actions: seq<Action> :| s == Exec(c, Init(w), actions);
    ClockFirstIsCareful(c, Init(w), actions);
    AtMostOnce(c, s, id);
  }

  // ---------------------------------------------------------------- discipline 3: the two reads as one step

  /** The action concerns drive `i` and no other. */
  predicate Touches(a: Action, i: nat) {
    (a.Act? || a.Throw? || a.Crash?) && a.i == i
  }

  /** Whoever has just looked a txid up is the next to move. */
  predicate AtomicRun(c: Config, s: Sys, actions: seq<Action>)
    decreases |actions|
  {
    |actions| <= 1 ||
    (var s' := Step(c, s, actions[0]);
     && (actions[0].Act? && actions[0].i < |s'.drives| && s'.drives[actions[0].i].pc.LookedUp? ==>
           Touches(actions[1], actions[0].i))
     && AtomicRun(c, s', actions[1..]))
  }

  /** Only the drive that moves next may be between its two reads, and no block came in between. */
  ghost predicate NoneBetween(s: Sys, actions: seq<Action>) {
    forall i :: 0 <= i < |s.drives| && s.drives[i].pc.LookedUp? && actions != [] ==>
      Touches(actions[0], i) && s.drives[i].pc.head == Head(s.node)
  }

  lemma AtomicStep(c: Config, s: Sys, actions: seq<Action>)
    requires |s.node.times| > 0 && actions != [] && AtomicRun(c, s, actions) && NoneBetween(s, actions)
    ensures NoneBetween(Step(c, s, actions[0]), actions[1..])
  {
    var a := actions[0];
    var s' := Step(c, s, a);
    if a.Act? && a.i < |s.drives| {
      DriveLookedUp(c, s.db, s.node, s.drives[a.i], a.now);
    }
  }

  lemma {:induction false} AtomicIsCareful(c: Config, s: Sys, actions: seq<Action>)
    requires Inv(c, s) && AtomicRun(c, s, actions) && NoneBetween(s, actions)
    ensures CarefulRun(c, s, actions)
    decreases |actions|
  {
    if actions != [] {
      var a := actions[0];
      if a.Act? && a.i < |s.drives| {
        AtomicIsClean(c, s.node, s.drives[a.i]);
      }
      StepKeeps(c, s, a);
      AtomicStep(c, s, actions);
      AtomicIsCareful(c, Step(c, s, a), actions[1..]);
    }
  }

  lemma AtomicIsClean(c: Config, n: Node, d: Drive)
    requires NodeInv(n) && (d.pc.LookedUp? ==> d.pc.head == Head(n))
    ensures Clean(c, n, d)
  {
    if d.op.signed.Some? && InBlock(n, d.op.signed.value.txid) {
      assert RecordOk(n, d.op.signed.value.txid);
    }
  }

  lemma AtomicRunsAreSafe(c: Config, w: Setup, actions: seq<Action>, id: OpId)
    requires AtomicRun(c, Init(w), actions)
    ensures |LandedTxids(Exec(c, Init(w), actions), id)| <= 1
  {
    InitInv(c, w);
    AtomicIsCareful(c, Init(w), actions);
    AtMostOnce(c, Exec(c, Init(w), actions), id);
  }

  // ---------------------------------------------------------------- discipline 4: clocks that do not run backwards

  predicate Timely(s: Sys, a: Action) {
    a.Throw? || a.Crash? || a.Inject? || s.clock <= a.now
  }

  predicate TimelyRun(c: Config, s: Sys, actions: seq<Action>)
    decreases |actions|
  {
    actions == [] || (Timely(s, actions[0]) && TimelyRun(c, Step(c, s, actions[0]), actions[1..]))
  }

  /** The verdicts taken in `broadcasting` are clean; nothing is asked of those in `broadcast`. */
  predicate CleanWhileBroadcasting(c: Config, s: Sys, actions: seq<Action>)
    decreases |actions|
  {
    actions == [] ||
    (&& (actions[0].Act? && actions[0].i < |s.drives| && s.drives[actions[0].i].op.state == Broadcasting ==>
           Careful(c, s, actions[0]))
     && CleanWhileBroadcasting(c, Step(c, s, actions[0]), actions[1..]))
  }

  /** In `broadcast` the txid was accepted before it was unknown, so by the clock it has expired. */
  predicate GapHarmless(n: Node, d: Drive, clock: int) {
    d.pc.LookedUp? && d.op.state == Broadcast && d.op.signed.Some? ==>
      Stale(n, d.op.signed.value.txid, clock)
  }

  ghost predicate GapsHarmless(s: Sys) {
    forall i :: 0 <= i < |s.drives| ==> GapHarmless(s.node, s.drives[i], s.clock)
  }

  lemma DriveKeepsStale(c: Config, db: Db, n: Node, d: Drive, now: int, txid: Txid, t: int)
    requires |n.times| > 0 && Stale(n, txid, t) && t <= now
    ensures Stale(DriveStep(c, db, n, d, now).node, txid, now)
  {
    if Running(d.pc) && Plan(c, d, now).None? {
      ReadIsNodeCall(c, n, d, now);
      if d.op.signed.Some? {
        StaleStep(n, Query(d.op.signed.value.txid, now), txid, t);
        StaleStep(n, Transmit(d.op.signed.value, d.worker, now), txid, t);
      }
    }
  }

  lemma StaleKept(c: Config, s: Sys, a: Action, txid: Txid)
    requires |s.node.times| > 0 && Timely(s, a) && Stale(s.node, txid, s.clock)
    ensures Stale(Step(c, s, a).node, txid, Step(c, s, a).clock)
  {
    match a
    case Act(i, now) =>
      if i < |s.drives| {
        DriveKeepsStale(c, s.db, s.node, s.drives[i], now, txid, s.clock);
      }
    case Block(now) => StaleStep(s.node, MakeBlock(now), txid, s.clock);
    case Inject(channel, faults) => StaleStep(s.node, Enqueue(channel, faults), txid, s.clock);
    case _ =>
  }

  lemma NewGapHarmless(c: Config, n: Node, db: Db, d: Drive, now: int)
    requires NodeInv(n) && DriveOk(c, n, db.events, d)
    ensures var r := DriveStep(c, db, n, d, now); GapHarmless(r.node, r.drive, now)
  {
    DriveLookedUp(c, db, n, d, now);
    if d.op.signed.Some? {
      SignedBytes(c, d.op);
    }
  }

  lemma OldGapHarmless(c: Config, s: Sys, a: Action, d: Drive)
    requires |s.node.times| > 0 && Timely(s, a) && GapHarmless(s.node, d, s.clock)
    ensures GapHarmless(Step(c, s, a).node, d, Step(c, s, a).clock)
  {
    if d.pc.LookedUp? && d.op.state == Broadcast && d.op.signed.Some? {
      StaleKept(c, s, a, d.op.signed.value.txid);
    }
  }

  lemma GapStep(c: Config, s: Sys, a: Action)
    requires NodeInv(s.node) && DrivesInv(c, s.node, s.db, s.drives) && Timely(s, a) && GapsHarmless(s)
    ensures GapsHarmless(Step(c, s, a))
  {
    var s' := Step(c, s, a);
    forall i | 0 <= i < |s'.drives| ensures GapHarmless(s'.node, s'.drives[i], s'.clock) {
      DriveAfter(c, s, a, i);
      if i < |s.drives| {
        OldGapHarmless(c, s, a, s.drives[i]);
        if a.Act? && a.i == i {
          NewGapHarmless(c, s.node, s.db, s.drives[i], a.now);
        }
      }
    }
  }

  lemma {:induction false} TimelyIsCareful(c: Config, s: Sys, actions: seq<Action>)
    requires Inv(c, s) && GapsHarmless(s) && TimelyRun(c, s, actions) && CleanWhileBroadcasting(c, s, actions)
    ensures CarefulRun(c, s, actions)
    decreases |actions|
  {
    if actions != [] {
      var a := actions[0];
      if a.Act? && a.i < |s.drives| {
        assert DriveOk(c, s.node, s.db.events, s.drives[a.i]);
      }
      StepKeeps(c, s, a);
      GapStep(c, s, a);
      TimelyIsCareful(c, Step(c, s, a), actions[1..]);
    }
  }

  /** With clocks that do not run backwards, only the verdicts taken in `broadcasting` need care. */
  lemma TimelyRunsAreSafe(c: Config, w: Setup, actions: seq<Action>, id: OpId)
    requires TimelyRun(c, Init(w), actions) && CleanWhileBroadcasting(c, Init(w), actions)
    ensures |LandedTxids(Exec(c, Init(w), actions), id)| <= 1
  {
    InitInv(c, w);
    TimelyIsCareful(c, Init(w), actions);
    AtMostOnce(c, Exec(c, Init(w), actions), id);
  }

  // ---------------------------------------------------------------- runs, one action at a time

  /** Some run from `o`, with clock readings that never decrease, ends in `s`. */
  ghost predicate Leads(c: Config, o: Sys, s: Sys) {
    exists actions: seq<Action> :: s == Exec(c, o, actions) && TimelyRun(c, o, actions)
  }

  /** `s` is reached by a run whose clock readings never decrease. */
  ghost predicate TimelyReached(c: Config, s: Sys) {
    exists w: Setup :: Leads(c, Init(w), s)
  }

  lemma {:induction false} TimelySnoc(c: Config, s: Sys, actions: seq<Action>, a: Action)
    ensures TimelyRun(c, s, actions + [a]) <==> TimelyRun(c, s, actions) && Timely(Exec(c, s, actions), a)
    decreases |actions|
  {
    var all := actions + [a];
    if actions == [] {
      assert all[1..] == [];
    } else {
      assert all[1..] == actions[1..] + [a];
      TimelySnoc(c, Step(c, s, actions[0]), actions[1..], a);
    }
  }

  lemma Here(c: Config, s: Sys)
    ensures Leads(c, s, s)
  {
    assert s == Exec(c, s, []) && TimelyRun(c, s, []);
  }

  lemma Next(c: Config, o: Sys, s: Sys, a: Action)
    requires Leads(c, o, s) && Timely(s, a)
    ensures Leads(c, o, Step(c, s, a))
  {
    var actions: seq<Action> :| s == Exec(c, o, actions) && TimelyRun(c, o, actions);
    ExecSnoc(c, o, actions, a);
    TimelySnoc(c, o, actions, a);
    assert Step(c, s, a) == Exec(c, o, actions + [a]);
  }

  lemma {:induction false} LeadsOn(c: Config, o: Sys, s: Sys, more: seq<Action>)
    requires Leads(c, o, s) && TimelyRun(c, s, more)
    ensures Leads(c, o, Exec(c, s, more))
    decreases |more|
  {
    if more != [] {
      Next(c, o, s, more[0]);
      LeadsOn(c, o, Step(c, s, more[0]), more[1..]);
    }
  }

  /** A continuation of a run is a run. */
  lemma Onwards(c: Config, o: Sys, s: Sys, s': Sys)
    requires Leads(c, o, s) && Leads(c, s, s')
    ensures Leads(c, o, s')
  {
    var more: seq<Action> :| s' == Exec(c, s, more) && TimelyRun(c, s, more);
    LeadsOn(c, o, s, more);
  }

  lemma {:induction false} ReachableOn(c: Config, w: Setup, first: seq<Action>, more: seq<Action>)
    ensures Reachable(c, Exec(c, Exec(c, Init(w), first), more))
    decreases |more|
  {
    if more != [] {
      ExecSnoc(c, Init(w), first, more[0]);
      ReachableOn(c, w, first + [more[0]], more[1..]);
    }
  }

  lemma LeadsReachable(c: Config, o: Sys, s: Sys)
    requires Reachable(c, o) && Leads(c, o, s)
    ensures Reachable(c, s)
  {
    var w: Setup, first: seq<Action> :| o == Exec(c, Init(w), first);
    var more: seq<Action> :| s == Exec(c, o, more) && TimelyRun(c, o, more);
    ReachableOn(c, w, first, more);
  }

  lemma TimelyIsReachable(c: Config, s: Sys)
    requires TimelyReached(c, s)
    ensures Reachable(c, s)
  {
    var w: Setup :| Leads(c, Init(w), s);
    assert Init(w) == Exec(c, Init(w), []);
    LeadsReachable(c, Init(w), s);
  }
}
