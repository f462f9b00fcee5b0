/**
When a fenced worker still reaches the network. Losing the token stops every write, but not
a send that needs none. This module says exactly which drives that have lost their token
can still hand bytes to the node, and exhibits both ways in which it happens.
*/
module FencedSends {

  import opened Common
  import opened States
  import opened Chain
  import opened ChainProperties
  import opened NodeAnswers
  import opened Store
  import opened StoreProperties
  import opened Protocol
  import opened Invariant
  import opened InvariantWrites
  import opened InvariantSteps
  import opened History
  import opened ReadOrder
  import opened Freshness
  import opened Scenario
  import opened Newcomers
  import opened TornReads

  // ---------------------------------------------------------------- one action

  lemma ReadTouchesWire(c: Config, n: Node, d: Drive, now: int)
    requires |n.times| > 0 && (d.pc.Wire? ==> d.op.signed.Some?)
    ensures ReadStep(c, n, d, now).0.log != n.log <==> d.pc.Wire?
  {
    if d.pc.Wire? {
      SendShape(n, d.op.signed.value, d.worker, now);
    }
  }

  lemma DriveTouchesWire(c: Config, db: Db, n: Node, d: Drive, now: int)
    requires |n.times| > 0 && (d.pc.Wire? ==> d.op.signed.Some?)
    ensures DriveStep(c, db, n, d, now).node.log != n.log <==> d.pc.Wire?
  {
    ReadTouchesWire(c, n, d, now);
  }

  lemma WireHasBytes(c: Config, s: Sys, i: nat)
    requires Reachable(c, s) && i < |s.drives|
    ensures |s.node.times| > 0 && (s.drives[i].pc.Wire? ==> s.drives[i].op.signed.Some?)
  {
    ReachableInv(c, s);
    assert DriveOk(c, s.node, s.db.events, s.drives[i]);
  }

  /** An action shows the node something exactly when its drive is in front of a send. */
  lemma TouchesWireExactly(c: Config, s: Sys, i: nat, now: int)
    requires Reachable(c, s) && i < |s.drives|
    ensures Step(c, s, Act(i, now)).node.log != s.node.log <==> s.drives[i].pc.Wire?
  {
    WireHasBytes(c, s, i);
    DriveTouchesWire(c, s.db, s.node, s.drives[i], now);
  }

  // ---------------------------------------------------------------- who can still get there

  /** A larger token than that of drive `i` has been issued. */
  predicate Overtaken(s: Sys, i: nat) {
    && i < |s.drives| && s.drives[i].id in s.db.ops
    && s.drives[i].op.token < s.db.ops[s.drives[i].id].token
  }

  /** Chain time does not condemn the envelope yet, and no block carries it. */
  predicate Undecided(c: Config, n: Node, tx: SignedTx, solid: int) {
    !ProvenDead(c, tx, solid) && !InBlock(n, tx.txid)
  }

  /** What an overtaken drive needs to come to a send: a snapshot in `broadcasting`, and a way there without a write. */
  predicate MaySend(c: Config, n: Node, d: Drive)
    requires |n.times| > 0
  {
    && d.op.state == Broadcasting && d.op.signed.Some?
    && match d.pc
       case Wire => true
       case LookedUp(_) => !ProvenDead(c, d.op.signed.value, SolidNow(n))
       case HaveSolid(solid) => Undecided(c, n, d.op.signed.value, solid)
       case Ready => Undecided(c, n, d.op.signed.value, SolidNow(n))
       case Settle(code) =>
         && code == ServerBusy && d.base.state != Broadcasting && d.steps + 1 < MAX_STEPS_PER_CLAIM
         && Undecided(c, n, d.op.signed.value, SolidNow(n))
       case _ => false
  }

  lemma MayNotStays(c: Config, n: Node, m: Node, d: Drive)
    requires NodeInv(n) && NodeInv(m) && Forward(n, m) && !MaySend(c, n, d)
    ensures !MaySend(c, m, d)
  {
    SolidNowGrows(n, m);
  }

  lemma LookupMayNot(c: Config, n: Node, es: seq<Event>, d: Drive, now: int)
    requires NodeInv(n) && DriveOk(c, n, es, d) && (d.pc.Ready? || d.pc.HaveSolid?) && d.op.signed.Some?
    requires !MaySend(c, n, d)
    ensures !MaySend(c, n, Lookup(c, n, d, d.op.signed.value, now).1)
  {
  }

  /** A read does not open a way that was closed. */
  lemma ReadMayNot(c: Config, n: Node, es: seq<Event>, d: Drive, now: int)
    requires NodeInv(n) && DriveOk(c, n, es, d) && Running(d.pc) && Plan(c, d, now).None? && !MaySend(c, n, d)
    ensures !MaySend(c, n, ReadStep(c, n, d, now).1)
  {
    if d.op.signed.Some? && (d.pc.Ready? || d.pc.HaveSolid?) {
      LookupMayNot(c, n, es, d, now);
    }
  }

  /** Nor does any action of an overtaken drive: its writes miss. */
  lemma ActionMayNot(c: Config, db: Db, n: Node, d: Drive, now: int)
    requires NodeInv(n) && DriveOk(c, n, db.events, d) && Owns(db, d) && d.op.token != db.ops[d.id].token
    requires !MaySend(c, n, d)
    ensures !MaySend(c, n, DriveStep(c, db, n, d, now).drive)
  {
    if Running(d.pc) {
      if Plan(c, d, now).Some? {
        OthersMiss(c, n, db, d, Plan(c, d, now).value, now);
      } else {
        ReadMayNot(c, n, db.events, d, now);
      }
    }
  }

  /** Drive `i` is overtaken and will not come to a send. */
  predicate OffTheWire(c: Config, s: Sys, i: nat) {
    |s.node.times| > 0 && Overtaken(s, i) && !MaySend(c, s.node, s.drives[i])
  }

  lemma StaysOvertaken(c: Config, s: Sys, a: Action, i: nat)
    requires Inv(c, s) && Overtaken(s, i)
    ensures var s' := Step(c, s, a); NodeInv(s'.node) && Forward(s.node, s'.node) && Overtaken(s', i)
  {
    StepOnward(c, s, a);
    StepKeeps(c, s, a);
    assert RowLater(s.db.ops[s.drives[i].id], Step(c, s, a).db.ops[s.drives[i].id]);
  }

  /** The action alone, with the facts about the step taken as given. */
  lemma ActorOff(c: Config, s: Sys, i: nat, now: int)
    requires NodeInv(s.node) && OffTheWire(c, s, i)
    requires DriveOk(c, s.node, s.db.events, s.drives[i]) && Owns(s.db, s.drives[i])
    requires var s' := Step(c, s, Act(i, now)); NodeInv(s'.node) && Forward(s.node, s'.node) && Overtaken(s', i)
    ensures OffTheWire(c, Step(c, s, Act(i, now)), i)
  {
    ActionMayNot(c, s.db, s.node, s.drives[i], now);
    MayNotStays(c, s.node, Step(c, s, Act(i, now)).node, Step(c, s, Act(i, now)).drives[i]);
  }

  lemma ActorStaysOff(c: Config, s: Sys, i: nat, now: int)
    requires Inv(c, s) && OffTheWire(c, s, i)
    ensures OffTheWire(c, Step(c, s, Act(i, now)), i)
  {
    assert DriveOk(c, s.node, s.db.events, s.drives[i]) && Owns(s.db, s.drives[i]);
    StaysOvertaken(c, s, Act(i, now), i);
    ActorOff(c, s, i, now);
  }

  lemma OffAfter(c: Config, s: Sys, s': Sys, i: nat)
    requires NodeInv(s.node) && NodeInv(s'.node) && Forward(s.node, s'.node) && OffTheWire(c, s, i) && Overtaken(s', i)
    requires s'.drives[i] == s.drives[i] || s'.drives[i].pc.Raised? || s'.drives[i].pc.Done?
    ensures OffTheWire(c, s', i)
  {
    MayNotStays(c, s.node, s'.node, s.drives[i]);
  }

  lemma NotMoved(c: Config, s: Sys, a: Action, i: nat)
    requires |s.node.times| > 0 && i < |s.drives| && !(a.Act? && a.i == i)
    ensures var s' := Step(c, s, a);
      i < |s'.drives| && (s'.drives[i] == s.drives[i] || s'.drives[i].pc.Raised? || s'.drives[i].pc.Done?)
  {
  }

  lemma StaysOffTheWire(c: Config, s: Sys, a: Action, i: nat)
    requires Inv(c, s) && OffTheWire(c, s, i)
    ensures OffTheWire(c, Step(c, s, a), i)
  {
    if a.Act? && a.i == i {
      ActorStaysOff(c, s, i, a.now);
    } else {
      StaysOvertaken(c, s, a, i);
      NotMoved(c, s, a, i);
      OffAfter(c, s, Step(c, s, a), i);
    }
  }

  lemma {:induction false} OffTheWireForEver(c: Config, s: Sys, more: seq<Action>, i: nat)
    requires Inv(c, s) && OffTheWire(c, s, i)
    ensures OffTheWire(c, Exec(c, s, more), i)
    decreases |more|
  {
    if more != [] {
      StaysOffTheWire(c, s, more[0], i);
      StepKeeps(c, s, more[0]);
      OffTheWireForEver(c, Step(c, s, more[0]), more[1..], i);
    }
  }

  /** In some continuation an action of drive `i` shows the node something. */
  ghost predicate SendsLater(c: Config, s: Sys, i: nat) {
    exists more, now :: SendsAfter(c, s, i, more, now)
  }

  predicate SendsAfter(c: Config, s: Sys, i: nat, more: seq<Action>, now: int) {
    Step(c, Exec(c, s, more), Act(i, now)).node.log != Exec(c, s, more).node.log
  }

  lemma ReachableAfter(c: Config, s: Sys, more: seq<Action>)
    requires Reachable(c, s)
    ensures Reachable(c, Exec(c, s, more))
  {
    var w: Setup, first: seq<Action> :| s == Exec(c, Init(w), first);
    ReachableOn(c, w, first, more);
  }

  lemma LaterStates(c: Config, s: Sys, more: seq<Action>, i: nat)
    requires Reachable(c, s) && OffTheWire(c, s, i)
    ensures Reachable(c, Exec(c, s, more)) && OffTheWire(c, Exec(c, s, more), i)
  {
    ReachableInv(c, s);
    OffTheWireForEver(c, s, more, i);
    ReachableAfter(c, s, more);
  }

  lemma QuietAction(c: Config, s: Sys, i: nat, now: int)
    requires Reachable(c, s) && OffTheWire(c, s, i)
    ensures Step(c, s, Act(i, now)).node.log == s.node.log
  {
    WireHasBytes(c, s, i);
    assert !s.drives[i].pc.Wire? by {
      ReachableInv(c, s);
      assert DriveOk(c, s.node, s.db.events, s.drives[i]);
    }
    TouchesWireExactly(c, s, i, now);
  }

  /** Whatever happens afterwards, an overtaken drive that may not send never does. */
  lemma NeverSends(c: Config, s: Sys, i: nat)
    requires Reachable(c, s) && OffTheWire(c, s, i)
    ensures !SendsLater(c, s, i)
  {
    forall more, now ensures !SendsAfter(c, s, i, more, now) {
      LaterStates(c, s, more, i);
      QuietAction(c, Exec(c, s, more), i, now);
    }
  }

  /** In particular a worker that loses its token before its snapshot says `broadcasting` never touches the wire. */
  lemma LostBeforeAnnouncing(c: Config, s: Sys, i: nat)
    requires Reachable(c, s) && Overtaken(s, i) && s.drives[i].op.state != Broadcasting
    ensures !SendsLater(c, s, i)
  {
    WireHasBytes(c, s, i);
    NeverSends(c, s, i);
  }

  // ---------------------------------------------------------------- and those who can, do

  /** A lookup late enough finds nothing, if no block carries the txid. */
  lemma UnknownSomeTime(n: Node, tx: SignedTx, now: int)
    requires NodeInv(n) && Genuine(tx) && !InBlock(n, tx.txid) && now >= tx.expiration
    ensures StatusOf(n, tx.txid, now) == Unknown
  {
    if tx.txid in n.txs {
      assert RecordOk(n, tx.txid);
    }
  }

  /** Drive `i` with these bytes, in `broadcasting`, at work. */
  ghost predicate CarriesBytes(s: Sys, i: nat, tx: SignedTx) {
    && NodeInv(s.node) && i < |s.drives| && s.drives[i].op.state == Broadcasting
    && s.drives[i].op.signed == Some(tx) && Genuine(tx)
  }

  lemma FromLookedUp(c: Config, o: Sys, s: Sys, i: nat, tx: SignedTx) returns (s': Sys)
    requires Leads(c, o, s) && CarriesBytes(s, i, tx) && s.drives[i].pc.LookedUp? && !ProvenDead(c, tx, SolidNow(s.node))
    ensures Leads(c, o, s') && i < |s'.drives| && s'.drives[i].pc == Wire
  {
    Reads(c, o, s, i, s.clock);
    s' := Step(c, s, Act(i, s.clock));
  }

  lemma FromHaveSolid(c: Config, o: Sys, s: Sys, i: nat, tx: SignedTx) returns (s': Sys)
    requires Leads(c, o, s) && CarriesBytes(s, i, tx) && s.drives[i].pc.HaveSolid?
    requires Undecided(c, s.node, tx, s.drives[i].pc.solid)
    requires HeadFault(s.node.queryFaults) != Some(QueryTimeout)
    ensures Leads(c, o, s') && i < |s'.drives| && s'.drives[i].pc == Wire
  {
    var now := if s.clock < tx.expiration then tx.expiration else s.clock;
    UnknownSomeTime(s.node, tx, now);
    Reads(c, o, s, i, now);
    s' := Step(c, s, Act(i, now));
  }

  lemma FromReady(c: Config, o: Sys, s: Sys, i: nat, tx: SignedTx) returns (s': Sys)
    requires Leads(c, o, s) && CarriesBytes(s, i, tx) && s.drives[i].pc.Ready?
    requires Undecided(c, s.node, tx, SolidNow(s.node))
    requires HeadFault(s.node.queryFaults) != Some(QueryTimeout)
    ensures Leads(c, o, s') && i < |s'.drives| && s'.drives[i].pc == Wire
  {
    if c.clockFirst {
      Reads(c, o, s, i, s.clock);
      var t := Step(c, s, Act(i, s.clock));
      s' := FromHaveSolid(c, o, t, i, tx);
    } else {
      var t := LooksUp(c, o, s, i, tx);
      s' := FromLookedUp(c, o, t, i, tx);
    }
  }

  lemma LooksUp(c: Config, o: Sys, s: Sys, i: nat, tx: SignedTx) returns (s': Sys)
    requires !c.clockFirst && Leads(c, o, s) && CarriesBytes(s, i, tx) && s.drives[i].pc.Ready?
    requires Undecided(c, s.node, tx, SolidNow(s.node)) && HeadFault(s.node.queryFaults) != Some(QueryTimeout)
    ensures Leads(c, o, s') && CarriesBytes(s', i, tx) && s'.drives[i].pc.LookedUp? && SolidNow(s'.node) == SolidNow(s.node)
  {
    var now := if s.clock < tx.expiration then tx.expiration else s.clock;
    UnknownSomeTime(s.node, tx, now);
    Reads(c, o, s, i, now);
    s' := Step(c, s, Act(i, now));
    StepForward(s.node, Query(tx.txid, now));
  }

  lemma FromSettle(c: Config, o: Sys, s: Sys, i: nat, tx: SignedTx) returns (s': Sys)
    requires Leads(c, o, s) && CarriesBytes(s, i, tx) && s.drives[i].pc == Settle(ServerBusy)
    requires s.drives[i].base.state != Broadcasting && s.drives[i].steps + 1 < MAX_STEPS_PER_CLAIM
    requires Undecided(c, s.node, tx, SolidNow(s.node)) && HeadFault(s.node.queryFaults) != Some(QueryTimeout)
    ensures Leads(c, o, s') && i < |s'.drives| && s'.drives[i].pc == Wire
  {
    Reads(c, o, s, i, s.clock);
    var t := Step(c, s, Act(i, s.clock));
    s' := FromReady(c, o, t, i, tx);
  }

  /** From every point at which a drive may send, some continuation brings it to the wire. */
  lemma ComesToTheWire(c: Config, s: Sys, i: nat, tx: SignedTx) returns (s': Sys)
    requires CarriesBytes(s, i, tx) && MaySend(c, s.node, s.drives[i])
    requires HeadFault(s.node.queryFaults) != Some(QueryTimeout)
    ensures Leads(c, s, s') && i < |s'.drives| && s'.drives[i].pc == Wire
  {
    Here(c, s);
    match s.drives[i].pc
    case Wire => s' := s;
    case LookedUp(_) => s' := FromLookedUp(c, s, s, i, tx);
    case HaveSolid(_) => s' := FromHaveSolid(c, s, s, i, tx);
    case Ready => s' := FromReady(c, s, s, i, tx);
    case Settle(_) => s' := FromSettle(c, s, s, i, tx);
  }

  lemma CarriesBytesNow(c: Config, s: Sys, i: nat)
    requires Reachable(c, s) && i < |s.drives| && s.drives[i].op.state == Broadcasting && s.drives[i].op.signed.Some?
    ensures CarriesBytes(s, i, s.drives[i].op.signed.value)
  {
    ReachableInv(c, s);
    assert DriveOk(c, s.node, s.db.events, s.drives[i]);
    SignedBytes(c, s.drives[i].op);
  }

  // ---------------------------------------------------------------- scripted query timeouts can be used up by others

  /** Drive `i` is where it was, and of the node only the scripted query faults may differ. */
  predicate Untouched(s: Sys, s': Sys, i: nat) {
    && i < |s.drives| && i < |s'.drives| && s'.drives[i] == s.drives[i]
    && s'.node == s.node.(queryFaults := s'.node.queryFaults)
  }

  /** An operation in `broadcasting` that any worker may look up. */
  predicate Decoy(s: Sys, id: OpId) {
    && |s.node.times| > 0 && id in s.db.ops && s.db.ops[id].state == Broadcasting && s.db.ops[id].signed.Some?
  }

  lemma MakesDecoy(c: Config, o: Sys, s: Sys, i: nat, to: string, amount: int) returns (s': Sys, id: OpId)
    requires Reachable(c, o) && Leads(c, o, s) && |s.node.times| > 0 && i < |s.drives|
    requires c.maxAttempts > 0 && c.ttlMs >= 1 && Acceptable(c, NewRow(to, c.asset, amount, s.clock))
    ensures Leads(c, o, s') && Untouched(s, s', i) && s'.node == s.node && Decoy(s', id)
  {
    var j;
    s', id, j := Newcomer(c, o, s, to, amount);
    assert s'.drives[i] == s.drives[i];
  }

  /** One lookup of the decoy uses up one scripted fault. */
  lemma LooksUpDecoy(c: Config, o: Sys, s: Sys, i: nat, j: nat) returns (s': Sys)
    requires Leads(c, o, s) && Holder(s, j) && i < j && s.drives[j].pc == Ready
    requires s.drives[j].op.state == Broadcasting && s.drives[j].op.signed.Some?
    ensures Leads(c, o, s') && Untouched(s, s', i) && s'.db == s.db
    ensures s'.node.queryFaults == RestFaults(s.node.queryFaults)
  {
    Reads(c, o, s, j, s.clock);
    s' := Step(c, s, Act(j, s.clock));
    if c.clockFirst {
      var t := s';
      Reads(c, o, t, j, s.clock);
      s' := Step(c, t, Act(j, s.clock));
    }
  }

  lemma UsesUpOne(c: Config, o: Sys, s: Sys, i: nat, id: OpId) returns (s': Sys)
    requires Reachable(c, o) && Leads(c, o, s) && i < |s.drives| && Decoy(s, id)
    ensures Leads(c, o, s') && Untouched(s, s', i) && Decoy(s', id)
    ensures s'.node.queryFaults == RestFaults(s.node.queryFaults)
  {
    IdHasArrived(c, o, s, id);
    var lease := s.db.ops[id].lease;
    var free := if lease.Some? && s.clock < lease.value then lease.value else s.clock;
    var t, j := Claims(c, o, s, id, "D", free);
    assert t.drives[i] == s.drives[i];
    s' := LooksUpDecoy(c, o, t, i, j);
  }

  lemma {:induction false} UsesUpAll(c: Config, o: Sys, s: Sys, i: nat, id: OpId) returns (s': Sys)
    requires Reachable(c, o) && Leads(c, o, s) && i < |s.drives| && Decoy(s, id)
    ensures Leads(c, o, s') && Untouched(s, s', i) && s'.node.queryFaults == []
    decreases |s.node.queryFaults|
  {
    s' := s;
    if s.node.queryFaults != [] {
      var t := UsesUpOne(c, o, s, i, id);
      s' := UsesUpAll(c, o, t, i, id);
    }
  }

  /** With a lifetime of at least a millisecond, some continuation leaves no query fault in drive `i`'s way. */
  lemma ClearsTheWay(c: Config, s: Sys, i: nat) returns (s': Sys)
    requires Reachable(c, s) && i < |s.drives| && s.drives[i].op.state == Broadcasting && c.ttlMs >= 1
    ensures Leads(c, s, s') && Untouched(s, s', i) && s'.node.queryFaults == []
  {
    Here(c, s);
    PayableAgain(c, s, i);
    var t, id := MakesDecoy(c, s, s, i, s.drives[i].op.to, s.drives[i].op.amount);
    s' := UsesUpAll(c, s, t, i, id);
  }

  lemma PayableAgain(c: Config, s: Sys, i: nat)
    requires Reachable(c, s) && i < |s.drives| && s.drives[i].op.state == Broadcasting
    ensures |s.node.times| > 0 && c.maxAttempts > 0
    ensures Acceptable(c, NewRow(s.drives[i].op.to, c.asset, s.drives[i].op.amount, s.clock))
  {
    ReachableInv(c, s);
    assert DriveOk(c, s.node, s.db.events, s.drives[i]);
  }

  // ---------------------------------------------------------------- the theorem

  lemma SendsFrom(c: Config, s: Sys, t: Sys, i: nat)
    requires Reachable(c, s) && Leads(c, s, t) && i < |t.drives| && t.drives[i].pc == Wire
    ensures SendsLater(c, s, i)
  {
    LeadsReachable(c, s, t);
    TouchesWireExactly(c, t, i, t.clock);
    var more: seq<Action> :| t == Exec(c, s, more) && TimelyRun(c, s, more);
    assert SendsAfter(c, s, i, more, t.clock);
  }

  lemma CanSend(c: Config, s: Sys, i: nat)
    requires Reachable(c, s) && i < |s.drives| && |s.node.times| > 0 && MaySend(c, s.node, s.drives[i])
    requires c.ttlMs >= 1 || HeadFault(s.node.queryFaults) != Some(QueryTimeout)
    ensures SendsLater(c, s, i)
  {
    Here(c, s);
    var t := s;
    if HeadFault(s.node.queryFaults) == Some(QueryTimeout) {
      t := ClearsTheWay(c, s, i);
    }
    LeadsReachable(c, s, t);
    CarriesBytesNow(c, t, i);
    var u := ComesToTheWire(c, t, i, t.drives[i].op.signed.value);
    Onwards(c, s, t, u);
    SendsFrom(c, s, u, i);
  }

  /**
  The exact condition, to be read off the moment the token is lost: some continuation makes
  an overtaken drive send if and only if its snapshot is in `broadcasting` and its program
  point leads to a send without a write. Query timeouts that are scripted make no difference
  as long as envelopes live for a millisecond at all.
  */
  lemma OvertakenSendsExactly(c: Config, s: Sys, i: nat)
    requires Reachable(c, s) && Overtaken(s, i)
    requires c.ttlMs >= 1 || HeadFault(s.node.queryFaults) != Some(QueryTimeout)
    ensures |s.node.times| > 0
    ensures SendsLater(c, s, i) <==> MaySend(c, s.node, s.drives[i])
  {
    WireHasBytes(c, s, i);
    if MaySend(c, s.node, s.drives[i]) {
      CanSend(c, s, i);
    } else {
      NeverSends(c, s, i);
    }
  }

  // ---------------------------------------------------------------- both ways exhibited

  /** Overtaken between the write-ahead and the send: the send goes out all the same. */
  lemma FirstSendAfterFencing(c: Config, to: string, amount: int) returns (s: Sys, i: nat, now: int)
    requires Shipped(c) && Acceptable(c, NewRow(to, c.asset, amount, 0))
    ensures TimelyReached(c, s) && Overtaken(s, i) && s.clock <= now
    ensures Step(c, s, Act(i, now)).node.log != s.node.log
  {
    var o := Origin(c);
    var t, raw;
    t, i, raw := FirstWorkerStalls(c, to, amount);
    var j;
    s, j := SecondWorkerLooks(c, o, t, i, raw);
    now := s.clock;
    assert TimelyReached(c, s);
    TimelyIsReachable(c, s);
    TouchesWireExactly(c, s, i, now);
  }

  /** Overtaken after the lookup of a reconcile: the same bytes are sent again all the same. */
  lemma ResendAfterFencing(c: Config, to: string, amount: int) returns (s: Sys, i: nat, now: int)
    requires Shipped(c) && Acceptable(c, NewRow(to, c.asset, amount, 0))
    ensures TimelyReached(c, s) && Overtaken(s, i) && s.clock <= now && s.drives[i].base.state == Broadcasting
    ensures Step(c, s, Act(i, now)).node.log != s.node.log
  {
    var o := Origin(c);
    var t, first, raw := FirstWorkerStalls(c, to, amount);
    var u;
    u, i := SecondWorkerLooks(c, o, t, first, raw);
    var v, j := Claims(c, o, u, 0, "C", 80000);
    assert v.drives[i] == u.drives[i];
    Reads(c, o, v, i, 80000);
    s := Step(c, v, Act(i, 80000));
    now := 80000;
    assert TimelyReached(c, s);
    TimelyIsReachable(c, s);
    TouchesWireExactly(c, s, i, now);
  }
}
