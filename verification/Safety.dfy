/**
The promises, for every run of any number of workers with crashes, stalls, exceptions,
lying timeouts and arbitrary clock readings: money moves at most once per operation,
nothing unannounced reaches the wire, and terminal states tell the truth for ever.
*/
module Safety {

  import opened Common
  import opened States
  import opened Chain
  import opened ChainProperties
  import opened Store
  import opened StoreProperties
  import opened Protocol
  import opened Invariant
  import opened InvariantSteps
  import opened SafetyProof
  import opened History
  import InvariantWrites

  // ---------------------------------------------------------------- money moves at most once

  /** The txids committed to the wire for this operation that made it into a block. */
  ghost function LandedTxids(s: Sys, id: OpId): set<Txid> {
    set txid | txid in s.node.txs && InBlock(s.node, txid) && WroteAhead(s.db.events, id, txid)
  }

  /** The same over every txid the operation was ever given, sent or not. */
  ghost function LandedEver(s: Sys, id: OpId): set<Txid> {
    set txid | txid in s.node.txs && InBlock(s.node, txid) && Given(s.db.events, id, txid)
  }

  lemma AtMostOne<T>(a: set<T>, b: T)
    requires forall x :: x in a ==> x == b
    ensures |a| <= 1
  {
    assert a <= {b};
    if a != {} {
      assert a == {b};
    }
  }

  lemma LandedIsCurrent(c: Config, s: Sys, id: OpId, txid: Txid)
    requires DbInv(s.db) && SafeInv(s) && WroteAhead(s.db.events, id, txid) && InBlock(s.node, txid)
    ensures id in s.db.ops && s.db.ops[id].txid == Some(txid) && Live(s.db.ops[id])
  {
    var k :| 0 <= k < |s.db.events| && s.db.events[k].id == id && s.db.events[k].detail == WriteAhead(txid);
    assert Safe(s.node, s.db.events, id, s.db.ops[id]);
  }

  /** Of all txids ever written ahead for an operation, at most one is in a block. */
  lemma AtMostOnce(c: Config, s: Sys, id: OpId)
    requires SafelyReachable(c, s)
    ensures |LandedTxids(s, id)| <= 1
  {
    SafelyReachableInv(c, s);
    if txid :| txid in LandedTxids(s, id) {
      forall t | t in LandedTxids(s, id) ensures t == txid {
        LandedIsCurrent(c, s, id, t);
        LandedIsCurrent(c, s, id, txid);
      }
      AtMostOne(LandedTxids(s, id), txid);
    }
  }

  /** No txid appears in the logs of two operations. */
  ghost predicate NoSharing(es: seq<Event>) {
    forall a, b, txid :: Given(es, a, txid) && Given(es, b, txid) ==> a == b
  }

  lemma WroteAheadIsGiven(es: seq<Event>, id: OpId, txid: Txid)
    requires WroteAhead(es, id, txid)
    ensures Given(es, id, txid)
  {
    var k :| 0 <= k < |es| && es[k].id == id && es[k].detail == WriteAhead(txid);
    assert TxidOf(es[k].detail) == Some(txid);
  }

  /** With unshared txids, whatever the chain holds of an operation's txids was written ahead for it. */
  lemma GivenAndAccepted(c: Config, s: Sys, id: OpId, txid: Txid)
    requires AcceptedOk(c, s.node, s.db.events) && NoSharing(s.db.events)
    requires Given(s.db.events, id, txid) && txid in s.node.txs
    ensures WroteAhead(s.db.events, id, txid)
  {
    var other :| WroteAhead(s.db.events, other, txid);
    WroteAheadIsGiven(s.db.events, other, txid);
  }

  lemma LandedEverIsLanded(c: Config, s: Sys, id: OpId)
    requires AcceptedOk(c, s.node, s.db.events) && NoSharing(s.db.events)
    ensures LandedEver(s, id) == LandedTxids(s, id)
  {
    forall txid | txid in LandedEver(s, id) ensures txid in LandedTxids(s, id) {
      GivenAndAccepted(c, s, id, txid);
    }
    forall txid | txid in LandedTxids(s, id) ensures txid in LandedEver(s, id) {
      WroteAheadIsGiven(s.db.events, id, txid);
    }
  }

  /** The same for all txids the operation was ever given, when no two operations were given the same one. */
  lemma AtMostOnceEver(c: Config, s: Sys, id: OpId)
    requires SafelyReachable(c, s) && NoSharing(s.db.events)
    ensures |LandedEver(s, id)| <= 1
  {
    SafelyReachableInv(c, s);
    LandedEverIsLanded(c, s, id);
    AtMostOnce(c, s, id);
  }

  // ---------------------------------------------------------------- the wire

  /** Every txid any worker ever showed the node, fenced or not, accepted or not, was written ahead first. */
  lemma NothingUnannounced(c: Config, s: Sys, k: nat)
    requires Reachable(c, s) && k < |s.node.log|
    ensures Announced(s.db.events, s.node.log[k].txid)
  {
    ReachableInv(c, s);
  }

  /** Whatever the node accepted pays the destination and the amount of an operation that announced it. */
  lemma ChainPaysAsAsked(c: Config, s: Sys, txid: Txid)
    requires Reachable(c, s) && txid in s.node.txs
    ensures exists id :: id in s.db.ops && WroteAhead(s.db.events, id, txid)
                         && s.node.txs[txid].tx.raw.to == s.db.ops[id].to
                         && s.node.txs[txid].tx.raw.amount == s.db.ops[id].amount
  {
    ReachableInv(c, s);
    var id :| WroteAhead(s.db.events, id, txid);
    var k :| 0 <= k < |s.db.events| && s.db.events[k].id == id && s.db.events[k].detail == WriteAhead(txid);
    WroteAheadIsGiven(s.db.events, id, txid);
    assert RowInv(c, s.node, s.db.events, id, s.db.ops[id]);
  }

  /**
  A send by any drive, however stale its token, carries bytes that were written ahead for
  its operation and are either dead or the operation's current envelope.
  */
  lemma LateSend(c: Config, s: Sys, i: nat)
    requires SafelyReachable(c, s) && i < |s.drives| && s.drives[i].pc.Wire?
    ensures var d := s.drives[i];
      && |s.node.times| > 0
      && d.op.signed.Some?
      && d.id in s.db.ops
      && var txid := d.op.signed.value.txid;
      && WroteAhead(s.db.events, d.id, txid)
      && (Dead(s.node, txid) || (s.db.ops[d.id].txid == Some(txid) && Live(s.db.ops[d.id])))
  {
    SafelyReachableInv(c, s);
    var d := s.drives[i];
    assert DriveOk(c, s.node, s.db.events, d) && Owns(s.db, d);
    SignedBytes(c, d.op);
    assert Safe(s.node, s.db.events, d.id, s.db.ops[d.id]);
  }

  lemma SignedEnvelope(c: Config, s: Sys, id: OpId, row: Row)
    requires |s.node.times| > 0 && AcceptedOk(c, s.node, s.db.events)
    requires RowOk(c, row) && Facts(s.node, s.db.events, id, row)
    requires Safe(s.node, s.db.events, id, row) && row.state == Signed
    ensures row.txid.Some?
    ensures WroteAhead(s.db.events, id, row.txid.value) ==> Dead(s.node, row.txid.value)
    ensures NoSharing(s.db.events) ==> row.txid.value !in s.node.txs || Dead(s.node, row.txid.value)
  {
    if NoSharing(s.db.events) && row.txid.value in s.node.txs {
      GivenAndAccepted(c, s, id, row.txid.value);
    }
  }

  /** The envelope of a row in `signed` was never committed to the wire, or is dead: retiring it is safe. */
  lemma SignedNeverSent(c: Config, s: Sys, id: OpId)
    requires SafelyReachable(c, s) && id in s.db.ops && s.db.ops[id].state == Signed
    ensures |s.node.times| > 0 && s.db.ops[id].txid.Some?
    ensures var txid := s.db.ops[id].txid.value;
      && (WroteAhead(s.db.events, id, txid) ==> Dead(s.node, txid))
      && (NoSharing(s.db.events) ==> txid !in s.node.txs || Dead(s.node, txid))
  {
    SafelyReachableInv(c, s);
    assert RowInv(c, s.node, s.db.events, id, s.db.ops[id]);
    SignedEnvelope(c, s, id, s.db.ops[id]);
  }

  // ---------------------------------------------------------------- when two envelopes are one

  lemma GivenPays(c: Config, s: Sys, id: OpId, txid: Txid)
    requires Inv(c, s) && Given(s.db.events, id, txid)
    ensures id in s.db.ops && Pays(c, s.db.ops[id], txid)
  {
    var k :| 0 <= k < |s.db.events| && s.db.events[k].id == id && TxidOf(s.db.events[k].detail) == Some(txid);
    assert RowInv(c, s.node, s.db.events, id, s.db.ops[id]);
  }

  /**
  Two envelopes, of one operation or of two, have the same txid exactly when destination,
  amount, reference block and the millisecond of the build agree.
  */
  lemma SameTxidExactly(c: Config, s: Sys, a: OpId, b: OpId, ta: Txid, tb: Txid)
    requires Reachable(c, s) && Given(s.db.events, a, ta) && Given(s.db.events, b, tb)
    ensures a in s.db.ops && b in s.db.ops
    ensures ta == tb <==>
            && s.db.ops[a].to == s.db.ops[b].to && s.db.ops[a].amount == s.db.ops[b].amount
            && ta.raw.refBlock == tb.raw.refBlock && ta.raw.timestamp == tb.raw.timestamp
  {
    ReachableInv(c, s);
    GivenPays(c, s, a, ta);
    GivenPays(c, s, b, tb);
  }

  // ---------------------------------------------------------------- artefacts

  lemma RowsAreInOrder(c: Config, s: Sys, id: OpId)
    requires Reachable(c, s) && id in s.db.ops
    ensures RowInv(c, s.node, s.db.events, id, s.db.ops[id])
  {
    ReachableInv(c, s);
  }

  /** In `signed`, `broadcasting` and `broadcast` the row holds its own envelope, signed, complete. */
  lemma EnvelopeAtHand(c: Config, s: Sys, id: OpId)
    requires Reachable(c, s) && id in s.db.ops && InFlight(s.db.ops[id].state)
    ensures var row := s.db.ops[id];
      && row.signed.Some?
      && row.txid == Some(row.signed.value.txid)
      && row.expiration == Some(row.signed.value.expiration)
      && row.signed.value.raw.to == row.to
      && row.signed.value.raw.amount == row.amount
      && row.signed.value == Sign(c.signer, row.signed.value.raw)
  {
    RowsAreInOrder(c, s, id);
  }

  lemma ReadNeverRaises(c: Config, n: Node, es: seq<Event>, d: Drive, now: int)
    requires |n.times| > 0 && DriveOk(c, n, es, d) && Running(d.pc) && Plan(c, d, now).None?
    ensures !ReadStep(c, n, d, now).1.pc.Raised?
  {
  }

  lemma WriteNeverRaises(c: Config, n: Node, db: Db, d: Drive, p: CasPlan, now: int)
    requires InvariantWrites.Planned(c, n, db.events, d, p, now)
    ensures !WriteStep(c, db, n, d, p, now).drive.pc.Raised?
  {
    InvariantWrites.WriteLegal(c, n, db.events, d, p, now);
  }

  /**
  So no handler ever raises: no missing or foreign envelope, no unknown state, no illegal
  transition. Only an exception thrown from outside brings a drive to the breadcrumb.
  */
  lemma NoHandlerError(c: Config, s: Sys, i: nat, now: int)
    requires Reachable(c, s) && i < |s.drives| && Running(s.drives[i].pc)
    ensures |s.node.times| > 0 && !DriveStep(c, s.db, s.node, s.drives[i], now).drive.pc.Raised?
  {
    ReachableInv(c, s);
    var d := s.drives[i];
    assert DriveOk(c, s.node, s.db.events, d);
    var p := Plan(c, d, now);
    if p.Some? {
      WriteNeverRaises(c, s.node, s.db, d, p.value, now);
    } else {
      ReadNeverRaises(c, s.node, s.db.events, d, now);
    }
  }

  // ---------------------------------------------------------------- terminal states tell the truth

  /** A terminal row is a brick: whatever happens next, only `updated_at` can move. */
  lemma TerminalForEver(c: Config, s: Sys, more: seq<Action>, id: OpId)
    requires Reachable(c, s) && id in s.db.ops && Terminal(s.db.ops[id].state)
    ensures var s' := Exec(c, s, more);
      id in s'.db.ops && s'.db.ops[id] == s.db.ops[id].(updatedAt := s'.db.ops[id].updatedAt)
  {
    ReachableInv(c, s);
    RunOnward(c, s, more);
    var s' := Exec(c, s, more);
    assert RowLater(s.db.ops[id], s'.db.ops[id]);
    assert RowInv(c, s'.node, s'.db.events, id, s'.db.ops[id]) && RowInv(c, s.node, s.db.events, id, s.db.ops[id]);
  }

  lemma ConfirmedNow(c: Config, s: Sys, id: OpId, row: Row)
    requires DbInv(s.db) && SafeInv(s) && AcceptedOk(c, s.node, s.db.events)
    requires id in s.db.ops && row == s.db.ops[id] && row.state == Confirmed && Facts(s.node, s.db.events, id, row)
    ensures LandedTxids(s, id) == {row.txid.value}
    ensures NoSharing(s.db.events) ==> LandedEver(s, id) == {row.txid.value}
  {
    forall t | t in LandedTxids(s, id) ensures t == row.txid.value {
      LandedIsCurrent(c, s, id, t);
    }
    assert row.txid.value in LandedTxids(s, id);
    if NoSharing(s.db.events) {
      LandedEverIsLanded(c, s, id);
    }
  }

  /** Confirmed: for the rest of the run there is exactly one landed txid, it succeeded, and `lag` blocks are on top. */
  lemma ConfirmedForEver(c: Config, s: Sys, more: seq<Action>, id: OpId)
    requires SafelyReachable(c, s) && CarefulRun(c, s, more) && id in s.db.ops && s.db.ops[id].state == Confirmed
    ensures s.db.ops[id].txid.Some?
    ensures var s' := Exec(c, s, more);
      var txid := s.db.ops[id].txid.value;
      && LandedTxids(s', id) == {txid}
      && (NoSharing(s'.db.events) ==> LandedEver(s', id) == {txid})
      && Succeeded(s'.node, txid)
      && s'.node.txs[txid].included == s.db.ops[id].includedBlock
      && s'.node.txs[txid].included.value + s'.node.lag <= GENESIS + |s'.node.times| - 1
  {
    SafelyReachableInv(c, s);
    RunOnward(c, s, more);
    RunSafe(c, s, more);
    var s' := Exec(c, s, more);
    assert RowLater(s.db.ops[id], s'.db.ops[id]);
    assert RowInv(c, s'.node, s'.db.events, id, s'.db.ops[id]);
    ConfirmedNow(c, s', id, s'.db.ops[id]);
  }

  lemma FailedNow(c: Config, s: Sys, id: OpId, txid: Txid)
    requires Inv(c, s) && SafeInv(s) && id in s.db.ops && s.db.ops[id].state in {Failed, Rejected}
    requires WroteAhead(s.db.events, id, txid)
    ensures !Succeeded(s.node, txid)
  {
    if InBlock(s.node, txid) {
      var row := s.db.ops[id];
      LandedIsCurrent(c, s, id, txid);
      assert RowInv(c, s.node, s.db.events, id, row);
      SignedBytes(c, row);
      assert RecordOk(s.node, txid);
      assert s.node.txs[txid].tx == row.signed.value;
    }
  }

  lemma FailedEver(c: Config, s: Sys, id: OpId, txid: Txid)
    requires Inv(c, s) && SafeInv(s) && id in s.db.ops && s.db.ops[id].state in {Failed, Rejected}
    requires NoSharing(s.db.events) && Given(s.db.events, id, txid)
    ensures !Succeeded(s.node, txid)
  {
    if txid in s.node.txs {
      GivenAndAccepted(c, s, id, txid);
      FailedNow(c, s, id, txid);
    }
  }

  lemma CarefulOnward(c: Config, s: Sys, more: seq<Action>)
    requires SafelyReachable(c, s) && CarefulRun(c, s, more)
    ensures var s' := Exec(c, s, more);
      Inv(c, s') && SafeInv(s') && Later(s.db, s'.db)
  {
    SafelyReachableInv(c, s);
    RunOnward(c, s, more);
    RunSafe(c, s, more);
  }

  lemma StaysFailed(db: Db, db': Db, id: OpId)
    requires Later(db, db') && id in db.ops && db.ops[id].state in {Failed, Rejected}
    ensures id in db'.ops && db'.ops[id].state in {Failed, Rejected}
  {
    assert RowLater(db.ops[id], db'.ops[id]);
  }

  /** Failed or rejected: no txid of the operation has succeeded on chain, and none ever will. */
  lemma FailedForEver(c: Config, s: Sys, more: seq<Action>, id: OpId, txid: Txid)
    requires SafelyReachable(c, s) && CarefulRun(c, s, more)
    requires id in s.db.ops && s.db.ops[id].state in {Failed, Rejected}
    ensures var s' := Exec(c, s, more);
      && (WroteAhead(s'.db.events, id, txid) ==> !Succeeded(s'.node, txid))
      && (NoSharing(s'.db.events) && Given(s'.db.events, id, txid) ==> !Succeeded(s'.node, txid))
  {
    CarefulOnward(c, s, more);
    var s' := Exec(c, s, more);
    StaysFailed(s.db, s'.db, id);
    if WroteAhead(s'.db.events, id, txid) {
      FailedNow(c, s', id, txid);
    }
    if NoSharing(s'.db.events) && Given(s'.db.events, id, txid) {
      FailedEver(c, s', id, txid);
    }
  }
}
