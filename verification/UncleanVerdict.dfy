/**
The careful-run condition is not only enough, it is needed. Whenever the current holder is
about to bury a transaction that a block already carries, some continuation pays again.
*/
module UncleanVerdict {

  import opened Common
  import opened States
  import opened Chain
  import opened ChainProperties
  import opened Store
  import opened Protocol
  import opened Invariant
  import opened InvariantSteps
  import opened SafetyProof
  import opened Safety
  import opened ReadOrder
  import opened Scenario
  import opened Newcomers

  // ---------------------------------------------------------------- a transaction the chain will take

  /** A time no earlier than `t` at which none of these envelopes was built. */
  lemma {:induction false} LateEnough(order: seq<Txid>, t: int) returns (now: int)
    ensures t <= now && forall txid :: txid in order ==> txid.raw.timestamp < now
    decreases |order|
  {
    now := t;
    if order != [] {
      var later := LateEnough(order[1..], t);
      assert order == [order[0]] + order[1..];
      now := if order[0].raw.timestamp < later then later else order[0].raw.timestamp + 1;
    }
  }

  /** `k` more blocks, one millisecond apart, are early enough and many enough to include the transaction. */
  predicate Due(n: Node, txid: Txid, now: int, k: nat) {
    && |n.times| > 0 && txid in n.txs && txid in n.order && n.txs[txid].included.None? && k > 0
    && NextTime(n, now) + k - 1 < n.txs[txid].tx.expiration
    && Head(n) + k - n.txs[txid].acceptedAt >= n.delay
  }

  lemma OneBlock(n: Node, txid: Txid, now: int, k: nat)
    requires NodeInv(n) && Due(n, txid, now, k)
    ensures var m := Produce(n, now);
      && NodeInv(m) && Forward(n, m)
      && (n.receiptFaults == [] ==> m.receiptFaults == [])
      && if InBlock(m, txid) then n.receiptFaults == [] ==> Succeeded(m, txid) else k > 1 && Due(m, txid, now, k - 1)
  {
    ProduceForward(n, now);
    MinePointwise(n.txs, n.order, Head(n) + 1, NextTime(n, now), n.delay, n.receiptFaults);
    HonestMine(n.txs, n.order, Head(n) + 1, NextTime(n, now), n.delay);
  }

  lemma {:induction false} LandsInTime(c: Config, o: Sys, s: Sys, txid: Txid, now: int, k: nat) returns (s': Sys)
    requires Leads(c, o, s) && s.clock <= now && NodeInv(s.node) && Due(s.node, txid, now, k)
    ensures Leads(c, o, s') && s'.db == s.db && NodeInv(s'.node) && Forward(s.node, s'.node) && InBlock(s'.node, txid)
    ensures s.node.receiptFaults == [] ==> Succeeded(s'.node, txid)
    decreases k
  {
    Next(c, o, s, Block(now));
    OneBlock(s.node, txid, now, k);
    s' := Step(c, s, Block(now));
    if !InBlock(s'.node, txid) {
      var t := s';
      s' := LandsInTime(c, o, t, txid, now, k - 1);
      ForwardTrans(s.node, t.node, s'.node);
    }
  }

  lemma SameKey(c: Config, s: Sys, txid: Txid)
    requires NodeInv(s.node) && AcceptedOk(c, s.node, s.db.events) && txid in s.node.txs
    ensures s.node.key == c.signer
  {
    assert RecordOk(s.node, txid);
    assert s.node.txs[txid].tx == Sign(c.signer, txid.raw);
  }

  // ---------------------------------------------------------------- retire, reclaim, send again

  /** The envelope is retired and the row is back in `signing`. */
  lemma RetiresIt(c: Config, o: Sys, s: Sys, i: nat) returns (s': Sys)
    requires Leads(c, o, s) && Holder(s, i) && s.drives[i].pc.Retire? && InFlight(s.drives[i].op.state)
    ensures Leads(c, o, s') && s'.node == s.node && s.db.events <= s'.db.events && s'.clock == s.clock
    ensures var d := s.drives[i];
      && d.id in s'.db.ops && s'.db.ops[d.id].state == Signing && s'.db.ops[d.id].attempts == d.op.attempts + 1
  {
    var d := s.drives[i];
    Writes(c, o, s, i, s.clock, RetirePlan(d.op, d.pc.reason, d.pc.evidence));
    s' := Step(c, s, Act(i, s.clock));
  }

  /** When the lease has run out another worker takes the operation up. */
  lemma Reclaims(c: Config, o: Sys, s: Sys, id: OpId) returns (s': Sys, j: nat)
    requires Reachable(c, o) && Leads(c, o, s) && |s.node.times| > 0 && id in s.db.ops && s.db.ops[id].state == Signing
    ensures Leads(c, o, s') && s'.node == s.node && s.db.events <= s'.db.events && Holder(s', j)
    ensures var d' := s'.drives[j];
      && d'.id == id && d'.pc == Ready && d'.steps == 0 && d'.base == d'.op
      && d'.op.state == Signing && d'.op.attempts == s.db.ops[id].attempts
  {
    IdHasArrived(c, o, s, id);
    var lease := s.db.ops[id].lease;
    var free := if lease.Some? && s.clock < lease.value then lease.value else s.clock;
    s', j := Claims(c, o, s, id, "B", free);
  }

  /** An operation back in `signing` gets a new envelope that the node has never seen. */
  lemma NewEnvelope(c: Config, o: Sys, s: Sys, j: nat) returns (s': Sys, raw: RawData)
    requires Leads(c, o, s) && NodeInv(s.node) && Holder(s, j) && c.ttlMs >= 1
    requires s.drives[j].pc == Ready && s.drives[j].steps == 0 && s.drives[j].op.state == Signing
    requires s.drives[j].base == s.drives[j].op && s.drives[j].op.attempts < c.maxAttempts
    ensures Leads(c, o, s') && s'.node == s.node && s.db.events <= s'.db.events && j < |s'.drives|
    ensures Txid(raw) !in s.node.txs && raw.expiration == s'.clock + c.ttlMs && HeadTime(s.node) < s'.clock
    ensures s'.drives[j].pc == Wire && s'.drives[j].op.signed == Some(Sign(c.signer, raw))
    ensures WroteAhead(s'.db.events, s.drives[j].id, Txid(raw))
  {
    Reads(c, o, s, j, s.clock);
    var t := Step(c, s, Act(j, s.clock));
    var now := LateEnough(s.node.order, if s.clock <= HeadTime(s.node) then HeadTime(s.node) + 1 else s.clock);
    raw := BuildRaw(c, s.drives[j].op, RefBlock(s.node), now);
    NotYetKnown(s.node, Txid(raw));
    s' := UpToTheWire(c, o, t, j, RefBlock(s.node), now);
  }

  lemma NotYetKnown(n: Node, txid: Txid)
    requires NodeInv(n) && txid !in n.order
    ensures txid !in n.txs
  {
    assert txid in n.txs ==> RecordOk(n, txid);
  }

  lemma AdmittedIsDue(n: Node, tx: SignedTx, worker: string, now: int, k: nat)
    requires NodeInv(n) && Genuine(tx) && Verify(n.key, tx) && tx.txid !in n.txs && HeadTime(n) < now
    requires now + k <= tx.expiration && k >= 1 && k >= n.delay
    ensures var m := Logged(Admit(n, tx), tx.txid, LoggedAccepted, worker);
      NodeInv(m) && Forward(n, m) && Due(m, tx.txid, now, k)
  {
    AdmitForward(n, tx);
    RelabelForward(Admit(n, tx), Logged(Admit(n, tx), tx.txid, LoggedAccepted, worker));
    ForwardTrans(n, Admit(n, tx), Logged(Admit(n, tx), tx.txid, LoggedAccepted, worker));
  }

  /** With a working network and a lifetime that covers the inclusion delay, what is at the wire lands. */
  lemma SendLands(c: Config, o: Sys, s: Sys, j: nat, raw: RawData) returns (s': Sys)
    requires Leads(c, o, s) && NodeInv(s.node) && j < |s.drives| && s.drives[j].pc == Wire
    requires s.drives[j].op.signed == Some(Sign(c.signer, raw)) && Txid(raw) !in s.node.txs
    requires s.node.key == c.signer && s.node.broadcastFaults == []
    requires HeadTime(s.node) < s.clock && raw.expiration == s.clock + c.ttlMs
    requires c.ttlMs >= 1 && s.node.delay <= c.ttlMs
    ensures Leads(c, o, s') && s'.db == s.db && Forward(s.node, s'.node) && InBlock(s'.node, Txid(raw))
    ensures s.node.receiptFaults == [] ==> Succeeded(s'.node, Txid(raw))
  {
    var t := Transmits(c, o, s, j, raw, s.clock);
    var k := if s.node.delay < 1 then 1 else s.node.delay;
    AdmittedIsDue(s.node, Sign(c.signer, raw), s.drives[j].worker, s.clock, k);
    s' := LandsInTime(c, o, t, Txid(raw), s.clock, k);
    ForwardTrans(s.node, t.node, s'.node);
  }

  // ---------------------------------------------------------------- the theorem

  /** Drive `i` holds the row and is about to read a chain time that condemns a transaction some block carries. */
  ghost predicate Unclean(c: Config, s: Sys, i: nat) {
    && |s.node.times| > 0 && i < |s.drives| && s.drives[i].pc.LookedUp? && s.drives[i].id in s.db.ops
    && s.drives[i].op.token == s.db.ops[s.drives[i].id].token
    && !Clean(c, s.node, s.drives[i])
  }

  lemma UncleanFacts(c: Config, s: Sys, i: nat)
    requires Inv(c, s) && Unclean(c, s, i)
    ensures Holder(s, i) && s.drives[i].op.signed.Some? && InFlight(s.drives[i].op.state)
    ensures Acceptable(c, NewRow(s.drives[i].op.to, c.asset, s.drives[i].op.amount, s.clock))
    ensures var txid := s.drives[i].op.signed.value.txid;
      InBlock(s.node, txid) && WroteAhead(s.db.events, s.drives[i].id, txid)
  {
    var d := s.drives[i];
    assert DriveOk(c, s.node, s.db.events, d) && Owns(s.db, d);
    SignedBytes(c, d.op);
    LookedUpFacts(c, s.node, s.db.events, d);
  }

  lemma LookedUpFacts(c: Config, n: Node, es: seq<Event>, d: Drive)
    requires |n.times| > 0 && DriveOk(c, n, es, d) && d.pc.LookedUp?
    ensures d.op.txid.Some? && WroteAhead(es, d.id, d.op.txid.value)
    ensures forall now :: Acceptable(c, NewRow(d.op.to, c.asset, d.op.amount, now))
  {
  }

  lemma TwoLanded(s: Sys, id: OpId, a: Txid, b: Txid)
    requires a != b && InBlock(s.node, a) && InBlock(s.node, b)
    requires WroteAhead(s.db.events, id, a) && WroteAhead(s.db.events, id, b)
    ensures |LandedTxids(s, id)| >= 2
  {
    var landed := LandedTxids(s, id);
    assert a in landed && b in landed;
    assert landed == {a} + (landed - {a});
    assert b in landed - {a};
  }

  /** The verdict is taken. */
  lemma Condemns(c: Config, o: Sys, s: Sys, i: nat) returns (s': Sys)
    requires Leads(c, o, s) && Holder(s, i) && s.drives[i].pc.LookedUp? && s.drives[i].op.signed.Some?
    requires ProvenDead(c, s.drives[i].op.signed.value, SolidNow(s.node))
    ensures Leads(c, o, s') && s'.db == s.db && s'.node == s.node && Holder(s', i) && s'.drives[i].pc.Retire?
    ensures s'.drives[i].op == s.drives[i].op && s'.drives[i].id == s.drives[i].id && s'.clock == s.clock
  {
    Reads(c, o, s, i, s.clock);
    s' := Step(c, s, Act(i, s.clock));
  }

  /** An operation back in `signing` lands a transaction the node has never seen. */
  lemma LandsAgain(c: Config, o: Sys, s: Sys, id: OpId) returns (s': Sys, txid: Txid)
    requires Reachable(c, o) && Leads(c, o, s) && NodeInv(s.node) && s.node.key == c.signer && s.node.broadcastFaults == []
    requires id in s.db.ops && s.db.ops[id].state == Signing && s.db.ops[id].attempts < c.maxAttempts
    requires c.ttlMs >= 1 && s.node.delay <= c.ttlMs
    ensures Leads(c, o, s') && s.db.events <= s'.db.events && Forward(s.node, s'.node)
    ensures txid !in s.node.txs && InBlock(s'.node, txid) && WroteAhead(s'.db.events, id, txid)
    ensures s.node.receiptFaults == [] ==> Succeeded(s'.node, txid)
  {
    var t, j := Reclaims(c, o, s, id);
    var u, raw := NewEnvelope(c, o, t, j);
    s' := SendLands(c, o, u, j, raw);
    txid := Txid(raw);
  }

  lemma FirstTxid(c: Config, s: Sys, i: nat) returns (first: Txid)
    requires Reachable(c, s) && Unclean(c, s, i)
    ensures Holder(s, i) && s.drives[i].op.signed.Some? && first == s.drives[i].op.signed.value.txid
    ensures s.node.key == c.signer && InFlight(s.drives[i].op.state) && NodeInv(s.node)
    ensures Acceptable(c, NewRow(s.drives[i].op.to, c.asset, s.drives[i].op.amount, s.clock))
    ensures InBlock(s.node, first) && WroteAhead(s.db.events, s.drives[i].id, first)
  {
    ReachableInv(c, s);
    UncleanFacts(c, s, i);
    first := s.drives[i].op.signed.value.txid;
    SameKey(c, s, first);
  }

  /** The landed transaction is retired, and every fault scripted for a send is used up. */
  lemma BuriedAlive(c: Config, s: Sys, i: nat, first: Txid) returns (s': Sys)
    requires Reachable(c, s) && Unclean(c, s, i) && Holder(s, i) && InFlight(s.drives[i].op.state) && NodeInv(s.node)
    requires c.ttlMs >= 1 && c.maxAttempts > 0 && InBlock(s.node, first)
    requires Acceptable(c, NewRow(s.drives[i].op.to, c.asset, s.drives[i].op.amount, s.clock))
    ensures Leads(c, s, s') && s.db.events <= s'.db.events && NodeInv(s'.node)
    ensures s'.node.key == s.node.key && s'.node.delay == s.node.delay && InBlock(s'.node, first)
    ensures s'.node.broadcastFaults == [] && s'.node.receiptFaults == s.node.receiptFaults
    ensures var id := s.drives[i].id;
      && id in s'.db.ops && s'.db.ops[id].state == Signing && s'.db.ops[id].attempts == s.drives[i].op.attempts + 1
  {
    Here(c, s);
    var t := Condemns(c, s, s, i);
    var u := RetiresIt(c, s, t, i);
    s' := UsesUpSends(c, s, u, s.drives[i].op.to, s.drives[i].op.amount);
  }

  /**
  In every reachable state in which the holder is about to take an unclean verdict, with one
  attempt to spare and a lifetime that covers the inclusion delay, there is a continuation,
  with clocks that never run backwards, at the end of which two transactions of the
  operation are in blocks. Whatever faults are scripted make no difference.
  */
  lemma LandsTwice(c: Config, s: Sys, i: nat) returns (s': Sys, second: Txid)
    requires Reachable(c, s) && Unclean(c, s, i) && s.drives[i].op.attempts + 1 < c.maxAttempts
    requires c.ttlMs >= 1 && s.node.delay <= c.ttlMs
    ensures s.drives[i].op.signed.Some? && Leads(c, s, s')
    ensures var first := s.drives[i].op.signed.value.txid;
      first != second && InBlock(s.node, first) && InBlock(s'.node, first) && InBlock(s'.node, second)
    ensures |LandedTxids(s', s.drives[i].id)| >= 2
    ensures s.node.receiptFaults == [] ==> Succeeded(s'.node, second)
  {
    var id := s.drives[i].id;
    var first := FirstTxid(c, s, i);
    var v := BuriedAlive(c, s, i, first);
    s', second := LandsAgain(c, s, v, id);
    assert InBlock(s'.node, first);
    WroteAheadGrows(s.db.events, s'.db.events, id, first);
    TwoLanded(s', id, first, second);
  }
}
