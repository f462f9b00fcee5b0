/**
Why conservation needs its condition. Two withdrawals to one destination over one amount,
built on one block in one millisecond, are one transaction. With the shipped settings, one
clock, no fault and no crash both end confirmed, and the chain has paid once.
*/
module SharedTxid {

  import opened Common
  import opened States
  import opened Chain
  import opened ChainProperties
  import opened Store
  import opened StoreProperties
  import opened Protocol
  import opened InvariantSteps
  import opened ReadOrder
  import opened Conservation
  import opened Scenario
  import opened TornReads

  /** A claim with room for everyone. */
  function ClaimAll(s: Sys): Action {
    ClaimBatch("A", |s.db.arrival|, s.clock)
  }

  lemma StartsOn(c: Config, s: Sys, id: OpId) returns (i: nat)
    requires |s.node.times| > 0 && DistinctIds(s.db.arrival)
    requires id in s.db.arrival && id in s.db.ops && Claimable(s.db.ops[id], CLAIMABLE, s.clock)
    ensures Fresh(c, s, Step(c, s, ClaimAll(s)), id, i)
  {
    var k := ClaimedAt(s.db.ops, s.db.arrival, |s.db.arrival|, "A", c.leaseMs, s.clock, id);
    i := |s.drives| + k;
  }

  lemma ClaimsAll(c: Config, o: Sys, s: Sys) returns (s': Sys)
    requires Leads(c, o, s) && |s.node.times| > 0 && DistinctIds(s.db.arrival)
    ensures s' == Step(c, s, ClaimAll(s)) && Leads(c, o, s')
    ensures s'.node == s.node && s'.clock == s.clock && s'.db.ops.Keys == s.db.ops.Keys
  {
    Next(c, o, s, ClaimAll(s));
    s' := Step(c, s, ClaimAll(s));
    ClaimExact(s.db.ops, s.db.arrival, CLAIMABLE, |s.db.arrival|, "A", c.leaseMs, s.clock);
  }

  predicate Fresh(c: Config, s: Sys, s': Sys, id: OpId, i: nat) {
    && Holder(s', i) && s'.drives[i].id == id && s'.drives[i].pc == Ready && s'.drives[i].steps == 0
    && s'.drives[i].base == s'.drives[i].op && id in s.db.ops
    && s'.drives[i].op == Leased(s.db.ops[id], "A", c.leaseMs, s.clock)
  }

  /** Drive `i` has an answer that means accepted and is about to record it. */
  predicate Accepted(c: Config, s: Sys, i: nat, raw: RawData) {
    && Holder(s, i) && (s.drives[i].pc == Settle(CodeSuccess) || s.drives[i].pc == Settle(DupTransaction))
    && Holds(c, s.drives[i], raw) && s.drives[i].op.state == Broadcasting
    && s.drives[i].steps == 2 && s.drives[i].base.state == Signed
  }

  predicate Holds(c: Config, d: Drive, raw: RawData) {
    d.op.signed == Some(Sign(c.signer, raw)) && d.op.txid == Some(Txid(raw))
  }

  lemma Settles(c: Config, o: Sys, s: Sys, i: nat, raw: RawData) returns (s': Sys)
    requires Leads(c, o, s) && Accepted(c, s, i, raw)
    ensures Leads(c, o, s') && Holder(s', i) && s'.clock == s.clock && OnlyMoves(s, s', i)
    ensures s'.drives[i].pc == Ready && Holds(c, s'.drives[i], raw) && s'.drives[i].op.state == Broadcast
    ensures SamePayment(s.drives[i].op, s'.drives[i].op)
  {
    var code := s.drives[i].pc.code;
    Writes(c, o, s, i, s.clock,
           CasPlan(Broadcast, Patch(broadcastAt := Set(Some(s.clock))), Answered(Txid(raw), code)));
    s' := Step(c, s, Act(i, s.clock));
  }

  /** The node has seen the bytes before and says so. */
  lemma Duplicates(c: Config, o: Sys, s: Sys, i: nat, raw: RawData) returns (s': Sys)
    requires Leads(c, o, s) && Holder(s, i) && s.drives[i].pc == Wire && Holds(c, s.drives[i], raw)
    requires s.node.key == c.signer && s.node.broadcastFaults == [] && s.clock < raw.expiration && Txid(raw) in s.node.txs
    ensures Leads(c, o, s') && s'.db == s.db && s'.clock == s.clock
    ensures s'.drives == s.drives[i := s.drives[i].(pc := Settle(DupTransaction))]
    ensures s'.node == Logged(s.node, Txid(raw), LoggedDup, s.drives[i].worker)
  {
    Reads(c, o, s, i, s.clock);
    s' := Step(c, s, Act(i, s.clock));
  }

  /** The lookup finds the transaction solid and successful. */
  lemma FindsIt(c: Config, o: Sys, s: Sys, i: nat, raw: RawData) returns (s': Sys)
    requires !c.clockFirst && Leads(c, o, s) && Holder(s, i) && s.drives[i].pc == Ready
    requires Holds(c, s.drives[i], raw) && s.drives[i].op.state == Broadcast && s.node.queryFaults == []
    requires Succeeded(s.node, Txid(raw)) && s.node.txs[Txid(raw)].included.value <= SolidBlock(s.node)
    ensures Leads(c, o, s') && s'.clock == s.clock && s'.db == s.db && s'.node == s.node
    ensures s'.drives == s.drives[i := s.drives[i].(pc := Landed(s.node.txs[Txid(raw)].included.value, Some(Success)))]
  {
    Reads(c, o, s, i, s.clock);
    s' := Step(c, s, Act(i, s.clock));
  }

  /** And the row is confirmed. */
  lemma Confirms(c: Config, o: Sys, s: Sys, i: nat, raw: RawData) returns (s': Sys)
    requires !c.clockFirst && Leads(c, o, s) && Holder(s, i) && s.drives[i].pc == Ready
    requires Holds(c, s.drives[i], raw) && s.drives[i].op.state == Broadcast && s.node.queryFaults == []
    requires Succeeded(s.node, Txid(raw)) && s.node.txs[Txid(raw)].included.value <= SolidBlock(s.node)
    ensures Leads(c, o, s') && s'.clock == s.clock && OnlyMoves(s, s', i)
    ensures PaidWith(s'.db.ops[s.drives[i].id], Txid(raw))
    ensures s'.db.ops[s.drives[i].id].amount == s.drives[i].op.amount
  {
    var t := FindsIt(c, o, s, i, raw);
    Writes(c, o, t, i, s.clock, LandedPlan(Sign(c.signer, raw), t.drives[i].pc.block, Some(Success), s.clock));
    s' := Step(c, t, Act(i, s.clock));
  }

  // ---------------------------------------------------------------- the run

  /** Both drives are in front of the send, with the same bytes. */
  predicate Twins(c: Config, s: Sys, i: nat, j: nat, raw: RawData, amount: int) {
    && i != j && AtWire(c, s, i, raw) && AtWire(c, s, j, raw) && s.drives[i].id == 0 && s.drives[j].id == 1
    && s.drives[i].op.amount == amount && s.drives[j].op.amount == amount
    && s.db.ops.Keys == {0, 1} && s.node == NewChain(c) && s.clock == 0 && raw.expiration == 60000
  }

  predicate AtWire(c: Config, s: Sys, i: nat, raw: RawData) {
    && Holder(s, i) && s.drives[i].pc == Wire && Holds(c, s.drives[i], raw) && s.drives[i].op.state == Broadcasting
    && s.drives[i].steps == 2 && s.drives[i].base.state == Signed
  }

  lemma BothClaimed(c: Config, to: string, amount: int) returns (s: Sys, t: Sys, i: nat, j: nat)
    ensures Leads(c, Origin(c), t) && t.node == NewChain(c) && t.clock == 0 && t.db.ops.Keys == {0, 1} && s.clock == 0
    ensures Fresh(c, s, t, 0, i) && Fresh(c, s, t, 1, j)
    ensures s.db.ops[0] == s.db.ops[1] == NewRow(to, c.asset, amount, 0)
  {
    var o := Origin(c);
    Here(c, o);
    var r := Submits(c, o, o, 0, to, amount);
    s := Submits(c, o, r, 1, to, amount);
    t := ClaimsAll(c, o, s);
    i := StartsOn(c, s, 0);
    j := StartsOn(c, s, 1);
  }

  lemma BothForge(c: Config, to: string, amount: int) returns (s': Sys, i: nat, j: nat, raw: RawData)
    requires Shipped(c) && Acceptable(c, NewRow(to, c.asset, amount, 0))
    ensures Leads(c, Origin(c), s') && Twins(c, s', i, j, raw, amount)
  {
    var o := Origin(c);
    var s, t;
    s, t, i, j := BothClaimed(c, to, amount);
    var u;
    u, raw := FirstEnvelope(c, o, t, i);
    var again;
    s', again := FirstEnvelope(c, o, u, j);
  }

  /** The node after both sends: one transaction. */
  predicate OneSent(c: Config, n: Node, raw: RawData) {
    && n.times == [0] && n.lag == 2 && n.delay == 1 && n.order == [Txid(raw)]
    && n.txs == map[Txid(raw) := TxRecord(Sign(c.signer, raw), GENESIS, None, None)]
    && n.queryFaults == [] && n.receiptFaults == []
  }

  /** Both drives have recorded an acceptance. */
  predicate BothAccepted(c: Config, s: Sys, i: nat, j: nat, raw: RawData, amount: int) {
    && i != j && AtRest(c, s, i, raw) && AtRest(c, s, j, raw) && s.drives[i].id == 0 && s.drives[j].id == 1
    && s.drives[i].op.amount == amount && s.drives[j].op.amount == amount && s.db.ops.Keys == {0, 1}
    && s.clock == 0 && raw.expiration == 60000 && OneSent(c, s.node, raw)
  }

  predicate AtRest(c: Config, s: Sys, i: nat, raw: RawData) {
    Holder(s, i) && s.drives[i].pc == Ready && Holds(c, s.drives[i], raw) && s.drives[i].op.state == Broadcast
  }

  lemma BothSend(c: Config, o: Sys, s: Sys, i: nat, j: nat, raw: RawData, amount: int) returns (s': Sys)
    requires Leads(c, o, s) && Twins(c, s, i, j, raw, amount)
    ensures Leads(c, o, s') && s'.db == s.db && s'.clock == 0 && OneSent(c, s'.node, raw)
    ensures |s'.drives| == |s.drives| && s'.drives[i] == s.drives[i].(pc := Settle(CodeSuccess))
    ensures s'.drives[j] == s.drives[j].(pc := Settle(DupTransaction))
  {
    var t := Transmits(c, o, s, i, raw, 0);
    s' := Duplicates(c, o, t, j, raw);
  }

  lemma BothSettle(c: Config, o: Sys, s: Sys, i: nat, j: nat, raw: RawData, amount: int) returns (s': Sys)
    requires Leads(c, o, s) && Twins(c, s, i, j, raw, amount)
    ensures Leads(c, o, s') && BothAccepted(c, s', i, j, raw, amount)
  {
    var t := BothSend(c, o, s, i, j, raw, amount);
    var u := Settles(c, o, t, i, raw);
    s' := Settles(c, o, u, j, raw);
  }

  lemma Solidifies(c: Config, o: Sys, s: Sys, i: nat, j: nat, raw: RawData, amount: int) returns (s': Sys)
    requires Leads(c, o, s) && BothAccepted(c, s, i, j, raw, amount)
    ensures Leads(c, o, s') && s'.db == s.db && s'.drives == s.drives
    ensures s'.node.queryFaults == [] && s'.node.txs.Keys == {Txid(raw)} && Succeeded(s'.node, Txid(raw))
    ensures |s'.node.times| > 0 && s'.node.txs[Txid(raw)].included.value <= SolidBlock(s'.node)
  {
    var t := Blocks(c, o, s, 1);
    assert t.node.txs[Txid(raw)] == Mined(s.node.txs[Txid(raw)], GENESIS + 1, []);
    var u := Blocks(c, o, t, 2);
    assert u.node.txs[Txid(raw)] == t.node.txs[Txid(raw)];
    s' := Blocks(c, o, u, 3);
  }

  lemma BothConfirmed(c: Config, o: Sys, s: Sys, i: nat, j: nat, raw: RawData) returns (s': Sys)
    requires !c.clockFirst && Leads(c, o, s) && i != j && AtRest(c, s, i, raw) && AtRest(c, s, j, raw)
    requires s.drives[i].id == 0 && s.drives[j].id == 1 && s.db.ops.Keys == {0, 1}
    requires s.node.queryFaults == [] && Succeeded(s.node, Txid(raw))
    requires s.node.txs[Txid(raw)].included.value <= SolidBlock(s.node)
    ensures Leads(c, o, s') && s'.node == s.node && s'.db.ops.Keys == {0, 1}
    ensures PaidWith(s'.db.ops[0], Txid(raw)) && PaidWith(s'.db.ops[1], Txid(raw))
    ensures s'.db.ops[0].amount == s.drives[i].op.amount && s'.db.ops[1].amount == s.drives[j].op.amount
  {
    var t := Confirms(c, o, s, i, raw);
    s' := Confirms(c, o, t, j, raw);
  }

  /** Two operations confirmed, one transaction on chain: the store claims twice what was paid. */
  lemma OnePaidForTwo(c: Config, to: string, amount: int) returns (s: Sys, txid: Txid)
    requires Shipped(c) && Acceptable(c, NewRow(to, c.asset, amount, 0)) && amount > 0
    ensures TimelyReached(c, s) && AllTerminal(s.db) && s.db.ops.Keys == {0, 1} && s.node.txs.Keys == {txid}
    ensures PaidWith(s.db.ops[0], txid) && PaidWith(s.db.ops[1], txid) && !DistinctPaid(s.db)
    ensures Total(ConfirmedLedger(s.db)) > Total(ChainLedger(s.node))
  {
    s, txid := BothEnd(c, to, amount);
    assert TimelyReached(c, s);
    TimelyIsReachable(c, s);
    Overstated(c, s, txid);
  }

  lemma BothEnd(c: Config, to: string, amount: int) returns (s: Sys, txid: Txid)
    requires Shipped(c) && Acceptable(c, NewRow(to, c.asset, amount, 0))
    ensures Leads(c, Origin(c), s) && s.db.ops.Keys == {0, 1} && s.node.txs.Keys == {txid}
    ensures PaidWith(s.db.ops[0], txid) && PaidWith(s.db.ops[1], txid)
    ensures s.db.ops[0].amount == s.db.ops[1].amount == amount
  {
    var o := Origin(c);
    var t, i, j, raw := BothForge(c, to, amount);
    var u := BothSettle(c, o, t, i, j, raw, amount);
    var v := Solidifies(c, o, u, i, j, raw, amount);
    s := BothConfirmed(c, o, v, i, j, raw);
    txid := Txid(raw);
  }

  lemma Overstated(c: Config, s: Sys, txid: Txid)
    requires Reachable(c, s) && s.db.ops.Keys == {0, 1} && s.node.txs.Keys == {txid}
    requires PaidWith(s.db.ops[0], txid) && PaidWith(s.db.ops[1], txid) && s.db.ops[0].amount > 0
    ensures !DistinctPaid(s.db) && Total(ConfirmedLedger(s.db)) > Total(ChainLedger(s.node))
  {
    forall t | t in ChainLedger(s.node) ensures t in NamedLedger(s.node, s.db) {
      assert t == txid && PaidWith(s.db.ops[0], txid);
    }
    assert NamedLedger(s.node, s.db) == ChainLedger(s.node);
    ConfirmedExactly(c, s);
  }
}
