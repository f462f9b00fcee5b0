/**
The order of the two reads matters. With the settings the service ships with, clocks that
never run backwards, no fault, no crash and no exception, there is a run of the code as
written in which one operation lands two transactions: a worker stalls between its
write-ahead and its send, and the send slips in between another worker's two reads.
*/
module TornReads {

  import opened Common
  import opened States
  import opened Chain
  import opened ChainProperties
  import opened Store
  import opened Protocol
  import opened InvariantSteps
  import opened History
  import opened Safety
  import opened ReadOrder
  import opened Scenario
  import opened UncleanVerdict

  /** The settings the service ships with, and the code's own read order. */
  predicate Shipped(c: Config) {
    c.leaseMs == 30000 && c.ttlMs == 60000 && c.marginMs == 30000 && c.maxAttempts == 5 && !c.clockFirst
  }

  /** Drive `i` has announced the first envelope and goes to sleep in front of the send. */
  predicate Stalled(c: Config, s: Sys, i: nat, raw: RawData) {
    && Holder(s, i) && s.drives[i].id == 0 && s.drives[i].pc == Wire
    && s.db.arrival == [0] && s.node == NewChain(c) && s.clock == 0
    && s.drives[i].op.state == Broadcasting && s.drives[i].op.attempts == 0 && s.drives[i].op.lease == Some(30000)
    && s.drives[i].op.signed == Some(Sign(c.signer, raw)) && raw.expiration == 60000
  }

  lemma FirstWorkerStalls(c: Config, to: string, amount: int) returns (s': Sys, i: nat, raw: RawData)
    requires Shipped(c) && Acceptable(c, NewRow(to, c.asset, amount, 0))
    ensures Leads(c, Origin(c), s') && Stalled(c, s', i, raw)
  {
    var o := Origin(c);
    Here(c, o);
    var s := Submits(c, o, o, 0, to, amount);
    var t;
    t, i := Claims(c, o, s, 0, "A", 0);
    s', raw := FirstEnvelope(c, o, t, i);
  }

  /** Both workers are at it: `j` looked the txid up too early, `i`, already fenced, is about to send it. */
  predicate Crossed(c: Config, s: Sys, i: nat, j: nat, raw: RawData) {
    && i < j && Holder(s, j) && s.drives[i].pc == Wire && s.drives[i].op.signed == Some(Sign(c.signer, raw))
    && s.drives[i].id == s.drives[j].id == 0 && s.drives[i].op.token < s.drives[j].op.token
    && s.node == NewChain(c) && s.clock == 40000
    && s.drives[j].pc == LookedUp(GENESIS) && s.drives[j].base == s.drives[j].op
    && s.drives[j].op.state == Broadcasting && s.drives[j].op.attempts == 0
    && s.drives[j].op.lease == Some(70000) && s.db.arrival == [0]
    && s.drives[j].op.signed == Some(Sign(c.signer, raw)) && raw.expiration == 60000
  }

  lemma SecondWorkerLooks(c: Config, o: Sys, s: Sys, i: nat, raw: RawData) returns (s': Sys, j: nat)
    requires Shipped(c) && Leads(c, o, s) && Stalled(c, s, i, raw)
    ensures Leads(c, o, s') && Crossed(c, s', i, j, raw)
  {
    var t;
    t, j := Claims(c, o, s, 0, "B", 40000);
    assert t.drives[i] == s.drives[i];
    Reads(c, o, t, j, 40000);
    s' := Step(c, t, Act(j, 40000));
  }

  lemma LateSendLands(c: Config, o: Sys, s: Sys, i: nat, j: nat, raw: RawData) returns (s': Sys)
    requires Shipped(c) && Leads(c, o, s) && Crossed(c, s, i, j, raw)
    ensures Leads(c, o, s') && s'.db == s.db && j < |s'.drives| && s'.drives[j] == s.drives[j] && s'.clock == 42000
    ensures s'.node == s.node.(times := [0, 42000], txs := s'.node.txs, order := [Txid(raw)], log := s'.node.log)
    ensures s'.node.txs.Keys == {Txid(raw)} && Succeeded(s'.node, Txid(raw))
    ensures s'.node.txs[Txid(raw)].included == Some(GENESIS + 1)
  {
    var t := Transmits(c, o, s, i, raw, 41000);
    s' := Blocks(c, o, t, 42000);
  }

  lemma ChainMovesOn(c: Config, o: Sys, s: Sys, raw: RawData) returns (s': Sys)
    requires Leads(c, o, s) && s.clock == 42000 && s.node.times == [0, 42000] && s.node.receiptFaults == []
    requires s.node.txs.Keys == {Txid(raw)} && Succeeded(s.node, Txid(raw))
    ensures Leads(c, o, s') && s'.db == s.db && s'.drives == s.drives && s'.clock == 100002
    ensures s'.node == s.node.(times := [0, 42000, 100000, 100001, 100002], txs := s.node.txs)
  {
    var t := Blocks(c, o, s, 100000);
    assert t.node.txs == s.node.txs;
    var u := Blocks(c, o, t, 100001);
    assert u.node.txs == t.node.txs;
    s' := Blocks(c, o, u, 100002);
    assert s'.node.txs == u.node.txs;
  }

  /**
  Reading chain time after the lookup is not safe, whatever the operator sets up correctly:
  with the shipped settings and one common clock the same withdrawal can be paid twice.
  */
  lemma PaidTwice(c: Config, to: string, amount: int) returns (s: Sys, first: Txid, second: Txid)
    requires Shipped(c) && Acceptable(c, NewRow(to, c.asset, amount, 0))
    ensures TimelyReached(c, s) && first != second
    ensures Succeeded(s.node, first) && Succeeded(s.node, second)
    ensures |LandedTxids(s, 0)| >= 2
  {
    var o := Origin(c);
    var t, i, raw := FirstWorkerStalls(c, to, amount);
    var u, j := SecondWorkerLooks(c, o, t, i, raw);
    var v := LateSendLands(c, o, u, i, j, raw);
    var x := ChainMovesOn(c, o, v, raw);
    assert TimelyReached(c, x);
    TimelyIsReachable(c, x);
    assert Unclean(c, x, j);
    s, second := LandsTwice(c, x, j);
    first := Txid(raw);
    Onwards(c, o, x, s);
    StaysSucceeded(c, x, s, first);
  }

  lemma StaysSucceeded(c: Config, s: Sys, s': Sys, txid: Txid)
    requires Reachable(c, s) && Leads(c, s, s') && Succeeded(s.node, txid)
    ensures Succeeded(s'.node, txid)
  {
    ReachableInv(c, s);
    var more: seq<Action> :| s' == Exec(c, s, more) && TimelyRun(c, s, more);
    RunOnward(c, s, more);
  }
}
