/** Runs in which a new withdrawal is brought in next to whatever else is going on. */
module Newcomers {

  import opened States
  import opened Chain
  import opened ChainProperties
  import opened Store
  import opened StoreProperties
  import opened Protocol
  import opened InvariantSteps
  import opened ReadOrder
  import opened Scenario

  lemma {:induction false} FreshId(ids: seq<OpId>) returns (id: OpId)
    ensures forall k :: 0 <= k < |ids| ==> ids[k] < id
    decreases |ids|
  {
    id := 0;
    if ids != [] {
      var rest := FreshId(ids[1..]);
      forall k | 1 <= k < |ids| ensures ids[k] < rest {
        assert ids[k] == ids[1..][k - 1];
      }
      id := if ids[0] < rest then rest else ids[0] + 1;
    }
  }

  lemma NewId(c: Config, o: Sys, s: Sys) returns (id: OpId)
    requires Reachable(c, o) && Leads(c, o, s)
    ensures id !in s.db.ops
  {
    LeadsReachable(c, o, s);
    ReachableInv(c, s);
    id := FreshId(s.db.arrival);
    assert id in s.db.ops ==> id in s.db.arrival;
  }

  lemma IdHasArrived(c: Config, o: Sys, s: Sys, id: OpId)
    requires Reachable(c, o) && Leads(c, o, s) && id in s.db.ops
    ensures DistinctIds(s.db.arrival) && id in s.db.arrival
  {
    LeadsReachable(c, o, s);
    ReachableInv(c, s);
  }

  /** The other operations have at most been claimed. */
  predicate OthersWork(s: Sys, s': Sys) {
    && s.db.events <= s'.db.events
    && forall x :: x in s.db.ops ==> x in s'.db.ops && SameWork(s.db.ops[x], s'.db.ops[x])
  }

  lemma OthersOn(a: Sys, b: Sys, d: Sys)
    requires OthersWork(a, b) && OthersWork(b, d)
    ensures OthersWork(a, d)
  {
  }

  /** A new withdrawal is submitted and claimed. */
  lemma Arrives(c: Config, o: Sys, s: Sys, to: string, amount: int) returns (s': Sys, id: OpId, j: nat)
    requires Reachable(c, o) && Leads(c, o, s) && |s.node.times| > 0
    ensures Leads(c, o, s') && s'.node == s.node && s'.clock == s.clock && Holder(s', j) && |s.drives| <= j
    ensures id !in s.db.ops && OthersWork(s, s') && s.drives <= s'.drives
    ensures id in s'.db.ops && s'.drives[j] == Drive("N", id, s'.db.ops[id], s'.db.ops[id], Ready, 0, false)
    ensures s'.db.ops[id] == Leased(NewRow(to, c.asset, amount, s.clock), "N", c.leaseMs, s.clock)
  {
    id := NewId(c, o, s);
    var t := Submits(c, o, s, id, to, amount);
    IdHasArrived(c, o, t, id);
    s', j := Claims(c, o, t, id, "N", s.clock);
    OthersOn(s, t, s');
  }

  /** And it is taken to the brink of its first send, in no time. */
  lemma Newcomer(c: Config, o: Sys, s: Sys, to: string, amount: int) returns (s': Sys, id: OpId, j: nat)
    requires Reachable(c, o) && Leads(c, o, s) && |s.node.times| > 0
    requires c.maxAttempts > 0 && c.ttlMs >= 1 && Acceptable(c, NewRow(to, c.asset, amount, s.clock))
    ensures Leads(c, o, s') && s'.node == s.node && s'.clock == s.clock && Holder(s', j) && s'.drives[j].id == id
    ensures s'.drives[j].pc == Wire && s'.drives[j].op.state == Broadcasting && s'.drives[j].op.signed.Some?
    ensures |s.drives| <= j && forall i :: 0 <= i < |s.drives| ==> s'.drives[i] == s.drives[i]
    ensures OthersWork(s, s') && Genuine(s'.drives[j].op.signed.value)
  {
    var t;
    t, id, j := Arrives(c, o, s, to, amount);
    var raw;
    s', raw := FirstEnvelope(c, o, t, j);
    OnlyNewcomerMoved(s, t, s', j, id);
  }

  lemma OnlyNewcomerMoved(s: Sys, t: Sys, s': Sys, j: nat, id: OpId)
    requires OthersWork(s, t) && OnlyMoves(t, s', j) && t.drives[j].id == id && id !in s.db.ops
    requires s.drives <= t.drives && |s.drives| <= j
    ensures OthersWork(s, s') && forall i :: 0 <= i < |s.drives| ==> s'.drives[i] == s.drives[i]
  {
    forall x | x in s.db.ops ensures x in s'.db.ops && SameWork(s.db.ops[x], s'.db.ops[x]) {
      assert s'.db.ops[x] == t.db.ops[x];
    }
  }

  // ---------------------------------------------------------------- scripted send faults can be used up by newcomers

  lemma UsesUpSend(c: Config, o: Sys, s: Sys, to: string, amount: int) returns (s': Sys)
    requires Reachable(c, o) && Leads(c, o, s) && NodeInv(s.node)
    requires c.maxAttempts > 0 && c.ttlMs >= 1 && Acceptable(c, NewRow(to, c.asset, amount, s.clock))
    ensures Leads(c, o, s') && s'.clock == s.clock && OthersWork(s, s') && NodeInv(s'.node) && Forward(s.node, s'.node)
    ensures s'.node.times == s.node.times && s'.node.receiptFaults == s.node.receiptFaults
    ensures s'.node.broadcastFaults == RestFaults(s.node.broadcastFaults)
  {
    var t, id, j := Newcomer(c, o, s, to, amount);
    s' := SendsIt(c, o, t, j);
  }

  lemma SendsIt(c: Config, o: Sys, s: Sys, j: nat) returns (s': Sys)
    requires Leads(c, o, s) && NodeInv(s.node) && j < |s.drives| && s.drives[j].pc == Wire
    requires s.drives[j].op.signed.Some? && Genuine(s.drives[j].op.signed.value)
    ensures Leads(c, o, s') && s'.clock == s.clock && s'.db == s.db && NodeInv(s'.node) && Forward(s.node, s'.node)
    ensures s'.node.times == s.node.times && s'.node.receiptFaults == s.node.receiptFaults
    ensures s'.node.broadcastFaults == RestFaults(s.node.broadcastFaults)
  {
    var tx := s.drives[j].op.signed.value;
    Reads(c, o, s, j, s.clock);
    s' := Step(c, s, Act(j, s.clock));
    SendForward(s.node, tx, s.drives[j].worker, s.clock);
    SendLeaves(s.node, tx, s.drives[j].worker, s.clock);
  }

  lemma SendLeaves(n: Node, tx: SignedTx, worker: string, now: int)
    ensures var m := Send(n, tx, worker, now).0;
      && m.times == n.times && m.receiptFaults == n.receiptFaults && m.broadcastFaults == RestFaults(n.broadcastFaults)
  {
  }

  lemma {:induction false} UsesUpSends(c: Config, o: Sys, s: Sys, to: string, amount: int) returns (s': Sys)
    requires Reachable(c, o) && Leads(c, o, s) && NodeInv(s.node)
    requires c.maxAttempts > 0 && c.ttlMs >= 1 && Acceptable(c, NewRow(to, c.asset, amount, s.clock))
    ensures Leads(c, o, s') && s'.clock == s.clock && OthersWork(s, s') && NodeInv(s'.node) && Forward(s.node, s'.node)
    ensures s'.node.times == s.node.times && s'.node.receiptFaults == s.node.receiptFaults
    ensures s'.node.broadcastFaults == []
    decreases |s.node.broadcastFaults|
  {
    if s.node.broadcastFaults == [] {
      s' := s;
      RelabelForward(s.node, s.node);
    } else {
      var t := UsesUpSend(c, o, s, to, amount);
      s' := UsesUpSends(c, o, t, to, amount);
      ForwardTrans(s.node, t.node, s'.node);
    }
  }
}
