/**
What the node guarantees over every run: the chain only moves forward, and a
transaction whose deadline the chain has passed unincluded never lands.
*/
module ChainProperties {

  import opened Common
  import opened Chain

  // ---------------------------------------------------------------- vocabulary

  predicate InBlock(n: Node, txid: Txid) {
    txid in n.txs && n.txs[txid].included.Some?
  }

  predicate InBlockAfter(n: Node, txid: Txid, h: int) {
    InBlock(n, txid) && n.txs[txid].included.value > h
  }

  predicate Succeeded(n: Node, txid: Txid) {
    InBlock(n, txid) && n.txs[txid].receipt == Some(Success)
  }

  predicate RevertedOnChain(n: Node, txid: Txid) {
    InBlock(n, txid) && n.txs[txid].receipt == Some(Reverted)
  }

  /** Not in any block, and the chain's own time has reached the expiration. */
  predicate Dead(n: Node, txid: Txid)
    requires |n.times| > 0
  {
    !InBlock(n, txid) && HeadTime(n) >= txid.raw.expiration
  }

  ghost predicate Rising(times: seq<int>) {
    forall i, j :: 0 <= i < j < |times| ==> times[i] < times[j]
  }

  predicate RecordOk(n: Node, txid: Txid)
    requires txid in n.txs
  {
    var rec := n.txs[txid];
    && rec.tx.txid == txid
    && Genuine(rec.tx)
    && Verify(n.key, rec.tx)
    && rec.acceptedAt <= Head(n)
    && txid in n.order
    && (rec.included.Some? <==> rec.receipt.Some?)
    && (rec.included.Some? ==>
          && GENESIS < rec.included.value <= Head(n)
          && n.times[rec.included.value - GENESIS] < txid.raw.expiration)
  }

  ghost predicate NodeInv(n: Node) {
    && |n.times| > 0
    && Rising(n.times)
    && (forall txid :: txid in n.txs ==> RecordOk(n, txid))
    && (forall txid :: txid in n.order ==> txid in n.txs)
  }

  /** Nothing the node has said is taken back, and whatever is new sits in a newer block. */
  ghost predicate Forward(n: Node, m: Node) {
    && m.key == n.key && m.lag == n.lag && m.delay == n.delay
    && n.times <= m.times
    && n.log <= m.log
    && (forall txid :: txid in n.txs ==>
          && txid in m.txs
          && m.txs[txid].tx == n.txs[txid].tx
          && m.txs[txid].acceptedAt == n.txs[txid].acceptedAt)
    && (forall txid :: InBlock(n, txid) ==> m.txs[txid] == n.txs[txid])
    && (forall txid :: InBlock(m, txid) && !InBlock(n, txid) ==> m.txs[txid].included.value > Head(n))
  }

  // ---------------------------------------------------------------- one block

  /** What a block does to each record, whatever the order of the sweep. */
  lemma {:induction false} MinePointwise(
    txs: map<Txid, TxRecord>, order: seq<Txid>, head: int, t: int, delay: int, faults: seq<Fault>)
    ensures var r := Mine(txs, order, head, t, delay, faults).0;
      && r.Keys == txs.Keys
      && forall txid :: txid in txs ==>
           && r[txid].tx == txs[txid].tx
           && r[txid].acceptedAt == txs[txid].acceptedAt
           && if txid in order && Eligible(txs[txid], head, t, delay)
              then r[txid].included == Some(head) && r[txid].receipt.Some?
              else r[txid] == txs[txid]
    decreases |order|
  {
    if order != [] {
      var first := order[0];
      assert order == [first] + order[1..];
      if first in txs && Eligible(txs[first], head, t, delay) {
        var txs' := txs[first := Mined(txs[first], head, faults)];
        MinePointwise(txs', order[1..], head, t, delay, if RevertScripted(faults) then faults[1..] else faults);
      } else {
        MinePointwise(txs, order[1..], head, t, delay, faults);
      }
    }
  }

  /** Records after one block: still well formed, and never rewritten once included. */
  lemma ProducedRecord(n: Node, now: int, txid: Txid)
    requires NodeInv(n) && txid in n.txs
    ensures txid in Produce(n, now).txs && RecordOk(Produce(n, now), txid)
  {
    MinePointwise(n.txs, n.order, Head(n) + 1, NextTime(n, now), n.delay, n.receiptFaults);
    assert RecordOk(n, txid);
  }

  lemma ProduceForward(n: Node, now: int)
    requires NodeInv(n)
    ensures NodeInv(Produce(n, now)) && Forward(n, Produce(n, now))
  {
    var m := Produce(n, now);
    MinePointwise(n.txs, n.order, Head(n) + 1, NextTime(n, now), n.delay, n.receiptFaults);
    assert m.txs.Keys == n.txs.Keys;
    forall txid | txid in m.txs ensures RecordOk(m, txid) {
      ProducedRecord(n, now, txid);
    }
    assert Rising(m.times);
  }

  /** Popping faults and writing the broadcast log leaves the chain as it was. */
  lemma RelabelForward(n: Node, m: Node)
    requires NodeInv(n)
    requires m == n.(broadcastFaults := m.broadcastFaults, queryFaults := m.queryFaults,
                     receiptFaults := m.receiptFaults, log := m.log)
    requires n.log <= m.log
    ensures NodeInv(m) && Forward(n, m)
  {
    forall txid | txid in m.txs ensures RecordOk(m, txid) {
      assert RecordOk(n, txid);
    }
  }

  lemma AdmitForward(n: Node, tx: SignedTx)
    requires NodeInv(n) && Genuine(tx) && Verify(n.key, tx) && tx.txid !in n.txs
    ensures NodeInv(Admit(n, tx)) && Forward(n, Admit(n, tx))
  {
    var m := Admit(n, tx);
    forall txid | txid in m.txs ensures RecordOk(m, txid) {
      if txid != tx.txid {
        assert RecordOk(n, txid);
      }
    }
  }

  lemma SendForward(n: Node, tx: SignedTx, worker: string, now: int)
    requires NodeInv(n) && Genuine(tx)
    ensures NodeInv(Send(n, tx, worker, now).0) && Forward(n, Send(n, tx, worker, now).0)
  {
    var m := n.(broadcastFaults := RestFaults(n.broadcastFaults));
    var r := Send(n, tx, worker, now).0;
    RelabelForward(n, m);
    if r.order == n.order {
      RelabelForward(n, r);
    } else {
      AdmitForward(m, tx);
      RelabelForward(Admit(m, tx), r);
      ForwardTrans(n, m, Admit(m, tx));
      ForwardTrans(n, Admit(m, tx), r);
    }
  }

  lemma StepForward(n: Node, a: NodeAction)
    requires NodeInv(n) && (a.Transmit? ==> Genuine(a.tx))
    ensures NodeInv(NodeStep(n, a)) && Forward(n, NodeStep(n, a))
  {
    match a
    case Transmit(tx, worker, now) => SendForward(n, tx, worker, now);
    case MakeBlock(now) => ProduceForward(n, now);
    case Query(_, _) => RelabelForward(n, NodeStep(n, a));
    case Enqueue(_, _) => RelabelForward(n, NodeStep(n, a));
  }

  lemma ForwardTrans(a: Node, b: Node, c: Node)
    requires Forward(a, b) && Forward(b, c)
    ensures Forward(a, c)
  {
    forall txid | InBlock(c, txid) && !InBlock(a, txid) ensures c.txs[txid].included.value > Head(a) {
      if InBlock(b, txid) {
        assert c.txs[txid] == b.txs[txid];
      }
    }
  }

  lemma {:induction false} ExecForward(n: Node, actions: seq<NodeAction>)
    requires NodeInv(n) && GenuineSends(actions)
    ensures NodeInv(NodeExec(n, actions)) && Forward(n, NodeExec(n, actions))
    decreases |actions|
  {
    if actions != [] {
      assert actions[0] in actions;
      StepForward(n, actions[0]);
      ExecForward(NodeStep(n, actions[0]), actions[1..]);
      ForwardTrans(n, NodeStep(n, actions[0]), NodeExec(n, actions));
    }
  }

  // ---------------------------------------------------------------- the rebuild theorem

  lemma TimesMonotone(n: Node, i: nat, j: nat)
    requires NodeInv(n) && i <= j < |n.times|
    ensures n.times[i] <= n.times[j]
  {
  }

  /** What gets into a block later gets there before its expiration, so it was not expired at the old head. */
  lemma LateInclusion(n: Node, m: Node, txid: Txid)
    requires NodeInv(n) && NodeInv(m) && Forward(n, m) && InBlock(m, txid) && !InBlock(n, txid)
    ensures HeadTime(n) < txid.raw.expiration
  {
    assert RecordOk(m, txid);
    assert m.times[|n.times| - 1] == HeadTime(n);
    TimesMonotone(m, |n.times| - 1, m.txs[txid].included.value - GENESIS);
  }

  /** Death is permanent: every later block is stamped past the deadline. */
  lemma DeadStays(n: Node, m: Node, txid: Txid)
    requires NodeInv(n) && NodeInv(m) && Forward(n, m) && Dead(n, txid)
    ensures Dead(m, txid)
  {
    assert m.times[|n.times| - 1] == HeadTime(n);
    TimesMonotone(m, |n.times| - 1, |m.times| - 1);
    if InBlock(m, txid) {
      LateInclusion(n, m, txid);
    }
  }

  lemma SolidBelowHead(n: Node)
    requires NodeInv(n)
    ensures SolidNow(n) <= HeadTime(n)
  {
    TimesMonotone(n, RefBlock(n) - GENESIS, |n.times| - 1);
  }

  /**
  If the node does not have `txid` in a block and solid time has passed its expiration
  plus the margin, then no continuation ever includes it: not with new blocks, not with
  the same bytes sent again, not with any scripted fault, whatever the clocks read.
  */
  lemma RebuildTheorem(n: Node, txid: Txid, margin: nat, now: int, actions: seq<NodeAction>)
    requires NodeInv(n) && GenuineSends(actions)
    requires StatusOf(n, txid, now) == Unknown
    requires SolidNow(n) >= txid.raw.expiration + margin
    ensures !InBlock(NodeExec(n, actions), txid)
  {
    SolidBelowHead(n);
    assert Dead(n, txid);
    ExecForward(n, actions);
    DeadStays(n, NodeExec(n, actions), txid);
  }
}
