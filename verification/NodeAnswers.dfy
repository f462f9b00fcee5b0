/** What the node has answered once, it never takes back: properties over every sequence of calls to it. */
module NodeAnswers {

  import opened Chain
  import opened ChainProperties

  // ---------------------------------------------------------------- included stays included

  /** An inclusion keeps its block and receipt for ever, and solid stays solid, whatever the clocks read. */
  lemma {:induction false} InclusionIsFinal(n: Node, actions: seq<NodeAction>, txid: Txid, before: int, after: int)
    requires NodeInv(n) && GenuineSends(actions) && StatusOf(n, txid, before).Included?
    ensures var was := StatusOf(n, txid, before);
      var now := StatusOf(NodeExec(n, actions), txid, after);
      && now.Included? && now.block == was.block && now.receipt == was.receipt && (was.solid ==> now.solid)
  {
    ExecForward(n, actions);
    assert InBlock(n, txid);
  }

  /** Every included transaction sits in a block above genesis stamped before its expiration. */
  lemma {:induction false} IncludedInTime(n: Node, actions: seq<NodeAction>, txid: Txid)
    requires NodeInv(n) && GenuineSends(actions) && InBlock(NodeExec(n, actions), txid)
    ensures var m := NodeExec(n, actions);
      var b := m.txs[txid].included.value;
      GENESIS < b <= Head(m) && m.times[b - GENESIS] < txid.raw.expiration
  {
    ExecForward(n, actions);
    assert RecordOk(NodeExec(n, actions), txid);
  }

  // ---------------------------------------------------------------- accepted at most once

  /** The number of log entries that record an acceptance of the txid. */
  function AcceptedCount(log: seq<LogEntry>, txid: Txid): nat {
    if log == [] then 0
    else
      var last := log[|log| - 1];
      AcceptedCount(log[..|log| - 1], txid) + if last.txid == txid && Accepts(last) then 1 else 0
  }

  predicate Accepts(e: LogEntry) {
    e.outcome == LoggedAccepted || e.outcome == LoggedTimeoutAccepted
  }

  ghost predicate CountsOk(n: Node) {
    forall txid :: AcceptedCount(n.log, txid) == if txid in n.txs then 1 else 0
  }

  /** A transmission leaves one log entry, and the entry says whether the node has a new record. */
  lemma SendShape(n: Node, tx: SignedTx, worker: string, now: int)
    ensures var m := Send(n, tx, worker, now).0;
      && |m.log| == |n.log| + 1 && m.log[..|n.log|] == n.log && m.log[|n.log|].txid == tx.txid
      && (if Accepts(m.log[|n.log|]) then tx.txid !in n.txs && m.txs.Keys == n.txs.Keys + {tx.txid} else m.txs == n.txs)
  {
  }

  lemma SendCount(n: Node, tx: SignedTx, worker: string, now: int, txid: Txid)
    requires AcceptedCount(n.log, txid) == if txid in n.txs then 1 else 0
    ensures var m := Send(n, tx, worker, now).0; AcceptedCount(m.log, txid) == if txid in m.txs then 1 else 0
  {
    SendShape(n, tx, worker, now);
  }

  lemma SendCounts(n: Node, tx: SignedTx, worker: string, now: int)
    requires CountsOk(n)
    ensures CountsOk(Send(n, tx, worker, now).0)
  {
    var m := Send(n, tx, worker, now).0;
    forall txid ensures AcceptedCount(m.log, txid) == if txid in m.txs then 1 else 0 {
      SendCount(n, tx, worker, now, txid);
    }
  }

  lemma StepCounts(n: Node, a: NodeAction)
    requires CountsOk(n)
    ensures CountsOk(NodeStep(n, a))
  {
    match a
    case Transmit(tx, worker, now) => SendCounts(n, tx, worker, now);
    case MakeBlock(now) =>
      if |n.times| > 0 {
        MinePointwise(n.txs, n.order, Head(n) + 1, NextTime(n, now), n.delay, n.receiptFaults);
      }
    case Query(_, _) =>
    case Enqueue(_, _) =>
  }

  /** A txid is newly accepted at most once, and exactly once if the node knows it. */
  lemma {:induction false} AcceptedOnce(n: Node, actions: seq<NodeAction>, txid: Txid)
    requires CountsOk(n)
    ensures var m := NodeExec(n, actions);
      AcceptedCount(m.log, txid) == if txid in m.txs then 1 else 0
    decreases |actions|
  {
    if actions != [] {
      StepCounts(n, actions[0]);
      AcceptedOnce(NodeStep(n, actions[0]), actions[1..], txid);
    }
  }

  // ---------------------------------------------------------------- unknown is final for what was accepted

  /** Clock readings never run backwards, starting from `t`. */
  predicate NonDecreasing(t: int, actions: seq<NodeAction>)
    decreases |actions|
  {
    actions == [] ||
    (if actions[0].Enqueue? then NonDecreasing(t, actions[1..])
     else t <= actions[0].now && NonDecreasing(actions[0].now, actions[1..]))
  }

  function LastReading(t: int, actions: seq<NodeAction>): int
    decreases |actions|
  {
    if actions == [] then t
    else LastReading(if actions[0].Enqueue? then t else actions[0].now, actions[1..])
  }

  /** Accepted, not in a block, and past its expiration by the clock at `t`. */
  predicate Stale(n: Node, txid: Txid, t: int) {
    txid in n.txs && n.txs[txid].included.None? && n.txs[txid].tx.expiration <= t
  }

  lemma StaleStep(n: Node, a: NodeAction, txid: Txid, t: int)
    requires Stale(n, txid, t) && (a.Enqueue? || t <= a.now)
    ensures Stale(NodeStep(n, a), txid, if a.Enqueue? then t else a.now)
  {
    if a.MakeBlock? && |n.times| > 0 {
      MinePointwise(n.txs, n.order, Head(n) + 1, NextTime(n, a.now), n.delay, n.receiptFaults);
    }
  }

  /** With clocks that do not run backwards, UNKNOWN for an accepted txid is the node's last word on it. */
  lemma {:induction false} UnknownIsFinal(n: Node, actions: seq<NodeAction>, txid: Txid, t: int, later: int)
    requires txid in n.txs && StatusOf(n, txid, t) == Unknown
    requires NonDecreasing(t, actions) && later >= LastReading(t, actions)
    ensures StatusOf(NodeExec(n, actions), txid, later) == Unknown && !InBlock(NodeExec(n, actions), txid)
    decreases |actions|
  {
    if actions != [] {
      StaleStep(n, actions[0], txid, t);
      UnknownIsFinal(NodeStep(n, actions[0]), actions[1..], txid, if actions[0].Enqueue? then t else actions[0].now, later);
    }
  }
}
