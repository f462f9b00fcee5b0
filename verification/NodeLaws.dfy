/**
The node's answers said over its settings and its list of blocks alone: when a block is
solid, what chain time is, which transactions a block takes and with which receipts, and
what a transmission or a query comes to.
*/
module NodeLaws {

  import opened Common
  import opened Chain

  // ---------------------------------------------------------------- finality

  /** A block is solid exactly when at least `lag` blocks lie on top of it. */
  lemma FinalityExactly(n: Node, txid: Txid, now: int)
    requires |n.times| > 0
    ensures var status := StatusOf(n, txid, now);
      status.Included? ==> (status.solid <==> status.block + n.lag <= GENESIS + |n.times| - 1)
  {
  }

  /** Chain time and the reference block are those of the block `lag` below the head, or of the first block. */
  lemma SolidTimeExactly(n: Node)
    requires |n.times| > 0
    ensures SolidNow(n) == if n.lag < |n.times| then n.times[|n.times| - 1 - n.lag] else n.times[0]
    ensures RefBlock(n) == GENESIS + if n.lag < |n.times| then |n.times| - 1 - n.lag else 0
  {
  }

  // ---------------------------------------------------------------- queries

  /** The node knows what it accepted; what is not in a block it denies from its expiration on. */
  lemma StatusExactly(n: Node, txid: Txid, now: int)
    ensures var status := StatusOf(n, txid, now);
      && (status == Unknown <==>
            txid !in n.txs || (n.txs[txid].included == None && now >= n.txs[txid].tx.expiration))
      && (status == Pending <==>
            txid in n.txs && n.txs[txid].included == None && now < n.txs[txid].tx.expiration)
      && (status.Included? <==> txid in n.txs && n.txs[txid].included.Some?)
      && (status.Included? ==> n.txs[txid].included == Some(status.block) && n.txs[txid].receipt == status.receipt)
  {
  }

  /** A query uses up one scripted fault, fails exactly when that is a query timeout, and changes nothing else. */
  lemma FindExactly(n: Node, txid: Txid, now: int)
    ensures var (m, status) := Find(n, txid, now);
      && m == n.(queryFaults := if n.queryFaults == [] then [] else n.queryFaults[1..])
      && (status.QueryFailed? <==> n.queryFaults != [] && n.queryFaults[0] == QueryTimeout)
      && (!status.QueryFailed? ==> status == StatusOf(n, txid, now))
  {
  }

  // ---------------------------------------------------------------- transmissions

  /** The fault scripted for the next transmission. */
  function NextFault(n: Node): Option<Fault> {
    if n.broadcastFaults == [] then None else Some(n.broadcastFaults[0])
  }

  /** The request never gets as far as the checks. */
  predicate Unprocessed(n: Node) {
    NextFault(n) in {Some(TimeoutDropped), Some(Busy), Some(UnknownCode)}
  }

  predicate SignedWith(key: Key, tx: SignedTx) {
    tx.signature == Signature(key.keyId, Mac(key.secret, tx.txid))
  }

  /** The transaction is taken: it reached the node, is signed with the node's key, has not expired and is new. */
  predicate Taken(n: Node, tx: SignedTx, now: int) {
    !Unprocessed(n) && SignedWith(n.key, tx) && now < tx.expiration && tx.txid !in n.txs
  }

  /**
  A transmission uses up one scripted fault and leaves one log entry. A record is added if
  and only if the transaction is taken, so nothing is ever accepted that the node's clock
  says has expired.
  */
  lemma SendExactly(n: Node, tx: SignedTx, worker: string, now: int)
    requires |n.times| > 0
    ensures var (m, answer) := Send(n, tx, worker, now);
      var head := GENESIS + |n.times| - 1;
      && |m.log| == |n.log| + 1
      && m == n.(broadcastFaults := if n.broadcastFaults == [] then [] else n.broadcastFaults[1..],
                 log := n.log + [LogEntry(tx.txid, m.log[|n.log|].outcome, head, worker)],
                 txs := if Taken(n, tx, now) then n.txs[tx.txid := TxRecord(tx, head, None, None)] else n.txs,
                 order := if Taken(n, tx, now) then n.order + [tx.txid] else n.order)
  {
  }

  /** Each answer, and what the log says about it, has exactly one cause. */
  lemma AnswerExactly(n: Node, tx: SignedTx, worker: string, now: int)
    ensures var (m, answer) := Send(n, tx, worker, now);
      var known := !Unprocessed(n) && SignedWith(n.key, tx) && now < tx.expiration && tx.txid in n.txs;
      && (answer == Timeout <==> NextFault(n) == Some(TimeoutDropped)
                                 || (Taken(n, tx, now) && NextFault(n) == Some(TimeoutAccepted)))
      && (answer == Reply(CodeSuccess) <==> Taken(n, tx, now) && NextFault(n) != Some(TimeoutAccepted))
      && (answer == Reply(DupTransaction) <==> known)
      && (answer == Reply(SigError) <==> !Unprocessed(n) && !SignedWith(n.key, tx))
      && (answer == Reply(ExpirationError) <==> !Unprocessed(n) && SignedWith(n.key, tx) && tx.expiration <= now)
      && (answer == Reply(ServerBusy) <==> NextFault(n) == Some(Busy))
      && (answer == Reply(Novel("PLEASE_INSERT_COIN")) <==> NextFault(n) == Some(UnknownCode))
  {
  }

  lemma OutcomeExactly(n: Node, tx: SignedTx, worker: string, now: int)
    ensures var (m, answer) := Send(n, tx, worker, now);
      && |m.log| == |n.log| + 1
      && m.log[|n.log|].outcome ==
         match answer
         case Timeout => if Taken(n, tx, now) then LoggedTimeoutAccepted else LoggedTimeoutDropped
         case Reply(code) =>
           if code == CodeSuccess then LoggedAccepted
           else if code == DupTransaction then LoggedDup
           else if code == ServerBusy then LoggedBusy
           else if code == Novel("PLEASE_INSERT_COIN") then LoggedUnknownCode
           else LoggedRejected(code)
  {
  }

  /** Signatures verify under the key that made them and under no other. */
  lemma SignatureExactly(key: Key, other: Key, raw: RawData)
    ensures Verify(key, Sign(other, raw)) <==> key == other
    ensures var tx := Sign(key, raw); tx.raw == raw && tx.txid == Txid(raw) && tx.expiration == raw.expiration
  {
  }

  // ---------------------------------------------------------------- blocks

  /** The transaction goes into the block `head` stamped `t`. */
  predicate Joins(txs: map<Txid, TxRecord>, txid: Txid, head: int, t: int, delay: int) {
    && txid in txs && txs[txid].included == None
    && t < txs[txid].tx.expiration && txs[txid].acceptedAt + delay <= head
  }

  /** Those that go in, in order of arrival. */
  function Joining(txs: map<Txid, TxRecord>, order: seq<Txid>, head: int, t: int, delay: int): seq<Txid> {
    if order == [] then []
    else (if Joins(txs, order[0], head, t, delay) then [order[0]] else []) + Joining(txs, order[1..], head, t, delay)
  }

  /** How many reverts are scripted in a row. */
  function Reverts(faults: seq<Fault>): (k: nat)
    ensures k <= |faults|
  {
    if faults != [] && faults[0] == RevertReceipt then 1 + Reverts(faults[1..]) else 0
  }

  function Fewer(a: nat, b: nat): nat {
    if a < b then a else b
  }

  /** The joining get this block and a receipt, the reverts going to the first of them; nothing else changes. */
  ghost predicate Joined(txs: map<Txid, TxRecord>, joining: seq<Txid>, head: int, faults: seq<Fault>,
                         txs': map<Txid, TxRecord>, faults': seq<Fault>)
  {
    && txs'.Keys == txs.Keys
    && (forall k :: 0 <= k < |joining| ==>
          && joining[k] in txs
          && txs'[joining[k]] == txs[joining[k]].(included := Some(head),
                                                  receipt := Some(if k < Reverts(faults) then Reverted else Success)))
    && (forall txid :: txid in txs && txid !in joining ==> txs'[txid] == txs[txid])
    && faults' == faults[Fewer(Reverts(faults), |joining|)..]
  }

  /** What the sweep does. */
  ghost predicate Swept(txs: map<Txid, TxRecord>, order: seq<Txid>, head: int, t: int, delay: int, faults: seq<Fault>,
                        txs': map<Txid, TxRecord>, faults': seq<Fault>)
  {
    Joined(txs, Joining(txs, order, head, t, delay), head, faults, txs', faults')
  }

  ghost predicate NoRepeats(order: seq<Txid>) {
    forall i, j :: 0 <= i < j < |order| ==> order[i] != order[j]
  }

  lemma {:induction false} JoiningFrame(txs: map<Txid, TxRecord>, order: seq<Txid>, head: int, t: int, delay: int,
                                        txid: Txid, rec: TxRecord)
    requires txid !in order
    ensures Joining(txs[txid := rec], order, head, t, delay) == Joining(txs, order, head, t, delay)
    decreases |order|
  {
    if order != [] {
      JoiningFrame(txs, order[1..], head, t, delay, txid, rec);
    }
  }

  lemma {:induction false} JoiningIn(txs: map<Txid, TxRecord>, order: seq<Txid>, head: int, t: int, delay: int)
    ensures forall txid :: txid in Joining(txs, order, head, t, delay) <==> txid in order && Joins(txs, txid, head, t, delay)
    decreases |order|
  {
    if order != [] {
      JoiningIn(txs, order[1..], head, t, delay);
      assert order == [order[0]] + order[1..];
    }
  }

  lemma OneFewer(faults: seq<Fault>, n: nat)
    ensures var left := if RevertScripted(faults) then faults[1..] else faults;
      left[Fewer(Reverts(left), n)..] == faults[Fewer(Reverts(faults), n + 1)..]
  {
  }

  lemma FirstReceipt(faults: seq<Fault>)
    ensures var left := if RevertScripted(faults) then faults[1..] else faults;
      Reverts(faults) == Reverts(left) + (if RevertScripted(faults) then 1 else 0)
  {
  }

  lemma JoinedAt(txs: map<Txid, TxRecord>, first: Txid, others: seq<Txid>, head: int, faults: seq<Fault>,
                 txs': map<Txid, TxRecord>, faults': seq<Fault>, k: nat)
    requires first in txs && first !in others && k <= |others|
    requires var left := if RevertScripted(faults) then faults[1..] else faults;
      Joined(txs[first := Mined(txs[first], head, faults)], others, head, left, txs', faults')
    ensures var txid := ([first] + others)[k];
      && txid in txs && txid in txs'
      && txs'[txid] == txs[txid].(included := Some(head),
                                  receipt := Some(if k < Reverts(faults) then Reverted else Success))
  {
    FirstReceipt(faults);
    if k > 0 {
      assert ([first] + others)[k] == others[k - 1];
    }
  }

  lemma JoinedFirst(txs: map<Txid, TxRecord>, first: Txid, others: seq<Txid>, head: int, faults: seq<Fault>,
                    txs': map<Txid, TxRecord>, faults': seq<Fault>)
    requires first in txs && first !in others
    requires var left := if RevertScripted(faults) then faults[1..] else faults;
      Joined(txs[first := Mined(txs[first], head, faults)], others, head, left, txs', faults')
    ensures Joined(txs, [first] + others, head, faults, txs', faults')
  {
    assert faults' == faults[Fewer(Reverts(faults), |[first] + others|)..] by {
      OneFewer(faults, |others|);
    }
    forall k | 0 <= k < |[first] + others|
      ensures var txid := ([first] + others)[k];
        && txid in txs && txid in txs'
        && txs'[txid] == txs[txid].(included := Some(head),
                                    receipt := Some(if k < Reverts(faults) then Reverted else Success))
    {
      JoinedAt(txs, first, others, head, faults, txs', faults', k);
    }
  }

  lemma {:induction false} SweepExactly(txs: map<Txid, TxRecord>, order: seq<Txid>, head: int, t: int, delay: int,
                                        faults: seq<Fault>)
    requires NoRepeats(order)
    ensures var (txs', faults') := Mine(txs, order, head, t, delay, faults);
      Swept(txs, order, head, t, delay, faults, txs', faults')
    decreases |order|
  {
    if order != [] {
      var first, rest := order[0], order[1..];
      assert first !in rest;
      if Joins(txs, first, head, t, delay) {
        JoinFirst(txs, order, head, t, delay, faults);
      } else {
        SweepExactly(txs, rest, head, t, delay, faults);
        assert Joining(txs, order, head, t, delay) == Joining(txs, rest, head, t, delay);
      }
    }
  }

  lemma {:induction false} JoinFirst(txs: map<Txid, TxRecord>, order: seq<Txid>, head: int, t: int, delay: int,
                                     faults: seq<Fault>)
    requires NoRepeats(order) && order != [] && Joins(txs, order[0], head, t, delay)
    ensures var (txs', faults') := Mine(txs, order, head, t, delay, faults);
      Swept(txs, order, head, t, delay, faults, txs', faults')
    decreases |order|, 0
  {
    var first, rest := order[0], order[1..];
    var rec := Mined(txs[first], head, faults);
    var left := if RevertScripted(faults) then faults[1..] else faults;
    SweepExactly(txs[first := rec], rest, head, t, delay, left);
    JoiningFrame(txs, rest, head, t, delay, first, rec);
    JoiningIn(txs, rest, head, t, delay);
    var (txs', faults') := Mine(txs, order, head, t, delay, faults);
    JoinedFirst(txs, first, Joining(txs, rest, head, t, delay), head, faults, txs', faults');
  }

  /**
  A block is stamped with the clock, or one millisecond after the block before it if the
  clock is not ahead of that, and takes every accepted transaction that is old enough and
  not expired at the stamp.
  */
  lemma BlockExactly(n: Node, now: int)
    requires |n.times| > 0 && NoRepeats(n.order)
    ensures var m := Produce(n, now);
      var last := n.times[|n.times| - 1];
      && |m.times| == |n.times| + 1 && m.times[..|n.times|] == n.times
      && var t := m.times[|n.times|];
      && t >= now && t > last && (t == now || t == last + 1)
      && Swept(n.txs, n.order, GENESIS + |n.times|, t, n.delay, n.receiptFaults, m.txs, m.receiptFaults)
      && m == n.(times := m.times, txs := m.txs, receiptFaults := m.receiptFaults)
  {
    SweepExactly(n.txs, n.order, GENESIS + |n.times|, NextTime(n, now), n.delay, n.receiptFaults);
  }
}
