/**
The mock node as an object: block times, accepted transactions, fault queues and the
broadcast log change in place. Every method is proved equal to the node function of the
same call, so everything proved about runs of those functions holds of the object.
*/
module MockNode {

  import opened Common
  import opened Chain
  import opened ChainProperties
  import opened NodeAnswers

  /** One block per clock reading. */
  function ProduceAll(n: Node, nows: seq<int>): Node
    requires |n.times| > 0
    decreases |nows|
  {
    if nows == [] then n else ProduceAll(Produce(n, nows[0]), nows[1..])
  }

  /** The list of block times behind a table keyed by block number. */
  function TimesOf(blockTime: map<int, int>, head: int): seq<int>
    requires GENESIS <= head && forall h :: GENESIS <= h <= head ==> h in blockTime
  {
    seq(head - GENESIS + 1, k requires 0 <= k <= head - GENESIS => blockTime[GENESIS + k])
  }

  lemma TimesSnoc(blockTime: map<int, int>, head: int, t: int)
    requires GENESIS <= head && forall h :: GENESIS <= h <= head ==> h in blockTime
    ensures TimesOf(blockTime[head + 1 := t], head + 1) == TimesOf(blockTime, head) + [t]
  {
  }

  class MockTronNode {
    const lag: nat
    const delay: int
    const key: Key
    var head: int
    var blockTime: map<int, int>
    var txs: map<Txid, TxRecord>
    var order: seq<Txid>
    var broadcastFaults: seq<Fault>
    var queryFaults: seq<Fault>
    var receiptFaults: seq<Fault>
    var log: seq<LogEntry>

    /** The table holds exactly the blocks from genesis to the head; `order` is the arrival order of `txs`. */
    ghost predicate Valid()
      reads this
    {
      && GENESIS <= head
      && (forall h :: h in blockTime <==> GENESIS <= h <= head)
      && (forall txid :: txid in order <==> txid in txs)
      && (forall i, j :: 0 <= i < j < |order| ==> order[i] != order[j])
    }

    ghost function View(): Node
      requires Valid()
      reads this
    {
      Node(lag, delay, key, TimesOf(blockTime, head), txs, order, broadcastFaults, queryFaults, receiptFaults, log)
    }

    constructor (lag: nat, delay: int, key: Key, now: int)
      ensures Valid() && View() == NewNode(lag, delay, key, now)
    {
      this.lag, this.delay, this.key := lag, delay, key;
      head, blockTime := GENESIS, map[GENESIS := now];
      txs, order := map[], [];
      broadcastFaults, queryFaults, receiptFaults, log := [], [], [], [];
    }

    // -------------------------------------------------------------- fault scripting

    method PopRevert() returns (revert: bool)
      modifies this`receiptFaults
      ensures revert == RevertScripted(old(receiptFaults))
      ensures receiptFaults == if revert then old(receiptFaults)[1..] else old(receiptFaults)
    {
      if receiptFaults != [] && receiptFaults[0] == RevertReceipt {
        receiptFaults := receiptFaults[1..];
        return true;
      }
      return false;
    }

    // -------------------------------------------------------------- chain geometry

    /** The largest block number not above `bound`, or the smallest of all when there is none. */
    method LatestUpTo(bound: int) returns (h: int)
      requires Valid()
      ensures h in blockTime
      ensures h <= bound ==> forall k :: k in blockTime && k <= bound ==> k <= h
      ensures h > bound ==> forall k :: k in blockTime ==> bound < k && h <= k
    {
      h := GENESIS;
      for k := GENESIS to head + 1
        invariant h in blockTime && (h <= bound || h == GENESIS)
        invariant forall j :: j in blockTime && j < k && j <= bound ==> j <= h
      {
        if k <= bound && h < k {
          h := k;
        }
      }
    }

    method SolidTime() returns (t: int)
      requires Valid()
      ensures t == SolidNow(View())
      ensures t == blockTime[if GENESIS + lag <= head then head - lag else GENESIS]
    {
      var h := LatestUpTo(head - lag);
      assert GENESIS in blockTime && (GENESIS <= head - lag ==> head - lag in blockTime);
      assert h == RefBlock(View());
      t := blockTime[h];
    }

    method ReferenceBlock() returns (h: int)
      requires Valid()
      ensures h == RefBlock(View()) == if GENESIS + lag <= head then head - lag else GENESIS
    {
      var first := LatestUpTo(GENESIS - 1);
      assert GENESIS in blockTime;
      h := if head - lag < first then first else head - lag;
    }

    // -------------------------------------------------------------- block production

    /** One sweep over the accepted transactions in arrival order. */
    method FillBlock(t: int)
      requires Valid()
      modifies this`txs, this`receiptFaults
      ensures Valid() && (txs, receiptFaults) == Mine(old(txs), order, head, t, delay, old(receiptFaults))
    {
      ghost var goal := Mine(txs, order, head, t, delay, receiptFaults);
      var k := 0;
      assert order[0..] == order;
      while k < |order|
        invariant 0 <= k <= |order|
        invariant txs.Keys == old(txs).Keys
        invariant goal == Mine(txs, order[k..], head, t, delay, receiptFaults)
      {
        assert order[k..][1..] == order[k + 1..];
        var rec := txs[order[k]];
        if rec.included.None? && t < rec.tx.expiration && head - rec.acceptedAt >= delay {
          ghost var faults := receiptFaults;
          var revert := PopRevert();
          txs := txs[order[k] := rec.(included := Some(head), receipt := Some(if revert then Reverted else Success))];
          assert txs[order[k]] == Mined(rec, head, faults);
        }
        k := k + 1;
      }
    }

    method ProduceBlock(now: int)
      requires Valid()
      modifies this
      ensures Valid() && View() == Produce(old(View()), now)
    {
      var t := now;
      var prev := blockTime[head];
      if t <= prev {
        t := prev + 1;
      }
      TimesSnoc(blockTime, head, t);
      head := head + 1;
      blockTime := blockTime[head := t];
      FillBlock(t);
    }

    /** The chain advances by one block per clock reading. */
    method ProduceBlocks(nows: seq<int>)
      requires Valid()
      modifies this
      ensures Valid() && View() == ProduceAll(old(View()), nows)
    {
      assert nows[0..] == nows;
      for k := 0 to |nows|
        invariant Valid() && |View().times| > 0
        invariant ProduceAll(View(), nows[k..]) == ProduceAll(old(View()), nows)
      {
        assert nows[k..][1..] == nows[k + 1..];
        ProduceBlock(nows[k]);
      }
    }

    // -------------------------------------------------------------- the node's interface

    method Note(txid: Txid, outcome: SendOutcome, worker: string)
      modifies this`log
      ensures log == old(log) + [LogEntry(txid, outcome, head, worker)]
    {
      log := log + [LogEntry(txid, outcome, head, worker)];
    }

    method Broadcast(tx: SignedTx, worker: string, now: int) returns (answer: Answer)
      requires Valid()
      modifies this
      ensures Valid() && (View(), answer) == Send(old(View()), tx, worker, now)
    {
      var fault := HeadFault(broadcastFaults);
      broadcastFaults := RestFaults(broadcastFaults);
      if fault == Some(TimeoutDropped) {
        Note(tx.txid, LoggedTimeoutDropped, worker);
        return Timeout;
      }
      if fault == Some(Busy) {
        Note(tx.txid, LoggedBusy, worker);
        return Reply(ServerBusy);
      }
      if fault == Some(UnknownCode) {
        Note(tx.txid, LoggedUnknownCode, worker);
        return Reply(Novel("PLEASE_INSERT_COIN"));
      }
      if !Verify(key, tx) {
        Note(tx.txid, LoggedRejected(SigError), worker);
        return Reply(SigError);
      }
      if tx.expiration <= now {
        Note(tx.txid, LoggedRejected(ExpirationError), worker);
        return Reply(ExpirationError);
      }
      if tx.txid in txs {
        Note(tx.txid, LoggedDup, worker);
        return Reply(DupTransaction);
      }
      txs := txs[tx.txid := TxRecord(tx, head, None, None)];
      order := order + [tx.txid];
      if fault == Some(TimeoutAccepted) {
        Note(tx.txid, LoggedTimeoutAccepted, worker);
        return Timeout;
      }
      Note(tx.txid, LoggedAccepted, worker);
      return Reply(CodeSuccess);
    }

    method FindTx(txid: Txid, now: int) returns (status: TxStatus)
      requires Valid()
      modifies this`queryFaults
      ensures Valid() && (View(), status) == Find(old(View()), txid, now)
      ensures status.Included? ==> (status.solid <==> status.block + lag <= head)
    {
      var fault := HeadFault(queryFaults);
      queryFaults := RestFaults(queryFaults);
      if fault == Some(QueryTimeout) {
        return QueryFailed;
      }
      if txid !in txs {
        return Unknown;
      }
      var rec := txs[txid];
      if rec.included.None? {
        if rec.tx.expiration <= now {
          return Unknown;
        }
        return Pending;
      }
      return Included(rec.included.value, rec.included.value <= head - lag, rec.receipt);
    }

    // -------------------------------------------------------------- what the verifier asks

    method TimesAccepted(txid: Txid) returns (count: nat)
      ensures count == AcceptedCount(log, txid)
    {
      count := 0;
      for k := 0 to |log|
        invariant count == AcceptedCount(log[..k], txid)
      {
        assert log[..k + 1][..k] == log[..k];
        if log[k].txid == txid && Accepts(log[k]) {
          count := count + 1;
        }
      }
      assert log[..|log|] == log;
    }

    method SuccessfulTxids() returns (txids: set<Txid>)
      requires Valid()
      ensures forall txid :: txid in txids <==> Succeeded(View(), txid)
    {
      txids := {};
      for k := 0 to |order|
        invariant forall txid :: txid in txids <==> txid in order[..k] && Succeeded(View(), txid)
      {
        var rec := txs[order[k]];
        if rec.included.Some? && rec.receipt == Some(Success) {
          txids := txids + {order[k]};
        }
      }
    }
  }
}
