/**
The TRON node as values: what it stores, what each of its calls answers, and what it
does when it produces a block. Times are whole milliseconds. Clock readings are
arguments, so nothing here assumes that clocks agree or move forward.
*/
module Chain {

  import opened Common

  /** Everything the txid is computed from. The contract address is fixed per deployment. */
  datatype RawData = RawData(to: string, amount: int, refBlock: int, timestamp: int, expiration: int)

  /** sha256 over the canonical serialisation, taken as an injective constructor. */
  datatype Txid = Txid(raw: RawData)

  datatype Key = Key(keyId: string, secret: string)

  /** The keyed hash over the txid, again as an injective constructor. */
  datatype Mac = Mac(secret: string, txid: Txid)

  /** `Unsplit` is a signature string that has no key id in it. */
  datatype Signature = Unsplit | Signature(keyId: string, mac: Mac)

  datatype SignedTx = SignedTx(raw: RawData, txid: Txid, expiration: int, signature: Signature)

  function Sign(key: Key, raw: RawData): SignedTx {
    SignedTx(raw, Txid(raw), raw.expiration, Signature(key.keyId, Mac(key.secret, Txid(raw))))
  }

  predicate Verify(key: Key, tx: SignedTx) {
    tx.signature == Signature(key.keyId, Mac(key.secret, tx.txid))
  }

  /** Bytes whose txid and expiration are those of their own raw data. */
  predicate Genuine(tx: SignedTx) {
    tx.txid == Txid(tx.raw) && tx.expiration == tx.raw.expiration
  }

  datatype Fault =
    | TimeoutDropped
    | TimeoutAccepted
    | Busy
    | UnknownCode
    | RevertReceipt
    | QueryTimeout

  datatype Channel = BroadcastChannel | QueryChannel | ReceiptChannel

  datatype Receipt = Success | Reverted

  datatype TxRecord = TxRecord(tx: SignedTx, acceptedAt: int, included: Option<int>, receipt: Option<Receipt>)

  /** The node's answer codes; `Novel` is any string outside the known list. */
  datatype Code =
    | CodeSuccess
    | DupTransaction
    | SigError
    | ContractValidateError
    | TaposError
    | ExpirationError
    | ServerBusy
    | Novel(text: string)

  datatype Answer = Timeout | Reply(code: Code)

  datatype TxStatus =
    | QueryFailed
    | Unknown
    | Pending
    | Included(block: int, solid: bool, receipt: Option<Receipt>)

  datatype SendOutcome =
    | LoggedAccepted
    | LoggedDup
    | LoggedRejected(code: Code)
    | LoggedTimeoutAccepted
    | LoggedTimeoutDropped
    | LoggedBusy
    | LoggedUnknownCode

  datatype LogEntry = LogEntry(txid: Txid, outcome: SendOutcome, atBlock: int, worker: string)

  const GENESIS := 1000

  /** Block `h` carries the timestamp `times[h - GENESIS]`; `order` lists the accepted txids by arrival. */
  datatype Node = Node(
    lag: nat,
    delay: int,
    key: Key,
    times: seq<int>,
    txs: map<Txid, TxRecord>,
    order: seq<Txid>,
    broadcastFaults: seq<Fault>,
    queryFaults: seq<Fault>,
    receiptFaults: seq<Fault>,
    log: seq<LogEntry>)

  function NewNode(lag: nat, delay: int, key: Key, now: int): Node {
    Node(lag, delay, key, [now], map[], [], [], [], [], [])
  }

  function Head(n: Node): int {
    GENESIS + |n.times| - 1
  }

  function SolidBlock(n: Node): int {
    Head(n) - n.lag
  }

  function HeadTime(n: Node): int
    requires |n.times| > 0
  {
    n.times[|n.times| - 1]
  }

  /** The TaPoS reference: the latest solid block, or the first block of a chain younger than the lag. */
  function RefBlock(n: Node): int {
    if SolidBlock(n) < GENESIS then GENESIS else SolidBlock(n)
  }

  /** Chain time: the stamp of the latest solid block, or of the first block while none is solid. */
  function SolidNow(n: Node): int
    requires |n.times| > 0
  {
    n.times[RefBlock(n) - GENESIS]
  }

  // ---------------------------------------------------------------- block production

  /** Block time follows the clock but always rises by at least one millisecond. */
  function NextTime(n: Node, now: int): int
    requires |n.times| > 0
  {
    if now <= HeadTime(n) then HeadTime(n) + 1 else now
  }

  predicate Eligible(rec: TxRecord, head: int, t: int, delay: int) {
    rec.included.None? && t < rec.tx.expiration && head - rec.acceptedAt >= delay
  }

  predicate RevertScripted(faults: seq<Fault>) {
    faults != [] && faults[0] == RevertReceipt
  }

  function Mined(rec: TxRecord, head: int, faults: seq<Fault>): TxRecord {
    rec.(included := Some(head), receipt := Some(if RevertScripted(faults) then Reverted else Success))
  }

  /** The sweep over the accepted transactions, in arrival order, that fills one block. */
  function Mine(txs: map<Txid, TxRecord>, order: seq<Txid>, head: int, t: int, delay: int, faults: seq<Fault>)
    : (map<Txid, TxRecord>, seq<Fault>)
    decreases |order|
  {
    if order == [] then (txs, faults)
    else if order[0] in txs && Eligible(txs[order[0]], head, t, delay) then
      Mine(txs[order[0] := Mined(txs[order[0]], head, faults)], order[1..], head, t, delay,
           if RevertScripted(faults) then faults[1..] else faults)
    else
      Mine(txs, order[1..], head, t, delay, faults)
  }

  function Produce(n: Node, now: int): Node
    requires |n.times| > 0
  {
    var t := NextTime(n, now);
    var (txs, faults) := Mine(n.txs, n.order, Head(n) + 1, t, n.delay, n.receiptFaults);
    n.(times := n.times + [t], txs := txs, receiptFaults := faults)
  }

  // ---------------------------------------------------------------- node calls

  function Logged(n: Node, txid: Txid, outcome: SendOutcome, worker: string): Node {
    n.(log := n.log + [LogEntry(txid, outcome, Head(n), worker)])
  }

  function Admit(n: Node, tx: SignedTx): Node {
    n.(txs := n.txs[tx.txid := TxRecord(tx, Head(n), None, None)], order := n.order + [tx.txid])
  }

  function HeadFault(faults: seq<Fault>): Option<Fault> {
    if faults == [] then None else Some(faults[0])
  }

  function RestFaults(faults: seq<Fault>): seq<Fault> {
    if faults == [] then [] else faults[1..]
  }

  function Send(n: Node, tx: SignedTx, worker: string, now: int): (Node, Answer) {
    var fault := HeadFault(n.broadcastFaults);
    var m := n.(broadcastFaults := RestFaults(n.broadcastFaults));
    if fault == Some(TimeoutDropped) then
      (Logged(m, tx.txid, LoggedTimeoutDropped, worker), Timeout)
    else if fault == Some(Busy) then
      (Logged(m, tx.txid, LoggedBusy, worker), Reply(ServerBusy))
    else if fault == Some(UnknownCode) then
      (Logged(m, tx.txid, LoggedUnknownCode, worker), Reply(Novel("PLEASE_INSERT_COIN")))
    else if !Verify(m.key, tx) then
      (Logged(m, tx.txid, LoggedRejected(SigError), worker), Reply(SigError))
    else if tx.expiration <= now then
      (Logged(m, tx.txid, LoggedRejected(ExpirationError), worker), Reply(ExpirationError))
    else if tx.txid in m.txs then
      (Logged(m, tx.txid, LoggedDup, worker), Reply(DupTransaction))
    else if fault == Some(TimeoutAccepted) then
      (Logged(Admit(m, tx), tx.txid, LoggedTimeoutAccepted, worker), Timeout)
    else
      (Logged(Admit(m, tx), tx.txid, LoggedAccepted, worker), Reply(CodeSuccess))
  }

  function StatusOf(n: Node, txid: Txid, now: int): TxStatus {
    if txid !in n.txs then Unknown
    else
      var rec := n.txs[txid];
      if rec.included.None? then
        if rec.tx.expiration <= now then Unknown else Pending
      else
        Included(rec.included.value, rec.included.value <= SolidBlock(n), rec.receipt)
  }

  function Find(n: Node, txid: Txid, now: int): (Node, TxStatus) {
    var m := n.(queryFaults := RestFaults(n.queryFaults));
    if HeadFault(n.queryFaults) == Some(QueryTimeout) then (m, QueryFailed)
    else (m, StatusOf(n, txid, now))
  }

  function Script(n: Node, channel: Channel, faults: seq<Fault>): Node {
    match channel
    case BroadcastChannel => n.(broadcastFaults := n.broadcastFaults + faults)
    case QueryChannel => n.(queryFaults := n.queryFaults + faults)
    case ReceiptChannel => n.(receiptFaults := n.receiptFaults + faults)
  }

  // ---------------------------------------------------------------- runs of the node alone

  datatype NodeAction =
    | Transmit(tx: SignedTx, worker: string, now: int)
    | Query(txid: Txid, now: int)
    | MakeBlock(now: int)
    | Enqueue(channel: Channel, faults: seq<Fault>)

  function NodeStep(n: Node, a: NodeAction): Node {
    match a
    case Transmit(tx, worker, now) => Send(n, tx, worker, now).0
    case Query(txid, now) => Find(n, txid, now).0
    case MakeBlock(now) => if |n.times| > 0 then Produce(n, now) else n
    case Enqueue(channel, faults) => Script(n, channel, faults)
  }

  function NodeExec(n: Node, actions: seq<NodeAction>): Node
    decreases |actions|
  {
    if actions == [] then n else NodeExec(NodeStep(n, actions[0]), actions[1..])
  }

  /** Every transmission carries bytes that match their own txid. */
  predicate GenuineSends(actions: seq<NodeAction>) {
    forall a :: a in actions && a.Transmit? ==> Genuine(a.tx)
  }
}
