/**
The inductive invariant of the protocol. Its parts: the node and the store are well
formed; rows carry matching artefacts; what rows and snapshots claim about the chain is
true; and a drive that still holds the current token holds the current row. It holds in
every run. On top of it sits `SafeInv`: every txid ever written ahead is dead or is the
row's current, still live, envelope.
*/
module Invariant {

  import opened Common
  import opened States
  import opened Chain
  import opened ChainProperties
  import opened Store
  import opened StoreProperties
  import opened Protocol

  // ---------------------------------------------------------------- rows alone

  predicate Early(s: OpState) {
    s in {Requested, Validated, Rejected}
  }

  predicate InFlight(s: OpState) {
    s in {Signed, Broadcasting, Broadcast}
  }

  /** txid, envelope, expiration and signed bytes belong together and pay what the row says. */
  predicate Artefacts(c: Config, row: Row) {
    match row.txid
    case None => row.unsigned == None && row.expiration == None && row.signed == None
    case Some(t) =>
      && row.unsigned == Some(t.raw)
      && row.expiration == Some(t.raw.expiration)
      && t.raw.to == row.to
      && t.raw.amount == row.amount
      && t.raw.expiration == t.raw.timestamp + c.ttlMs
      && (row.signed == None || row.signed == Some(Sign(c.signer, t.raw)))
  }

  predicate RowOk(c: Config, row: Row) {
    && Artefacts(c, row)
    && row.hash == RequestHash(row.to, row.amount, row.asset)
    && (Early(row.state) ==> row.txid == None && row.attempts == 0)
    && (row.state == Signing ==> row.signed == None)
    && (InFlight(row.state) || row.state == Confirmed ==> row.signed.Some? && row.attempts < c.maxAttempts)
    && row.attempts <= c.maxAttempts
    && (row.state == Rejected ==> !Acceptable(c, row))
    && (row.state != Requested && row.state != Rejected ==> Acceptable(c, row))
    && (Terminal(row.state) ==> row.lease == None && row.claimedBy == None)
  }

  lemma SignedBytes(c: Config, row: Row)
    requires RowOk(c, row) && row.signed.Some?
    ensures row.txid.Some? && row.signed.value == Sign(c.signer, row.txid.value.raw)
    ensures row.signed.value.txid == row.txid.value && Genuine(row.signed.value)
  {
  }

  // ---------------------------------------------------------------- rows against node and log

  /** What a row, or a snapshot of one, asserts about the world. Once true, always true. */
  ghost predicate Facts(n: Node, es: seq<Event>, id: OpId, row: Row) {
    && (row.txid.Some? ==> Given(es, id, row.txid.value))
    && (row.state in {Broadcasting, Broadcast, Confirmed} ==>
          row.txid.Some? && WroteAhead(es, id, row.txid.value))
    && (row.state == Broadcast ==> row.txid.value in n.txs)
    && (row.state == Confirmed ==>
          && Succeeded(n, row.txid.value)
          && n.txs[row.txid.value].included.value <= SolidBlock(n)
          && row.includedBlock == n.txs[row.txid.value].included)
    && (row.state == Failed && row.signed.Some? ==>
          row.txid.Some? && (!Verify(n.key, row.signed.value) || RevertedOnChain(n, row.txid.value)))
  }

  /** The transaction pays the row's destination the row's amount and lives as long as configured; the row is valid. */
  predicate Pays(c: Config, row: Row, txid: Txid) {
    && txid.raw.to == row.to && txid.raw.amount == row.amount
    && txid.raw.expiration == txid.raw.timestamp + c.ttlMs
    && Acceptable(c, row)
  }

  /** Every txid the operation was ever given pays it as asked. */
  ghost predicate PaysAsAsked(c: Config, es: seq<Event>, id: OpId, row: Row) {
    forall txid :: Given(es, id, txid) ==> Pays(c, row, txid)
  }

  ghost predicate RowInv(c: Config, n: Node, es: seq<Event>, id: OpId, row: Row) {
    RowOk(c, row) && Facts(n, es, id, row) && PaysAsAsked(c, es, id, row)
  }

  // ---------------------------------------------------------------- drives

  /** What a drive knows at each point, true of its own snapshot even after it has been fenced out. */
  ghost predicate PcOk(c: Config, n: Node, es: seq<Event>, d: Drive)
    requires |n.times| > 0 && RowOk(c, d.op)
  {
    match d.pc
    case Ready => d.base == d.op
    case Build => d.op.state == Signing
    case HaveRef(_) => d.op.state == Signing && d.op.attempts < c.maxAttempts
    case Envelope(raw) =>
      && d.op.state == Signing && d.op.attempts < c.maxAttempts
      && raw.to == d.op.to && raw.amount == d.op.amount && raw.expiration == raw.timestamp + c.ttlMs
    case ToSign(raw) => d.op.state == Signing && d.op.attempts < c.maxAttempts && d.op.txid == Some(Txid(raw))
    case Announce => d.op.state == Signed
    case Wire => d.op.state == Broadcasting
    case Settle(code) =>
      && d.op.state == Broadcasting
      && (code in {CodeSuccess, DupTransaction} ==> d.op.txid.value in n.txs)
      && (code in {SigError, ContractValidateError} ==> !Verify(n.key, d.op.signed.value))
    case Found => d.op.state == Broadcasting && d.op.txid.value in n.txs
    case LookedUp(head) =>
      && d.base == d.op
      && d.op.state in {Broadcasting, Broadcast}
      && head <= Head(n)
      && (InBlock(n, d.op.txid.value) ==> InBlockAfter(n, d.op.txid.value, head))
    case HaveSolid(solid) => d.base == d.op && d.op.state in {Broadcasting, Broadcast} && solid <= HeadTime(n)
    case Landed(block, receipt) =>
      && d.op.state == Broadcast
      && InBlock(n, d.op.txid.value)
      && n.txs[d.op.txid.value].included == Some(block)
      && n.txs[d.op.txid.value].receipt == receipt
      && receipt.Some?
      && block <= SolidBlock(n)
    case Retire(_, _) => d.base == d.op && InFlight(d.op.state)
    case Raised => true
    case Releasing => true
    case Done(_) => true
  }

  ghost predicate DriveOk(c: Config, n: Node, es: seq<Event>, d: Drive)
    requires |n.times| > 0
  {
    && RowOk(c, d.op)
    && Facts(n, es, d.id, d.op)
    && d.base.token == d.op.token > 0
    && (Running(d.pc) ==> d.steps < MAX_STEPS_PER_CLAIM && !Terminal(d.op.state))
    && d.steps <= MAX_STEPS_PER_CLAIM
    && PcOk(c, n, es, d)
  }

  /** The fencing relation between a drive and the store. */
  predicate Owns(db: Db, d: Drive) {
    && d.id in db.ops
    && d.op.token <= db.ops[d.id].token
    && (Running(d.pc) && d.op.token == db.ops[d.id].token ==> d.op == db.ops[d.id])
  }

  ghost predicate DistinctTokens(drives: seq<Drive>) {
    forall i, j :: 0 <= i < j < |drives| && drives[i].id == drives[j].id ==> drives[i].op.token != drives[j].op.token
  }

  // ---------------------------------------------------------------- the whole system

  ghost predicate Announced(es: seq<Event>, txid: Txid) {
    exists id :: WroteAhead(es, id, txid)
  }

  /** Nothing the node ever saw is without a write-ahead event, and what it accepted is our own bytes. */
  ghost predicate AcceptedOk(c: Config, n: Node, es: seq<Event>) {
    && (forall txid :: txid in n.txs ==> Announced(es, txid) && n.txs[txid].tx == Sign(c.signer, txid.raw))
    && (forall k :: 0 <= k < |n.log| ==> Announced(es, n.log[k].txid))
  }

  ghost predicate RowsInv(c: Config, n: Node, db: Db) {
    forall id :: id in db.ops ==> RowInv(c, n, db.events, id, db.ops[id])
  }

  ghost predicate DrivesInv(c: Config, n: Node, db: Db, drives: seq<Drive>)
    requires |n.times| > 0
  {
    forall i :: 0 <= i < |drives| ==> DriveOk(c, n, db.events, drives[i]) && Owns(db, drives[i])
  }

  ghost predicate Inv(c: Config, s: Sys) {
    && NodeInv(s.node)
    && DbInv(s.db)
    && AcceptedOk(c, s.node, s.db.events)
    && RowsInv(c, s.node, s.db)
    && DrivesInv(c, s.node, s.db, s.drives)
    && DistinctTokens(s.drives)
  }

  // ---------------------------------------------------------------- safety

  /** The row's envelope may have reached the wire and has not been retired. */
  predicate Live(row: Row) {
    row.state in {Broadcasting, Broadcast, Confirmed} || (row.state == Failed && row.signed.Some?)
  }

  ghost predicate Safe(n: Node, es: seq<Event>, id: OpId, row: Row)
    requires |n.times| > 0
  {
    forall txid :: WroteAhead(es, id, txid) ==> Dead(n, txid) || (row.txid == Some(txid) && Live(row))
  }

  /** A drive about to retire an envelope that may be on the wire has the proof in hand, and the proof is true. */
  predicate RetireSound(n: Node, d: Drive)
    requires |n.times| > 0
  {
    d.pc.Retire? && d.op.state != Signed ==> d.op.txid.Some? && Dead(n, d.op.txid.value)
  }

  ghost predicate SafeInv(s: Sys) {
    && |s.node.times| > 0
    && (forall id :: id in s.db.ops ==> Safe(s.node, s.db.events, id, s.db.ops[id]))
    && (forall i :: 0 <= i < |s.drives| ==> RetireSound(s.node, s.drives[i]))
  }

  // ---------------------------------------------------------------- growth of node and log

  ghost predicate Grows(n: Node, es: seq<Event>, m: Node, fs: seq<Event>) {
    NodeInv(n) && NodeInv(m) && Forward(n, m) && es <= fs
  }

  lemma WroteAheadGrows(es: seq<Event>, fs: seq<Event>, id: OpId, txid: Txid)
    requires es <= fs && WroteAhead(es, id, txid)
    ensures WroteAhead(fs, id, txid)
  {
    var k :| 0 <= k < |es| && es[k].id == id && es[k].detail == WriteAhead(txid);
    assert fs[k] == es[k];
  }

  lemma GivenGrows(es: seq<Event>, fs: seq<Event>, id: OpId, txid: Txid)
    requires es <= fs && Given(es, id, txid)
    ensures Given(fs, id, txid)
  {
    var k :| 0 <= k < |es| && es[k].id == id && TxidOf(es[k].detail) == Some(txid);
    assert fs[k] == es[k];
  }

  lemma SolidGrows(n: Node, m: Node)
    requires NodeInv(n) && NodeInv(m) && Forward(n, m)
    ensures SolidBlock(n) <= SolidBlock(m) && Head(n) <= Head(m) && HeadTime(n) <= HeadTime(m)
  {
    assert m.times[|n.times| - 1] == HeadTime(n);
    TimesMonotone(m, |n.times| - 1, |m.times| - 1);
  }

  lemma FactsGrow(n: Node, es: seq<Event>, m: Node, fs: seq<Event>, id: OpId, row: Row)
    requires Grows(n, es, m, fs) && Facts(n, es, id, row)
    ensures Facts(m, fs, id, row)
  {
    SolidGrows(n, m);
    if row.txid.Some? {
      GivenGrows(es, fs, id, row.txid.value);
    }
    if row.state in {Broadcasting, Broadcast, Confirmed} {
      WroteAheadGrows(es, fs, id, row.txid.value);
    }
  }

  lemma PcGrows(c: Config, n: Node, es: seq<Event>, m: Node, fs: seq<Event>, d: Drive)
    requires Grows(n, es, m, fs) && RowOk(c, d.op) && PcOk(c, n, es, d)
    ensures PcOk(c, m, fs, d)
  {
    SolidGrows(n, m);
  }

  lemma DriveGrows(c: Config, n: Node, es: seq<Event>, m: Node, fs: seq<Event>, d: Drive)
    requires Grows(n, es, m, fs) && DriveOk(c, n, es, d)
    ensures DriveOk(c, m, fs, d)
  {
    FactsGrow(n, es, m, fs, d.id, d.op);
    PcGrows(c, n, es, m, fs, d);
  }

  /** With the log unchanged, a row's invariant survives any progress of the node. */
  lemma RowGrows(c: Config, n: Node, m: Node, es: seq<Event>, id: OpId, row: Row)
    requires Grows(n, es, m, es) && RowInv(c, n, es, id, row)
    ensures RowInv(c, m, es, id, row)
  {
    FactsGrow(n, es, m, es, id, row);
  }

  lemma InitInv(c: Config, w: Setup)
    ensures Inv(c, Init(w)) && SafeInv(Init(w))
  {
  }
}
