/**
What each action of the current holder does to its row, the log, the node and its own
place in the handler, column by column and for every reachable state. Together they say
what every handler does, step by step, without naming the plans that the protocol computes.
*/
module HandlerLaws {

  import opened Common
  import opened States
  import opened Chain
  import opened Store
  import opened StoreLaws
  import opened NodeLaws
  import opened Protocol
  import opened Invariant
  import opened InvariantWrites
  import opened InvariantSteps

  // ---------------------------------------------------------------- the holder and its turn

  /** Drive `i` is inside a handler and holds the current token of its operation. */
  ghost predicate Holding(c: Config, s: Sys, i: nat) {
    && Reachable(c, s) && i < |s.drives| && Running(s.drives[i].pc) && s.drives[i].id in s.db.ops
    && s.drives[i].op.token == s.db.ops[s.drives[i].id].token
  }

  /** A handler ended with `row`: one turn more, and on to the end, to the release, or to the next turn. */
  ghost predicate TurnOver(d: Drive, d': Drive, row: Row) {
    && d'.worker == d.worker && d'.id == d.id && d'.base == row && d'.op == row && d'.steps == d.steps + 1
    && (d'.advanced <==> d.advanced || row.state != d.base.state)
    && (d'.pc == Done(Finished) <==> Final(row.state))
    && (d'.pc == Ready <==> !Final(row.state) && row.state != d.base.state && d.steps + 1 < 8)
    && (d'.pc == Releasing <==> !Final(row.state) && (row.state == d.base.state || d.steps + 1 >= 8))
  }

  lemma TurnIsOver(d: Drive, row: Row)
    ensures TurnOver(d, Returned(d, row), row)
  {
    TableExactly(row.state, row.state);
  }

  /** Only the row of drive `i`'s operation and one event of its own are new. */
  ghost predicate Wrote(s: Sys, s': Sys, i: nat, row: Row, detail: Detail, now: int)
    requires i < |s.drives|
  {
    var d := s.drives[i];
    && s'.db.ops == s.db.ops[d.id := row] && s'.db.arrival == s.db.arrival && s'.node == s.node && s'.clock == now
    && s'.db.events ==
       s.db.events + [Event(d.id, Some(d.op.state), row.state, Some(d.worker), d.op.token, detail, now, |s.db.events| + 1)]
    && |s'.drives| == |s.drives| && s'.drives == s.drives[i := s'.drives[i]]
  }

  /** The next action of drive `i` writes `row` with `detail` and ends the turn. */
  ghost predicate EndsTurn(c: Config, s: Sys, i: nat, now: int, row: Row, detail: Detail)
    requires i < |s.drives|
  {
    var s' := Step(c, s, Act(i, now));
    Wrote(s, s', i, row, detail, now) && TurnOver(s.drives[i], s'.drives[i], row)
  }

  lemma HolderPlans(c: Config, s: Sys, i: nat, now: int, p: CasPlan)
    requires Holding(c, s, i) && Plan(c, s.drives[i], now) == Some(p)
    ensures Planned(c, s.node, s.db.events, s.drives[i], p, now) && Owns(s.db, s.drives[i])
  {
    ReachableInv(c, s);
  }

  /** The write goes through, and the row was the one the handler holds. */
  lemma HolderWrote(c: Config, s: Sys, i: nat, now: int, p: CasPlan)
    requires Holding(c, s, i) && Plan(c, s.drives[i], now) == Some(p)
    ensures var s' := Step(c, s, Act(i, now));
      var row := NewOp(c, s.drives[i], p, now);
      && s.db.ops[s.drives[i].id] == s.drives[i].op && row.state == p.to
      && Wrote(s, s', i, row, p.detail, now) && s'.drives[i] == AfterWrite(s.drives[i], row)
  {
    HolderPlans(c, s, i, now, p);
    HolderWrites(c, s.node, s.db, s.drives[i], p, now);
  }

  /** The write goes through and ends the turn with `row`. */
  lemma HolderReturned(c: Config, s: Sys, i: nat, now: int, p: CasPlan, row: Row)
    requires Holding(c, s, i) && Plan(c, s.drives[i], now) == Some(p)
    requires row == NewOp(c, s.drives[i], p, now) && AfterWrite(s.drives[i], row) == Returned(s.drives[i], row)
    ensures EndsTurn(c, s, i, now, row, p.detail)
  {
    HolderWrote(c, s, i, now, p);
    TurnIsOver(s.drives[i], row);
  }

  /** The state a handler's copy of the row is in at each point, fenced or not. */
  lemma AtPoint(c: Config, s: Sys, i: nat)
    requires Reachable(c, s) && i < |s.drives|
    ensures var d := s.drives[i];
      && (d.pc.Build? || d.pc.HaveRef? || d.pc.Envelope? || d.pc.ToSign? ==> d.op.state == Signing)
      && (d.pc.Announce? ==> d.op.state == Signed)
      && (d.pc.Wire? || d.pc.Settle? || d.pc.Found? ==> d.op.state == Broadcasting)
      && (d.pc.LookedUp? ==> d.op.state in {Broadcasting, Broadcast})
      && (d.pc.Landed? ==> d.op.state == Broadcast)
      && (d.pc.Retire? ==> d.op.state in {Signed, Broadcasting, Broadcast})
  {
    ReachableInv(c, s);
    assert DriveOk(c, s.node, s.db.events, s.drives[i]);
  }

  lemma HasBlocks(c: Config, s: Sys)
    requires Reachable(c, s)
    ensures |s.node.times| > 0
  {
    ReachableInv(c, s);
  }

  /** A read, a node call or a clock reading leaves the store alone. */
  lemma DriveRead(c: Config, s: Sys, i: nat, now: int)
    requires |s.node.times| > 0 && i < |s.drives| && Running(s.drives[i].pc) && Plan(c, s.drives[i], now).None?
    ensures var (n, d) := ReadStep(c, s.node, s.drives[i], now);
      Step(c, s, Act(i, now)) == Sys(s.db, n, s.drives[i := d], now)
  {
  }

  /** An open row after a write: the lease runs anew. */
  function Open(c: Config, row: Row, now: int): Row {
    row.(lease := Some(now + c.leaseMs), updatedAt := now)
  }

  /** A final row: nobody's, without a lease. */
  function Closed(row: Row, now: int): Row {
    row.(claimedBy := None, lease := None, updatedAt := now)
  }

  // ---------------------------------------------------------------- validate

  /** Why a row is turned away, the first reason that applies. */
  function Objection(c: Config, row: Row): Option<Note> {
    if !c.addressOk(row.to) then Some(InvalidAddress)
    else if row.asset != c.asset then Some(UnsupportedAsset(row.asset))
    else if row.amount < c.minAmount || row.amount > c.maxAmount then Some(AmountOutOfBounds)
    else None
  }

  function Examined(c: Config, row: Row, now: int): Row {
    if Objection(c, row) == None then Open(c, row, now).(state := Validated)
    else Closed(row, now).(state := Rejected, failure := Objection(c, row))
  }

  lemma ExaminedRow(c: Config, d: Drive, now: int)
    requires d.op.state == Requested
    ensures NewOp(c, d, ValidatePlan(c, d.op), now) == Examined(c, d.op, now)
  {
  }

  /** A requested row is validated if nothing speaks against it, and otherwise rejected for the first reason. */
  lemma Validation(c: Config, s: Sys, i: nat, now: int)
    requires Holding(c, s, i) && s.drives[i].pc == Ready && s.drives[i].op.state == Requested
    ensures EndsTurn(c, s, i, now, Examined(c, s.drives[i].op, now), NoDetail)
  {
    var d := s.drives[i];
    ExaminedRow(c, d, now);
    HolderReturned(c, s, i, now, ValidatePlan(c, d.op), Examined(c, d.op, now));
  }

  // ---------------------------------------------------------------- build and sign

  lemma Intent(c: Config, s: Sys, i: nat, now: int)
    requires Holding(c, s, i) && s.drives[i].pc == Ready && s.drives[i].op.state == Validated
    ensures var s' := Step(c, s, Act(i, now));
      var row := Open(c, s.drives[i].op, now).(state := Signing);
      Wrote(s, s', i, row, NoDetail, now) && s'.drives[i] == s.drives[i].(op := row, pc := Build)
  {
    HolderWrote(c, s, i, now, CasPlan(Signing, Patch(), NoDetail));
  }

  /** At the start of a build an operation that is out of attempts fails. */
  lemma OutOfAttempts(c: Config, s: Sys, i: nat, now: int)
    requires Holding(c, s, i) && (s.drives[i].pc == Build || (s.drives[i].pc == Ready && s.drives[i].op.state == Signing))
    requires s.drives[i].op.attempts >= c.maxAttempts
    ensures var op := s.drives[i].op;
      EndsTurn(c, s, i, now, Closed(op, now).(state := Failed, failure := Some(GaveUp(op.attempts))), NoDetail)
  {
    var d := s.drives[i];
    var p := CasPlan(Failed, Patch(failure := Set(Some(GaveUp(d.op.attempts)))), NoDetail);
    HolderReturned(c, s, i, now, p, NewOp(c, d, p, now));
  }

  /** Otherwise it takes the block `lag` below the head for reference, or the first block. */
  lemma ReferenceTaken(c: Config, s: Sys, i: nat, now: int)
    requires Reachable(c, s) && i < |s.drives| && s.drives[i].op.attempts < c.maxAttempts
    requires s.drives[i].pc == Build || (s.drives[i].pc == Ready && s.drives[i].op.state == Signing)
    ensures |s.node.times| > 0
    ensures var ref := GENESIS + if s.node.lag < |s.node.times| then |s.node.times| - 1 - s.node.lag else 0;
      Step(c, s, Act(i, now)) == s.(drives := s.drives[i := s.drives[i].(pc := HaveRef(ref))], clock := now)
  {
    HasBlocks(c, s);
    DriveRead(c, s, i, now);
    SolidTimeExactly(s.node);
  }

  /** The envelope pays the row and expires a lifetime after the clock reading. */
  lemma Assembly(c: Config, s: Sys, i: nat, ref: int, now: int)
    requires Reachable(c, s) && i < |s.drives| && s.drives[i].pc == HaveRef(ref)
    ensures var d := s.drives[i];
      Step(c, s, Act(i, now)) ==
      s.(drives := s.drives[i := d.(pc := Envelope(RawData(d.op.to, d.op.amount, ref, now, now + c.ttlMs)))], clock := now)
  {
    HasBlocks(c, s);
    DriveRead(c, s, i, now);
  }

  /** Txid and expiration are durable before a signature exists. */
  lemma EnvelopePersisted(c: Config, s: Sys, i: nat, raw: RawData, now: int)
    requires Holding(c, s, i) && s.drives[i].pc == Envelope(raw)
    ensures var s' := Step(c, s, Act(i, now));
      var row := Open(c, s.drives[i].op, now).(state := Signing, unsigned := Some(raw), txid := Some(Txid(raw)),
                                               expiration := Some(raw.expiration), signed := None);
      Wrote(s, s', i, row, EnvelopeBuilt(Txid(raw)), now) && s'.drives[i] == s.drives[i].(op := row, pc := ToSign(raw))
  {
    HolderWrote(c, s, i, now, EnvelopePlan(raw));
  }

  lemma SignaturePersisted(c: Config, s: Sys, i: nat, raw: RawData, now: int)
    requires Holding(c, s, i) && s.drives[i].pc == ToSign(raw)
    ensures var key := c.signer;
      var tx := SignedTx(raw, Txid(raw), raw.expiration, Signature(key.keyId, Mac(key.secret, Txid(raw))));
      EndsTurn(c, s, i, now, Open(c, s.drives[i].op, now).(state := Signed, signed := Some(tx)), NoDetail)
  {
    var p := CasPlan(Signed, Patch(signed := Set(Some(Sign(c.signer, raw)))), NoDetail);
    HolderReturned(c, s, i, now, p, NewOp(c, s.drives[i], p, now));
  }

  // ---------------------------------------------------------------- broadcast

  /** What the handler takes for the envelope is what the row says. */
  lemma EnvelopeInHand(c: Config, s: Sys, i: nat)
    requires Reachable(c, s) && i < |s.drives| && Running(s.drives[i].pc) && InFlight(s.drives[i].op.state)
    ensures var op := s.drives[i].op;
      && op.signed.Some? && op.txid == Some(op.signed.value.txid) && op.expiration == Some(op.signed.value.expiration)
  {
    ReachableInv(c, s);
    assert DriveOk(c, s.node, s.db.events, s.drives[i]);
    SignedBytes(c, s.drives[i].op);
  }

  /** A signed envelope is given up from its expiration on, and announced before. */
  lemma ExpiryCheck(c: Config, s: Sys, i: nat, now: int)
    requires Reachable(c, s) && i < |s.drives| && s.drives[i].pc == Ready && s.drives[i].op.state == Signed
    ensures s.drives[i].op.expiration.Some?
    ensures var d := s.drives[i];
      Step(c, s, Act(i, now)) ==
      s.(drives := s.drives[i := d.(pc := if now >= d.op.expiration.value then Retire(ExpiredUnsent, NeverBroadcast)
                                          else Announce)],
         clock := now)
  {
    HasBlocks(c, s);
    EnvelopeInHand(c, s, i);
    DriveRead(c, s, i, now);
  }

  /** The intent to send is committed before the send. */
  lemma Announcement(c: Config, s: Sys, i: nat, now: int)
    requires Holding(c, s, i) && s.drives[i].pc == Announce
    ensures s.drives[i].op.txid.Some?
    ensures var s' := Step(c, s, Act(i, now));
      var row := Open(c, s.drives[i].op, now).(state := Broadcasting);
      Wrote(s, s', i, row, WriteAhead(s.drives[i].op.txid.value), now) && s'.drives[i] == s.drives[i].(op := row, pc := Wire)
  {
    AtPoint(c, s, i);
    EnvelopeInHand(c, s, i);
    HolderWrote(c, s, i, now, CasPlan(Broadcasting, Patch(), WriteAhead(s.drives[i].op.signed.value.txid)));
  }

  /** The signed bytes of the row go to the node; a timeout ends the turn with the row as it is, any answer is settled. */
  lemma Transmission(c: Config, s: Sys, i: nat, now: int)
    requires Reachable(c, s) && i < |s.drives| && s.drives[i].pc == Wire
    ensures s.drives[i].op.signed.Some?
    ensures var s' := Step(c, s, Act(i, now));
      var d := s.drives[i];
      var (n, answer) := Send(s.node, d.op.signed.value, d.worker, now);
      && s' == Sys(s.db, n, s.drives[i := s'.drives[i]], now)
      && match answer
         case Timeout => TurnOver(d, s'.drives[i], d.op)
         case Reply(code) => s'.drives[i] == d.(pc := Settle(code))
  {
    HasBlocks(c, s);
    AtPoint(c, s, i);
    EnvelopeInHand(c, s, i);
    DriveRead(c, s, i, now);
    TurnIsOver(s.drives[i], s.drives[i].op);
  }

  /** What the node's answer makes of the row: accepted, dead on arrival, or still in doubt. */
  function Settlement(c: Config, op: Row, code: Code, now: int): Row {
    if code == CodeSuccess || code == DupTransaction then
      Open(c, op, now).(state := Broadcast, broadcastAt := Some(now))
    else if code == SigError || code == ContractValidateError then
      Closed(op, now).(state := Failed, failure := Some(NodeRejected(code)))
    else if code == TaposError || code == ExpirationError then
      Open(c, op, now).(state := Broadcasting, lastError := Some(AwaitingProof(code)))
    else
      Open(c, op, now).(state := Broadcasting, lastError := Some(Unclassified(code)))
  }

  lemma SettledRow(c: Config, d: Drive, code: Code, now: int)
    requires d.op.signed.Some? && code != ServerBusy
    ensures var p := SettlePlan(d.op.signed.value, code, now);
      p.Some? && NewOp(c, d, p.value, now) == Settlement(c, d.op, code, now)
  {
  }

  lemma SettlementPlanned(c: Config, d: Drive, code: Code, now: int) returns (p: CasPlan)
    requires d.pc == Settle(code) && d.op.signed.Some? && d.op.state == Broadcasting && code != ServerBusy
    ensures Plan(c, d, now) == Some(p) && p.detail == Answered(d.op.signed.value.txid, code)
    ensures NewOp(c, d, p, now) == Settlement(c, d.op, code, now)
  {
    p := SettlePlan(d.op.signed.value, code, now).value;
    SettledRow(c, d, code, now);
  }

  /** Every answer but "busy" is recorded; a hard reject ends in `failed`, and nothing else does. */
  lemma Settling(c: Config, s: Sys, i: nat, code: Code, now: int)
    requires Holding(c, s, i) && s.drives[i].pc == Settle(code)
    ensures s.drives[i].op.txid.Some?
    ensures var d := s.drives[i];
      if code == ServerBusy then
        var s' := Step(c, s, Act(i, now));
        s' == s.(drives := s.drives[i := s'.drives[i]], clock := now) && TurnOver(d, s'.drives[i], d.op)
      else
        EndsTurn(c, s, i, now, Settlement(c, d.op, code, now), Answered(d.op.txid.value, code))
  {
    AtPoint(c, s, i);
    EnvelopeInHand(c, s, i);
    var d := s.drives[i];
    if code == ServerBusy {
      HasBlocks(c, s);
      DriveRead(c, s, i, now);
      TurnIsOver(d, d.op);
    } else {
      var p := SettlementPlanned(c, d, code, now);
      HolderReturned(c, s, i, now, p, Settlement(c, d.op, code, now));
    }
  }

  // ---------------------------------------------------------------- reconcile and confirm

  /**
  A lookup decides what comes next. In `broadcasting` a known transaction is recorded; in
  `broadcast` it is waited for until it is solid. An unknown one calls for chain time.
  */
  lemma LookingUp(c: Config, s: Sys, i: nat, now: int)
    requires !c.clockFirst && Reachable(c, s) && i < |s.drives| && s.drives[i].pc == Ready
    requires s.drives[i].op.state in {Broadcasting, Broadcast}
    ensures |s.node.times| > 0 && s.drives[i].op.txid.Some?
    ensures var s' := Step(c, s, Act(i, now));
      var d := s.drives[i];
      var (n, status) := Find(s.node, d.op.txid.value, now);
      && s' == Sys(s.db, n, s.drives[i := s'.drives[i]], now)
      && match status
         case QueryFailed => TurnOver(d, s'.drives[i], d.op)
         case Unknown => s'.drives[i] == d.(pc := LookedUp(GENESIS + |s.node.times| - 1))
         case Pending =>
           if d.op.state == Broadcasting then s'.drives[i] == d.(pc := Found) else TurnOver(d, s'.drives[i], d.op)
         case Included(block, solid, receipt) =>
           if d.op.state == Broadcasting then s'.drives[i] == d.(pc := Found)
           else if solid then s'.drives[i] == d.(pc := Landed(block, receipt))
           else TurnOver(d, s'.drives[i], d.op)
  {
    HasBlocks(c, s);
    EnvelopeInHand(c, s, i);
    DriveRead(c, s, i, now);
    TurnIsOver(s.drives[i], s.drives[i].op);
  }

  /** The stamp of the block `lag` below the head, or of the first block. */
  function ChainTime(n: Node): int
    requires |n.times| > 0
  {
    if n.lag < |n.times| then n.times[|n.times| - 1 - n.lag] else n.times[0]
  }

  /** Where chain time sends a drive whose transaction was not found. */
  ghost predicate DecidedBy(d: Drive, d': Drive, solid: int, deadline: int) {
    if solid >= deadline then
      d' == d.(pc := Retire(if d.op.state == Broadcasting then ExpiredUnseen else NeverMined, ChainProof(solid, deadline)))
    else if d.op.state == Broadcasting then d' == d.(pc := Wire)
    else TurnOver(d, d', d.op)
  }

  lemma SolidStepDecides(c: Config, n: Node, d: Drive, tx: SignedTx)
    requires |n.times| > 0
    ensures DecidedBy(d, SolidStep(c, n, d, tx), ChainTime(n), tx.expiration + c.marginMs)
  {
    SolidTimeExactly(n);
    TurnIsOver(d, d.op);
  }

  /**
  Chain time decides what becomes of an unknown transaction: retired once the block `lag`
  below the head is stamped no earlier than expiration plus margin; until then sent again
  while in `broadcasting`, waited for in `broadcast`.
  */
  lemma ChainTimeDecides(c: Config, s: Sys, i: nat, now: int)
    requires Reachable(c, s) && i < |s.drives| && s.drives[i].pc.LookedUp?
    ensures |s.node.times| > 0 && s.drives[i].op.expiration.Some?
    ensures var s' := Step(c, s, Act(i, now));
      && s' == s.(drives := s.drives[i := s'.drives[i]], clock := now)
      && DecidedBy(s.drives[i], s'.drives[i], ChainTime(s.node), s.drives[i].op.expiration.value + c.marginMs)
  {
    HasBlocks(c, s);
    AtPoint(c, s, i);
    EnvelopeInHand(c, s, i);
    DriveRead(c, s, i, now);
    SolidStepDecides(c, s.node, s.drives[i], s.drives[i].op.signed.value);
  }

  function Located(c: Config, op: Row, now: int): Row {
    Open(c, op, now).(state := Broadcast, broadcastAt := if op.broadcastAt == None then Some(now) else op.broadcastAt)
  }

  lemma LocatedPlanned(c: Config, d: Drive, now: int) returns (p: CasPlan)
    requires d.pc == Found && d.op.signed.Some? && d.op.state == Broadcasting
    ensures Plan(c, d, now) == Some(p) && p.detail == Reconciled(d.op.signed.value.txid)
    ensures NewOp(c, d, p, now) == Located(c, d.op, now)
  {
    var at := if d.op.broadcastAt == None then Some(now) else d.op.broadcastAt;
    p := CasPlan(Broadcast, Patch(broadcastAt := Set(at)), Reconciled(d.op.signed.value.txid));
  }

  /** A transaction that was found counts as broadcast; the first time of broadcast is kept. */
  lemma Reconciling(c: Config, s: Sys, i: nat, now: int)
    requires Holding(c, s, i) && s.drives[i].pc == Found
    ensures s.drives[i].op.txid.Some?
    ensures var op := s.drives[i].op;
      EndsTurn(c, s, i, now, Located(c, op, now), Reconciled(op.txid.value))
  {
    AtPoint(c, s, i);
    EnvelopeInHand(c, s, i);
    var d := s.drives[i];
    var p := LocatedPlanned(c, d, now);
    HolderReturned(c, s, i, now, p, Located(c, d.op, now));
  }

  /** What a solid receipt makes of the row. */
  function Verdict(op: Row, block: int, receipt: Option<Receipt>, now: int): Row {
    if receipt == Some(Success) then
      Closed(op, now).(state := Confirmed, includedBlock := Some(block), confirmedAt := Some(now))
    else
      Closed(op, now).(state := Failed, includedBlock := Some(block), failure := Some(RevertedNote))
  }

  lemma VerdictPlanned(c: Config, d: Drive, block: int, receipt: Option<Receipt>, now: int) returns (p: CasPlan)
    requires d.pc == Landed(block, receipt) && d.op.signed.Some? && d.op.state == Broadcast
    ensures Plan(c, d, now) == Some(p) && p.detail == Settled(d.op.signed.value.txid, block, receipt)
    ensures NewOp(c, d, p, now) == Verdict(d.op, block, receipt, now)
  {
    p := LandedPlan(d.op.signed.value, block, receipt, now);
  }

  /** A success receipt confirms, any other fails; the block is recorded either way. */
  lemma ReceiptRecorded(c: Config, s: Sys, i: nat, block: int, receipt: Option<Receipt>, now: int)
    requires Holding(c, s, i) && s.drives[i].pc == Landed(block, receipt)
    ensures s.drives[i].op.txid.Some?
    ensures var op := s.drives[i].op;
      EndsTurn(c, s, i, now, Verdict(op, block, receipt, now), Settled(op.txid.value, block, receipt))
  {
    AtPoint(c, s, i);
    EnvelopeInHand(c, s, i);
    var d := s.drives[i];
    var p := VerdictPlanned(c, d, block, receipt, now);
    HolderReturned(c, s, i, now, p, Verdict(d.op, block, receipt, now));
  }

  // ---------------------------------------------------------------- rebuild, release, breadcrumb

  function Cleared(c: Config, op: Row, reason: Note, now: int): Row {
    Open(c, op, now).(state := Signing, attempts := op.attempts + 1, lastError := Some(reason),
                      unsigned := None, txid := None, expiration := None, signed := None)
  }

  lemma ClearedRow(c: Config, d: Drive, reason: Note, evidence: Evidence, now: int)
    ensures NewOp(c, d, RetirePlan(d.op, reason, evidence), now) == Cleared(c, d.op, reason, now)
  {
  }

  /** Retiring an envelope clears it, counts the attempt, and records txid, reason and evidence. */
  lemma Retirement(c: Config, s: Sys, i: nat, reason: Note, evidence: Evidence, now: int)
    requires Holding(c, s, i) && s.drives[i].pc == Retire(reason, evidence)
    ensures var op := s.drives[i].op;
      EndsTurn(c, s, i, now, Cleared(c, op, reason, now), Retired(op.txid, reason, evidence))
  {
    var d := s.drives[i];
    ClearedRow(c, d, reason, evidence, now);
    HolderReturned(c, s, i, now, RetirePlan(d.op, reason, evidence), Cleared(c, d.op, reason, now));
  }

  /** A parked drive gives the row back, if it is still its own, and is done. */
  lemma Parking(c: Config, s: Sys, i: nat, now: int)
    requires Reachable(c, s) && i < |s.drives| && s.drives[i].pc == Releasing
    ensures var s' := Step(c, s, Act(i, now));
      var d := s.drives[i];
      && s'.node == s.node && s'.drives == s.drives[i := d.(pc := Done(Released))]
      && s'.db.events == s.db.events && s'.db.arrival == s.db.arrival
      && s'.db.ops == if d.id in s.db.ops && s.db.ops[d.id].token == d.base.token
                      then s.db.ops[d.id := s.db.ops[d.id].(claimedBy := None, lease := None, updatedAt := now)]
                      else s.db.ops
  {
    HasBlocks(c, s);
  }

  /** After an exception a note is left on the row the loop last saw, without renewing the lease; then the row is parked. */
  lemma Breadcrumb(c: Config, s: Sys, i: nat, now: int)
    requires Reachable(c, s) && i < |s.drives| && s.drives[i].pc == Raised
    ensures var s' := Step(c, s, Act(i, now));
      var d := s.drives[i];
      && s'.node == s.node && s'.drives == s.drives[i := d.(pc := Releasing)] && s'.db.arrival == s.db.arrival
      && if d.id in s.db.ops && s.db.ops[d.id].token == d.base.token && s.db.ops[d.id].state == d.base.state
            && !Final(d.base.state) then
           && s'.db.ops == s.db.ops[d.id := s.db.ops[d.id].(lastError := Some(HandlerException), updatedAt := now)]
           && s'.db.events == s.db.events + [Event(d.id, Some(d.base.state), d.base.state, Some(d.worker), d.base.token,
                                                   NoDetail, now, |s.db.events| + 1)]
         else s'.db == s.db
  {
    HasBlocks(c, s);
    TableExactly(s.drives[i].base.state, s.drives[i].base.state);
  }

  /** A fenced holder learns it at its next write: nothing is written, and the drive is over. */
  lemma FencedOut(c: Config, s: Sys, i: nat, now: int, p: CasPlan)
    requires Reachable(c, s) && i < |s.drives| && Running(s.drives[i].pc) && s.drives[i].id in s.db.ops
    requires s.drives[i].op.token != s.db.ops[s.drives[i].id].token && Plan(c, s.drives[i], now) == Some(p)
    ensures Step(c, s, Act(i, now)) == s.(drives := s.drives[i := s.drives[i].(pc := Done(Fenced))], clock := now)
  {
    ReachableInv(c, s);
    OthersMiss(c, s.node, s.db, s.drives[i], p, now);
  }
}
