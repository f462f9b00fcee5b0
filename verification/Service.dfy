/**
Intake: an HTTP-shaped request becomes exactly one row. Replays are told from client bugs
by the hash of the normalised payload, and the first row is never touched again by intake.
*/
module Service {

  import opened Common
  import opened States
  import opened Store
  import opened StoreProperties
  import opened Protocol
  import opened Invariant
  import opened InvariantSteps
  import opened History
  import opened Money

  /** A JSON member: missing, a string, or anything else. */
  datatype Json = Absent | Text(s: string) | Other

  /** `id` is the operation id after UUID parsing; `None` if that failed. */
  datatype Request = Request(id: Option<OpId>, to: Json, asset: Json, amount: Json)

  datatype Field = Body | OperationId | ToAddress | Asset | Amount

  datatype Payload = Payload(id: OpId, to: string, asset: string, amount: int)

  datatype Verdict = Refused(field: Field) | Checked(payload: Payload)

  datatype Reply = Invalid(field: Field) | PayloadMismatch | Replied(row: Row, created: bool)

  function StringOf(j: Json): Option<string> {
    if j.Text? then Some(j.s) else None
  }

  /** Shape checks in the order the service makes them; `None` is a body that is not an object. */
  function Check(c: Config, body: Option<Request>): Verdict {
    if body.None? then Refused(Body)
    else
      var r := body.value;
      if r.id.None? then Refused(OperationId)
      else if !r.to.Text? || !c.addressOk(r.to.s) then Refused(ToAddress)
      else
        var asset := if r.asset.Absent? then Text(c.asset) else r.asset;
        if asset != Text(c.asset) then Refused(Asset)
        else
          var units := ToUnits(StringOf(r.amount), c.decimals);
          if !units.Units? then Refused(Amount)
          else if units.n < c.minAmount || units.n > c.maxAmount then Refused(Amount)
          else Checked(Payload(r.id.value, r.to.s, c.asset, units.n))
  }

  predicate GoodId(r: Request) {
    r.id.Some?
  }

  predicate GoodAddress(c: Config, r: Request) {
    r.to.Text? && c.addressOk(r.to.s)
  }

  /** The asset may be left out; then it is the configured one. */
  predicate GoodAsset(c: Config, r: Request) {
    r.asset == Absent || r.asset == Text(c.asset)
  }

  /** A string that denotes an amount within the limits, both of them included. */
  predicate GoodAmount(c: Config, r: Request) {
    r.amount.Text? && match ToUnits(Some(r.amount.s), c.decimals)
                      case Units(n) => c.minAmount <= n <= c.maxAmount
                      case _ => false
  }

  /** A request is admitted if and only if all four members are good; a refusal names the first that is not. */
  lemma AdmittedExactly(c: Config, r: Request)
    ensures Check(c, None) == Refused(Body)
    ensures Check(c, Some(r)) == Refused(OperationId) <==> !GoodId(r)
    ensures Check(c, Some(r)) == Refused(ToAddress) <==> GoodId(r) && !GoodAddress(c, r)
    ensures Check(c, Some(r)) == Refused(Asset) <==> GoodId(r) && GoodAddress(c, r) && !GoodAsset(c, r)
    ensures Check(c, Some(r)) == Refused(Amount) <==>
            GoodId(r) && GoodAddress(c, r) && GoodAsset(c, r) && !GoodAmount(c, r)
    ensures Check(c, Some(r)).Checked? <==> GoodId(r) && GoodAddress(c, r) && GoodAsset(c, r) && GoodAmount(c, r)
    ensures Check(c, Some(r)).Checked? ==>
              Check(c, Some(r)).payload ==
              Payload(r.id.value, r.to.s, c.asset, ToUnits(Some(r.amount.s), c.decimals).n)
  {
  }

  function RowFor(p: Payload, now: int): Row {
    NewRow(p.to, p.asset, p.amount, now)
  }

  function SubmitWithdrawal(c: Config, db: Db, body: Option<Request>, now: int): (Db, Reply) {
    match Check(c, body)
    case Refused(field) => (db, Invalid(field))
    case Checked(p) =>
      var db' := Insert(db, p.id, RowFor(p, now));
      var row := db'.ops[p.id];
      if p.id in db.ops && row.hash != RequestHash(p.to, p.amount, p.asset) then (db', PayloadMismatch)
      else (db', Replied(row, p.id !in db.ops))
  }

  // ---------------------------------------------------------------- what a call does

  /** Intake is one insert-if-absent and nothing else: a step of the protocol, or no step at all. */
  lemma SubmitIsOneStep(c: Config, s: Sys, body: Option<Request>, now: int)
    requires |s.node.times| > 0
    ensures var (db, reply) := SubmitWithdrawal(c, s.db, body, now);
      if Check(c, body).Checked?
      then var p := Check(c, body).payload;
           s.(db := db, clock := now) == Step(c, s, Submit(p.id, p.to, p.asset, p.amount, now))
      else db == s.db && reply.Invalid?
  {
  }

  /** A new id is created as asked; a known id leaves the store alone and is a replay exactly when the payloads agree. */
  lemma ReplayOrMismatch(c: Config, s: Sys, body: Option<Request>, now: int)
    requires Reachable(c, s) && Check(c, body).Checked?
    ensures var (db, reply) := SubmitWithdrawal(c, s.db, body, now);
      var p := Check(c, body).payload;
      if p.id !in s.db.ops then
        && reply == Replied(RowFor(p, now), true)
        && db.ops == s.db.ops[p.id := RowFor(p, now)]
      else
        var row := s.db.ops[p.id];
        && db == s.db
        && (reply == Replied(row, false) <==> row.to == p.to && row.amount == p.amount && row.asset == p.asset)
        && (reply == PayloadMismatch <==> !(row.to == p.to && row.amount == p.amount && row.asset == p.asset))
  {
    ReachableInv(c, s);
    var p := Check(c, body).payload;
    if p.id in s.db.ops {
      assert RowInv(c, s.node, s.db.events, p.id, s.db.ops[p.id]);
    }
  }

  // ---------------------------------------------------------------- over whole runs

  /** Whatever submissions and worker steps follow, an operation keeps its one row and its payload. */
  lemma PayloadForEver(c: Config, s: Sys, more: seq<Action>, id: OpId)
    requires Reachable(c, s) && id in s.db.ops
    ensures id in Exec(c, s, more).db.ops && SamePayload(s.db.ops[id], Exec(c, s, more).db.ops[id])
  {
    ReachableInv(c, s);
    RunOnward(c, s, more);
    assert RowLater(s.db.ops[id], Exec(c, s, more).db.ops[id]);
  }

  /** Same destination, and amounts that denote the same decimal number, however spelled. */
  predicate SameInstruction(a: Request, b: Request) {
    && a.to == b.to && a.amount.Text? && b.amount.Text?
    && WellFormed(Strip(a.amount.s)) && WellFormed(Strip(b.amount.s))
    && SameDecimal(Strip(a.amount.s), Strip(b.amount.s))
  }

  lemma SameRequest(c: Config, a: Request, b: Request)
    requires Check(c, Some(a)).Checked? && Check(c, Some(b)).Checked? && a.id == b.id
    ensures Check(c, Some(a)) == Check(c, Some(b)) <==> SameInstruction(a, b)
  {
    SameUnits(a.amount.s, b.amount.s, c.decimals);
  }

  /** The answer to a known id is decided by the payloads alone. */
  lemma KnownId(c: Config, db: Db, p: Payload, body: Option<Request>, now: int)
    requires Check(c, body).Checked? && Check(c, body).payload.id == p.id && p.id in db.ops
    requires db.ops[p.id].hash == RequestHash(p.to, p.amount, p.asset)
    ensures SubmitWithdrawal(c, db, body, now) ==
            (db, if Check(c, body) == Checked(p) then Replied(db.ops[p.id], false) else PayloadMismatch)
  {
  }

  /** After a submission that was answered with a row, the store holds a row with that payload. */
  lemma AfterSubmission(c: Config, s: Sys, body: Option<Request>, now: int)
    requires Inv(c, s) && Check(c, body).Checked? && SubmitWithdrawal(c, s.db, body, now).1.Replied?
    ensures var p := Check(c, body).payload;
      var s1 := s.(db := SubmitWithdrawal(c, s.db, body, now).0, clock := now);
      Inv(c, s1) && p.id in s1.db.ops && s1.db.ops[p.id].hash == RequestHash(p.to, p.amount, p.asset)
  {
    var p := Check(c, body).payload;
    SubmitIsOneStep(c, s, body, now);
    StepKeeps(c, s, Submit(p.id, p.to, p.asset, p.amount, now));
  }

  lemma HashForEver(c: Config, s: Sys, more: seq<Action>, id: OpId)
    requires Inv(c, s) && id in s.db.ops
    ensures id in Exec(c, s, more).db.ops && Exec(c, s, more).db.ops[id].hash == s.db.ops[id].hash
  {
    RunOnward(c, s, more);
    assert RowLater(s.db.ops[id], Exec(c, s, more).db.ops[id]);
  }

  /** The state after a submission and any further run. */
  function AfterRetryWindow(c: Config, s: Sys, a: Request, first: int, more: seq<Action>): Sys {
    Exec(c, s.(db := SubmitWithdrawal(c, s.db, Some(a), first).0, clock := first), more)
  }

  lemma AfterWindow(c: Config, s: Sys, more: seq<Action>, a: Request, first: int)
    requires Inv(c, s) && Check(c, Some(a)).Checked? && SubmitWithdrawal(c, s.db, Some(a), first).1.Replied?
    ensures var p := Check(c, Some(a)).payload;
      var s2 := AfterRetryWindow(c, s, a, first, more);
      p.id in s2.db.ops && s2.db.ops[p.id].hash == RequestHash(p.to, p.amount, p.asset)
  {
    AfterSubmission(c, s, Some(a), first);
    HashForEver(c, s.(db := SubmitWithdrawal(c, s.db, Some(a), first).0, clock := first), more, Check(c, Some(a)).payload.id);
  }

  lemma RetryReply(c: Config, s: Sys, more: seq<Action>, a: Request, b: Request, first: int, later: int)
    requires Inv(c, s) && Check(c, Some(a)).Checked? && Check(c, Some(b)).Checked? && a.id == b.id
    requires SubmitWithdrawal(c, s.db, Some(a), first).1.Replied?
    ensures var s2 := AfterRetryWindow(c, s, a, first, more);
      && b.id.value in s2.db.ops
      && SubmitWithdrawal(c, s2.db, Some(b), later) ==
         (s2.db, if Check(c, Some(b)) == Check(c, Some(a)) then Replied(s2.db.ops[b.id.value], false) else PayloadMismatch)
  {
    var p := Check(c, Some(a)).payload;
    AfterWindow(c, s, more, a, first);
    KnownId(c, AfterRetryWindow(c, s, a, first, more).db, p, Some(b), later);
  }

  /**
  A client that retries is safe for ever: after a submission that was let in and any
  further run, the same id is answered with the current row when the instruction is the
  same, however the amount is spelled, and refused otherwise; either way nothing is written.
  */
  lemma RetryForEver(c: Config, s: Sys, more: seq<Action>, a: Request, b: Request, first: int, later: int)
    requires Reachable(c, s) && Check(c, Some(a)).Checked? && Check(c, Some(b)).Checked? && a.id == b.id
    requires SubmitWithdrawal(c, s.db, Some(a), first).1.Replied?
    ensures var s2 := AfterRetryWindow(c, s, a, first, more);
      && b.id.value in s2.db.ops
      && SubmitWithdrawal(c, s2.db, Some(b), later) ==
         (s2.db, if SameInstruction(a, b) then Replied(s2.db.ops[b.id.value], false) else PayloadMismatch)
  {
    ReachableInv(c, s);
    SameRequest(c, a, b);
    RetryReply(c, s, more, a, b, first, later);
  }

  lemma CheckedIsAcceptable(c: Config, body: Option<Request>, row: Row)
    requires Check(c, body).Checked?
    requires var p := Check(c, body).payload; row.to == p.to && row.asset == p.asset && row.amount == p.amount
    ensures Acceptable(c, row)
  {
  }

  /** What intake let in, validation never turns away: in no later state of any run is the operation `rejected`. */
  lemma AdmittedNeverRejected(c: Config, s: Sys, more: seq<Action>, a: Request, first: int)
    requires Reachable(c, s) && Check(c, Some(a)).Checked? && SubmitWithdrawal(c, s.db, Some(a), first).1.Replied?
    ensures var s2 := AfterRetryWindow(c, s, a, first, more);
      a.id.value in s2.db.ops && s2.db.ops[a.id.value].state != States.Rejected
  {
    ReachableInv(c, s);
    AfterWindow(c, s, more, a, first);
    WindowInv(c, s, more, a, first);
    var s2 := AfterRetryWindow(c, s, a, first, more);
    assert RowInv(c, s2.node, s2.db.events, a.id.value, s2.db.ops[a.id.value]);
    CheckedIsAcceptable(c, Some(a), s2.db.ops[a.id.value]);
  }

  lemma WindowInv(c: Config, s: Sys, more: seq<Action>, a: Request, first: int)
    requires Inv(c, s) && Check(c, Some(a)).Checked? && SubmitWithdrawal(c, s.db, Some(a), first).1.Replied?
    ensures Inv(c, AfterRetryWindow(c, s, a, first, more))
  {
    AfterSubmission(c, s, Some(a), first);
    RunKeeps(c, s.(db := SubmitWithdrawal(c, s.db, Some(a), first).0, clock := first), more);
  }
}
