/** Intake against the store object: one insert, and the reply the specification gives. */
module Intake {

  import opened Common
  import opened Store
  import opened Protocol
  import opened MemoryStore
  import opened Money
  import opened Service

  method Submit(store: MemoryStore, c: Config, body: Option<Request>, now: int) returns (reply: Reply)
    modifies store
    ensures (store.View(), reply) == SubmitWithdrawal(c, old(store.View()), body, now)
  {
    if body.None? {
      return Invalid(Body);
    }
    var r := body.value;
    if r.id.None? {
      return Invalid(OperationId);
    }
    if !r.to.Text? || !c.addressOk(r.to.s) {
      return Invalid(ToAddress);
    }
    var asset := if r.asset.Absent? then Text(c.asset) else r.asset;
    if asset != Text(c.asset) {
      return Invalid(Asset);
    }
    var units := ToUnits(StringOf(r.amount), c.decimals);
    if !units.Units? {
      return Invalid(Amount);
    }
    if units.n < c.minAmount {
      return Invalid(Amount);
    }
    if units.n > c.maxAmount {
      return Invalid(Amount);
    }
    var hash := RequestHash(r.to.s, units.n, c.asset);
    var row, created := store.InsertNew(r.id.value, NewRow(r.to.s, c.asset, units.n, now), now);
    if !created && row.hash != hash {
      return PayloadMismatch;
    }
    return Replied(row, created);
  }
}
