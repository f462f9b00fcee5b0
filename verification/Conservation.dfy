/** Money is conserved between the chain and the ledger of confirmed operations. */
module Conservation {

  import opened Common
  import opened States
  import opened Chain
  import opened ChainProperties
  import opened Store
  import opened Protocol
  import opened Invariant
  import opened InvariantSteps
  import opened SafetyProof
  import opened Safety

  // ---------------------------------------------------------------- totals

  /** The sum of the values of a map. */
  ghost function Total<K>(m: map<K, int>): int
    decreases |m|
  {
    if m == map[] then 0
    else
      var k :| k in m;
      assert |m - {k}| < |m| by { Smaller(m, k); }
      m[k] + Total(m - {k})
  }

  lemma Smaller<K, V>(m: map<K, V>, k: K)
    requires k in m
    ensures |m - {k}| == |m| - 1
  {
    assert (m - {k}).Keys == m.Keys - {k};
    assert |m.Keys| == |m| && |(m - {k}).Keys| == |m - {k}|;
  }

  /** Any key can be taken out first. */
  lemma {:induction false} TotalWithout<K>(m: map<K, int>, k: K)
    requires k in m
    ensures Total(m) == m[k] + Total(m - {k})
    decreases |m|
  {
    var j :| j in m && Total(m) == m[j] + Total(m - {j});
    if j != k {
      Smaller(m, j);
      Smaller(m, k);
      TotalWithout(m - {j}, k);
      TotalWithout(m - {k}, j);
      assert (m - {j}) - {k} == (m - {k}) - {j};
    }
  }

  lemma {:induction false} TotalNonNegative<K>(m: map<K, int>)
    requires forall k :: k in m ==> m[k] >= 0
    ensures Total(m) >= 0
    decreases |m|
  {
    if m != map[] {
      var k :| k in m && Total(m) == m[k] + Total(m - {k});
      Smaller(m, k);
      TotalNonNegative(m - {k});
    }
  }

  /** `g` sends every key of `a` to a key of `b` that carries the same value, and reaches all of `b`. */
  ghost predicate Covers<A, B>(a: map<A, int>, b: map<B, int>, g: map<A, B>) {
    && g.Keys == a.Keys
    && (forall x :: x in a ==> g[x] in b && b[g[x]] == a[x] >= 0)
    && (forall y :: y in b ==> exists x :: x in a && g[x] == y)
  }

  /** No two keys that carry something are sent to the same place. */
  ghost predicate Apart<A, B>(a: map<A, int>, g: map<A, B>)
    requires g.Keys == a.Keys
  {
    forall x, y :: x in a && y in a && g[x] == g[y] && a[x] > 0 ==> x == y
  }

  /** Whatever covers `b` adds up to at least as much. */
  lemma {:induction false} CoverAtLeast<A, B>(a: map<A, int>, b: map<B, int>, g: map<A, B>)
    requires Covers(a, b, g)
    ensures Total(a) >= Total(b)
    decreases |b|
  {
    if b == map[] {
      TotalNonNegative(a);
    } else {
      var y :| y in b && Total(b) == b[y] + Total(b - {y});
      var x :| x in a && g[x] == y;
      Smaller(b, y);
      CoverRest(a, b, g, y);
      var rest := map z | z in a && g[z] != y :: a[z];
      var g' := map z | z in rest :: g[z];
      CoverAtLeast(rest, b - {y}, g');
      SplitOff(a, rest, x);
    }
  }

  lemma CoverRest<A, B>(a: map<A, int>, b: map<B, int>, g: map<A, B>, y: B)
    requires Covers(a, b, g) && y in b
    ensures var rest := map z | z in a && g[z] != y :: a[z];
      Covers(rest, b - {y}, map z | z in rest :: g[z])
  {
    var rest := map z | z in a && g[z] != y :: a[z];
    var g' := map z | z in rest :: g[z];
    forall v | v in b - {y} ensures exists x :: x in rest && g'[x] == v {
      var x :| x in a && g[x] == v;
      assert x in rest && g'[x] == v;
    }
  }

  /** A part of a map and one key outside it. */
  lemma {:induction false} SplitOff<K>(m: map<K, int>, part: map<K, int>, x: K)
    requires part.Keys <= m.Keys && x in m && x !in part
    requires (forall k :: k in part ==> part[k] == m[k]) && (forall k :: k in m ==> m[k] >= 0)
    ensures Total(m) >= m[x] + Total(part)
    decreases |part|
  {
    TotalWithout(m, x);
    PartAtMost(m - {x}, part);
  }

  lemma {:induction false} PartAtMost<K>(m: map<K, int>, part: map<K, int>)
    requires part.Keys <= m.Keys
    requires (forall k :: k in part ==> part[k] == m[k]) && (forall k :: k in m ==> m[k] >= 0)
    ensures Total(part) <= Total(m)
    decreases |part|
  {
    if part == map[] {
      TotalNonNegative(m);
    } else {
      var k :| k in part && Total(part) == part[k] + Total(part - {k});
      Smaller(part, k);
      TotalWithout(m, k);
      PartAtMost(m - {k}, part - {k});
    }
  }

  /** If the covering keys are apart, the two sums are equal. */
  lemma {:induction false} ApartAtMost<A, B>(a: map<A, int>, b: map<B, int>, g: map<A, B>)
    requires g.Keys == a.Keys && (forall x :: x in a ==> g[x] in b && b[g[x]] == a[x]) && Apart(a, g)
    requires forall y :: y in b ==> b[y] >= 0
    ensures Total(a) <= Total(b)
    decreases |a|
  {
    if a == map[] {
      TotalNonNegative(b);
    } else {
      var x :| x in a && Total(a) == a[x] + Total(a - {x});
      Smaller(a, x);
      if a[x] == 0 {
        ApartAtMost(a - {x}, b, g - {x});
      } else {
        TotalWithout(b, g[x]);
        ApartAtMost(a - {x}, b - {g[x]}, g - {x});
      }
    }
  }

  /** The sums agree if and only if no two keys that carry something are sent to the same place. */
  lemma CoverExactly<A, B>(a: map<A, int>, b: map<B, int>, g: map<A, B>)
    requires Covers(a, b, g)
    ensures Total(a) >= Total(b)
    ensures Total(a) == Total(b) <==> Apart(a, g)
  {
    CoverAtLeast(a, b, g);
    CoveredNonNegative(a, b, g);
    if Apart(a, g) {
      ApartAtMost(a, b, g);
    } else {
      var x, y :| x in a && y in a && g[x] == g[y] && a[x] > 0 && x != y;
      TotalWithout(a, x);
      CoverWithout(a, b, g, x, y);
      CoverAtLeast(a - {x}, b, g - {x});
    }
  }

  lemma CoveredNonNegative<A, B>(a: map<A, int>, b: map<B, int>, g: map<A, B>)
    requires Covers(a, b, g)
    ensures forall y :: y in b ==> b[y] >= 0
  {
    forall y | y in b ensures b[y] >= 0 {
      var x :| x in a && g[x] == y;
    }
  }

  lemma CoverWithout<A, B>(a: map<A, int>, b: map<B, int>, g: map<A, B>, x: A, y: A)
    requires Covers(a, b, g) && x in a && y in a && x != y && g[x] == g[y]
    ensures Covers(a - {x}, b, g - {x})
  {
    var a', g' := a - {x}, g - {x};
    forall v | v in b ensures exists z :: z in a' && g'[z] == v {
      var z :| z in a && g[z] == v;
      assert if z == x then y in a' && g'[y] == v else z in a' && g'[z] == v;
    }
  }

  // ---------------------------------------------------------------- the two ledgers

  /** Amounts of the successful transactions on chain, by txid. */
  ghost function ChainLedger(n: Node): map<Txid, int> {
    map txid | txid in n.txs && Succeeded(n, txid) :: n.txs[txid].tx.raw.amount
  }

  /** Amounts of the confirmed operations, by id. */
  ghost function ConfirmedLedger(db: Db): map<OpId, int> {
    map id | id in db.ops && db.ops[id].state == Confirmed :: db.ops[id].amount
  }

  /** Each confirmed operation's own txid. */
  ghost function PaidBy(db: Db): map<OpId, Txid>
    requires forall id :: id in db.ops && db.ops[id].state == Confirmed ==> db.ops[id].txid.Some?
  {
    map id | id in db.ops && db.ops[id].state == Confirmed :: db.ops[id].txid.value
  }

  /** The successful transactions that some confirmed operation names as its own. */
  ghost function NamedLedger(n: Node, db: Db): map<Txid, int> {
    map txid | txid in ChainLedger(n) && (exists id :: id in db.ops && PaidWith(db.ops[id], txid)) :: ChainLedger(n)[txid]
  }

  predicate PaidWith(row: Row, txid: Txid) {
    row.state == Confirmed && row.txid == Some(txid)
  }

  /** No two confirmed operations that moved money name the same transaction. */
  ghost predicate DistinctPaid(db: Db) {
    forall a, b, txid ::
      (a in db.ops && b in db.ops && PaidWith(db.ops[a], txid) && PaidWith(db.ops[b], txid) && db.ops[a].amount > 0) ==>
        a == b
  }

  lemma ConfirmedEntry(c: Config, s: Sys, id: OpId)
    requires Inv(c, s) && id in s.db.ops && s.db.ops[id].state == Confirmed
    ensures s.db.ops[id].txid.Some? && s.db.ops[id].amount >= 0
    ensures var txid := s.db.ops[id].txid.value;
      txid in ChainLedger(s.node) && ChainLedger(s.node)[txid] == s.db.ops[id].amount
  {
    assert RowInv(c, s.node, s.db.events, id, s.db.ops[id]);
  }

  /** Every confirmed row names a successful transaction of its own amount. */
  ghost predicate Backed(n: Node, db: Db) {
    forall id :: id in db.ops && db.ops[id].state == Confirmed ==>
      && db.ops[id].txid.Some? && db.ops[id].amount >= 0
      && db.ops[id].txid.value in ChainLedger(n)
      && ChainLedger(n)[db.ops[id].txid.value] == db.ops[id].amount
  }

  lemma ConfirmedEntries(c: Config, s: Sys)
    requires Inv(c, s)
    ensures Backed(s.node, s.db)
  {
    forall id | id in s.db.ops && s.db.ops[id].state == Confirmed
      ensures s.db.ops[id].txid.Some? && s.db.ops[id].amount >= 0
      ensures s.db.ops[id].txid.value in ChainLedger(s.node)
      ensures ChainLedger(s.node)[s.db.ops[id].txid.value] == s.db.ops[id].amount
    {
      ConfirmedEntry(c, s, id);
    }
  }

  lemma LedgersCover(n: Node, db: Db)
    requires Backed(n, db)
    ensures Covers(ConfirmedLedger(db), NamedLedger(n, db), PaidBy(db))
  {
    var confirmed, named, paid := ConfirmedLedger(db), NamedLedger(n, db), PaidBy(db);
    forall id | id in confirmed ensures paid[id] in named && named[paid[id]] == confirmed[id] >= 0 {
      assert PaidWith(db.ops[id], paid[id]);
    }
    forall txid | txid in named ensures exists id :: id in confirmed && paid[id] == txid {
      var id :| id in db.ops && PaidWith(db.ops[id], txid);
      assert id in confirmed && paid[id] == txid;
    }
  }

  lemma ApartIsDistinct(n: Node, db: Db)
    requires Backed(n, db)
    ensures Apart(ConfirmedLedger(db), PaidBy(db)) <==> DistinctPaid(db)
  {
    var confirmed, paid := ConfirmedLedger(db), PaidBy(db);
    if DistinctPaid(db) {
      forall x, y | x in confirmed && y in confirmed && paid[x] == paid[y] && confirmed[x] > 0 ensures x == y {
        assert PaidWith(db.ops[x], paid[x]) && PaidWith(db.ops[y], paid[x]);
      }
    }
    if Apart(confirmed, paid) {
      forall a, b, txid | a in db.ops && b in db.ops && PaidWith(db.ops[a], txid) && PaidWith(db.ops[b], txid)
                          && db.ops[a].amount > 0
        ensures a == b
      {
        assert a in confirmed && b in confirmed && paid[a] == paid[b] == txid;
      }
    }
  }

  /**
  In every state of every run, the confirmed operations add up to the transactions they
  name, if and only if no two of them name the same one; otherwise they add up to more.
  */
  lemma ConfirmedExactly(c: Config, s: Sys)
    requires Reachable(c, s)
    ensures Total(ConfirmedLedger(s.db)) >= Total(NamedLedger(s.node, s.db))
    ensures Total(ConfirmedLedger(s.db)) == Total(NamedLedger(s.node, s.db)) <==> DistinctPaid(s.db)
  {
    ReachableInv(c, s);
    ConfirmedEntries(c, s);
    LedgersCover(s.node, s.db);
    ApartIsDistinct(s.node, s.db);
    CoverExactly(ConfirmedLedger(s.db), NamedLedger(s.node, s.db), PaidBy(s.db));
  }

  lemma ChainEntry(c: Config, s: Sys, txid: Txid)
    requires Inv(c, s) && txid in s.node.txs
    ensures s.node.txs[txid].tx.raw.amount >= 0
  {
    var id :| WroteAhead(s.db.events, id, txid);
    WroteAheadIsGiven(s.db.events, id, txid);
    GivenPays(c, s, id, txid);
  }

  /** So the store never claims more than the chain has paid, unless two confirmed operations name one transaction. */
  lemma NeverOverstated(c: Config, s: Sys)
    requires Reachable(c, s) && DistinctPaid(s.db)
    ensures Total(ConfirmedLedger(s.db)) <= Total(ChainLedger(s.node))
  {
    ConfirmedExactly(c, s);
    ReachableInv(c, s);
    forall txid | txid in ChainLedger(s.node) ensures ChainLedger(s.node)[txid] >= 0 {
      ChainEntry(c, s, txid);
    }
    PartAtMost(ChainLedger(s.node), NamedLedger(s.node, s.db));
  }

  ghost predicate AllTerminal(db: Db) {
    forall id :: id in db.ops ==> Terminal(db.ops[id].state)
  }

  /** When nothing is in flight, a successful transaction belongs to a confirmed operation. */
  lemma SuccessIsConfirmed(c: Config, s: Sys, txid: Txid)
    requires Inv(c, s) && SafeInv(s) && AllTerminal(s.db) && txid in s.node.txs && Succeeded(s.node, txid)
    ensures exists id :: id in s.db.ops && PaidWith(s.db.ops[id], txid)
  {
    var id :| WroteAhead(s.db.events, id, txid);
    LandedIsCurrent(c, s, id, txid);
    if s.db.ops[id].state == Failed {
      FailedNow(c, s, id, txid);
    }
    assert PaidWith(s.db.ops[id], txid);
  }

  /**
  Conservation, exactly: once every operation is terminal, chain and confirmed operations
  agree to the unit if and only if no two confirmed operations name the same transaction.
  */
  lemma Conserved(c: Config, s: Sys)
    requires SafelyReachable(c, s) && AllTerminal(s.db)
    ensures Total(ConfirmedLedger(s.db)) == Total(ChainLedger(s.node)) <==> DistinctPaid(s.db)
  {
    SafelyReachableInv(c, s);
    forall txid | txid in ChainLedger(s.node) ensures exists id :: id in s.db.ops && PaidWith(s.db.ops[id], txid) {
      SuccessIsConfirmed(c, s, txid);
    }
    assert NamedLedger(s.node, s.db) == ChainLedger(s.node);
    SafelyIsReachable(c, s);
    ConfirmedExactly(c, s);
  }

  lemma SafelyIsReachable(c: Config, s: Sys)
    requires SafelyReachable(c, s)
    ensures Reachable(c, s)
  {
  }

  /** Txids that tell operations apart are more than enough. */
  lemma UnsharedIsDistinct(c: Config, s: Sys)
    requires Reachable(c, s) && NoSharing(s.db.events)
    ensures DistinctPaid(s.db)
  {
    ReachableInv(c, s);
    forall a, txid | a in s.db.ops && PaidWith(s.db.ops[a], txid) ensures Given(s.db.events, a, txid) {
      assert RowInv(c, s.node, s.db.events, a, s.db.ops[a]);
    }
  }
}
