/**
When a rebuild is not fresh. While the clock stands still block times still rise, so chain
time can overtake an envelope's deadline before the envelope is built. Such an envelope is
retired at once, and its successor is the same transaction again.
*/
module StuckClock {

  import opened Common
  import opened States
  import opened Chain
  import opened Store
  import opened Protocol
  import opened Invariant
  import opened InvariantSteps
  import opened Safety
  import opened ReadOrder
  import opened Freshness
  import opened Scenario
  import opened UncleanVerdict
  import opened Newcomers

  // ---------------------------------------------------------------- the exact condition at the build

  /** Drive `i` holds the row of its operation and has just read the reference block. */
  predicate Building(s: Sys, i: nat) {
    && i < |s.drives| && s.drives[i].pc.HaveRef? && s.drives[i].id in s.db.ops
    && s.drives[i].op.token == s.db.ops[s.drives[i].id].token
  }

  lemma BuildingHolds(c: Config, s: Sys, i: nat)
    requires Reachable(c, s) && Building(s, i)
    ensures Inv(c, s) && Holder(s, i) && s.drives[i].op.state == Signing
  {
    ReachableInv(c, s);
    assert DriveOk(c, s.node, s.db.events, s.drives[i]) && Owns(s.db, s.drives[i]);
  }

  /** The envelope that a clock reading of `now` makes is `txid`, which the operation had before, exactly in this case. */
  lemma RepeatsExactly(c: Config, s: Sys, i: nat, txid: Txid, now: int)
    requires Reachable(c, s) && Building(s, i) && Given(s.db.events, s.drives[i].id, txid)
    ensures Txid(BuildRaw(c, s.drives[i].op, s.drives[i].pc.ref, now)) == txid <==>
            s.drives[i].pc.ref == txid.raw.refBlock && now == txid.raw.timestamp
  {
    BuildingHolds(c, s, i);
    GivenPays(c, s, s.drives[i].id, txid);
  }

  /** The build puts `txid` on record for the operation once more. */
  lemma Repeats(c: Config, o: Sys, s: Sys, i: nat, txid: Txid) returns (s': Sys)
    requires Leads(c, o, s) && Holder(s, i) && s.drives[i].op.state == Signing && s.drives[i].pc.HaveRef?
    requires s.clock <= txid.raw.timestamp
    requires Txid(BuildRaw(c, s.drives[i].op, s.drives[i].pc.ref, txid.raw.timestamp)) == txid
    ensures Leads(c, o, s') && Appends(s, s', i, EnvelopeBuilt(txid))
  {
    var t := Assembles(c, o, s, i, s.drives[i].pc.ref, txid.raw.timestamp);
    s' := Persists(c, o, t, i, txid.raw, txid.raw.timestamp);
  }

  /** Some later clock reading of this very build makes `txid` again. */
  ghost predicate MayRepeat(c: Config, s: Sys, i: nat, txid: Txid)
    requires i < |s.drives| && s.drives[i].pc.HaveRef?
  {
    exists now :: s.clock <= now && Txid(BuildRaw(c, s.drives[i].op, s.drives[i].pc.ref, now)) == txid
  }

  /**
  Before the clock is read a repetition is possible if and only if the reference block is
  the old one and the clock is not yet past the old millisecond; and if it is possible,
  some continuation with clocks that never run backwards does repeat.
  */
  lemma MayRepeatExactly(c: Config, s: Sys, i: nat, txid: Txid) returns (s': Sys)
    requires Reachable(c, s) && Building(s, i) && Given(s.db.events, s.drives[i].id, txid)
    ensures MayRepeat(c, s, i, txid) <==>
            s.drives[i].pc.ref == txid.raw.refBlock && s.clock <= txid.raw.timestamp
    ensures MayRepeat(c, s, i, txid) ==> Leads(c, s, s') && Appends(s, s', i, EnvelopeBuilt(txid))
  {
    s' := s;
    forall now ensures Txid(BuildRaw(c, s.drives[i].op, s.drives[i].pc.ref, now)) == txid <==>
                       s.drives[i].pc.ref == txid.raw.refBlock && now == txid.raw.timestamp
    {
      RepeatsExactly(c, s, i, txid, now);
    }
    if s.drives[i].pc.ref == txid.raw.refBlock && s.clock <= txid.raw.timestamp {
      assert Txid(BuildRaw(c, s.drives[i].op, s.drives[i].pc.ref, txid.raw.timestamp)) == txid;
      BuildingHolds(c, s, i);
      Here(c, s);
      s' := Repeats(c, s, s, i, txid);
    }
  }

  // ---------------------------------------------------------------- from a retirement to the same envelope

  lemma Releases(c: Config, o: Sys, s: Sys, i: nat) returns (s': Sys)
    requires Leads(c, o, s) && |s.node.times| > 0 && i < |s.drives| && s.drives[i].pc == Releasing
    requires s.drives[i].id in s.db.ops && s.drives[i].base == s.db.ops[s.drives[i].id]
    ensures Leads(c, o, s') && s'.node == s.node && s'.clock == s.clock && s'.db.events == s.db.events
    ensures var id := s.drives[i].id;
      && id in s'.db.ops && s'.db.ops[id].lease == None
      && s'.db.ops[id] == s.db.ops[id].(claimedBy := None, lease := None, updatedAt := s.clock)
  {
    Next(c, o, s, Act(i, s.clock));
    s' := Step(c, s, Act(i, s.clock));
  }

  /** Back in `signing`, with the same worker or the next one, and the chain asked for its reference block. */
  predicate Rebuilding(s: Sys, j: nat, id: OpId, row: Row, ref: int) {
    && Holder(s, j) && s.drives[j].id == id && s.drives[j].pc == HaveRef(ref)
    && s.drives[j].op.state == Signing && s.drives[j].op.to == row.to && s.drives[j].op.amount == row.amount
  }

  lemma SameWorkerRebuilds(c: Config, o: Sys, s: Sys, i: nat) returns (s': Sys)
    requires Leads(c, o, s) && Holder(s, i) && s.drives[i].pc == Ready && s.drives[i].op.state == Signing
    requires s.drives[i].op.attempts < c.maxAttempts
    ensures Leads(c, o, s') && s'.clock == s.clock && s'.db.events == s.db.events
    ensures Rebuilding(s', i, s.drives[i].id, s.drives[i].op, RefBlock(s.node))
  {
    Reads(c, o, s, i, s.clock);
    s' := Step(c, s, Act(i, s.clock));
  }

  lemma NextWorkerRebuilds(c: Config, o: Sys, s: Sys, i: nat) returns (s': Sys, j: nat)
    requires Reachable(c, o) && Leads(c, o, s) && |s.node.times| > 0 && i < |s.drives| && s.drives[i].pc == Releasing
    requires s.drives[i].id in s.db.ops && s.drives[i].base == s.db.ops[s.drives[i].id]
    requires s.drives[i].base.state == Signing && s.drives[i].base.attempts < c.maxAttempts
    ensures Leads(c, o, s') && s'.clock == s.clock && s'.db.events == s.db.events
    ensures Rebuilding(s', j, s.drives[i].id, s.drives[i].base, RefBlock(s.node))
  {
    var id := s.drives[i].id;
    var t := Releases(c, o, s, i);
    IdHasArrived(c, o, t, id);
    var u;
    u, j := Claims(c, o, t, id, "B", s.clock);
    s' := SameWorkerRebuilds(c, o, u, j);
  }

  /** The retirement, and the build after it up to its reference block, without the clock or the chain moving. */
  lemma RetiresAndRereads(c: Config, o: Sys, s: Sys, i: nat) returns (s': Sys, j: nat)
    requires Reachable(c, o) && Leads(c, o, s) && Holder(s, i) && s.drives[i].pc.Retire? && InFlight(s.drives[i].op.state)
    requires s.drives[i].base == s.drives[i].op && s.drives[i].op.attempts + 1 < c.maxAttempts
    ensures Leads(c, o, s') && s'.clock == s.clock && s.db.events <= s'.db.events
    ensures Appends(s, s', i, Retired(s.drives[i].op.txid, s.drives[i].pc.reason, s.drives[i].pc.evidence))
    ensures Rebuilding(s', j, s.drives[i].id, s.drives[i].op, RefBlock(s.node))
  {
    var d := s.drives[i];
    Writes(c, o, s, i, s.clock, RetirePlan(d.op, d.pc.reason, d.pc.evidence));
    var t := Step(c, s, Act(i, s.clock));
    if t.drives[i].pc.Ready? {
      j := i;
      s' := SameWorkerRebuilds(c, o, t, i);
    } else {
      s', j := NextWorkerRebuilds(c, o, t, i);
    }
  }

  lemma RetiringHolds(c: Config, s: Sys, i: nat)
    requires Reachable(c, s) && i < |s.drives| && s.drives[i].pc.Retire? && s.drives[i].op.txid.Some?
    requires s.drives[i].id in s.db.ops && s.drives[i].op.token == s.db.ops[s.drives[i].id].token
    ensures Holder(s, i) && s.drives[i].base == s.drives[i].op && InFlight(s.drives[i].op.state)
    ensures var raw := s.drives[i].op.txid.value.raw;
      BuildRaw(c, s.drives[i].op, raw.refBlock, raw.timestamp) == raw
  {
    ReachableInv(c, s);
    assert DriveOk(c, s.node, s.db.events, s.drives[i]) && Owns(s.db, s.drives[i]);
  }

  /**
  In every reachable state in which the holder is about to retire an envelope, if neither
  the reference block nor the clock has moved past those of the envelope, some continuation
  retires it and builds the very same transaction again.
  */
  lemma RepeatAfterRetirement(c: Config, s: Sys, i: nat, txid: Txid) returns (s': Sys)
    requires Reachable(c, s) && i < |s.drives| && s.drives[i].pc.Retire? && s.drives[i].op.txid == Some(txid)
    requires s.drives[i].id in s.db.ops && s.drives[i].op.token == s.db.ops[s.drives[i].id].token
    requires s.drives[i].op.attempts + 1 < c.maxAttempts
    requires RefBlock(s.node) == txid.raw.refBlock && s.clock <= txid.raw.timestamp
    ensures Leads(c, s, s') && |s'.db.events| == |s.db.events| + 2 && s.db.events <= s'.db.events
    ensures var e, f := s'.db.events[|s.db.events|], s'.db.events[|s.db.events| + 1];
      && e.id == f.id == s.drives[i].id
      && Retires(e) && e.detail.retired.value == txid && f.detail == EnvelopeBuilt(txid)
  {
    RetiringHolds(c, s, i);
    Here(c, s);
    var t, j := RetiresAndRereads(c, s, s, i);
    s' := Repeats(c, s, t, j, txid);
  }

  // ---------------------------------------------------------------- and it does happen

  /** One millisecond to live and no margin. */
  predicate ShortLived(c: Config) {
    c.ttlMs == 1 && c.marginMs == 0 && c.maxAttempts >= 2 && !c.clockFirst
  }

  /** Four blocks while the clock stands still. */
  predicate Ahead(n: Node) {
    n.times == [0, 1, 2, 3, 4] && n.lag == 2 && n.txs == map[] && n.queryFaults == []
  }

  lemma ChainRunsAhead(c: Config, o: Sys, s: Sys) returns (s': Sys)
    requires Leads(c, o, s) && s.node == NewChain(c) && s.clock == 0
    ensures Leads(c, o, s') && s'.db == s.db && s'.drives == s.drives && s'.clock == 0
    ensures Ahead(s'.node) && s'.node.broadcastFaults == [TimeoutDropped]
  {
    var t := Blocks(c, o, s, 0);
    t := Blocks(c, o, t, 0);
    t := Blocks(c, o, t, 0);
    t := Blocks(c, o, t, 0);
    Next(c, o, t, Inject(BroadcastChannel, [TimeoutDropped]));
    s' := Step(c, t, Inject(BroadcastChannel, [TimeoutDropped]));
  }

  /** A drive in `broadcasting` that nobody has overtaken. */
  predicate Waiting(c: Config, s: Sys, i: nat, raw: RawData) {
    && Holder(s, i) && s.drives[i].op.state == Broadcasting && s.drives[i].op.attempts == 0
    && s.drives[i].op.signed == Some(Sign(c.signer, raw)) && s.drives[i].op.txid == Some(Txid(raw))
    && raw.expiration == 1 && Ahead(s.node) && s.clock == 0
  }

  lemma SendIsDropped(c: Config, o: Sys, s: Sys, i: nat, raw: RawData) returns (s': Sys)
    requires Leads(c, o, s) && Waiting(c, s, i, raw) && s.node.broadcastFaults == [TimeoutDropped]
    requires s.drives[i].pc == Wire && s.drives[i].steps == 2 && s.drives[i].base.state == Signed
    ensures Leads(c, o, s') && Waiting(c, s', i, raw) && s'.drives[i].pc == Ready
  {
    Reads(c, o, s, i, 0);
    s' := Step(c, s, Act(i, 0));
  }

  /** The lookup finds nothing, and chain time is already past the deadline. */
  lemma FoundDead(c: Config, o: Sys, s: Sys, i: nat, raw: RawData) returns (s': Sys)
    requires ShortLived(c) && Leads(c, o, s) && Waiting(c, s, i, raw) && s.drives[i].pc == Ready
    ensures Leads(c, o, s') && Waiting(c, s', i, raw) && s'.drives[i].pc.Retire?
  {
    Reads(c, o, s, i, 0);
    var t := Step(c, s, Act(i, 0));
    s' := Condemns(c, o, t, i);
  }

  /** The rebuilt envelope is the retired one, although the clock never ran backwards. */
  lemma SameTxidAgain(c: Config, to: string, amount: int) returns (s: Sys, j: nat, k: nat)
    requires ShortLived(c) && Acceptable(c, NewRow(to, c.asset, amount, 0))
    ensures TimelyReached(c, s) && c.ttlMs >= 1 && j < k < |s.db.events|
    ensures s.db.events[j].id == s.db.events[k].id
    ensures Retires(s.db.events[j]) && s.db.events[k].detail.EnvelopeBuilt?
    ensures s.db.events[k].detail.txid == s.db.events[j].detail.retired.value
  {
    var t, i, raw := RetiresAtOnce(c, to, amount);
    assert TimelyReached(c, t);
    TimelyIsReachable(c, t);
    s := RepeatAfterRetirement(c, t, i, Txid(raw));
    Onwards(c, Origin(c), t, s);
    j, k := |t.db.events|, |t.db.events| + 1;
  }

  lemma RetiresAtOnce(c: Config, to: string, amount: int) returns (s: Sys, i: nat, raw: RawData)
    requires ShortLived(c) && Acceptable(c, NewRow(to, c.asset, amount, 0))
    ensures Leads(c, Origin(c), s) && Waiting(c, s, i, raw) && s.drives[i].pc.Retire?
    ensures raw.refBlock == RefBlock(s.node) && raw.timestamp == 0
  {
    var o := Origin(c);
    Here(c, o);
    var t := Submits(c, o, o, 0, to, amount);
    var u := ChainRunsAhead(c, o, t);
    var v;
    v, i := Claims(c, o, u, 0, "A", 0);
    var x;
    x, raw := FirstEnvelope(c, o, v, i);
    var y := SendIsDropped(c, o, x, i, raw);
    s := FoundDead(c, o, y, i, raw);
  }
}
