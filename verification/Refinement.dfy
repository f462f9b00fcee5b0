/**
The pieces fit together: the node inside the protocol only ever sees runs of the node
model, and the objects driven by the worker code only ever see runs of the protocol.
*/
module Refinement {

  import opened Chain
  import opened ChainProperties
  import opened NodeAnswers
  import opened Store
  import opened Protocol
  import opened Invariant
  import opened InvariantSteps
  import opened History
  import opened SafetyProof
  import opened Safety
  import opened Pipeline

  // ---------------------------------------------------------------- the node inside the protocol

  lemma {:induction false} NodeExecAppend(n: Node, a: seq<NodeAction>, b: seq<NodeAction>)
    ensures NodeExec(n, a + b) == NodeExec(NodeExec(n, a), b)
    decreases |a|
  {
    if a == [] {
      assert a + b == b;
    } else {
      assert (a + b)[1..] == a[1..] + b;
      NodeExecAppend(NodeStep(n, a[0]), a[1..], b);
    }
  }

  lemma OneCall(n: Node, a: NodeAction)
    ensures NodeExec(n, [a]) == NodeStep(n, a)
  {
    assert [a][1..] == [];
  }

  lemma ActCalls(c: Config, s: Sys, i: nat, now: int) returns (calls: seq<NodeAction>)
    requires NodeInv(s.node) && i < |s.drives| && DriveOk(c, s.node, s.db.events, s.drives[i])
    ensures Step(c, s, Act(i, now)).node == NodeExec(s.node, calls) && GenuineSends(calls)
  {
    var d := s.drives[i];
    calls := [];
    if Running(d.pc) && Plan(c, d, now).None? {
      ReadIsNodeCall(c, s.node, d, now);
      if ReadStep(c, s.node, d, now).0 != s.node {
        SignedBytes(c, d.op);
        var query := Query(d.op.signed.value.txid, now);
        var send := Transmit(d.op.signed.value, d.worker, now);
        OneCall(s.node, query);
        OneCall(s.node, send);
        calls := if ReadStep(c, s.node, d, now).0 == NodeStep(s.node, query) then [query] else [send];
      }
    }
  }

  lemma StepCalls(c: Config, s: Sys, a: Action) returns (calls: seq<NodeAction>)
    requires Inv(c, s)
    ensures Step(c, s, a).node == NodeExec(s.node, calls) && GenuineSends(calls)
  {
    calls := [];
    match a
    case Act(i, now) =>
      if i < |s.drives| {
        assert DriveOk(c, s.node, s.db.events, s.drives[i]);
        calls := ActCalls(c, s, i, now);
      }
    case Block(now) =>
      calls := [MakeBlock(now)];
      OneCall(s.node, calls[0]);
    case Inject(channel, faults) =>
      calls := [Enqueue(channel, faults)];
      OneCall(s.node, calls[0]);
    case _ =>
  }

  /** Whatever the workers do, the node goes through a run of its own calls, all with bytes that match their txid. */
  lemma {:induction false} RunCalls(c: Config, s: Sys, actions: seq<Action>) returns (calls: seq<NodeAction>)
    requires Inv(c, s)
    ensures Exec(c, s, actions).node == NodeExec(s.node, calls) && GenuineSends(calls)
    decreases |actions|
  {
    calls := [];
    if actions != [] {
      var first := StepCalls(c, s, actions[0]);
      StepKeeps(c, s, actions[0]);
      var rest := RunCalls(c, Step(c, s, actions[0]), actions[1..]);
      calls := first + rest;
      NodeExecAppend(s.node, first, rest);
    }
  }

  /** In every run each txid is newly accepted at most once, and exactly once if the node has a record of it. */
  lemma AcceptedAtMostOnce(c: Config, s: Sys, txid: Txid)
    requires Reachable(c, s)
    ensures AcceptedCount(s.node.log, txid) == if txid in s.node.txs then 1 else 0
  {
    var w: Setup, actions: seq<Action> :| s == Exec(c, Init(w), actions);
    InitInv(c, w);
    var calls := RunCalls(c, Init(w), actions);
    AcceptedOnce(Init(w).node, calls, txid);
  }

  // ---------------------------------------------------------------- the code

  /** Under the careful-run condition the objects never hold two landed transactions of one operation. */
  lemma CodePaysAtMostOnce(p: Pipeline, id: OpId)
    requires p.Valid() && CarefulRun(p.c, Init(p.setup), p.trace)
    ensures |LandedTxids(p.World(), id)| <= 1
  {
    AtMostOnce(p.c, p.World(), id);
  }

  /** In every run of the code the node's log shows only txids whose sending was announced in the store. */
  lemma CodeAnnouncesFirst(p: Pipeline, k: nat)
    requires p.Valid() && k < |p.node.log|
    ensures Announced(p.store.events, p.node.log[k].txid)
  {
    assert Reachable(p.c, p.World());
    ReachableInv(p.c, p.World());
    assert p.World().node.log == p.node.log;
  }

  lemma {:induction false} InterferenceGrows(before: seq<Action>, after: seq<Action>, mine: set<nat>)
    requires before <= after
    ensures Interference(before, mine) <= Interference(after, mine)
    decreases |after|
  {
    if before != after {
      InterferenceGrows(before, after[..|after| - 1], mine);
    }
  }

  /** A step raises an exception in a drive only by throwing it in from outside. */
  lemma RaisedFromOutside(c: Config, s: Sys, a: Action, i: nat)
    requires Reachable(c, s) && i < |s.drives| && !s.drives[i].pc.Raised? && a != Throw(i)
    ensures i < |Step(c, s, a).drives| && !Step(c, s, a).drives[i].pc.Raised?
  {
    if a.Act? && a.i == i && Running(s.drives[i].pc) {
      NoHandlerError(c, s, i, a.now);
    }
  }

  /** Without interference from outside, no drive ever gets to the exception handler. */
  lemma {:induction false} NeverRaised(c: Config, w: Setup, before: seq<Action>, after: seq<Action>, mine: set<nat>, i: nat)
    requires Undisturbed(mine, before, after) && i in mine
    requires var s := Exec(c, Init(w), before); i < |s.drives| && !s.drives[i].pc.Raised?
    ensures var s := Exec(c, Init(w), after); i < |s.drives| && !s.drives[i].pc.Raised?
    decreases |after|
  {
    if before != after {
      var prefix, a := after[..|after| - 1], after[|after| - 1];
      InterferenceGrows(before, prefix, mine);
      NeverRaised(c, w, before, prefix, mine, i);
      ExecSnoc(c, Init(w), prefix, a);
      assert prefix + [a] == after;
      RaisedFromOutside(c, Exec(c, Init(w), prefix), a, i);
    }
  }

  /** One macro-step of the code: under any interleaving it returns a row or is fenced out, and raises nothing. */
  method StepOnce(p: Pipeline, ghost mine: set<nat>, ghost i: nat, id: OpId, op: Row, worker: WorkerId)
    returns (r: HandlerResult)
    requires p.Holding(mine, i, id, op, worker) && p.drives[i].pc == Ready
    modifies p, p.store, p.node
    ensures p.Valid() && Undisturbed(mine, old(p.trace), p.trace) && p.Mine(mine, i)
    ensures Ended(old(p.drives[i]), p.drives[i], r) && !r.HandlerError?
  {
    ghost var before := p.trace;
    assert p.World() == Exec(p.c, Init(p.setup), before);
    r := p.Advance(mine, i, id, op, worker);
    NeverRaised(p.c, p.setup, before, p.trace, mine, i);
    assert p.World() == Exec(p.c, Init(p.setup), p.trace);
  }
}
