# Sluice: a verified model of exactly-once withdrawals

Sluice pays withdrawals out of a hot wallet. A client submits an operation, any number of
workers claim it under a lease, build and sign one transaction, announce it in the store,
hand it to a TRON node and wait until it is solid. Workers crash and stall, the node lies
about timeouts, clocks drift. The promise is that the money moves at most once, and that the
store tells the truth about it.

This project models the whole protocol in Dafny and proves what it keeps, over every run.

## How the model is built

* **Values.** `Chain` is the node, `Store` is the store, `Protocol` is the system: a function
  `Step(config, state, action)` and its closure `Exec` over lists of actions. An action is a
  submission, a claim, one lock acquisition or clock reading of one worker, an exception, a
  crash, a block, or a scripted fault. Every action carries its own clock reading, so clocks
  may disagree and run backwards unless a statement says otherwise. A worker that is never
  scheduled again has stalled.
* **Drives.** Each claimed operation is a `Drive`: the snapshot the handler holds, the loop's
  variable, and a program counter. A fenced worker keeps its old snapshot and keeps acting.
* **Addresses and amounts.** `Config.addressOk` stands for the destination check; `Address.IsValid`
  is what the deployment puts there. `Money.ToUnits` is the amount parser that intake uses.
* **Laws.** `NodeLaws`, `StoreLaws`, `HandlerLaws`, `Leases` and `Spelling` say what the
  operations do over columns, block lists and characters, without the functions that define
  them. Where a law of a handler mentions a call of the node, that call has laws of its own.
* **Invariants.** `Invariant.Inv` holds in every run. `Invariant.SafeInv`, on top of it, says
  that every txid ever written ahead is dead or is the current envelope of its row. It holds
  in every *careful* run: one in which no block produced between a lookup and the chain-time
  read that follows it carries the txid being declared dead (`SafetyProof.Clean`).
* **Objects.** `MemoryStore`, `MockNode`, `Pipeline` and `Worker` follow the code: classes
  whose fields change in place, with the loops and branches of the original. Each method of
  store and node is proved equal to the corresponding function. A handler yields before each
  of its actions, and anything may happen to the shared objects there, except that nobody
  else acts for this worker's own drives. The ghost `trace` of a `Pipeline` lists every
  action of everyone, and `Valid` says that the objects are exactly where `Exec` is after that
  trace. The code extends the trace in one place only, by an action of the drive it is
  driving, so what is proved of all runs holds of the objects in every interleaving that
  respects this.

`Reachable(c, s)` means some run leads to `s`; `SafelyReachable(c, s)` means some careful run
does; `TimelyReached(c, s)` means some run does whose clock readings never decrease, and
`Leads(c, o, s)` that such a run leads from `o` to `s`.

## What the model found

* **The two reads of a death verdict are in the unsafe order.** The code looks the txid up and
  then reads chain time, under two separate lock acquisitions. With the shipped settings, one
  common clock, no fault and no crash, there is a run in which one withdrawal is paid twice
  (`TornReads.PaidTwice`). A verdict is sound exactly when no block in the gap carries the
  txid (`ReadOrder.VerdictExact`). Careful runs are safe, and the condition is needed: from
  every reachable state in which the holder is about to take an unclean verdict, with an
  attempt to spare and a lifetime that covers the inclusion delay, some continuation lands a
  second transaction (`UncleanVerdict.LandsTwice`). Four conditions each make every run
  careful: the reads taken as one step, no block stamped before the expiration in the gap,
  chain time read first, or, with clocks that do not run backwards, care only while in
  `broadcasting`.
* **A fenced worker does reach the network.** README.md:91-93 of the system says it never
  does. It can, between the write-ahead and the send (`FencedSends.FirstSendAfterFencing`),
  and when it re-sends from reconcile (`FencedSends.ResendAfterFencing`). It can exactly when
  its snapshot is in `broadcasting` and its program point leads to a send without a write
  (`FencedSends.OvertakenSendsExactly`). What it sends was announced and is either dead or the
  operation's current envelope (`Safety.LateSend`).
* **Two withdrawals can be one transaction.** The txid does not cover the operation id, and the
  in-memory store does not check. Two envelopes have one txid exactly when destination,
  amount, reference block and millisecond agree (`Safety.SameTxidExactly`). Then two
  operations can be confirmed on one payment (`SharedTxid.OnePaidForTwo`). The books balance
  if and only if no two confirmed operations that moved money name the same transaction
  (`Conservation.Conserved`).
* **The timestamp does not make a rebuild fresh.** sluice/pipeline.py:124-128 argues that the
  clock has moved. After a chain-time verdict it need not have; it is the reference block that
  has. A rebuilt envelope repeats a retired one exactly when neither has moved, and that takes
  a retired envelope that already referred to a block past its own deadline
  (`Freshness.RebuildIsFresh`). Whenever neither has moved at the retirement, some continuation
  does repeat it (`StuckClock.RepeatAfterRetirement`), and such states are reached
  (`StuckClock.SameTxidAgain`).

## Model

| member | source | states |
|---|---|---|
| Safety.AtMostOnce | sluice/pipeline.py:176-361 | in every state of every careful run, at most one txid ever written ahead for an operation is in a block |
| Safety.AtMostOnceEver | tests/test_chaos.py:148-152 | the same for every txid the operation was ever given, when no two operations were given the same one |
| ReadOrder.AtomicRunsAreSafe | sluice/pipeline.py:261-308 | at most once in every run in which the lookup and the chain-time read that follows it are one step |
| ReadOrder.QuietRunsAreSafe | sluice/pipeline.py:261-308 | at most once in every run in which no block stamped before the expiration falls between the two reads of a verdict |
| ReadOrder.ClockFirstIsSafe | sluice/pipeline.py:286-308 | with chain time read before the lookup, at most once in every run whatsoever |
| ReadOrder.TimelyRunsAreSafe | sluice/pipeline.py:336-342 | with clocks that never run backwards only the verdicts taken in `broadcasting` need care: in `broadcast` the gap is harmless |
| ReadOrder.VerdictExact | sluice/pipeline.py:261-308 | in every reachable state a verdict about to be taken is sound if and only if no block in the gap carries the txid |
| ReadOrder.LookupThenTime | sluice/pipeline.py:264-308 | for the node alone: after an unknown lookup and then a chain time past the deadline, the txid can never land if and only if no block since the lookup holds it |
| ReadOrder.TimeThenLookup | sluice/pipeline.py:286-298 | for the node alone: chain time past the deadline and then an unknown lookup mean the txid never lands, whatever happened in between and happens afterwards |
| TornReads.PaidTwice | sluice/pipeline.py:194-199 | a concrete run of the code's own order, with shipped settings and one clock, in which one operation lands two successful transactions |
| UncleanVerdict.LandsTwice | sluice/pipeline.py:261-284 | from every reachable state in which the holder is about to condemn a transaction that a block carries, some continuation lands a second one, whatever faults are scripted |
| ChainProperties.RebuildTheorem | sluice/tron/mocknet.py:124-159 | unknown txid and solid time past expiration plus margin: no later run of the node, re-sending the same bytes included, ever includes it |
| NodeLaws.FinalityExactly | sluice/tron/mocknet.py:233-238 | an included transaction is reported solid if and only if as many blocks as the lag lie on top of its block |
| NodeLaws.SolidTimeExactly | sluice/tron/mocknet.py:116-122 | chain time and reference block are those of the block as far below the head as the lag, or of the first block |
| NodeLaws.StatusExactly | sluice/tron/mocknet.py:220-238 | when a txid is unknown, pending or included, over the node's records and the clock |
| NodeLaws.FindExactly | sluice/tron/mocknet.py:220-224 | a query consumes one scripted fault, fails exactly when that is a query timeout, and changes nothing else |
| NodeLaws.SignatureExactly | sluice/tron/signer.py:29-44 | a signature verifies under the key that made it and under no other, and signing keeps envelope, txid and expiration |
| NodeLaws.SendExactly | sluice/tron/mocknet.py:174-218 | a record is added if and only if the request reaches the checks, is signed with the node's key, has not expired at the node's clock and is new; one fault is consumed and one log entry made, nothing else changes |
| NodeLaws.AnswerExactly | sluice/tron/mocknet.py:174-218 | each answer has exactly one cause |
| NodeLaws.OutcomeExactly | sluice/tron/mocknet.py:179-217 | what the broadcast log says about each answer |
| NodeLaws.BlockExactly | sluice/tron/mocknet.py:124-148 | the stamp follows the clock but rises by at least a millisecond; exactly the transactions that are old enough and not expired at the stamp join, and scripted reverts go to the first of them in order of arrival |
| NodeAnswers.InclusionIsFinal | sluice/tron/mocknet.py:220-238 | an included transaction keeps its block and receipt in every later answer, and solid stays solid |
| NodeAnswers.IncludedInTime | sluice/tron/mocknet.py:137-146 | every included transaction sits in an existing block stamped before its expiration |
| NodeAnswers.AcceptedOnce | sluice/tron/mocknet.py:253-259 | in every run of the node a txid is newly accepted once if the node has a record of it, and never otherwise |
| NodeAnswers.UnknownIsFinal | sluice/tron/mocknet.py:227-232 | with clocks that do not run backwards, unknown is the node's last word on a txid it accepted |
| Safety.NothingUnannounced | sluice/pipeline.py:189-199 | every txid any worker ever showed the node, fenced or not, has a write-ahead event |
| Safety.ChainPaysAsAsked | sluice/pipeline.py:132-145 | whatever the node accepted pays the destination and amount of an operation that announced it |
| Safety.LateSend | sluice/pipeline.py:276-281 | what a drive sends, however stale, was announced and is dead or the operation's current live envelope |
| FencedSends.TouchesWireExactly | sluice/pipeline.py:199-278 | in every reachable state an action shows the node something if and only if its drive is in front of a send |
| FencedSends.OvertakenSendsExactly | README.md:87-93 | some continuation makes a drive that has lost its token send if and only if its snapshot is in `broadcasting` and its program point leads to a send without a write |
| FencedSends.NeverSends | README.md:87-93 | otherwise it never sends again, whatever happens |
| FencedSends.LostBeforeAnnouncing | sluice/pipeline.py:189-199 | a worker that loses its token before its snapshot says `broadcasting` never touches the wire |
| FencedSends.FirstSendAfterFencing | sluice/pipeline.py:194-199 | a concrete run in which a worker overtaken between the write-ahead and the send does send |
| FencedSends.ResendAfterFencing | sluice/pipeline.py:274-281 | a concrete run in which a worker overtaken after its lookup sends the same bytes again |
| Safety.SignedNeverSent | sluice/pipeline.py:180-187 | the envelope of a row in `signed` was never announced or is dead, so retiring it on local expiry is safe |
| Safety.EnvelopeAtHand | sluice/pipeline.py:145-177 | in `signed`, `broadcasting` and `broadcast` the row holds its own signed envelope, with matching txid, expiration, destination and amount |
| Safety.NoHandlerError | sluice/pipeline.py:82-94 | no action of a handler raises: no missing envelope, no state without a handler, no transition outside the table |
| Safety.TerminalForEver | sluice/store/memory.py:111-136 | a terminal row never changes again in any run, except for its update time |
| Safety.ConfirmedForEver | sluice/pipeline.py:319-327 | for the rest of every careful run a confirmed operation has exactly one landed txid, successful, in the recorded block, with at least as many blocks on top as the solidity lag |
| Safety.FailedForEver | sluice/pipeline.py:210-222 | no txid of a failed or rejected operation has succeeded, and none ever will in any careful run |
| Conservation.ConfirmedExactly | tests/test_chaos.py:160-167 | in every state of every run the confirmed amounts add up to the transactions they name if and only if no two confirmed operations that moved money name the same one; otherwise to more |
| Conservation.NeverOverstated | tests/test_chaos.py:160-167 | so in every run with that condition the confirmed amounts never add up to more than the chain has paid |
| Conservation.Conserved | tests/test_chaos.py:160-167 | in every careful run, once every operation is terminal, the two sums are equal if and only if no two confirmed operations that moved money name the same transaction |
| Conservation.UnsharedIsDistinct | tests/test_chaos.py:137-141 | txids that are not shared between operations are enough for the condition |
| SharedTxid.OnePaidForTwo | sluice/pipeline.py:132-145 | a concrete run, with shipped settings and one clock, that ends with two operations confirmed and one transaction on chain |
| Safety.SameTxidExactly | sluice/pipeline.py:132-145 | in every run two envelopes, of one operation or of two, have one txid if and only if destination, amount, reference block and millisecond agree |
| Freshness.RebuildIsFresh | sluice/pipeline.py:123-145 | with clocks that do not run backwards and a lifetime of at least a millisecond, an envelope built after a retirement repeats the retired one if and only if reference block and millisecond are the same, and only if that one referred to a block past its own deadline |
| StuckClock.RepeatsExactly | sluice/pipeline.py:129-145 | for a holder with its reference block in hand, the clock reading makes an earlier envelope again if and only if block and millisecond are those of that envelope |
| StuckClock.MayRepeatExactly | sluice/pipeline.py:129-145 | before the reading, a repetition is possible if and only if the block is the same and the clock not yet past that millisecond, and then some continuation repeats |
| StuckClock.RepeatAfterRetirement | sluice/pipeline.py:346-361 | from every reachable state in which the holder is about to retire an envelope and neither block nor clock has moved, some continuation retires it and builds it again |
| StuckClock.SameTxidAgain | sluice/tron/mocknet.py:116-136 | without that condition it fails: a concrete run in which the rebuilt envelope is the retired one |
| Fencing.TokensNeverRepeat | sluice/store/memory.py:77-79 | no two claims of one operation in a run hold the same token |
| Fencing.LogTokensRise | sluice/store/memory.py:126-152 | tokens along an operation's log never decrease and never exceed the row's |
| Fencing.HolderSeesTheRow | sluice/store/memory.py:103-110 | a working drive whose token is current holds the current row; any other has a smaller token |
| Fencing.OnlyTheHolderWrites | sluice/store/memory.py:84-136 | row and log of an operation change only by an action of the current holder, apart from the claim that replaces the holder |
| Fencing.FencedForEver | sluice/store/memory.py:107-110 | once a larger token is issued, no later action of the old holder changes anything in the store |
| Fencing.DriveEnds | sluice/worker.py:56-83 | a drive takes at most eight steps and, unless it crashed, ends terminal, fenced out by a strictly larger token, or with the lease dropped |
| Audit.LogIsTheRowsHistory | sluice/store/memory.py:140-152 | an operation's log starts with intake, is gap-free and legal, ends in the row's state, and nothing follows a terminal state |
| Audit.BoundedWork | sluice/pipeline.py:115-121 | in every run attempts and write-aheads are bounded by the maximum, and state changes after intake by three plus four times it |
| Audit.EveryRetirementHasEvidence | sluice/pipeline.py:346-361 | every retirement in the log is of an envelope the operation was given, and was taken in `signed` or records a chain time that is a block's stamp and is past the retired txid's expiration plus margin |
| StoreLaws.ClaimExactly | sluice/store/memory.py:59-80 | a claim takes exactly the earliest rows in a wanted state whose lease is absent or has run out, up to the limit; each is leased until now plus the lease time under the next token, and all others are untouched |
| Leases.LeaseHolds | sluice/store/memory.py:70-79 | through every run in which each claim reads a time before the lease runs out and the holder neither writes nor releases, the row stays as it is and nobody else is handed it |
| Leases.ClaimGivesLease | sluice/store/memory.py:75-79 | every drive a claim starts holds its row, which was free, under a lease of exactly the lease time and a token one higher |
| StoreLaws.CasExactly | sluice/store/memory.py:96-127 | a write goes through if and only if the move is legal, the row exists with that token and state, and the state is not final; then each column is as set, the rest as it was, and one numbered event is appended |
| StoreLaws.ReleaseExactly | sluice/store/memory.py:129-136 | a release with the current token drops claim and lease and nothing else, with any other token it does nothing |
| StoreLaws.InsertExactly | sluice/store/memory.py:38-50 | the first submission makes the row, every column of it, and its intake event; a second one changes nothing |
| StoreLaws.LogExactly | sluice/store/memory.py:154-156 | an operation's log is all of its events and no others, in the order of their numbers |
| StoreLaws.TableExactly | sluice/states.py:42-69 | the legal moves, by place on the main line: stay, one forward, reject before signing, fail while building or out, fall back to `signing` with an envelope; exactly three states are final |
| MemoryStore.ClaimCandidates | sluice/store/memory.py:66-74 | filtering by state first and skipping leased rows later gives the same claim as checking both in arrival order |
| MemoryStore.MemoryStore.InsertNew | sluice/store/memory.py:38-50 | insert once: the store after the call is the specified one, and the caller gets the row now stored and whether it is new |
| MemoryStore.MemoryStore.Claim | sluice/store/memory.py:59-80 | the in-place sweep takes the earliest free rows up to the limit and changes exactly the claim columns of those |
| MemoryStore.MemoryStore.Cas | sluice/store/memory.py:84-127 | the whole new state and the reply for all three outcomes: refused transition, fenced, written |
| MemoryStore.MemoryStore.Release | sluice/store/memory.py:129-136 | drops the lease if the token is current, on terminal rows too, and does nothing otherwise |
| MemoryStore.MemoryStore.Events | sluice/store/memory.py:154-156 | returns exactly the operation's log, in order |
| MemoryStore.MemoryStore.AllTxids | sluice/store/memory.py:158-164 | returns exactly the txids the operation was ever given |
| MockNode.MockTronNode.FillBlock | sluice/tron/mocknet.py:137-146 | the in-place sweep in arrival order includes the eligible transactions and consumes revert faults as specified |
| MockNode.MockTronNode.ProduceBlocks | sluice/tron/mocknet.py:124-148 | one block per clock reading, with strictly rising stamps |
| MockNode.MockTronNode.SolidTime | sluice/tron/mocknet.py:150-159 | the maximum over the block table is the stamp of the block as far below the head as the lag, or of the first block |
| MockNode.MockTronNode.ReferenceBlock | sluice/tron/mocknet.py:116-122 | the block as far below the head as the lag, never below the first |
| MockNode.MockTronNode.Broadcast | sluice/tron/mocknet.py:174-218 | new state and answer for every fault and every check, in the code's order |
| MockNode.MockTronNode.FindTx | sluice/tron/mocknet.py:220-238 | consumes one query fault and gives the specified status, solid exactly if as many blocks as the lag are on top |
| MockNode.MockTronNode.TimesAccepted | sluice/tron/mocknet.py:253-259 | counts the acceptances of a txid in the broadcast log |
| MockNode.MockTronNode.SuccessfulTxids | sluice/tron/mocknet.py:246-251 | returns exactly the included transactions with a success receipt |
| HandlerLaws.Validation | sluice/pipeline.py:98-111 | the holder's step on a requested row: validated, or rejected for the first objection, with every column said |
| HandlerLaws.Intent | sluice/pipeline.py:116-117 | a validated row goes to `signing` before anything is built |
| HandlerLaws.OutOfAttempts | sluice/pipeline.py:119-121 | an operation that has used up its attempts fails at the start of a build |
| HandlerLaws.ReferenceTaken | sluice/pipeline.py:129 | otherwise the build takes the block as far below the head as the lag |
| HandlerLaws.Assembly | sluice/pipeline.py:130-145 | the envelope pays the row's destination and amount and expires a lifetime after the clock reading |
| HandlerLaws.EnvelopePersisted | sluice/pipeline.py:149-158 | envelope, txid and expiration are stored, and any old signature cleared, before a signature exists |
| HandlerLaws.SignaturePersisted | sluice/pipeline.py:168-172 | the signature of the configured key over the envelope is stored |
| HandlerLaws.ExpiryCheck | sluice/pipeline.py:176-187 | a signed envelope is given up from its expiration on and announced before |
| HandlerLaws.Announcement | sluice/pipeline.py:194-195 | `broadcasting` is committed with the txid before the send |
| HandlerLaws.Transmission | sluice/pipeline.py:198-208 | the row's signed bytes go to the node; a timeout ends the turn with the row as it is, any answer is settled |
| HandlerLaws.Settling | sluice/pipeline.py:210-240 | what each answer makes of the row: accepted, failed for a hard reject and only then, in doubt, or nothing when busy |
| HandlerLaws.LookingUp | sluice/pipeline.py:261-272 | what each status leads to, in `broadcasting` and in `broadcast` |
| HandlerLaws.ChainTimeDecides | sluice/pipeline.py:274-308 | an unknown transaction is retired once chain time reaches expiration plus margin; before that it is sent again or waited for |
| HandlerLaws.Reconciling | sluice/pipeline.py:268-272 | a transaction that was found counts as broadcast and keeps its first time of broadcast |
| HandlerLaws.ReceiptRecorded | sluice/pipeline.py:319-331 | a success receipt confirms, any other fails, and the block is recorded either way |
| HandlerLaws.Retirement | sluice/pipeline.py:346-361 | a retirement clears the envelope, counts the attempt, and records txid, reason and evidence |
| HandlerLaws.FencedOut | sluice/pipeline.py:78-79 | a holder that has been overtaken writes nothing at its next write, and its drive is over |
| HandlerLaws.TurnIsOver | sluice/worker.py:59-67 | after a handler: finished if final, parked if the state is the same or eight turns are used up, another turn otherwise |
| HandlerLaws.Parking | sluice/worker.py:82 | a parked drive gives the row back if the token is still its own |
| HandlerLaws.Breadcrumb | sluice/worker.py:73-81 | after an exception a note is left on the row the loop last saw, without renewing the lease |
| Pipeline.Pipeline.Advance | sluice/pipeline.py:82-94 | under any interference, one macro-step is a run of the step system in which no exception or crash hits the worker's drives, and the drive ends returned with a row, fenced out, or raised |
| Refinement.StepOnce | sluice/pipeline.py:82-94 | and it never does raise: a macro-step returns a row or is fenced out |
| Refinement.NeverRaised | sluice/worker.py:73-81 | without an exception thrown in from outside, no drive of any run gets to the exception handler |
| Pipeline.Pipeline.Write | sluice/pipeline.py:68-80 | the fenced write is one action of the drive, and what it replaces is the row the handler holds |
| Pipeline.Pipeline.Validate | sluice/pipeline.py:98-111 | the validation handler is a run of the step system |
| Pipeline.Pipeline.BuildAndSign | sluice/pipeline.py:115-172 | the build handler is a run of the step system |
| Pipeline.Pipeline.BroadcastFirst | sluice/pipeline.py:176-208 | the first-send handler is a run of the step system |
| Pipeline.Pipeline.SettleBroadcastResult | sluice/pipeline.py:210-240 | every answer code leads to the write, or to no write, of the step system |
| Pipeline.Pipeline.ReconcileBroadcast | sluice/pipeline.py:261-284 | the reconcile handler is a run of the step system |
| Pipeline.Pipeline.ProofOfDeath | sluice/pipeline.py:286-308 | chain time is read as a separate action, and the verdict is that time against expiration plus margin |
| Pipeline.Pipeline.AwaitConfirmation | sluice/pipeline.py:312-342 | the confirmation handler is a run of the step system |
| Pipeline.Pipeline.Rebuild | sluice/pipeline.py:346-361 | retiring an envelope is the retirement of the step system |
| Worker.Worker.TakeSteps | sluice/worker.py:58-68 | the bounded loop leaves the drive at exactly the point its way out names, with the row and the advanced flag in step |
| Worker.Worker.DriveOperation | sluice/worker.py:56-83 | whatever happens around it, a drive comes to its end and reports whether the operation changed state |
| Worker.Worker.RunOnce | sluice/worker.py:47-54 | the pass claims once, with the configured batch size: its drives are the first so many live and unleased operations in order of arrival at that point, all of them are driven to an end that is true in the store, and the count is the number that changed state |
| Refinement.RunCalls | sluice/pipeline.py:176-342 | in every run of the protocol the node goes through a run of its own calls, all with bytes that match their txid |
| Refinement.AcceptedAtMostOnce | tests/test_chaos.py:137-146 | in every run of the protocol each txid is newly accepted exactly once if the node has a record of it, and never otherwise |
| Refinement.CodePaysAtMostOnce | tests/test_chaos.py:148-152 | the objects driven by the code never hold two landed transactions of one operation, if the trace is careful |
| Refinement.CodeAnnouncesFirst | sluice/pipeline.py:189-199 | every entry of the node object's broadcast log has a write-ahead event in the store object |
| Service.AdmittedExactly | sluice/service.py:42-70 | a request is admitted if and only if id, address, asset and amount are good, where the asset may be missing and both limits are allowed; a refusal names the first that is not |
| Service.ReplayOrMismatch | sluice/service.py:82-87 | a new id is created as asked; a known id leaves the store alone and is a replay exactly when destination, amount and asset agree |
| Service.PayloadForEver | sluice/store/__init__.py:79-92 | through any further run an operation keeps its one row and its payload |
| Service.RetryForEver | sluice/service.py:46-48 | after any run a retry is answered with the current row when it denotes the same instruction, however the amount is spelled, and refused otherwise |
| Service.AdmittedNeverRejected | sluice/pipeline.py:98-111 | an operation that intake let in is rejected in no later state of any run |
| Intake.Submit | sluice/service.py:42-87 | the checks in the code's order, then one insert: store and reply are the specified ones |
| Base58.B58Decode | sluice/tron/address.py:18-27 | the accumulating loop computes the decoding, or reports a character outside the alphabet |
| Base58.B58Encode | sluice/tron/address.py:30-37 | the dividing loop computes the encoding |
| Base58.DecodeEncode | sluice/tron/address.py:18-37 | decoding an encoding gives the bytes back, for every byte sequence, leading zeros included |
| Base58.EncodeDecode | sluice/tron/address.py:18-37 | encoding a decoding gives the string back, for every string that decodes, leading ones included |
| Numerals.ConvertBack | sluice/tron/address.py:23-36 | converting between any two bases and back restores every digit, leading zeros included |
| Address.MintedIsValid | sluice/tron/address.py:57-63 | exactly the twenty-byte payloads mint an address, and what they mint is valid |
| Address.ValidIsMinted | sluice/tron/address.py:44-54 | every valid address is the one minted by the payload it carries |
| Address.ValidShape | sluice/tron/address.py:44-54 | every valid address has exactly 34 characters, starts with 'T', and is the only spelling of its bytes |
| Address.ValidExactly | sluice/tron/address.py:40-63 | an address is valid if and only if it encodes version byte, twenty bytes, and the first four bytes of the digest of their digest |
| Base58.AlphabetExactly | sluice/tron/address.py:13-14 | the alphabet is the digits but 0, the capitals but I and O, the small letters but l, in that order |
| Base58.EncodeExactly | sluice/tron/address.py:30-37 | an encoding denotes the same number, with one '1' in front per zero byte in front and no other |
| Spelling.AcceptedExactly | sluice/money.py:30-42 | an amount is accepted if and only if, stripped, it is figures, or figures, a dot and figures within the token's decimals; each refusal has its own cause |
| Spelling.StripExactly | sluice/money.py:35 | stripping cuts out the part between the first and the last character that is not blank |
| Spelling.WorthExactly | sluice/money.py:38-44 | an accepted amount is worth its whole part and its fraction, each scaled to base units |
| Spelling.PrintExactly | sluice/money.py:47-54 | a spelling without superfluous zeros is worth so many units if and only if it is what they are printed as |
| Spelling.PrintedShape | sluice/money.py:47-54 | amounts are printed without superfluous zeros, with a dot only if there is a fraction |
| Money.UnitsExact | sluice/money.py:22-44 | accepted amounts are the denoted decimal scaled by ten to the decimals, with nothing lost |
| Money.SameUnits | sluice/money.py:25-28 | two accepted spellings give equal units exactly when they denote the same decimal |
| Money.RoundTrip | sluice/money.py:47-54 | parsing what was printed gives the units back, for all units and decimals |
| Money.PrintIsCanonical | sluice/money.py:47-54 | two accepted spellings print alike exactly when they denote the same decimal |

## Left out

- sluice/store/postgres.py and the SQL schema: SQL, connection pooling and the transition trigger. Its lease boundary and its handling of terminal rows differ from the in-memory store modelled here.
- sluice/api.py, scripts/demo.py, logging, environment parsing: input, output and plumbing.
- SHA-256, HMAC and JSON serialisation: txid, signature and request hash are injective constructors; the address checksum is an arbitrary digest function. Key ids are taken to contain no colon.
- UUID parsing: a request carries its parsed id or the fact that parsing failed.
- Time below a millisecond: times are whole milliseconds, as in the serialised transaction; the in-memory expiration of the original keeps microseconds.
- Clock readings inside one write: the original reads the clock up to three times (the handler's stamp, the row's update time, the event's time); the model takes one reading for all of them.
- The block number inside the death evidence: it is a third node call that nothing depends on.
- Texts of errors and failures: they are constructors of an enumeration.
- Threads and locks: a lock-protected call is one atomic step. Deep copies are values.
- The arrival counter: ids are kept in a list in order of arrival, which is also the order of the original's dictionary; sorting by the counter is then the identity.
- Liveness of `drain` and `run_forever`, poll intervals and jitter: that a pass makes progress depends on the schedule and on the batch size.
- sluice/crashpoints.py: a crash is a step available anywhere, and an exception thrown from outside a handler is a step of its own.
- Safety.AtMostOnceEver: assumes that no two operations were given the same txid (`NoSharing`), because a txid shared with another operation may be in a block without this one having sent it; `Safety.SameTxidExactly` says when that happens.
- Signature strings without a key id: part of the data model, never produced by the signer.
- CPython's digit limit in `int()` and Unicode whitespace in `strip()`: runtime details.
- Pipeline.Pipeline.Yield: its body does nothing; its contract is the assumption that everyone else takes steps of the system and leaves this worker's own drives alone, and that none of those crashes or is thrown an exception meanwhile.
- UncleanVerdict.LandsTwice: asks for an attempt to spare and a lifetime of at least a millisecond that covers the inclusion delay; that no second transaction lands without them is not stated.
- FencedSends.OvertakenSendsExactly: asks for a lifetime of at least a millisecond if a query timeout is scripted next, because another operation has to use the timeout up.
- Service.AdmittedNeverRejected: speaks about the configuration of the running system; an operation admitted under a different one may be rejected.
