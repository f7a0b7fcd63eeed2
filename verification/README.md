# The E10-v2 effect lifecycle: gateway, audit log and verifier

This project models the two sides of one protocol and proves where they meet.

* The **producer** is a gateway run: any number of handler threads authorize, get a permit, append
  evidence, touch the target, settle and release; one canceller linearizes, shuts connections down,
  drains and seals. `Protocol` is a step system with one step per lock region, per audit append and
  per wait that returned, so appends may land arbitrarily late, fail before the file is opened, or
  fail inside the write.
* The **verifier** is `_validate_history`: `Verifier.ValidateHistory` is its loop, proved to compute
  `Verdict`, and `History.LegalHistory` says what it accepts without a state machine, by three
  projections of a log: the story of each attempt, the tail of closure records, and the set of
  sequence numbers.
* The **meeting point** is `RunAcceptance.SealedRunAcceptedIff`: a sealed run is accepted if and only
  if `RunFits`, a condition on the requests, on lost records and on one race.

Around this stand the log's integrity (hash chain, bytes and torn writes, close anchor, redaction),
the locks, and the request budgets.

| file | content |
|---|---|
| `Records`, `Verifier`, `History`, `Soundness`, `Acceptance` | records, the verifier's loop, legal histories, and the proof that the loop accepts exactly those |
| `Run`, `Connections`, `Protocol` | the permit authority and the connections as values; the step system |
| `HandlerProofs`, `Invariants`, `Reachable`, `Enforcement` | the invariant of every reachable state |
| `RunAcceptance`, `RunTheorems`, `Verdicts` | the theorems over whole runs |
| `Scenario`, `Findings` | concrete runs, accepted and rejected |
| `Lifecycle`, `Gate`, `Cancellation` | the source's classes as classes, proved against the values above |
| `PermitLock`, `Locks` | interleavings on one permit; all locks together |
| `Chain`, `AuditFile`, `LineEnds`, `AuditWriter`, `Anchor`, `EndToEnd` | chain, readers, line ends, restarts, anchor, and the path from a run to PROVEN |
| `Redaction`, `Budgets` | `_scrub`; `reserve` and the charge-once rule |

`dafny verify dfyconfig.toml` checks everything.

## What the code does not do

Each of these has a lemma at an input where it shows, and one that says exactly when; the code is
modelled as it is.

* `AuditLog.write` opens the file outside its guarded region (`pep/audit.py:232`), so a failure to
  open does not latch the sink. A run can therefore close with a durable PERMIT_GRANTED and no
  PERMIT_RELEASED, and is rejected for it: `Findings.ReleaseCanBeMissing`.
* Two stretches of `_inside` lie in no `try` that settles the attempt: from AUTH to the inner `try`
  (`pep/gateway.py:516-548`), and from connect to `sendall` (`pep/gateway.py:631-640`). An exception in
  the second, such as that of encoding a lone surrogate in a secret, leaves AUTH, PERMIT, ATTEMPTED and
  RELEASED without an outcome, and the closed run is rejected for it: `Findings.UnsettledIsRejected`, in
  general `Verdicts.UnsettledVerdict`. Failures to open and these exceptions are the only ways to lose
  a record and still seal (`RunTheorems.SealedLosesNothing`).
* The denial of an attempt that is cancelled during TLS stands inside the `try` whose handler settles
  (`pep/gateway.py:596-629`). If its file cannot be opened, EFFECT_UNKNOWN is settled a second time
  (`Gate.SettledTwiceIff`). Where the first was durable the log tells of two outcomes, nothing is lost,
  and the closed run is rejected with ILLEGAL_ATTEMPT_TRANSITION: `Findings.SettledTwiceIsRejected`, in
  general `Verdicts.DoubledVerdict`. Where the first was lost the second makes up for it:
  `RunTheorems.SecondSettle`, `Findings.MadeUpForIsAccepted`. So a closed log tells of an attempt
  completely exactly if its handler lost nothing for good and settled once
  (`RunTheorems.ClosureSafety`).
* The connection is checked and EFFECT_ATTEMPTED appended in two steps (`pep/gateway.py:581-590`), so
  CANCELLATION_REQUESTED can be appended in between; the run closes regularly and is then rejected:
  `Findings.LateAttemptIsRejected`, and in general `Verdicts.LateAttemptVerdict`.
* ALLOW and CONNECTION_TERMINATED store the raw method and ALLOW the raw SNI, AUTH the canonical
  ones; an empty secret leaves `credential_injected` false although a credential is named; the parsed
  upstream status may be negative; a credential id may look like a secret. Runs with such requests close
  and are rejected: `Findings.RawMethodIsRejected`, `RawSniIsRejected`, `EmptySecretIsRejected`,
  `NegativeStatusIsRejected`, `SecretLookingIdIsRejected`. `Fit` is exactly the list of these
  conditions (`RunAcceptance.SealedRunAcceptedIff`, and for each way an attempt can end
  `Findings.EveryEndingSeals`).
* A DRAIN_TIMEOUT without `closure_blockers` passes the schema and makes the verifier raise a
  `KeyError` (`pep/verify_e10.py:708`): `Findings.RaisesSomewhere`; on which logs, and that there are
  no others: `Acceptance.RaisesExactly`.
* A write that stops exactly before its newline leaves a file that a new writer takes for intact; its
  first record is then joined to the last line and no reader accepts the file again:
  `AuditWriter.RestartSafeIff`.
* If closing the file raises behind a successful sync (`pep/audit.py:240`), the record is durable but the
  writer, still healthy, keeps the old previous hash; exactly then it loses sight of its tail
  (`AuditWriter.CurrentUnlessCloseFails`), and exactly then its next whole record makes the file
  unreadable for good (`AuditWriter.NextRecordIff`). Reopening in between repairs it.
* `audit_facts` splits the file at CR too, the other readers do not: `LineEnds.SplitInTwo`. They read
  the same lines exactly if no line has a CR inside (`LineEnds.ReadersAgreeIff`), and exactly then an
  accepted log can be anchored (`Anchor.AnchorRoundTripIff`).
* A secret that overlaps the marker can survive scrubbing of a text; exactly the others never do:
  `Redaction.OverlapSurvives`, `Redaction.RemovedIffSafe`. Tuples are not scrubbed, and the pin is one
  (`pep/gateway.py:611`, `pep/gateway.py:682`), so a part of the pinned address survives
  (`Redaction.PinSurvives`); in a value, a secret that does not overlap the marker survives exactly
  inside tuples (`Redaction.ScrubbedCleanIff`), and in the record as written moreover in the run id and
  the previous hash (`Redaction.StampedCleanIff`).
* A program id with a slash can give two scopes one counter, which then miscounts and exceeds a cap:
  `Budgets.CollisionMiscounts`, `Budgets.CollisionExceeds`, `Budgets.SlashCollides`. Counters and caps
  hold over all interleavings exactly if no two scopes share a key (`Budgets.TallyIffApart`,
  `Budgets.CapsIffApart`). A key repeated in one `reserve` call is checked once and charged twice:
  `Budgets.RepeatedKeyExceeds`.

## Model

| member | source | states |
|---|---|---|
| Verifier.CheckSchemas | pep/verify_e10.py:298-304 | the first record of another run or with a bad schema decides the complaint, in log order |
| Verifier.ValidateHistory | pep/verify_e10.py:293-837 | the schema pass, the record loop and the final checks return the verdict defined by the fold over the log |
| Soundness.FoldIff | pep/verify_e10.py:347-790 | the loop gets through a log without stopping or getting stuck exactly if the log is safe, and then its variables are the projections of the log |
| Acceptance.AcceptsExactlyLegal | pep/verify_e10.py:307-837 | LOCAL_HISTORY_VALID is returned if and only if every record has the expected run id and the log is a legal, closed history |
| Acceptance.AcceptedAttempt | pep/verify_e10.py:386-586 | in an accepted log each attempt tells one of seven words: one AUTH, one outcome, at most one PERMIT and ATTEMPTED, ALLOW exactly after COMPLETED, RELEASE exactly with PERMIT |
| Acceptance.LegalAttempt | pep/verify_e10.py:595-677 | in a legal history A < C, and with a permit A < P < C and P < R |
| Acceptance.CompleteIffWord | pep/verify_e10.py:415-586 | the complete stories are exactly the seven words of the attempt grammar |
| Acceptance.LegalShape | pep/verify_e10.py:587-745 | one REQUESTED, one LINEARIZED, then KILL, ACK and RUN_CLOSED as the last three records; no attempt record after KILL, no ATTEMPTED after REQUESTED |
| Acceptance.NothingFollowsClosure | pep/verify_e10.py:351-353 | any well-formed record of the run appended to an accepted log turns the verdict into RECORD_AFTER_RUN_CLOSURE |
| Acceptance.PrefixFree | pep/verify_e10.py:351-358 | no proper extension of an accepted log, and so no proper prefix of one, is accepted |
| Acceptance.RaisesExactly | pep/verify_e10.py:679-722 | the loop raises on a missing field exactly at a DRAIN_TIMEOUT without blockers that repeats the KILL_SWITCH facts, behind a safe log |
| RunModel.AuthorizeInv | pep/lifecycle.py:156-164 | authorization keeps the linearization invariant and is given exactly once per attempt in the live epoch, with the next number |
| RunModel.PermitGrantedIff | pep/lifecycle.py:166-186 | a permit is issued exactly to an authorized attempt without one, in the live epoch, on a live connection |
| RunModel.IssuePermitInv | pep/lifecycle.py:166-186 | issuing keeps the linearization invariant and uses the next number |
| RunModel.ReleaseInv | pep/lifecycle.py:188-200 | release keeps the invariant, works exactly for permits in flight, and reports the permit's own number |
| RunModel.CancelInv | pep/lifecycle.py:202-225 | cancellation keeps the invariant, happens once, and is reported unchanged afterwards |
| RunModel.EveryRunLinearizes | pep/lifecycle.py:137-246 | over any sequence of calls the numbers are exactly 1..sequence without repeats, in flight is permitted minus released, every A and P lies below C, A < P < R |
| RunModel.CancelledOnlyDrains | pep/lifecycle.py:166-238 | after cancel nothing is authorized or permitted, the in-flight set only shrinks, and a drained run stays drained |
| RunModel.DrainedCountAgrees | pep/lifecycle.py:202-225 | once drained, the count cancel took is the number of permits with P < C < R |
| Lifecycle.RunContext.constructor | pep/lifecycle.py:137-146 | a new run is the empty one |
| Lifecycle.RunContext.IsLive | pep/lifecycle.py:152-154 | a run is live for epoch 0 only, and only until it is cancelled |
| Lifecycle.RunContext.Authorize | pep/lifecycle.py:156-164 | the fields change as the run's value does, and the invariant is kept |
| Lifecycle.RunContext.IssuePermit | pep/lifecycle.py:166-186 | as above; the connection's terminal flag decides |
| Lifecycle.RunContext.DoRelease | pep/lifecycle.py:188-200 | the permit leaves the dictionary exactly if it was in it |
| Lifecycle.RunContext.Cancel | pep/lifecycle.py:202-225 | the transition is frozen; epoch 0 becomes 1 and the in-flight count is the one at the call |
| Lifecycle.RunContext.InflightCount | pep/lifecycle.py:240-242 | zero exactly if every permit ever numbered has a numbered release |
| Lifecycle.AuditSink.Write | pep/audit.py:221-242 | a durable append adds the record; a failure after opening latches, one before it does not |
| Lifecycle.AuditSink.SealWith | pep/audit.py:244-253 | only RUN_CLOSED seals, once, and only if its append is durable |
| Lifecycle.ConnectionLifecycle.TrackOrReject | pep/lifecycle.py:277-283 | the handle is retained, or closed because the connection is terminal |
| Lifecycle.ConnectionLifecycle.Transfer | pep/lifecycle.py:285-298 | old and new handle are retained, or the new one is closed |
| Lifecycle.ConnectionLifecycle.BeginTermination | pep/lifecycle.py:300-308 | terminal, with the retained handles handed out |
| Lifecycle.ConnectionLifecycle.ShutdownRetained | pep/lifecycle.py:310-316 | every handle of the list is closed, and torn says whether one was found live |
| Lifecycle.ConnectionLifecycle.Terminate | pep/lifecycle.py:318-319 | the connection is terminal and all its handles are closed |
| Gate.EffectPermit.BindDurableRelease | pep/lifecycle.py:75-81 | binding works once, before release |
| Gate.EffectPermit.DoRelease | pep/lifecycle.py:83-111 | the first call takes the permit out and appends one record if bound; later calls return its stored result and change nothing |
| Gate.EffectPermit.AbandonUndurable | pep/lifecycle.py:113-119 | the permit is out of flight, no record is appended |
| Gate.EffectGate.CommitIntent | pep/lifecycle.py:368-381 | committed exactly if healthy, live, fresh and durable; then AUTH with the next number is the new last record |
| Gate.EffectGate.AcquirePermit | pep/lifecycle.py:383-417 | a permit is handed out only with equal bindings and a durable PERMIT; a lost PERMIT leaves nothing in flight |
| Gate.EffectGate.MarkAttempted | pep/lifecycle.py:419-434 | ATTEMPTED with the permit's numbers is appended, or the caller learns that it is not |
| Gate.Settle | pep/lifecycle.py:436-456 | the outcome is tried once; the failure is swallowed |
| Gate.SettleAnswer | pep/gateway.py:596-703 | on a live sink exactly the appends of the way the attempt went are tried, in order; cancelled during TLS, UNKNOWN and the denial, and both again if the denial is refused; nothing if building the request raises |
| Gate.SettledTwiceIff | pep/gateway.py:599-629 | cancelled during TLS, the log gets two UNKNOWN records exactly if both settles are durable and the file could not be opened for the denial between them |
| Gate.UsePermit | pep/gateway.py:581-706 | exactly these appends: CANCELLED and a denial on a terminal connection, else ATTEMPTED and, if it is durable, what follows connect, if not a denial; then the release; the effect happens exactly behind a durable ATTEMPTED, and the permit is out of flight |
| Gate.RunEffect | pep/gateway.py:488-706 | for every course the handler appends exactly `EffectTrace`, denials and second settle included, reaches the target exactly as `Reaches` says, and leaves nothing in flight |
| Gate.ReachedBehindThree | pep/gateway.py:509-598 | when the target is reached, AUTH, PERMIT and ATTEMPTED with equal bindings are the next three durable records |
| Gate.Registry.Add | pep/gateway.py:147-154 | a connection is registered exactly until the kill |
| Gate.Registry.BeginProducer | pep/gateway.py:156-162 | a producer is counted exactly until the kill |
| Gate.Registry.EndProducer | pep/gateway.py:164-170 | a producer ends only if one was begun |
| Gate.Registry.CloseAdmission | pep/gateway.py:214-219 | the run is cancelled, admission closed, the snapshot is the old registry without repeats, and the registry empty |
| Gate.Registry.ShutAll | pep/gateway.py:222-223 | all lists are closed one after the other, and torn are those of whom a handle was live when their turn came |
| Gate.Registry.Enforce | pep/gateway.py:214-223 | every registered connection is terminal with unchanged handles, all closed |
| Gate.Registry.Record | pep/gateway.py:777-790 | LINEARIZED is only tried behind a durable REQUESTED |
| Gate.Registry.TerminateAll | pep/gateway.py:203-248 | enforcement holds whether or not the evidence is durable |
| Gate.TornIdsTrue | pep/gateway.py:222-223 | every torn id is a connection one of whose handles its own shutdown found live |
| Cancellation.RecordClosure | pep/gateway.py:797-868 | KILL, then DRAIN_TIMEOUT or ACK and the sealing RUN_CLOSED, up to the first lost record |
| Cancellation.CancelAndQuiesce | pep/gateway.py:764-868 | the log grows by a prefix of the five records, made of this call's victims, torn ids, counts and listener state; sealed exactly if all five are durable, which takes a quiescent run |
| PermitLock.ExactlyOnceRelease | pep/lifecycle.py:75-119 | over any interleaving the permit is taken out at most once, at most one PERMIT_RELEASED is appended and only behind a durable PERMIT, and all release calls agree |
| PermitLock.SettledForGood | pep/lifecycle.py:83-119 | after the first call is through no call changes the stored result, the record count or the dictionary |
| Locks.NoWaitCycle | pep/lifecycle.py:166-186 | no reachable state of the lock system has threads waiting in a cycle |
| Locks.DeadlockFree | pep/gateway.py:203-248 | in every reachable state with an unfinished thread some thread can step |
| HandlerProofs.HandlerStepOk | pep/gateway.py:447-706 | every step of a handler, the second settle and both escapes included, keeps the invariant that ties its place to what it has durably told |
| Reachable.ReachableInv | pep/gateway.py:447-868 | every reachable state: the log is the interleaved stories, numbers are true, the tail is where the canceller stands, producers are counted exactly |
| Enforcement.ReachableNet | pep/lifecycle.py:264-319 | every reachable state: handles are accounted for, closers and canceller have closed what they passed |
| RunAcceptance.StoryFitIff | pep/verify_e10.py:505-549 | an attempt that is over and lacks nothing keeps the verifier's rules exactly if its outcome is settled once and its request is fit |
| RunAcceptance.SealedRunAcceptedIff | pep/gateway.py:447-868 | a sealed run is accepted if and only if it has a durable AUTH, lost no essential record for good, settled no outcome twice, appended no ATTEMPTED after REQUESTED, and its requests are fit |
| RunAcceptance.InFlightAgreement | pep/verify_e10.py:646-655 | the count cancel took under its lock is the number of permits with P < C < R in the log, for any append order |
| RunTheorems.ClosureSafety | pep/gateway.py:820-868 | RUN_CLOSED is last; run cancelled, registry killed and empty, nothing in flight, no producer, listener closed, no DRAIN_TIMEOUT; each attempt is complete exactly if its handler lost nothing for good and settled its outcome once |
| RunTheorems.SealedLosesNothing | pep/audit.py:221-242 | a run that seals without open failures and without exceptions in the two unguarded stretches has every attempt complete |
| RunTheorems.SecondSettle | pep/gateway.py:599-627 | a second settle that is durable leaves the attempt lacking nothing, and doubles its outcome exactly if it lacked nothing before |
| RunTheorems.EffectPrecedence | pep/gateway.py:509-598 | before connect, AUTH, PERMIT and ATTEMPTED are durable in this order, bound to each other, with P < C |
| RunTheorems.FailedAppendNeverConnects | pep/gateway.py:509-598 | a failed append of any of the three means the attempt never connects |
| RunTheorems.EnforcedBeforeEvidence | pep/gateway.py:214-236 | when the canceller turns to its records, durable or not, the registry is killed and empty and every victim is terminal with its handles closed |
| RunTheorems.NothingAdmittedAfterKill | pep/gateway.py:147-162 | from the kill on no authorization, permit, producer or connection is added, over any run |
| RunTheorems.TornAreVictims | pep/gateway.py:222-248 | KILL_SWITCH names exactly the victims found live, in snapshot order, without repetition |
| RunTheorems.SocketOwnership | pep/lifecycle.py:264-319 | every handle is retained, closed or held by the refused thread; after termination all are closed for good |
| Findings.EveryEndingSeals | pep/gateway.py:592-706 | for every request and every way its attempt can end, two settles and none included, there is a sealed run, accepted exactly if the request is fit for the ending |
| Findings.SomeSealedRunIsAccepted | pep/gateway.py:764-868 | for every canonical request there is a run cancelled with its permit in flight that completes, seals and is accepted |
| Findings.RawMethodIsRejected | pep/gateway.py:690-695 | a completed request whose method is not in upper case closes its run and is rejected |
| Findings.RawSniIsRejected | pep/gateway.py:690-695 | so is one whose SNI is not the canonical host |
| Findings.EmptySecretIsRejected | pep/gateway.py:699-699 | so is one whose named credential has an empty secret |
| Findings.NegativeStatusIsRejected | pep/gateway.py:663-667 | so is one whose upstream status parses as a negative number |
| Findings.SecretLookingIdIsRejected | pep/verify_e10.py:288-290 | so is one whose credential id looks like a secret, however it ends |
| Findings.SettledTwiceIsRejected | pep/gateway.py:599-629 | for every fit request there is a sealed run that loses nothing, settles its outcome twice and gets ILLEGAL_ATTEMPT_TRANSITION |
| Verdicts.DoubledVerdict | pep/verify_e10.py:474-480 | every sealed run whose only defect are outcomes settled twice gets ILLEGAL_ATTEMPT_TRANSITION |
| Findings.MadeUpForIsAccepted | pep/gateway.py:599-629 | for every fit request there is a sealed run that settles again behind a lost settle and is accepted |
| Findings.UnsettledIsRejected | pep/gateway.py:631-640 | for every fit request there is a sealed run whose attempt has no outcome, with the verdict RELEASE_BEFORE_TERMINAL |
| Verdicts.UnsettledVerdict | pep/verify_e10.py:551-563 | every sealed run whose only defect are attempts released without an outcome gets RELEASE_BEFORE_TERMINAL |
| Findings.LateAttemptIsRejected | pep/gateway.py:581-590 | for every fit request there is a sealed run that loses nothing and gets POST_CANCELLATION_EFFECT |
| Verdicts.LateAttemptVerdict | pep/verify_e10.py:450-453 | every sealed run whose only defect are late attempts gets POST_CANCELLATION_EFFECT |
| Findings.ReleaseCanBeMissing | pep/audit.py:232-242 | for every fit request there is a sealed run with a durable PERMIT, no RELEASE and the verdict MISSING_PERMIT_RELEASE |
| Verdicts.LostReleaseVerdict | pep/verify_e10.py:627-643 | every sealed run whose only defect are lost releases gets MISSING_PERMIT_RELEASE |
| Findings.RaisesSomewhere | pep/verify_e10.py:706-712 | a family of logs, cancelled with a producer left, on which the verifier raises |
| Chain.TailDeterminesChain | pep/audit.py:256-274 | two intact chains with one tail hash are the same lines |
| Chain.PrefixIntact | pep/audit.py:256-274 | every prefix of an intact chain is intact |
| AuditFile.Verify | pep/audit.py:256-274 | intact exactly if the chain walk over the file's non-blank lines succeeds |
| AuditFile.RecoverTail | pep/audit.py:181-200 | on an intact file the tail and last record of the chain walk |
| AuditFile.AuditFacts | pep/e10_anchor.py:34-58 | count, tail and last record of the walk over the universally split file, or none |
| AuditFile.LoadAndVerify | pep/verify_e10.py:167-188 | the entries of the chain, exactly if it is intact and has no blank line |
| LineEnds.ReadersAgreeIff | pep/e10_anchor.py:39-47 | the reader that splits at CR reads the others' lines exactly if no line has a CR inside |
| LineEnds.UniversalWalkIff | pep/e10_anchor.py:39-52 | on a chain that is intact for the others it finds an intact one exactly then |
| LineEnds.SplitInTwo | pep/e10_anchor.py:41-41 | two texts with a CR between them are one line for the others and two for it |
| AuditWriter.OsFile.WriteAll | pep/audit.py:140-149 | appends exactly the bytes the counts took, and succeeds exactly if all were taken |
| AuditWriter.AuditLog.constructor | pep/audit.py:76-105 | a writer on an existing file resumes an intact chain with its seal flag or is unhealthy |
| AuditWriter.AuditLog.AddSecret | pep/audit.py:216-219 | later writes scrub differently; nothing else changes |
| AuditWriter.AuditLog.Write | pep/audit.py:221-242 | the scrubbed entry is appended as the value says; old bytes stay; a partial or unsynced append latches, and a failed close alone leaves a durable record, a healthy sink and the old previous hash |
| AuditWriter.AuditLog.SealWith | pep/audit.py:244-253 | the decision is checked before scrubbing; sealed exactly after a durable append |
| AuditWriter.RestartsInOrder | pep/audit.py:76-105 | through any writes, short writes, failures and reopenings no byte is rewritten and the writer stays in order, as long as no file is reopened that ends in a record without its newline and nothing is written between a failed close and a reopening |
| AuditWriter.CurrentUnlessCloseFails | pep/audit.py:233-242 | an append leaves a writer that knows its file's tail without it exactly if the close fails behind a durable record |
| AuditWriter.NextRecordIff | pep/audit.py:227-242 | the next whole record of a healthy writer leaves the file readable exactly if the writer knows the tail; if not, no extension of the file is readable |
| AuditWriter.SealsAreTrue | pep/audit.py:193-199 | if moreover RUN_CLOSED is written by `seal_with` only and no secret hides its decision, a healthy writer that knows its tail is sealed exactly if its file ends in RUN_CLOSED |
| AuditWriter.ReopenResumesOrRefuses | pep/audit.py:181-200 | reopening resumes the exact tail, also where the old writer had lost it, with the seal flag the last record tells, or refuses every append |
| AuditWriter.RestartSafeIff | pep/audit.py:234-242 | a failed write of k bytes, a restart and one more record leave an intact log or a refusing one exactly if k is not the record without its newline |
| AuditWriter.AppendReadsBack | pep/audit.py:229-242 | a durable append adds exactly its entry to what all readers read |
| Anchor.AnchorRoundTripIff | pep/e10_anchor.py:61-97 | for an accepted log an anchor is built exactly if no line has a CR inside, and it makes verify return PROVEN |
| Anchor.AnchorBindsIff | pep/verify_e10.py:840-906 | against an anchor with the authority's tag exactly the accepted logs with the authority's lines, byte count, run, commit and key id are PROVEN |
| Anchor.LinesNotBytes | pep/e10_anchor.py:42-45 | an accepted log behind one blank byte is PROVEN against the anchor of the same log behind another |
| EndToEnd.SealedRunProvenIff | pep/verify_e10.py:840-906 | if no secret occurs in its records, the file of a sealed run can be proven against some anchor if and only if the run fits |
| Redaction.ScrubbedCleanIff | pep/audit.py:203-214 | after scrubbing, in any iteration order, a safe secret is in a string value at some depth exactly if it was inside a tuple |
| Redaction.PinSurvives | pep/gateway.py:611-611 | what is a part of the pinned address survives in every record that carries the pin |
| Redaction.StampedCleanIff | pep/audit.py:227-231 | in the record as written a safe secret is left exactly inside tuples, in the run id or in the previous hash |
| Redaction.ScrubLoop | pep/audit.py:203-209 | the replacement loop leaves no safe secret |
| Redaction.RemovedIffSafe | pep/audit.py:203-209 | a secret is removed from every text, beside any others and in any order, exactly if it is not empty and does not overlap the marker |
| Redaction.OverlapSurvives | pep/audit.py:203-209 | every secret that overlaps the marker survives in some text |
| Redaction.BracketCanBeSafe | pep/audit.py:203-209 | a secret with a bracket of the marker can be safe |
| Redaction.ScrubKeeps | pep/audit.py:203-214 | where no secret occurs, scrubbing changes nothing |
| Budgets.BudgetTable.DoReserve | pep/pdp.py:64-77 | all counters move, or none does and a full one is named |
| Budgets.ReservesWithinCaps | pep/pdp.py:64-77 | over any reserve calls with fixed non-negative caps and distinct keys in a call, a counter counts the unrefused calls that name it and stays within its cap |
| Budgets.RepeatedKeyExceeds | pep/pdp.py:72-76 | a key named twice in one call is charged past its cap |
| Budgets.TallyIffApart | pep/pdp.py:286-302 | over any interleaving, under any caps, the counters of given scopes are their unpinned ALLOW decisions exactly if no two scopes share a key |
| Budgets.CapsIffApart | pep/pdp.py:286-302 | no interleaving exceeds a cap of given scopes, whatever the caps, exactly if no two share a key |
| Budgets.RunIsReserves | pep/pdp.py:286-302 | the decisions move the counters as their reserve calls do |
| Budgets.PlainProgramsApart | pep/pdp.py:184-184 | program ids without a slash keep all keys apart |
| Budgets.BudgetsConserved | pep/pdp.py:286-302 | with keys apart a program's counter is the sum of its assets' counters and its unlabelled decisions |
| Budgets.PinnedChargesNothing | pep/pdp.py:280-286 | a decision with a pin, or refused, charges nothing |
| Budgets.SlashCollides | pep/pdp.py:184-184 | asset a of program p and program p/a share a key |
| Budgets.CollisionMiscounts | pep/pdp.py:184-184 | where two scopes share a key one decision makes a counter wrong |
| Budgets.CollisionExceeds | pep/pdp.py:184-184 | and, if one has a cap of zero, exceeds it |

## Left out

- SealedRunAcceptedIff: says what happens to the records as `write` gets them; scrubbing
  (`pep/audit.py:227`) is not a step of the run, so the statement is about runs in whose records no
  secret occurs (`Redaction.ScrubKeeps`). A secret that spans the end of the host in `url`, or is
  part of a decision name, changes the record and can change the verdict.
- SealedRunProvenIff: has the same condition, as a hypothesis on `scrub`.
- SealedLosesNothing: knows, as all theorems over runs, appends that are durable, not opened or failed in
  the write; a close that fails behind a durable record is modelled for the file, where it breaks the
  chain at the next record (`AuditWriter.NextRecordIff`).
- InFlightAgreement: is about the same records.
- Sockets, TLS, HTTP parsing, DNS and certificates: a handle is live or closed, and whether an
  operation on it works is a choice of the step system.
- Clocks and timeouts: a wait returns drained or not drained.
- JSON text, SHA-256 and HMAC: `Codec` and `Mac` are parameters of which only what `GoodCodec`,
  `GoodHash` and `GoodMac` say is used (`AuditWriter.GoodCodecExists` gives one); that a JSON value
  which is no object makes a reader raise is not modelled.
- Field types in `_schema_error`: a record with wrong fields is `Malformed`; the value constraints are
  modelled.
- The `ts`, `row_id`, `test_nonce`, `src` and `detail` fields, which no branch reads.
- Forbidden keys in `_looks_secret`: a record has the fields of its decision; blanks and case are
  ASCII, as is `upper`.
- `url` prefixes: compared as text, no claim about URL parsing.
- Torn bytes in a run: at run level a failed write leaves the log's records alone and latches; the
  bytes are the subject of `AuditWriter`.
- Startup: `BootLog` is a STARTUP with a positive connection limit, perhaps behind one
  STARTUP_DEGRADED; STARTUP_FAILED never serves.
- The semaphore of `Registry`, `kill_watcher`'s polling and `serve`.
- Exclusive writer lock and parent directory sync: the latter is a flag of the outcome.
- RecordClosure: counts are read once, because the class methods run alone; the waiting and counting
  between other threads' steps is in `Protocol`.
- RunEffect: ALLOW and CONNECTION_TERMINATED are handed in as records, and a cancellation during TLS is
  the course's choice because the class methods run alone; other threads' steps are in `Protocol`.
- BuildAnchor: a last record with decision RUN_CLOSED but without the fields of one is refused.
- `PDP.decide` apart from the charge, `addressing.py`, the E1-E9 auditors and the scripts: easy or not
  part of the protocol.
