# Verification of the action pipeline, its stores and its gateways

A Dafny model of the parts of the system that decide who may do what, and that it is done once and on the
record: the audit ledger, the approval signatures, the broker, the dispatcher, the grant and tenant stores, the
authorization-code flow, the relay, the billing reducer, path containment and the size arithmetic of request
parameters. `dafny verify dfyconfig.toml` checks everything; Dafny 4.11.

## What is modelled

**The approved-action pipeline.** `Pipeline.dfy` is a step machine: any number of dispatcher processes share an
audit table, a JSONL file, a consumption table, an execution table and a lock file. A step is one durable write or
one read of them; a process may crash between any two steps and open again, and the lock file may be removed under
a live writer. Runs are sequences of steps, and theorems quantify over all of them: `LedgerSafety.dfy` (the
chain), `Agreement.dfy` (the two stores), `ClaimSafety.dfy` (one execution, and a truthful recovery record),
`TrailSafety.dfy` (records before effects), `PolicySafety.dfy` (which actions are ever started), `RecordSafety.dfy`
(what every record says), `BudgetSafety.dfy` (writes per minute). `Audit.dfy`, `Core.dfy` and
`Dispatch.dfy` hold the classes of the source with its control flow; each dispatcher call is proved to be steps of
its own process in the machine (`Reaches(env, pid, old(world), world)` in its contract). `Reachability.dfy` concludes
the theorems about runs for what calls leave behind; those that need an exclusive lock file, for calls that start
while nobody else is inside an append.

**The shared stores.** `Stores.dfy` is the protocol both file-backed stores follow (lock, read back, change, write,
unlock), once and for any kind of store, with a proof that the instances together are one atomic store.
`Grants.dfy` and `Tenants.dfy` are the two kinds: what each call does to the state, the theorems about
sequences of calls, and the classes whose methods are proved to do just that.

**The rest.** `Approval.dfy` (signed bytes and the approver registry), `OAuth.dfy` (codes layered over pairings, with
requests interleaved with other users of the store), `Relay.dfy` (connections and waiting callers),
`Billing.dfy` (events, signatures, the reducer), `BillingFiles.dfy` (what of it is on file), `Paths.dfy`, `Parameters.dfy` (base64 and size limits),
`Ids.dfy` (identifiers and composite keys), `Bytes.dfy`, `Protocol.dfy`, `Wrappers.dfy`.

## Assumptions

- SHA-256 is an arbitrary function from byte strings to digests. Where a theorem needs collisions not to occur it
  says so in its conclusion: "or these two ledgers hold a collision, or content that hashes to zero".
- Signature schemes are abstract; `Unforgeable` says that what verifies was signed.
- Random tokens, codes, ids and session numbers are parameters. Where freshness matters it is a hypothesis
  (`Unrepeated`, `CodeFresh`) or a condition of the step that picks one.
- Policy evaluation, workers, JSON text and the wire decoding are abstract functions or reported outcomes.
- SQLite transactions, whole-file replacement and the append of one line are atomic: they happen, fail without
  effect, or are cut off by a crash before or after.
- The two layers of the code flow hash codes with the same digest written in two alphabets, so one function of the
  code stands for both keys.

## What the code does not do

Some properties one might expect are false of the code. The model keeps the code as it is, names the input, and
gives the exact condition where there is one.

- The byte budget of a minute fails for a saturated limit (`Core.SecondWritePasses`, `Core.BytesBoundedExactly`).
- Two dispatchers that share a ledger can exceed the write budget together, because the check and the record of a
  decision are not one step; it holds on every run exactly for one dispatcher at most
  (`BudgetSafety.BudgetNeedsOneDispatcher`).
- The approval of a write that only the rate limit held back can never be redeemed (`Core.HeldBackWriteIsRefused`;
  `Core.RedeemableExactlyWhenPolicyAsks`).
- Redeeming a code for an actor whose id is not valid writes a file nobody can read again
  (`Grants.ControlCharacterBricks`; `Grants.ReadableUnlessBricked` says exactly when, `Grants.BrickedForGood`).
- An expired code is not removed when it is refused, though the source removes it from the copy it then drops
  (`Grants.RedeemExactly`).
- Creating the grant file takes no lock (`Stores.CreationRaceForgets`; `Stores.OneStoreExactly` says exactly when
  that matters).
- A webhook event whose write fails is answered as a duplicate when it is retried
  (`BillingFiles.FailedWriteIsForgotten`; `BillingFiles.FileIsMemoryExactly` says exactly when the file lags).
- Two billing stores on one file lose each other's events (`BillingFiles.SecondStoreErases`; exactly when:
  `BillingFiles.DurableExactlyWhenCovering` and, in terms of who writes when, `BillingFiles.DurableExactlyWhenCurrent`).
- A relay caller that timed out can take a later caller's entry away (`Relay.LateCallerEvictsNext`;
  `Relay.StaysOnListExactly` says exactly when an entry goes), and the entry of a dropped call turns others away
  (`Relay.OnListTurnsAway`).

## Model

| member | source | states |
|---|---|---|
| Approvals.BuildApprovalMessage | crates/vor-approval/src/lib.rs:290-318 | The buffer filled field by field is the domain followed by the length-prefixed encoding of challenge and approver; a text that is blank, too long or has a NUL character is refused |
| Approvals.MessageRoundTrip | crates/vor-approval/src/lib.rs:290-318 | A decoder gets back exactly the challenge and the approver id from the signed bytes |
| Approvals.MessageInjective | crates/vor-approval/src/lib.rs:290-318 | Equal signed bytes mean equal request id, digest, policy, optional capability, expiry, nonce and approver |
| Approvals.MessageLayout | crates/vor-approval/src/lib.rs:290-318 | The message starts with the domain and a NUL and is exactly as long as its fixed fields, its texts and their length prefixes |
| Approvals.SignableExactly | crates/vor-approval/src/lib.rs:290-335 | There is a message exactly if every text has a character that is not white space, no NUL and at most 4096 bytes; else the challenge is invalid |
| Approvals.Issue | crates/vor-approval/src/lib.rs:39-67 | A challenge is issued if and only if the request is sealed, the decision is its own and asks for approval under a named policy, and the challenge carries the expiry and nonce given and passes the later binding check; there is only that one |
| Approvals.UnissuedExactly | crates/vor-approval/src/lib.rs:39-67 | Why there is no challenge: unsealed, a decision of another request, one that asks for no approval, an expiry not after now or beyond the request, or a policy without a name, in this order |
| Approvals.AcceptedMeansSigned | crates/vor-approval/src/lib.rs:216-288 | If signatures cannot be forged, an accepted approval was signed for exactly its challenge with the key registered now, by an unrevoked approver of the tenant with the authority asked for (an owner for "owner" or "full_owner", an elevated approver or an owner for "elevated", and nobody for any other text), for this sealed request and its own decision, policy and capability, and unexpired |
| Approvals.AuthorityExactly | crates/vor-approval/src/lib.rs:101-108 | Of a registered and unrevoked approver: any capability but "elevated", "owner" and "full_owner" is refused as unsupported; "elevated" refuses exactly plain approvers and the other two exactly all but owners; and everyone else is refused for the tenant only |
| Approvals.ApproverDecides | crates/vor-approval/src/lib.rs:225-247 | The verifier answers what the check of the approver says, once the request, the decision and the challenge are in order |
| Approvals.RefusalsExactly | crates/vor-approval/src/lib.rs:216-288 | Each refusal up to the approver, and when it is the one a caller sees |
| Approvals.IssuedChallengeVerifies | crates/vor-approval/src/lib.rs:39-67 | The approval of an issued challenge verifies exactly until it expires, and exactly if an unrevoked approver of the tenant whose authority suffices for the capability, told in the texts themselves, signed it |
| Approvals.ApprovalVerifier.AddApproverForOrganization | crates/vor-approval/src/lib.rs:151-179 | An approver is added exactly if the id is a proper text and free, the tenant a proper text and the key usable; otherwise nothing changes and the error says which of these failed first |
| Approvals.ApprovalVerifier.RevokeApprover | crates/vor-approval/src/lib.rs:181-189 | A known approver is revoked in place; an unknown one and an improper id are refused, each with its error |
| Approvals.ApprovalVerifier.RotateApproverForOrganization | crates/vor-approval/src/lib.rs:191-214 | The registry is the old one with the approver replaced, unrevoked, exactly if id and tenant are proper texts and the key is usable; otherwise it is unchanged and the error says why |
| Approvals.ApprovalVerifier.Verify | crates/vor-approval/src/lib.rs:216-254 | The method answers what the verification function says for the approvers registered now, and accepts only from an approver whose authority suffices |
| Approvals.ActiveExactlyWhenStanding | crates/vor-approval/src/lib.rs:151-214 | Over any history of adds, revocations and rotations an approver is active with a key exactly when the call that gave it that key has not been displaced: a revocation lasts until a rotation, and adding again does not undo it |
| Approvals.RegisteredOnlyByRegistering | crates/vor-approval/src/lib.rs:151-214 | An id is known exactly if some add or rotation of it succeeded |
| Audit.PreimageInjective | crates/vor-audit/src/lib.rs:543-549 | The hashed bytes determine sequence number, previous hash and payload |
| Audit.HeadCommitsToHistory | crates/vor-audit/src/lib.rs:188-226 | Two ledgers that pass the chain check and end in the same hash hold the same rows, or show a hash collision between them |
| Audit.ChainIsIntact | crates/vor-audit/src/lib.rs:150-226 | What the ledger writes passes the full check |
| Audit.CheapCheckMatchesFull | crates/vor-audit/src/lib.rs:134-138 | For any two chains, comparing the last records decides what the full comparison decides, hash collisions apart |
| Audit.AppendKeepsChain | crates/vor-audit/src/lib.rs:150-186 | Every way an append can end: success, exactly if nothing goes wrong and no earlier record has the hash of the new one, extends both stores by the same next record; or the file is one record ahead of a table that is still a chain; or nothing changed |
| Audit.DivergenceIsFinal | crates/vor-audit/src/lib.rs:150-160 | With the file one record ahead, the comparison fails, the full check fails, and every append is refused and changes nothing |
| Audit.Ledger.Open | crates/vor-audit/src/lib.rs:105-148 | Opening succeeds if and only if every row can be migrated and the last records of the two stores agree; it migrates consumptions and never removes one |
| Audit.Ledger.MigrateApprovalConsumptions | crates/vor-audit/src/lib.rs:516-534 | One pass over the table adds a consumption for exactly the recorded ones, keeping those that are there, and fails exactly at a row that does not parse or a consumption whose time does not fit |
| Audit.Ledger.Append | crates/vor-audit/src/lib.rs:150-186 | The method does to both stores what the append function says, and remembers the new head |
| Audit.Ledger.VerifyIntegrity | crates/vor-audit/src/lib.rs:188-226 | The loop accepts exactly the intact stores, reports divergence exactly when the chain holds and the file differs, and names the first broken row |
| Audit.ReadToMeans | crates/vor-audit/src/lib.rs:188-226 | Reading the table row by row succeeds exactly if every row links to the one before it, and else names the first that does not |
| Audit.Ledger.HasOutcomeFor | crates/vor-audit/src/lib.rs:236-257 | The scan finds a matching record exactly if there is one with no unreadable row before it |
| Audit.Ledger.ClaimApprovalConsumed | crates/vor-audit/src/lib.rs:315-342 | The claim row and the recovery row are inserted together, exactly if the time fits and neither is there; a second claim answers false and changes nothing |
| Audit.Ledger.SetExecutionRecoveryState | crates/vor-audit/src/lib.rs:344-378 | A recovery record is changed exactly if it exists, the time fits, and the new state is one that may follow: uncertain after not executed, applied after uncertain, then uncertain again or completed, never back; each refusal has its error |
| Core.MinuteBudgetHolds | crates/vor-core/src/lib.rs:80-101 | For every run of one broker, timestamps in any order, no closed minute of an actor on a device holds more automatic writes than allowed, nor more declared bytes when the limit can be exceeded at all |
| Core.BytesBoundedExactly | crates/vor-core/src/lib.rs:80-101 | The byte budget holds over every run if and only if the byte limit is below the largest 64-bit number or at most one file is allowed |
| Core.SecondWritePasses | crates/vor-core/src/lib.rs:80-101 | The concrete run that exceeds a saturated byte limit |
| Core.RateLimitExactly | crates/vor-core/src/lib.rs:80-101 | An automatic write stays automatic exactly if fewer automatic writes of that actor on that device than allowed have a timestamp of the last 60,000 ms, told as a set of records, and their bytes and its own are within the limit (which the largest 64-bit number never reaches); otherwise it needs approval as "auto_write_rate_limited"; it is an error exactly if the counts do not fit their widths |
| Core.OthersDoNotWeigh | crates/vor-audit/src/lib.rs:287-313 | Leaving out, anywhere, an older record, a record of another actor or device or of anything but an automatic write does not change the decision |
| Core.RedeemableExactlyWhenPolicyAsks | crates/vor-core/src/lib.rs:139-154 | The approval of a challenge issued under the rate-limited decision is redeemed if and only if the policy itself, without the rate limit, asks for approval, and the signature is good and in time |
| Core.HeldBackWriteIsRefused | crates/vor-core/src/lib.rs:80-154 | A concrete write that the rate limit holds back: its challenge is issued, its approval verifies for the decision it was issued for, and redeeming it is refused |
| Core.Broker.AuthorizeAt | crates/vor-core/src/lib.rs:67-137 | The decision, rate limit included, is recorded before it is returned, and a record that fails leaves no authorization; both stores and the answer are what the specification of the call says |
| Core.DecisionRecorded | crates/vor-core/src/lib.rs:102-137 | What the record of a decision says, field by field: outcome by kind, authority policy or signature, approval not-required, required or denied, both safe-list for the safe list, rule, policy hash, target and content bytes |
| Core.ApprovalRecorded | crates/vor-core/src/lib.rs:182-206 | The records of a verified and a consumed approval are signed and approved by signature, name the actor given, and count no bytes |
| Core.OutcomeRecorded | crates/vor-core/src/lib.rs:217-255 | What the record of an outcome says of who allowed it: the safe list, the policy exactly if the decision was automatic, or a signature |
| Core.Broker.ConsumeApprovalAt | crates/vor-core/src/lib.rs:139-206 | An approval is claimed exactly when it was prepared, verifies and was never claimed; its two records follow, and a failure among them leaves it claimed |
| Core.Broker.CheckAndClaim | crates/vor-core/src/lib.rs:139-165 | Up to the claim: no error exactly if the approval is claimable, and then, and only then, the claim is made |
| Core.Broker.AppendApprovalEvents | crates/vor-core/src/lib.rs:166-206 | The two records of a claimed approval, the second only after the first |
| Core.Broker.AuditOutcomeAt | crates/vor-core/src/lib.rs:217-255 | One outcome record, with the fate of one append |
| Core.Broker.SetExecutionRecoveryState | crates/vor-core/src/lib.rs:261-274 | The recovery record of the request moves forward or stays |
| LedgerSafety.LedgerAlways | crates/vor-audit/src/lib.rs:105-186 | At every moment of every run the table is a gap-free chain and no process is about to write out of turn |
| LedgerSafety.LedgerStep | crates/vor-audit/src/lib.rs:150-186 | No step removes or changes a record |
| LedgerSafety.BehindIsTaken | crates/vor-audit/src/lib.rs:170-181 | A record computed from an outdated table collides with the primary key |
| RecordSafety.EditCountsAsRendered | crates/vor-dispatch/src/lib.rs:400-456 | An edit is weighed against the write budget, and recorded, with the bytes and the digest that it renders to; everything else about it is the request's own |
| RecordSafety.EveryRecordTells | crates/vor-core/src/lib.rs:102-255 | In every run every record in the table is of this device under this policy, and says of authority and approval what its outcome and rule call for |
| Agreement.StoresAgree | crates/vor-audit/src/lib.rs:150-186 | With an exclusive lock, whatever crashes and failing commits, the file holds the table or the table and exactly one more record |
| Agreement.CheapCheckDecides | crates/vor-audit/src/lib.rs:134-138 | On every reachable state the comparison of last records succeeds if and only if the full check does |
| Agreement.DivergedStep | crates/vor-audit/src/lib.rs:150-160 | Once diverged, every step leaves both stores alone, every open fails and every append that compares them fails |
| Agreement.DivergedForever | crates/vor-audit/src/lib.rs:105-160 | A divergence is never mended nor widened by anything that follows |
| Agreement.OverlapIsSafe | crates/vor-audit/src/lib.rs:437-493 | If the lock file is removed under live writers, runs without crashes and failing commits keep the stores equal and the chain valid |
| ClaimSafety.EffectAtMostOnce | crates/vor-dispatch/src/lib.rs:244-337 | In every interleaving of any number of dispatchers, crashing and reopening anywhere, no two signed executions share request id and digest, and each was of an approval that verified |
| ClaimSafety.RecoveryTellsTruth | crates/vor-dispatch/src/lib.rs:276-335 | After any crash: not executed means never started, applied or later means finished, and no recovery record stands without its consumption |
| ClaimSafety.ClaimsOnlyAdvance | crates/vor-audit/src/lib.rs:315-378 | No step withdraws a claim, or moves a recovery record to a state that may not follow |
| ClaimSafety.ClaimAlways | crates/vor-dispatch/src/lib.rs:244-337 | The invariant behind these, over all runs |
| TrailSafety.AuditBeforeEffect | crates/vor-core/src/lib.rs:102-174 | When a signed execution begins the ledger already holds, for its request id and digest, an "approval", later an "approval_verified" and later an "approval_consumed" record; when an unsigned one begins, an "auto" record |
| TrailSafety.CompletedIsRecorded | crates/vor-dispatch/src/lib.rs:300-335 | A request marked completed has its three records and after them an "executed" record in the ledger |
| TrailSafety.ReopenChangesNothing | crates/vor-audit/src/lib.rs:105-148 | Reopening after any run, migration included, changes neither store nor any claim |
| PolicySafety.StartedIsPermitted | crates/vor-dispatch/src/lib.rs:833-899 | In every run, what is started without a signature is for this device, decided automatic by the policy, and one of the eleven actions that only look, or a write with policy_attempt, or a command on the terminal safe list; what is started with one is one of the four actions that take a signature |
| PolicySafety.PolicyAlways | crates/vor-dispatch/src/lib.rs:244-571 | The invariant behind it, over all runs |
| Reachability.ReachedIsSafe | crates/vor-dispatch/src/lib.rs:244-571 | What a call of the dispatcher leaves behind satisfies the theorems about claims, recovery records and trails, whatever ran before |
| Reachability.ReachedAgrees | crates/vor-dispatch/src/lib.rs:244-571 | If nobody else is inside an append when it starts, a call after a lawful run leaves the stores equal or one record apart, the comparison of last records decides as the full check does, and a divergence that was there is left alone |
| BudgetSafety.FreshRunIsBrokerRun | crates/vor-core/src/lib.rs:80-137 | With any number of dispatchers, if no decision goes stale between its check and its commit the table is what one broker records |
| BudgetSafety.OneDispatcherKeepsBudget | crates/vor-core/src/lib.rs:67-137 | What one dispatcher has the ledger record, through crashes and failures, is a run of one broker and keeps the budget of every minute |
| BudgetSafety.ReachedKeepsBudget | crates/vor-dispatch/src/lib.rs:244-571 | So does what a call of that dispatcher leaves behind |
| BudgetSafety.BudgetNeedsOneDispatcher | crates/vor-core/src/lib.rs:80-137 | The write budget holds on every run of a set of dispatchers if and only if the set has at most one member |
| Dispatch.AppendsAgree | crates/vor-audit/src/lib.rs:150-186 | The ledger's append and the machine's steps come to the same stores and the same outcome |
| Dispatch.ClaimsAgree | crates/vor-core/src/lib.rs:139-180 | The broker's claim and the machine's claim accept the same approvals |
| Dispatch.ReadOnlyDispatcher.DispatchApprovedAt | crates/vor-dispatch/src/lib.rs:244-337 | The call is a run of the machine; it reaches the worker exactly if the request takes a signature and is for this device, the decision is recorded and asks for approval, and the approval can be redeemed and the effect marked; at most once, not at all for a request claimed before, and it succeeds only with its own claim and a completed record |
| Dispatch.ReadOnlyDispatcher.DispatchAt | crates/vor-dispatch/src/lib.rs:528-571 | The call is a run of the machine; it executes exactly if the decision is recorded and automatic and the action is one that only looks, and otherwise leaves the log alone; stores and answer are told for each case; it touches no claim |
| Dispatch.ReadOnlyDispatcher.PrepareApprovedAt | crates/vor-dispatch/src/lib.rs:383-526 | The call is a run of the machine; of the request finally authorized, the rendered one after an edit, it executes exactly if the decision is automatic and it is a write with policy_attempt or a command on the safe list; any other automatic decision leaves the log alone and is recorded and answered as one that needs an approval policy; a challenge it hands out is for the request that will be executed, and then nothing was executed |
| Dispatch.ReadOnlyDispatcher.Redeem | crates/vor-dispatch/src/lib.rs:268-275 | Redeeming succeeds exactly if the approval was prepared, verifies and was never claimed and both its records are written, and leaves its recovery record at not executed |
| Dispatch.ReadOnlyDispatcher.Report | crates/vor-dispatch/src/lib.rs:286-335 | A failed worker is recorded as worker_failed, output over the limit as output_limit_exceeded, else executed; an outcome that cannot be recorded is answered with the error of the broker; a mark that fails leaves the ledger alone |
| Dispatch.ReadOnlyDispatcher.Conclude | crates/vor-dispatch/src/lib.rs:300-335 | Output over the limit is recorded and refused, or the error of the broker returned; otherwise the execution is recorded and the recovery record closed as completed, or as uncertain if recording failed |
| Dispatch.ReadOnlyDispatcher.AuditOutcome | crates/vor-core/src/lib.rs:217-255 | One outcome is appended as the ledger appends, the machine follows, and the answer is the error of the broker, if any |
| Dispatch.ReadOnlyDispatcher.ReportUnsigned | crates/vor-dispatch/src/lib.rs:552-571 | What an unsigned execution reports is recorded under its outcome and answered, or the error of the broker |
| Dispatch.ReadOnlyDispatcher.ChallengeOrRun | crates/vor-dispatch/src/lib.rs:440-526 | A decided request is executed exactly if the decision is automatic and it is a write with policy_attempt or a safe-list command; an automatic decision on anything else is recorded and refused; otherwise it gets a challenge for exactly that decision, two minutes long at most |
| Dispatch.ReadOnlyDispatcher.Perform | crates/vor-dispatch/src/lib.rs:276-335 | The worker is called, once, exactly if the effect could be marked as possible before; success means the record is completed |
| Ids.TenantKeyInjective | crates/vor-auth/src/lib.rs:916-918 | No two pairs of ids share a composite key, whatever colons and digits they contain |
| Ids.UsageKeyInjective | crates/vor-auth/src/lib.rs:920-929 | No two usage keys coincide, unless one names the empty workspace and the other none |
| Ids.SortedAscends | crates/vor-auth/src/lib.rs:880-891 | The listing order is ascending and without repetition |
| Ids.ValidIdExactly | crates/vor-auth/src/lib.rs:931-937 | An id is valid exactly if it has a character that is not white space, none that is a control character, and at most 256 bytes |
| Stores.InstancesAreOneStore | crates/vor-auth/src/lib.rs:240-252 | Any interleaving of instances over one file, step by step, with crashes, failures and stale copies, is one atomic store |
| Stores.ReplyIsAtomic | crates/vor-auth/src/lib.rs:240-252 | Each caller is told what the atomic store answers at that call's place, which lies within the call |
| Stores.RealTimeOrder | crates/vor-auth/src/lib.rs:240-252 | Calls that do not overlap take effect in the order in which they are made |
| Stores.CreationRaceForgets | crates/vor-auth/src/lib.rs:203-231 | The file must be in place first: of two instances that find none, the second wipes out what the first was told it had stored |
| Stores.OneStoreExactly | crates/vor-auth/src/lib.rs:203-252 | A resting store is one atomic store over every run if and only if no instance has found the file missing and is about to create it |
| Grants.ReadableExactly | crates/vor-auth/src/lib.rs:961-973 | A file is accepted exactly if its version and device are right and every grant has valid ids |
| Grants.EmptyReads | crates/vor-auth/src/lib.rs:203-231 | A file just created is one that can be read, exactly if its device has a name |
| Grants.GrantsOnlyShrink | crates/vor-auth/src/lib.rs:395-588 | Until its token hash is given out again a grant keeps id, organisation, actor, scopes and issue time; its workspaces only shrink, its revocation stays, and once gone it stays gone |
| Grants.RevokedForGood | crates/vor-auth/src/lib.rs:395-417 | A revoked or missing token is refused whatever it is used for |
| Grants.RevokedForEveryInstance | crates/vor-auth/src/lib.rs:544-566 | Once one instance answered that a grant is revoked, no later call on any instance accepts its token |
| Grants.IdsStayDistinct | crates/vor-auth/src/lib.rs:305-457 | With fresh tokens and ids, a grant id names one grant |
| Grants.ReadableUnlessBricked | crates/vor-auth/src/lib.rs:419-457 | A readable file stays readable if and only if the call is not the redemption of a waiting, unexpired code for an actor whose id is not blank and not valid |
| Grants.OfferedCodeBricks | crates/vor-auth/src/lib.rs:359-457 | Any offered code does it, redeemed in time for such an actor |
| Grants.ControlCharacterBricks | crates/vor-auth/src/lib.rs:419-457 | A concrete file and redemption, for an actor id with a control character, after which the file cannot be read |
| Grants.BrickedForGood | crates/vor-auth/src/lib.rs:939-973 | An unreadable file fails every call that needs it and is never changed again |
| Grants.CodesBuyOnce | crates/vor-auth/src/lib.rs:419-457 | Over any calls, at most as many grants are had for a code as codes of that hash were offered |
| Grants.RedeemExactly | crates/vor-auth/src/lib.rs:419-457 | When redeeming succeeds and what it writes; in particular an expired code is refused and stays in the file |
| Grants.ValidateExactly | crates/vor-auth/src/lib.rs:395-417 | A token is accepted exactly if its grant is known, unrevoked, unexpired and for this scope or all |
| Grants.IssueExactly | crates/vor-auth/src/lib.rs:305-357 | A token is issued exactly if its life is not zero and does not overflow, organisation, actor and the workspaces with text in them are valid ids, and some scope has text; its grant is for exactly that, and nothing else changes |
| Grants.OfferExactly | crates/vor-auth/src/lib.rs:359-393 | A code is offered exactly if neither life is zero, the code's does not overflow and some scope has text; it is filed for exactly those scopes and lives |
| Grants.ComplaintsExactly | crates/vor-auth/src/lib.rs:254-566 | Which other calls are refused before the file is looked at, and with which error |
| Grants.IssuedTokenAccepted | crates/vor-auth/src/lib.rs:305-417 | Issuing succeeds exactly if nothing is to complain of, adds exactly the new grant, and its token is then accepted for its scopes until it expires |
| Grants.OfferedCodeRedeems | crates/vor-auth/src/lib.rs:359-457 | An offered code can be redeemed for its scopes exactly until it expires, overflow of the expiry apart |
| Grants.NamedChangeExactly | crates/vor-auth/src/lib.rs:492-566 | The grant that has the id and, where one is given, the organisation changes as asked, and nothing else does |
| Grants.NamedChangeMisses | crates/vor-auth/src/lib.rs:492-566 | If no grant has that id and organisation, the answer is false and nothing changes |
| Grants.PruneExactly | crates/vor-auth/src/lib.rs:568-577 | Pruning keeps exactly the grants still of use and counts the others |
| Grants.PairingsPrunedExactly | crates/vor-auth/src/lib.rs:579-588 | Pruning takes off exactly the expired codes and counts them |
| Grants.PruningLocksNobodyOut | crates/vor-auth/src/lib.rs:395-577 | Pruning never changes who is accepted, then or later |
| Grants.RegisteredIsFound | crates/vor-auth/src/lib.rs:254-286 | A registered client is found as registered, and registering it changes no other |
| Grants.GrantStore.MutateState | crates/vor-auth/src/lib.rs:240-252 | The change is made on the state as it is in the file and written only if it succeeds |
| Grants.GrantStore.Open | crates/vor-auth/src/lib.rs:203-231 | A missing file is created; an existing one is accepted exactly if it is sound |
| Grants.GrantStore.Refresh | crates/vor-auth/src/lib.rs:939-948 | The copy becomes the file if lock, read and validation succeed, and is left alone otherwise, with the first error |
| Grants.GrantStore.DeviceId | crates/vor-auth/src/lib.rs:233-238 | The call answers what the atomic store answers |
| Grants.GrantStore.RevokeMatching | crates/vor-auth/src/lib.rs:544-566 | The call does to the file, and answers, what the atomic store does for revoking a grant by its id |
| Grants.GrantStore.IssueForTenant | crates/vor-auth/src/lib.rs:305-357 | The call does to the file, and answers, what the atomic store does |
| Grants.GrantStore.CreatePairing | crates/vor-auth/src/lib.rs:359-393 | The call does to the file, and answers, what the atomic store does for a pairing code |
| Grants.GrantStore.RedeemPairing | crates/vor-auth/src/lib.rs:419-457 | The call does to the file, and answers, what the atomic store does for redeeming one |
| Grants.GrantStore.Validate | crates/vor-auth/src/lib.rs:395-417 | The call does to the file, and answers, what the atomic store does for checking a token |
| Grants.GrantStore.ValidateForTenant | crates/vor-auth/src/lib.rs:459-477 | A grant is good for its own organisation and its own workspaces only |
| Grants.GrantStore.RevokeForTenant | crates/vor-auth/src/lib.rs:483-566 | The call does to the file, and answers, what the atomic store does for revoking within an organisation |
| Grants.GrantStore.ExpireForTenant | crates/vor-auth/src/lib.rs:492-517 | The call does to the file, and answers, what the atomic store does for moving an expiry, which may not precede the issue |
| Grants.GrantStore.RemoveWorkspaceForTenant | crates/vor-auth/src/lib.rs:519-542 | The call does to the file, and answers, what the atomic store does for taking a workspace away |
| Grants.GrantStore.PruneExpired | crates/vor-auth/src/lib.rs:568-577 | The call does to the file, and answers, what the atomic store does for dropping expired and revoked grants |
| Grants.GrantStore.PruneExpiredPairings | crates/vor-auth/src/lib.rs:579-588 | The call does to the file, and answers, what the atomic store does for dropping expired codes |
| Grants.GrantStore.RegisterOAuthClient | crates/vor-auth/src/lib.rs:254-276 | The call does to the file, and answers, what the atomic store does for registering a client |
| Grants.GrantStore.OAuthClient | crates/vor-auth/src/lib.rs:278-286 | The call does to the file, and answers, what the atomic store does for looking one up |
| Tenants.ReadableExactly | crates/vor-auth/src/lib.rs:975-1032 | A file is accepted exactly if every record has valid ids and is filed under its own key |
| Tenants.FileReadsExactly | crates/vor-auth/src/lib.rs:975-1032 | A file is read exactly if it is of version 1 and every record in it has valid ids and stands under the key made of them |
| Tenants.AlwaysGood | crates/vor-auth/src/lib.rs:633-909 | Every state reachable from the empty store can be read back, and memberships, workspaces, devices and usage refer only to records that exist |
| Tenants.NonInterference | crates/vor-auth/src/lib.rs:633-891 | Every call made for an organisation is answered as if all calls for other organisations had not been made |
| Tenants.NonInterferenceAcrossInstances | crates/vor-auth/src/lib.rs:797-909 | Every call is answered as if other organisations made none, for callers of any number of interleaved instances |
| Tenants.OwnCallsAlike | crates/vor-auth/src/lib.rs:633-891 | In states that agree on what is an organisation's own, its calls answer and change the same |
| Tenants.StrangersKeepAlike | crates/vor-auth/src/lib.rs:633-891 | A call for one organisation leaves what is another's alone |
| Tenants.ListingExactly | crates/vor-auth/src/lib.rs:880-891 | A listing is exactly the organisation's records in key order |
| Tenants.ComplaintsExactly | crates/vor-auth/src/lib.rs:633-891 | A call is refused before the file is looked at exactly if it names something that is no id, or verifies a grant of another organisation |
| Tenants.RefusedExactly | crates/vor-auth/src/lib.rs:633-891 | Every other call succeeds exactly if its ids are valid and the organisation, user and workspaces it builds on are there; a refused call changes nothing, and the error says which it was |
| Tenants.UpsertsExactly | crates/vor-auth/src/lib.rs:633-683 | Of a user, an organisation or a workspace the file holds what was last said of it, and nothing else moves |
| Tenants.UsageAddsUp | crates/vor-auth/src/lib.rs:849-878 | A usage record is the sum of what was recorded under it, capped at the largest 64-bit number |
| Tenants.VerifiesExactly | crates/vor-auth/src/lib.rs:797-847 | A context is verified exactly for an unrevoked member whose role will do (any for viewer, operator or admin for operator, only admin for admin), on an unrevoked device, in a workspace that exists and that device and grant both have |
| Tenants.MembershipCarries | crates/vor-auth/src/lib.rs:685-847 | A member is verified on a paired device exactly for the roles that its own will do for, and for none after any way of taking it back |
| Tenants.TenantStore.MutateState | crates/vor-auth/src/lib.rs:897-909 | As for grants: on fresh state, written only on success |
| Tenants.TenantStore.Open | crates/vor-auth/src/lib.rs:602-631 | A missing file is created; an existing one is accepted exactly if it is sound |
| Tenants.TenantStore.UpsertUser | crates/vor-auth/src/lib.rs:633-645 | The call does what the atomic store does |
| Tenants.TenantStore.UpsertOrganization | crates/vor-auth/src/lib.rs:647-659 | The call does to the file, and answers, what the atomic store does for an organisation |
| Tenants.TenantStore.UpsertWorkspace | crates/vor-auth/src/lib.rs:661-683 | The call does to the file, and answers, what the atomic store does for a workspace of an existing organisation |
| Tenants.TenantStore.RevokeMembership | crates/vor-auth/src/lib.rs:712-724 | The call does to the file, and answers, what the atomic store does for revoking a membership |
| Tenants.TenantStore.RevokeDevice | crates/vor-auth/src/lib.rs:763-775 | The call does to the file, and answers, what the atomic store does for revoking a device |
| Tenants.TenantStore.VerifyContext | crates/vor-auth/src/lib.rs:797-847 | The sequence of checks answers what the atomic store answers, and changes nothing |
| Tenants.TenantStore.PairDevice | crates/vor-auth/src/lib.rs:726-761 | The call does what the atomic store does: only existing workspaces of the organisation are paired |
| Tenants.TenantStore.RecordUsage | crates/vor-auth/src/lib.rs:849-878 | The call does to the file, and answers, what the atomic store does for usage |
| Tenants.TenantStore.SetMembership | crates/vor-auth/src/lib.rs:685-710 | The call does to the file, and answers, what the atomic store does for a membership |
| Tenants.TenantStore.RemoveDeviceWorkspace | crates/vor-auth/src/lib.rs:777-795 | The call does to the file, and answers, what the atomic store does for taking a workspace from a device |
| Tenants.TenantStore.ListUsageForOrg | crates/vor-auth/src/lib.rs:880-891 | The call does to the file, and answers, what the atomic store does for a listing |
| OAuth.ParseScopes | apps/vor-gateway/src/oauth.rs:393-408 | The loop accepts exactly texts whose words are known scopes with "mcp" among them, and yields the first occurrences |
| OAuth.ScopesGranted | apps/vor-gateway/src/oauth.rs:393-408 | What is granted is what was asked for, word for word, once each |
| OAuth.WordsExactly | apps/vor-gateway/src/oauth.rs:393-408 | The words of a scope text are what stands in it between spaces, tabs, line feeds, form feeds and carriage returns |
| OAuth.DefaultScopes | apps/vor-gateway/src/oauth.rs:393-408 | Whoever names no scopes gets both |
| OAuth.OAuthAlways | apps/vor-gateway/src/oauth.rs:247-363 | The invariant over all interleavings of requests, other users of the store, and restarts |
| OAuth.EveryTokenEarned | apps/vor-gateway/src/oauth.rs:325-363 | In every interleaving each token answers a client that presented, within five minutes of the owner's consent, the code, client id and redirect URI consented to and a verifier of 43 to 128 unreserved characters whose S256 is the challenge; it is for the scopes consented to, in no workspace, for 30 days |
| OAuth.CodeBuysOneGrant | apps/vor-gateway/src/oauth.rs:349-352 | A code buys one grant at most, exchanged or redeemed as the pairing code it also is |
| OAuth.AttemptBurnsCode | apps/vor-gateway/src/oauth.rs:336-348 | An exchange attempt on a known code, right or wrong, burns it for every later exchange |
| OAuth.HonestClientGetsToken | apps/vor-gateway/src/oauth.rs:247-363 | After the owner's consent a client gets a token exactly if its client id, redirect URI and verifier are the right ones, the S256 and the verifier's characters and length written out, and it is in time; the token is for the approved scopes and 30 days |
| OAuth.ExchangeExactly | apps/vor-gateway/src/oauth.rs:325-363 | When one exchange yields a token: exactly if the code is remembered, unexpired, for this client and redirect URI, the S256 of the verifier is its challenge, and the store redeems it; and which token |
| OAuth.AcceptableRequestExactly | apps/vor-gateway/src/oauth.rs:365-391 | Which authorization requests are acceptable: a code, S256 with a challenge of 32 bytes or more, the one resource or none, a redirect URI of the client and only the known scopes, mcp among them |
| OAuth.ProperMeans | apps/vor-gateway/src/oauth.rs:247-316 | What stands behind every recorded consent: such a request, and an unrevoked, unexpired grant of the owner that has the scope |
| OAuth.UntriedCodeLasts | apps/vor-gateway/src/oauth.rs:290-316 | A remembered code that nobody tries stays remembered, whatever else goes on, exactly until a consent is recorded that was given when the code had expired |
| OAuth.ActorValidExactly | apps/vor-gateway/src/oauth.rs:446-448 | The actor recorded for a client is valid if and only if the client id has at most 238 bytes and no control characters |
| OAuth.OAuthRuntime.AuthorizePost | apps/vor-gateway/src/oauth.rs:247-316 | The handler is the four steps of the machine, one after the other, whichever calls on the store fail; it answers the code exactly if the consent is recorded, and each refusal with its status |
| OAuth.OAuthRuntime.ExchangeAuthorizationCode | apps/vor-gateway/src/oauth.rs:325-363 | The handler is the steps of the machine, whatever store call fails; it grants exactly if the code is remembered, the exchange is right in every literal respect and the store redeems it |
| OAuth.OAuthRuntime.OfferCode | apps/vor-gateway/src/oauth.rs:284-303 | A consent becomes a pairing and a remembered code, or a server error and nothing |
| OAuth.EscapeExactly | apps/vor-gateway/src/oauth.rs:484-491 | Five replacements in a row replace each special character once |
| OAuth.EscapedTextIsSafe | apps/vor-gateway/src/oauth.rs:484-491 | Escaped text has no character that leaves an attribute or element, and reads back to the text |
| Relay.RelayAlways | apps/vor-relay/src/lib.rs:57-389 | The invariant over all interleavings of connections and callers |
| Relay.ResultsFindTheirCallers | apps/vor-relay/src/lib.rs:77-152 | A caller that gets a result gets one that came in on a bound connection of its device with its request id; no caller is served twice |
| Relay.DevicesGetTheirOwn | apps/vor-relay/src/lib.rs:97-220 | What reaches a device was addressed to it and allowed, and an approved action carries the approval of that very request |
| Relay.SessionsAreLive | apps/vor-relay/src/lib.rs:303-389 | Only a greeting of its own is accepted first, nothing is sent before, and the session of a finished connection is gone |
| Relay.StaleEndSparesSuccessor | apps/vor-relay/src/lib.rs:67-75 | The end of an old connection leaves its successor's session in place |
| Relay.ResultIsDelivered | apps/vor-relay/src/lib.rs:77-152 | A result sent in for a waiting caller is what that caller returns, nobody else is touched, and a second copy ends the connection |
| Relay.FrameExactly | apps/vor-relay/src/lib.rs:342-389 | Which frames of a connection are accepted: those that pass, of its own device, and are a greeting (of a fresh session, the first time), and once there is a session a heartbeat or a result somebody still waits for; it stays open exactly if such a frame can be acknowledged too |
| Relay.ForwardingQueues | apps/vor-relay/src/lib.rs:117-140 | Listing and forwarding put the request, once, in the queue of its device's connection |
| Relay.RefusalExactly | apps/vor-relay/src/lib.rs:97-182 | What may go to a device: a readable request for it with an id, approved for itself if it says it is approved, of an action that is allowed that way; every other is refused as malformed, or as not allowed, exactly as it is |
| Relay.RelayHub.Register | apps/vor-relay/src/lib.rs:58-65 | The device map gets the new session, and nothing else changes |
| Relay.RelayHub.Unregister | apps/vor-relay/src/lib.rs:67-75 | Only the session given is removed |
| Relay.RelayHub.CompleteResult | apps/vor-relay/src/lib.rs:77-83 | The waiting caller of exactly that device and request is taken off the list |
| Relay.RelayHub.Enlist | apps/vor-relay/src/lib.rs:97-127 | Which requests are refused and why, and that an accepted one is listed once |
| Relay.RelayHub.AwaitResult | apps/vor-relay/src/lib.rs:137-151 | Only a result leaves the list alone; a frame that is not sent, a lost sender and a timeout take the entry off and say why |
| Relay.StaysOnListExactly | apps/vor-relay/src/lib.rs:77-152 | Over any run, a waiting caller keeps its place on the list if and only if no result for its device and request comes in on an open and bound connection of the device and no caller with that device and request gives up |
| Relay.OnListTurnsAway | apps/vor-relay/src/lib.rs:117-128 | As long as a caller has its place, dropped or not, others with its device and request are refused as duplicates |
| Relay.LateCallerEvictsNext | apps/vor-relay/src/lib.rs:141-151 | A caller that timed out, whose result then comes in, takes a later caller with the same request id off the list |
| Billing.BillingAlways | apps/vor-gateway/src/billing.rs:743-899 | Over any deliveries subscriptions are their customers' organisations', entitlement is on exactly for the status active or trialing, and no customer changes organisation |
| Billing.EntitledExactly | apps/vor-gateway/src/billing.rs:815-875 | After any deliveries a subscription entitles exactly if its status is "active" or "trialing" |
| Billing.StatusLasts | apps/vor-gateway/src/billing.rs:815-875 | After an update to "canceled" or "past_due" the subscription no longer entitles, after one to "active" or "trialing" it does, until something else is delivered about it |
| Billing.DeliveryExactly | apps/vor-gateway/src/billing.rs:178-212 | What becomes of any delivery: rejected exactly if it has no id or kind, or is new and lacks what its kind needs; a duplicate exactly if recorded before; applied exactly if it is a new checkout or a new subscription event of a known customer; everything else is recorded and changes nothing |
| Billing.AnswerExactly | apps/vor-gateway/src/billing.rs:178-212 | What is answered to a delivery, and recorded of it, word for word: organisation, whether it applied, and why |
| Billing.TrimExactly | apps/vor-gateway/src/billing.rs:722-733 | Trimming takes the white space off both ends and nothing else |
| Billing.RejectionsLeaveNoTrace | apps/vor-gateway/src/billing.rs:178-212 | A run of deliveries ends in the same state as the run without those that were rejected |
| Billing.RedeliveriesDoNotMatter | apps/vor-gateway/src/billing.rs:178-195 | Deliveries of recorded events, wherever they come, make no difference |
| Billing.CheckoutThenUpdate | apps/vor-gateway/src/billing.rs:770-875 | The plan bought at checkout stays with the subscription, which is the organisation's of the checkout and entitles it exactly while its last status is active or trialing |
| Billing.CheckoutRecords | apps/vor-gateway/src/billing.rs:770-813 | What a checkout of a new customer records, and that it entitles nobody yet |
| Billing.UpdateRecords | apps/vor-gateway/src/billing.rs:815-875 | What a subscription event of a known customer records, the plan it keeps, and that it entitles exactly if the status is active or trialing |
| Billing.BillingStore.UpsertCustomer | apps/vor-gateway/src/billing.rs:877-899 | The customer is filed or refreshed in place; a customer of another organisation is refused and nothing changes |
| Billing.BillingStore.ApplyCheckoutCompleted | apps/vor-gateway/src/billing.rs:770-813 | The state is changed step by step to what the reducer says, and an error leaves it as it was |
| Billing.BillingStore.ApplySubscriptionEvent | apps/vor-gateway/src/billing.rs:815-875 | The state is changed step by step to what the reducer says, and entitles exactly if the status, "unknown" if there is none, is active or trialing; an error leaves it as it was |
| Billing.BillingStore.ApplyEventToState | apps/vor-gateway/src/billing.rs:743-768 | Each kind of event is reduced by its own method; an error leaves the state as it was |
| Billing.BillingStore.ApplyTestWebhook | apps/vor-gateway/src/billing.rs:178-212 | Memory and file after a delivery, including when the write fails; in step they stay in step |
| Billing.CustomerKeepsFirstOrganization | apps/vor-gateway/src/billing.rs:166-176 | After any deliveries a customer belongs to an organisation if and only if the first checkout that was taken up for the customer named it |
| BillingFiles.FailedWriteIsForgotten | apps/vor-gateway/src/billing.rs:196-211 | After a failed write the retry is told the event was processed, though no file holds it |
| BillingFiles.FileIsMemoryExactly | apps/vor-gateway/src/billing.rs:178-212 | Over any deliveries to one store with any write outcomes, file and memory are the same if and only if the last delivery that recorded an event was written down |
| BillingFiles.AnswersAreDurableExactly | apps/vor-gateway/src/billing.rs:178-212 | No event is answered as processed that the file lacks, if and only if the last delivery that recorded an event was written down |
| BillingFiles.Receive | apps/vor-gateway/src/billing.rs:178-212 | The method of the store takes one attempt of that run, and succeeds exactly if the event is taken and, when it has to be, written |
| BillingFiles.SecondStoreErases | apps/vor-gateway/src/billing.rs:129-149 | Of two stores on one file the second to write erases what the first stored |
| BillingFiles.DurableExactlyWhenCovering | apps/vor-gateway/src/billing.rs:129-212 | Any number of stores on one file: everything callers were told is in the file at every moment if and only if every store that writes knows all the events of the file but the one it writes |
| BillingFiles.DurableExactlyWhenCurrent | apps/vor-gateway/src/billing.rs:129-212 | With each event going to one store only, that is so if and only if no store writes after another wrote since it last read or wrote the file |
| BillingFiles.CurrentWritersLoseNothing | apps/vor-gateway/src/billing.rs:129-212 | However events are routed, nothing is lost as long as no store writes behind the back of another |
| BillingFiles.SameEventTwice | apps/vor-gateway/src/billing.rs:129-212 | Two stores given the same event write behind each other and yet lose nothing, which is why the routing matters |
| BillingFiles.TakeTurn | apps/vor-gateway/src/billing.rs:178-212 | The method of a store takes one turn of that run |
| Billing.VerifySignature | apps/vor-gateway/src/billing.rs:649-685 | A webhook is accepted exactly if its last timestamp field is a number within 300 seconds and some signature is the digest of it, a dot and the body |
| Billing.ConstantTimeEq | apps/vor-gateway/src/billing.rs:712-720 | The loop without an early exit decides equality |
| Billing.TimestampReadsBack | apps/vor-gateway/src/billing.rs:659-676 | A timestamp as the provider writes it reads back as the number that is then signed |
| Billing.ParsedExactly | apps/vor-gateway/src/billing.rs:659-676 | What reads as a number: a plus sign or not, any zeros, and the decimal form of the number |
| Paths.WithinExactly | crates/vor-path/src/lib.rs:16-23 | For paths with one separator, containment is that the components of the root are, but for ASCII case, the first components of the path |
| Paths.WithinMeans | crates/vor-path/src/lib.rs:16-23 | For all paths, without the slashes they end in: the same characters but for the case of ASCII letters, or those of the root, a slash or backslash, and more |
| Paths.WithinReflexive | crates/vor-path/src/lib.rs:16-23 | Every path is within itself |
| Paths.WithinTransitive | crates/vor-path/src/lib.rs:16-23 | Containment is transitive, whatever the separators |
| Paths.WithinAntisymmetric | crates/vor-path/src/lib.rs:16-23 | Two paths within each other are equal but for case and trailing separators |
| Paths.WithinIsText | crates/vor-path/src/lib.rs:16-23 | The comparison of bytes, cut where a string may be cut, is a comparison of characters |
| Parameters.EncodedReadsBack | crates/vor-dispatch/src/lib.rs:1054-1056 | Decoding inverts encoding |
| Parameters.DecodedIsCanonical | crates/vor-dispatch/src/lib.rs:1054-1056 | Every text that decodes is the encoding of what it decodes to |
| Parameters.DecodesExactly | crates/vor-dispatch/src/lib.rs:1054-1056 | A text decodes to some bytes exactly if it spells them: four characters of the printed alphabet for the 24 bits of three bytes, and for one or two bytes at the end zero bits and equals signs |
| Parameters.WriteAcceptedExactly | crates/vor-dispatch/src/lib.rs:1039-1061 | Content is accepted from a text exactly if the text is its encoding and it has at most 1,048,576 bytes; the check of the encoded length turns none away |
| Parameters.WriteRefusedExactly | crates/vor-dispatch/src/lib.rs:1039-1061 | A text is refused as invalid exactly if it does not decode, and as too large, with its size, exactly if it or what it decodes to is |
| Parameters.PermittedOutputFits | crates/vor-dispatch/src/lib.rs:982-1003 | The encoding of any permitted output leaves 16,382 bytes for what is around it, for every limit |
| Parameters.RoomIsTight | crates/vor-dispatch/src/lib.rs:982-985 | The 16,382 bytes are tight: at a limit of 16,386 bytes, one byte of output and 16,383 bytes around it do not fit |
| Parameters.TerminalGetsWhatItAskedFor | crates/vor-dispatch/src/lib.rs:931-1037 | A terminal gets its arguments in order, its numbers or the defaults of 30 seconds, 120 columns, 40 rows and 262,144 bytes, and of output the smaller of what was asked and three quarters of the limit less 16,384 bytes |
| Parameters.TerminalSpecExactly | crates/vor-dispatch/src/lib.rs:931-1037 | A request gets a terminal if and only if its parameters are known and of the right types, its arguments are texts and not none, its sizes fit 16 bits and the limit leaves room for output |

## Left out

- Agreement.OverlapIsSafe: assumes runs without crashes, failing commits and torn lines; with an overlap these can leave the two stores further apart.
- Audit.Ledger.Append: the retry loop of the lock file, its age rule and antivirus sharing errors are one outcome each (acquired, timed out); in the machine the age rule is a step that removes the lock at any moment.
- Audit.Ledger.SetExecutionRecoveryState: the update time written beside the state is not kept.
- Audit.Ledger.Open: in the machine the migration of old consumptions is one step, though the class does it row by row.
- Stores.InstancesAreOneStore: a lock file left behind by a crashed instance stays, as in the source, and every later call times out; removing it by hand is not a step. Dropping the lock is assumed to remove the file.
- Grants.GrantStore.Open, Tenants.TenantStore.Open: on systems other than Windows the file is removed before it is replaced; the moment without a file is not modelled.
- Subscription and entitlement records of the tenant store, which no operation writes.
- The default organisation and empty sets that older grant files are read with.
- Dispatch.ReadOnlyDispatcher.PrepareApprovedAt: rendering an edit and reading the target are a given result, a size and the digest of the request that carries it; of the other parameters of that request only those the model has are kept.
- Individual workers (files, git, processes, terminals, browser) and their own limits: they report success, a length, or failure.
- Reports, protobuf conversions and status codes of the dispatcher: wrappers without state.
- Listing ledger records by organisation, counters and getters: one filter each.
- OAuth client registration, metadata documents, redirect URL parsing and the HTML page around the escaped values.
- The replay guard, acknowledgement frames and the capacity of a connection's queue: a frame passes or does not.
- Creating checkout and portal sessions, configuration and the HTTP layer of billing.
- Sensitive-path rules: a list of names without structure.
- The remaining crates and applications (policy, wire format, control plane, agents, desktop, browser, approver page, site scripts).
- Liveness: that a lock is ever free, that a retry is ever made.
