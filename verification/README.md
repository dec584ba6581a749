# Auditable MCP, modelled and proved

Auditable MCP lets a tool attest to its operations and a host seal the attestations into a tamper-evident
ledger. A tool emits an *attempt* before it acts and an *outcome* after; the host answers the attempt
`accept`, `reject` or `unavailable`, seals what it accepts into one hash chain per partition, and an auditor
who holds only the records can check the chain and account for every number a signer used.

This project models the host, its ledger and store, the auditor, the tool's audit session, both ends of the
round exchange that carries events over MCP, the HTTP entry's call registry, the strict base64 codec and the
key registry, and proves what they promise each other.

## How it is built

The state changes of each component are functions on values, so that whole runs can be reasoned about:
`HostModel`, `ToolSession`, `RoundModel`, `HostRounds`, `RegistryModel`, `SessionKeeping`, `KeyProvisioning`.
Invariants over all runs are proved about these. Where the program updates objects in place, a class does the
same with loops and assignments and is proved to compute those functions, and to keep the invariant:
`Ledgers`, `AuditHosts`, `AmcpSessions`, `ToolTransports`, `SessionKeeping`, `HostReceivers`, `CallRegistries`,
`KeyRegistries`. The auditor and the gap accounting (`Verifier`, `GapAccounting`) are methods with loops, proved
against independent definitions.

- `Events`, `Reasons`, `Chain`, `Sorting`: events, codes, sealed records and hash chains, ascending order.
- `HostChain`, `HostEvents`: what every run keeps of the chain, the indexes and the stored events, ids opened
  again included.
- `HostInvariant`, `HostRulings`, `HostRuns`, `HostAnswers`, `HostAccounts`, `HostAudit`, `HostRepeats`,
  `HostRestart`, `HostResumption`, `HostReuse`, `HostResends`, `HostReopening`: what every step of a host keeps,
  what its answers mean in terms of the chain alone, and what follows over whole runs with failing, late and
  ambiguous appends, restarts and resends.
- `HostSessions`: the ids given out and the sessions open, from what happened to the host alone.
- `GapMeaning`: what the accounting says of a ledger, position by position.
- `ToolHistory`, `ToolConduct`: what a tool's events say, how its actions end and which numbers they use, against
  the moves of the run.
- `Deployment`, `ToolGaps`, `StrayAccept`: tool, transport and host together, and what the accounting leaves.
- `RoundInvariant`, `RoundAnswers`, `RoundHistory`: what every step of the tool's end of the wire keeps, who gets
  which answer, and whose frame goes out on which request.
- `RoundReference`, `RegistryReference`: the tool's end of the wire and the registry said without their tables,
  which both are proved to follow over every run.
- `ReceiverHistory`: what the host's end makes of the rounds it is sent.

A record hash is a constructor of its preimage, so it is injective and never the genesis link; a record may
also hold a hash of no preimage. Two events have one canonical form exactly when they are equal; signatures
and countersignatures are predicates and functions the environment chooses. What a signer, an append, a read
or a verifier does in a step is a parameter, so each theorem holds for every choice. One writer per partition
and a store whose append is conditional on `seq` are assumed, as `storage/memory.py` implements.

A run is *fresh* where no session is opened under an id that a committed record carries. Results are over every
run unless they say so.

## Findings

- Restart with an append in flight: the record can land after the host that comes back has read the store.
  Its session id then counts as not issued, and a session opened under it starts empty. `OpeningIsSafeIff`
  gives the exact condition at each level, `ReuseHappens` a run, and `CalmRestartsSuffice` what excludes it.
- After a fresh run a restart is visible in one case only, a tail in doubt: `RestartIsInvisibleIff`. Once
  a session is opened under an id that a committed record carries it is visible too: `ReopenedRestartIff`.
- A repeat changes no state exactly when the session has received its number and, for an attempt, answers for
  it; otherwise these and the gap flag are made good: `ResendAttempt`, `ResendOutcome`. Resends change no chain
  (`ResendsSealTheSame`), short of one to a session opened under a used id (`UnknownResendShows`).
- A round whose call is cancelled before the queue reaches it is not worked through, so its outcomes are not
  handed to the endpoint (`CancelledBeforeTaken`). That is the only loss: over runs, something is lost if and
  only if the call ends while a round that carries an outcome waits behind (`OutcomeIsLostIff`), which with a
  tool that answers each request once only a cancellation or an eviction does (`RoundIsLostIff`).
- Two attempts of one id in one round share one place in the table of waiting attempts, so the earlier is
  answered neither by the retry nor by the call's end, only by its own timeout (`RoundsConserveEvents`,
  `DisplacedIsUnanswered`).
- A number sealed twice is the only per-record finding an audit of an honest host can make (`OnlyReplays`): at
  Level 1, or at Level 2 under an id opened again (`OnlyReplaysAtLevel1`, `ReuseHappens`).
- A tool that turns an accept down for its hash leaves the number of its attempt unaccounted if the attempt was
  not sealed, for the refusal it seals is not of a kind the accounting counts (`StrayAcceptLeavesGap`). Over a
  transport that hands each attempt its own answer it never does (`HonestToolLeavesNoGap`); `NothingLeftIff` says
  over any transport when nothing is left.
- The branch of `_settle_tail` for a chain extended by another writer cannot be reached under one writer, in
  any run (`NoOtherWriter`).

## Model

| member | source | states |
|---|---|---|
| `Ledgers.Ledger.Seal` | src/auditable_mcp/ledger.py:99-120 | the record it computes links to whatever chain the ledger stands at, and committing nothing changes nothing |
| `Ledgers.Ledger.Append` | src/auditable_mcp/ledger.py:122-134 | from the end of any linked chain the ledger moves to the end of a longer linked chain, and holds the new record |
| `Ledgers.Ledger.Commit` | src/auditable_mcp/ledger.py:122-127 | the whole new state: one record longer, its hash the tail, the record held in memory |
| `Ledgers.Ledger.ResumeFrom` | src/auditable_mcp/ledger.py:136-150 | from the last record of any linked chain the ledger stands at the end of that chain, from none at genesis, with no history held |
| `Ledgers.Repository.Append` | src/auditable_mcp/storage/memory.py:19-30 | an append succeeds exactly at the next free position, changes nothing otherwise, and touches no other partition |
| `Ledgers.Repository.AppendOver` | src/auditable_mcp/host.py:437-450 | an append whose acknowledgement, write or delay the connection decides: what is stored, what is in flight and what is reported, other partitions unchanged |
| `Ledgers.Repository.LandDelayed` | src/auditable_mcp/storage/memory.py:19-30 | a write held back is stored only if its position is still free |
| `Ledgers.Repository.LoadTail` | src/auditable_mcp/storage/memory.py:32-36 | the last record of the partition, or none |
| `Ledgers.Repository.ReadAll` | src/auditable_mcp/storage/memory.py:38-41 | every record of the partition in append order |
| `AuditHosts.AuditHost.HandleAttempt` | src/auditable_mcp/host.py:661-753 | computes the specified decision on host, store and answer; keeps the invariant; an accept names a committed record of exactly this attempt; no other partition changes |
| `AuditHosts.AuditHost.RecordOutcome` | src/auditable_mcp/host.py:763-842 | computes the specified disposition, state and store; keeps the invariant; no other partition changes |
| `AuditHosts.AuditHost.SettleTail` | src/auditable_mcp/host.py:356-387 | the stored tail is adopted where it is the next record, followed where it is further, and the doubt ends only when the tail was read |
| `AuditHosts.AuditHost.Adopt` | src/auditable_mcp/host.py:389-407 | an adopted record is accounted to its open session as sealing it there would have |
| `AuditHosts.AuditHost.Seal` | src/auditable_mcp/host.py:409-453 | countersign, append, and commit only on an acknowledged append; every failure leaves chain and indexes alone and marks the tail uncertain where the write may have landed |
| `AuditHosts.AuditHost.Admit` | src/auditable_mcp/host.py:634-659 | structure before session: the state flagged and the reason given, or the open session the event names |
| `AuditHosts.AuditHost.VerifySignature` | src/auditable_mcp/host.py:571-604 | Level 1 checks nothing; at Level 2 the flag, the reason, and the highest number received |
| `AuditHosts.AuditHost.OpenSession` | src/auditable_mcp/host.py:498-520 | an id is issued exactly when it was not issued before; the session then agrees with the chain exactly when no committed record carries the id |
| `AuditHosts.AuditHost.CloseSession` | src/auditable_mcp/host.py:522-538 | the session is gone and each attempt it accepted and did not resolve is flagged once; the invariant is kept |
| `AuditHosts.AuditHost.SignerTracker` | src/auditable_mcp/host.py:472-486 | the decided values and highest received of an open session, none for any other |
| `AuditHosts.AuditHost.Resume` | src/auditable_mcp/host.py:254-325 | a host resumed over the stored records is in the specified state, and in the invariant whenever the store is one a host left |
| `AuditHosts.AuditHost.FlagUnresolved` | src/auditable_mcp/host.py:327-346 | exactly the attempts left without a terminal record outside the open sessions are flagged, once each |
| `AuditHosts.RestoredSession` | src/auditable_mcp/host.py:848-873 | the loop over the records computes the session the specification restores |
| `HostInvariant.AttemptKeepsInv` | src/auditable_mcp/host.py:661-753 | every branch of an attempt, under any fault, keeps: one linked well-kept stored chain at most one record ahead; indexes and session sets equal to what the committed chain says |
| `HostInvariant.OutcomeKeepsInv` | src/auditable_mcp/host.py:763-842 | every branch of an outcome keeps the same invariant |
| `HostInvariant.SettleKeepsInv` | src/auditable_mcp/host.py:356-387 | settling the tail keeps the invariant, whether or not a record landed |
| `HostInvariant.SealKeepsInv` | src/auditable_mcp/host.py:409-453 | sealing an event the chain can take keeps the invariant whatever the signer and the append do, and equals adopting the record |
| `HostChain.NoFork` | src/auditable_mcp/host.py:356-387 | over every run, ids opened again included, the store is one linked chain, the host's chain is a prefix of it at most one record shorter, its digest is that prefix's tail, and a delayed append links to that prefix or can never land |
| `HostChain.NoOtherWriter` | src/auditable_mcp/host.py:377-385 | in every run the branch for a chain extended by another writer is never taken: a stored tail is at most the record right after the host's, linked to it |
| `HostChain.StepKeepsChain` | src/auditable_mcp/host.py:356-453 | every step keeps that chain and takes back no stored or committed record, restarts included |
| `HostChain.RunKeepsRecords` | src/auditable_mcp/host.py:356-453 | what a run stored and committed is still stored and committed however it goes on |
| `HostEvents.StepKeepsEvents` | src/auditable_mcp/host.py:661-842 | every step keeps: each stored event, and each delayed one that can still land, may follow what precedes it; the indexes are the committed chain's; each session accepts only what is sealed and resolves only what ended - and, where no id is opened that the host must not forget, knows every end and number sealed in it |
| `HostEvents.EveryChainIsSound` | src/auditable_mcp/host.py:708-752 | the stored chain of every run holds canonical events of the current version, numbered at Level 2, seals no attempt id twice, and seals success and failed only after their attempt |
| `HostInvariant.AdmittedAttemptFits` | src/auditable_mcp/host.py:708-738 | an attempt past every check has a fresh id, no terminal record and, at Level 2, an undecided number, judged by the chain itself |
| `HostInvariant.AdmittedOutcomeFits` | src/auditable_mcp/host.py:803-828 | an outcome past every check has no earlier terminal record, follows its attempt unless aborted, and carries an undecided number |
| `HostInvariant.OpeningAgreesIffUnused` | src/auditable_mcp/host.py:512-520 | an empty session agrees with the chain if and only if no committed record carries its id |
| `HostRuns.RunKeepsInv` | src/auditable_mcp/host.py:409-453 | the full invariant holds after any fresh run of attempts, outcomes, sessions opened and closed, landings and restarts |
| `HostRuns.RunLifecycle` | src/auditable_mcp/host.py:708-752 | the stored chain of every fresh run is well kept: each record fitted what preceded it |
| `HostRuns.Lifecycle` | src/auditable_mcp/host.py:803-841 | in a well-kept chain an attempt id is sealed once, an operation has one terminal record with nothing of it after, success and failed follow their attempt, and at Level 2 no number is sealed twice |
| `HostRuns.CalmRestartsSuffice` | src/auditable_mcp/host.py:292-304 | from an empty store, a run that restarts only while no append can still land is fresh |
| `HostReuse.OpeningUnusedIsSafe` | src/auditable_mcp/host.py:512-520 | after any fresh run at either level, a session opened under an id no committed record carries keeps every later stored chain well kept |
| `HostReuse.OpeningIsSafeIff` | src/auditable_mcp/host.py:512-520 | after any fresh run, a session opened under an id keeps every fresh continuation well kept if and only if, at Level 2, no committed record carries the id and, at Level 1, no committed terminal record does; at Level 2 the same condition is that no audit of a continuation finds a number sealed twice |
| `HostReuse.ReusableIsSafe` | src/auditable_mcp/host.py:512-520 | such an id is safe to open for every fresh continuation |
| `HostReuse.ReplayIsReported` | src/auditable_mcp/verify.py:437-450 | a number sealed twice at a record is what the auditor reports there, whatever else it is asked to check |
| `HostReuse.ReuseHappens` | src/auditable_mcp/host.py:292-304 | a concrete run at either level - restart with an append in flight, late landing, adoption - after which the host issues a used id that is not safe to open |
| `HostAudit.AuditFindsReplaysAndGaps` | src/auditable_mcp/verify.py:379-566 | over every run at either level, ids opened again included, a full audit reports exactly the numbers sealed twice and the gaps of the accounting, and the host's digest is the recomputed digest of what it committed |
| `HostAudit.OnlyReplays` | src/auditable_mcp/verify.py:379-541 | over every run a record is clean under a full audit if and only if its number was not sealed before |
| `HostAudit.AuditFindsOnlyGaps` | src/auditable_mcp/verify.py:379-566 | for every fresh run of a Level-2 host from an empty store a full audit reports exactly the gaps of the accounting and nothing else |
| `HostAudit.OnlyReplaysAtLevel1` | src/auditable_mcp/verify.py:379-541 | in a fresh run a number is sealed twice only at Level 1, and nothing else is found at a record |
| `HostAnswers.AcceptIsCommitted` | src/auditable_mcp/host.py:708-753 | in any state a run reaches, an accept is given only for an attempt whose record is committed at the position and with the hash the accept states |
| `HostAnswers.EveryAcceptIsCommitted` | src/auditable_mcp/host.py:708-753 | over every run, ids opened again included, an attempt answered accept is from then on committed as the accept states, however the run goes on |
| `HostAccounts.NothingAcceptedEscapes` | src/auditable_mcp/host.py:522-538 | after every run, ids opened again included, an accepted operation's attempt is committed, and once its session is not open it has a terminal record after the attempt or an unresolved flag |
| `HostAccounts.AcceptedEndsOnce` | src/auditable_mcp/host.py:803-828 | in a fresh run that terminal record is the only one |
| `HostAccounts.StepKeepsAccount` | src/auditable_mcp/host.py:254-346 | every step, a close and a restart included, keeps an accepted operation in view: answered for by its open session, ended, or flagged |
| `HostAccounts.OpenAttemptsCover` | src/auditable_mcp/host.py:327-346 | a restart flags every sealed attempt outside the open sessions that has no terminal record after it, in any chain a host seals |
| `HostAccounts.OpenAttemptsAre` | src/auditable_mcp/host.py:327-346 | in a well-kept chain the attempts a restart flags are exactly those with no terminal record outside the open sessions |
| `HostRulings.AttemptIsRuled` | src/auditable_mcp/host.py:695-753 | after a fresh run a host sure of its tail answers an attempt as the chain alone rules - form, session, signature, sealed before, id or operation or number taken, free - and flags what that ruling says and the gap the number leaves; a free one is accepted exactly when it can be sealed, under the next record at the host's time and countersigned as configured, and otherwise unavailable or raised as the sealing was broken off, with the tail in doubt exactly where an append went unacknowledged |
| `HostRulings.OutcomeIsRuled` | src/auditable_mcp/host.py:787-842 | the same of an outcome, after a fresh run: refused, repeat, orphaned, replayed or sealed as the chain alone rules, with its flags and its record; not-recorded decides nothing |
| `HostRulings.CloseFlagsExactly` | src/auditable_mcp/host.py:530-538 | after a fresh run a close flags exactly the session's attempts that the chain holds without a terminal record |
| `HostRulings.AttemptIsAnswered` | src/auditable_mcp/host.py:661-753 | and in every case: an expired attempt is unavailable with nothing changed; in doubt of the tail, a failed read is unavailable and an interrupted one raises, with nothing changed; any other is ruled by the chain once what the store holds is adopted and the doubt ended |
| `HostRulings.OutcomeIsAnswered` | src/auditable_mcp/host.py:763-842 | the same of an outcome: not-recorded where the doubted tail could not be read, so that it is sent again |
| `HostRulings.SettlingIs` | src/auditable_mcp/host.py:356-387 | settling ends the doubt exactly on a read, adopts the one record ahead, and changes no flag, no open session and no highest number received |
| `HostRulings.HighestIsKept` | src/auditable_mcp/host.py:587-604 | past the signature the highest number received under the key is kept, whatever the ruling |
| `HostSessions.SessionsFollow` | src/auditable_mcp/host.py:498-538 | over every run the ids a host takes for given are those opened since it started and those stored or reopened at the restart, and its open sessions are those opened under a new id or reopened and not closed since |
| `HostSessions.OpeningIsRefusedIff` | src/auditable_mcp/host.py:498-520 | so an id is refused exactly where it was given, and any other opens an empty session |
| `HostRepeats.ResendAttempt` | src/auditable_mcp/host.py:708-719 | in any state a run reaches, a committed attempt sent again to a host sure of its tail gets its own accept from the ledger and stores nothing; the host is unchanged if and only if the session has its receipt and answers for it, and otherwise only these and the gap flag are made good |
| `HostRepeats.ResendOutcome` | src/auditable_mcp/host.py:803-808 | in any state a run reaches, a sealed outcome sent again is a repeat and stores nothing; the host is unchanged if and only if the session has its receipt |
| `HostRepeats.CalmRunKeepsReceipts` | src/auditable_mcp/host.py:595-603 | over runs that restart only while no append can still land, every stored event of an open session has its receipt |
| `HostResends.ResendsSealTheSame` | src/auditable_mcp/host.py:708-719 | over every run, ids opened again included, a run with any number of resends put in anywhere - each attempt one its session answers for - stores the same records and ends in a host that answers alike |
| `HostResends.FreshResendsSealTheSame` | src/auditable_mcp/host.py:708-719 | in a fresh run every resend is of that kind, so the same holds of all |
| `HostResends.ResendsChangeNoRun` | src/auditable_mcp/host.py:708-719 | where the run restarts only while no append can still land, it ends in the same host outright, receipts and anomalies included |
| `HostResends.UnknownResendShows` | src/auditable_mcp/host.py:708-719 | an attempt resent to a reopened session that does not answer for it makes a later success sealed that would have been orphaned |
| `HostRestart.ResumeKeepsInv` | src/auditable_mcp/host.py:285-325 | resuming from the stored records re-establishes the invariant, whichever sessions are named open |
| `HostRestart.RestoredAgrees` | src/auditable_mcp/host.py:848-873 | a session read back from the records agrees with them in every set |
| `HostResumption.RestartIsInvisibleIff` | src/auditable_mcp/host.py:298-324 | after any fresh run, a host resumed with each open session and its tracker answers every continuation, further restarts included, as the host that never stopped and stores the same records - if and only if the tail was not in doubt |
| `HostReopening.ReopenedRestartIff` | src/auditable_mcp/host.py:298-324 | once a session is opened after a fresh run, the restart is invisible if and only if the tail was not in doubt and no committed record carries the session's id |
| `HostResumption.RestartFlagsTheSame` | src/auditable_mcp/host.py:472-486 | at Level 2 over calm runs both hosts also raise the same anomalies from then on, and after a further restart the two are equal outright |
| `HostResumption.RunTwins` | src/auditable_mcp/host.py:661-842 | two hosts alike in chain, indexes and session sets give the same replies and stores over any common continuation |
| `Verifier.VerifyChain` | src/auditable_mcp/verify.py:379-580 | the loop reports the issues whose kinds, places and order the lemmas below fix from the records alone, the recomputed digest, the count, and which checks were left out though some record called for them |
| `Verifier.NoIssuesIff` | src/auditable_mcp/verify.py:379-566 | a report is clean if and only if every record is clean against the recomputed prefix, no gap is left, and the digest is the anchored one |
| `Verifier.PlaceIff` | src/auditable_mcp/verify.py:382-400 | at a record, out of sequence is reported if and only if its seq is not its place, and a schema fault if and only if it cannot be canonicalized |
| `Verifier.MismatchIff` | src/auditable_mcp/verify.py:387-412 | a hash mismatch if and only if a canonicalizable record does not link to the recomputed hash before it or does not hold its own recomputed hash |
| `Verifier.CheckedPastUnhashable` | src/auditable_mcp/verify.py:390-412 | past a record that cannot be canonicalized the next is checked against the hash stored in it |
| `Verifier.OrphanIff` | src/auditable_mcp/verify.py:414-434 | an orphan if and only if a success or failed names an operation no attempt before it has |
| `Verifier.ReplayIff` | src/auditable_mcp/verify.py:436-450 | a replay if and only if a record before it carries the same key, session and number |
| `Verifier.SignatureIff` | src/auditable_mcp/verify.py:464-479 | a bad signature if and only if the auditor's checker turns the event's signature down |
| `Verifier.CountersignatureIff` | src/auditable_mcp/verify.py:481-529 | a bad countersignature if and only if a required one is absent, one is incomplete, or the checker turns it down over seq, host_ts, log_id and the stored hashes |
| `Verifier.IdentityIff` | src/auditable_mcp/verify.py:531-538 | a wrong identity if and only if one is expected and the record is not completely countersigned, or by another log or key |
| `Verifier.IssueIff` | src/auditable_mcp/verify.py:379-566 | over a whole ledger these are the only issues at records, and beside them a gap is reported if and only if the accounting leaves one, and a wrong digest if and only if it is not the anchored one |
| `Verifier.ReportedOnce` | src/auditable_mcp/verify.py:379-538 | each kind is reported at most once at a record, but the hash mismatch twice: for the link and for the record |
| `Verifier.RecordIssuesInOrder` | src/auditable_mcp/verify.py:379-538 | in the order of the checks |
| `Verifier.LedgerIssuesInOrder` | src/auditable_mcp/verify.py:543-566 | then one issue for each gap the accounting leaves, and the wrong digest last |
| `Verifier.PrefixFindsPrefix` | src/auditable_mcp/verify.py:379-541 | and what is found at the first records is found whatever follows, and comes first |
| `Verifier.AnchorBindsLedger` | src/auditable_mcp/verify.py:559-566 | two ledgers that verify clean against one anchored digest, each under its own auditor's options, have the same length and the same event, seq and host_ts at every position |
| `Verifier.RewriteIsLocalized` | src/auditable_mcp/verify.py:387-412 | changing one event of a clean chain puts the first hash mismatch exactly at that record |
| `Verifier.VersionRegressions` | src/auditable_mcp/verify.py:647-682 | finds exactly the positions whose version is older than the newest before them |
| `GapAccounting.MissingRuns` | src/auditable_mcp/verify.py:220-240 | the runs computed from the gaps between present values are the maximal runs of the missing values |
| `GapAccounting.AccountRuns` | src/auditable_mcp/verify.py:299-305 | the interval form leaves the maximal runs of what the value-by-value procedure leaves |
| `GapAccounting.UnaccountedSignerSeq` | src/auditable_mcp/verify.py:268-311 | the whole accounting: per key and session in order of first appearance, one entry per maximal run left unaccounted |
| `GapAccounting.CollectGroups` | src/auditable_mcp/verify.py:268-283 | events are grouped by key and session in order, each with whether an attempt sealed before it correlates |
| `GapAccounting.MaximalRunsUnique` | src/auditable_mcp/verify.py:220-240 | a set of values has one list of maximal runs |
| `GapAccounting.AccountIsOptimal` | src/auditable_mcp/verify.py:249-262 | no assignment of refusals to smaller missing values leaves fewer values unaccounted |
| `GapAccounting.AccountIsAttained` | src/auditable_mcp/verify.py:249-262 | what the procedure accounts for is itself such an assignment |
| `GapMeaning.MissingIff` | src/auditable_mcp/verify.py:220-240 | a value is missing if and only if it is absent and a larger one is present |
| `GapMeaning.ValuesIff` | src/auditable_mcp/verify.py:268-283 | a value is present under a key and session if and only if some sealed event is numbered so |
| `GapMeaning.RefusalsCount` | src/auditable_mcp/verify.py:283-305 | a value counts as refused as often as a refusal so numbered stands in the ledger with no attempt of its operation before it |
| `GapMeaning.GroupsAre` | src/auditable_mcp/verify.py:268-283 | each key and session is listed once, in order of first appearance |
| `GapMeaning.GapsListed` | src/auditable_mcp/verify.py:268-311 | so the gaps reported are exactly the maximal runs of the values left under each, by first appearance and then by value |
| `ToolSession.Judge` | src/auditable_mcp/session.py:447-492 | an answer clears the action only if it is an accept that passes, in order, the countersignature rules and Polluted Stop over this attempt |
| `ToolHistory.JudgedClearIff` | src/auditable_mcp/session.py:447-492 | and it does so if and only if it passes them |
| `ToolHistory.JudgedForIff` | src/auditable_mcp/session.py:447-492 | the reason of a refusal, from the answer alone: rejected, unavailable, uncountersigned, a bad countersignature or another hash, each if and only if the answer is so |
| `ToolHistory.TerminalTellsTheEnd` | src/auditable_mcp/session.py:498-518 | over every interleaving success is emitted only of an action whose body completed, and failed only of one whose body raised |
| `ToolHistory.EndIsTold` | src/auditable_mcp/session.py:498-518 | and once the emission of an ended body went out, the one that tells how it ended is among the events |
| `ToolHistory.RefusalTellsWhy` | src/auditable_mcp/session.py:432-496 | a refusal gives the reason of the answer that turned its action down, or of the transport's fault |
| `ToolConduct.OverIff` | src/auditable_mcp/session.py:390-518 | an action is over if and only if its last emission went out or it was broken off: cancelled before its section, raised in it, or unable to check an accept |
| `ToolConduct.NumbersUsedUp` | src/auditable_mcp/session.py:154-174 | the next number is the first and one for each section of a signing action that ended without raising, a fault of the transport included |
| `ToolConduct.EventsAreBuilt` | src/auditable_mcp/session.py:368-388 | every event emitted is of the session, under its action's id and key, with the body and signature given, numbered and signed exactly where the action signs and with a reason exactly where it refuses |
| `ToolSession.LeavingCompletes` | src/auditable_mcp/session.py:168-173 | a section that ends normally completes the last emission under the number it held and moves the number on by one |
| `ToolSession.NumberedInEmissionOrder` | src/auditable_mcp/session.py:154-174 | over every interleaving of concurrent actions on any sessions sharing the numbering, completed emissions carry start, start+1, ... in emission order, and a section that raised leaves the next number unused |
| `ToolSession.MoveKeepsToolInv` | src/auditable_mcp/session.py:412-518 | every move keeps: one action in the section, each action consistent with what it emitted and was answered, one attempt per action, a refusal numbered after its attempt |
| `AmcpSessions.AuditSession.TakeNumber` | src/auditable_mcp/session.py:165-171 | inside the section the number held is the next one; keeps the tool's invariant |
| `AmcpSessions.AuditSession.Emit` | src/auditable_mcp/session.py:368-388 | the event built carries the action's id, the session and the number held, and is the last of the log; keeps the invariant |
| `AmcpSessions.AuditSession.LeaveSection` | src/auditable_mcp/session.py:168-173 | the number advances and the emission completes exactly where the section ended normally |
| `AmcpSessions.AuditSession.Answered` | src/auditable_mcp/session.py:447-496 | the body is cleared exactly when the answer is judged so, and otherwise a refusal with the judged reason is owed; keeps the invariant |
| `AmcpSessions.AuditSession.Fault` | src/auditable_mcp/session.py:432-445 | a transport fault uses the number up and owes a refusal as unavailable does; keeps the invariant |
| `AmcpSessions.AuditSession.RaiseInSection` | src/auditable_mcp/session.py:421-431 | a section that raises ends the action and leaves the next number unused; keeps the invariant |
| `AmcpSessions.AuditSession.FinishOutcome` | src/auditable_mcp/session.py:390-410 | a refusal or terminal outcome emitted ends the action; keeps the invariant |
| `AmcpSessions.AuditSession.EndBody` | src/auditable_mcp/session.py:498-518 | a body that completed owes success and one that raised owes failed; keeps the invariant |
| `Deployment.BodyRunsOnlyOnRecord` | src/auditable_mcp/session.py:480-518 | composed with the host over a transport that may mix up answers, and whichever ids are opened again, an action with Polluted Stop runs its body only after its own attempt is committed at the accepted seq, where it stays |
| `Deployment.BodyIsConcluded` | src/auditable_mcp/session.py:498-518 | and over every run a cleared operation has, once its session is not open, a terminal record after its attempt or an unresolved flag |
| `Deployment.BodyIsConcludedOnce` | src/auditable_mcp/session.py:498-518 | where no id a committed record carries is opened again, that terminal record is the only one |
| `Deployment.AcceptBindsAttempt` | src/auditable_mcp/session.py:483-492 | by the hash, an accept of any attempt that passes Polluted Stop for this attempt is an accept of this attempt |
| `ToolGaps.LeftIsUnrefused` | src/auditable_mcp/verify.py:268-311 | over every run and any transport, if a tool numbers its session from 0 and every outcome it emitted or owes is sealed, no more numbers are left unaccounted under a key than are missing there and not those of attempts it refused as rejected or unavailable |
| `ToolGaps.NothingLeftIff` | src/auditable_mcp/verify.py:268-311 | exactly so many, where no used id is opened again and every emission completed: nothing is left if and only if each missing number is that of an attempt the tool refused so |
| `ToolGaps.LeftUnderOneKey` | src/auditable_mcp/verify.py:268-311 | where the transport is faithful, or left the tool with no accept it turned down for good, no more are left under a key than are missing there because the session used them under another |
| `ToolGaps.HonestToolLeavesNoGap` | src/auditable_mcp/verify.py:268-311 | so under those conditions a tool that signs its session under one key leaves nothing of it unaccounted - attempts rejected, unavailable, lost, or landed unnoticed included |
| `StrayAccept.StrayAcceptLeavesGap` | src/auditable_mcp/session.py:483-492 | a concrete run over a transport that mixes up answers, in which a tool turns another attempt's accept down and the number of its own attempt is left unaccounted |
| `ToolGaps.AuditListsNoGapOfHonestTool` | src/auditable_mcp/verify.py:543-557 | and an audit of the stored records lists no gap of that tool's key and session |
| `ToolGaps.RefusedAreAccounted` | src/auditable_mcp/verify.py:299-311 | each missing number of a refused attempt has its own later sealed refusal, so the accounting leaves no more than the others |
| `ToolGaps.CountedIsRefused` | src/auditable_mcp/verify.py:249-262 | a refusal the accounting counts is of an attempt whose number is missing, where every emission completed |
| `RoundInvariant.RoundsConserveEvents` | src/auditable_mcp/mcp/seam.py:971-1425 | for a concluded call every outcome emitted is carried exactly once in emission order over rounds and final result; the final carries no attempt, and an error nothing at all; an attempt no round carried is answered unavailable, but one whose place a later attempt of its id took is answered by nothing but its own timeout |
| `RoundInvariant.DisplacedIsUnanswered` | src/auditable_mcp/mcp/seam.py:980-983 | a concrete run in which two attempts of one id join one round and its retry answers the later one only |
| `RoundInvariant.AtMostOnce` | src/auditable_mcp/mcp/seam.py:1046-1109 | a live call has a round out exactly when it has no id to answer on; no token resumes two rounds; no request is answered twice; accept comes only from the retry that closed the round that carried the attempt |
| `RoundInvariant.NothingIsStuck` | src/auditable_mcp/mcp/seam.py:1038-1109 | a final frame held back, or an attempt on an open id, always has a round out or on its way |
| `RoundInvariant.MoveKeepsInv` | src/auditable_mcp/mcp/seam.py:971-1425 | every operation keeps the tables, tokens, requests, event balance and attempts consistent |
| `RoundReference.TransportFollows` | src/auditable_mcp/mcp/seam.py:971-1425 | over every run the transport is a plainer thing - each call with its stage, the request it owes an answer or the round it has out, and what it has not sent; the line of calls that wait; the calls cancelled; the requests answered - that follows the moves without any of its tables and flags |
| `RoundReference.RequestsAreAnswered` | src/auditable_mcp/mcp/seam.py:1046-1167 | over every run each request received was answered once, or is the one request some call still owes an answer, which a dropped call never gives |
| `RoundReference.RoundsAreNeeded` | src/auditable_mcp/mcp/seam.py:1038-1109 | each round of a call at work, or answered with a result, carried an attempt |
| `RoundAnswers.UnansweredIff` | src/auditable_mcp/mcp/seam.py:971-1260 | an attempt is without an answer if and only if its wait has not run out and it was displaced, waits for a round of a live call, or is in the round out of a handler at work |
| `RoundAnswers.AnswersStand` | src/auditable_mcp/mcp/seam.py:1088-1100 | however a run goes on, the answer an attempt had stays |
| `RoundAnswers.AttemptsAreEmitted` | src/auditable_mcp/mcp/seam.py:971-1013 | the attempts answered for a call are those its handler emitted, each once and in order |
| `RoundHistory.FramesAreTheHandlers` | src/auditable_mcp/mcp/seam.py:1298-1425 | a final frame held or sent is one the call's own handler concluded with, and a live call answers on the id of the request it was last given |
| `RoundHistory.RetryAnswers` | src/auditable_mcp/mcp/seam.py:1076-1109 | a retry in the call's session gives each waiting attempt of its round the answer under its id or unavailable; one that names another session, or none, gives each unavailable |
| `ToolTransports.McpAuditTransport.SendAttempt` | src/auditable_mcp/mcp/seam.py:971-1013 | the attempt joins the buffer and waits, or nothing happens past the call's conclusion; keeps the invariant |
| `ToolTransports.McpAuditTransport.SendOutcome` | src/auditable_mcp/mcp/seam.py:1015-1036 | the outcome is kept for the next frame exactly while the call is live; keeps the invariant |
| `ToolTransports.McpAuditTransport.EndRound` | src/auditable_mcp/mcp/seam.py:1046-1074 | everything buffered goes out under a new token on the open id, or nothing changes; keeps the invariant |
| `ToolTransports.McpAuditTransport.TakeRetry` | src/auditable_mcp/mcp/seam.py:1141-1167 | a retry is refused or consumed with its round, and answered with a waiting final frame; keeps the invariant |
| `ToolTransports.McpAuditTransport.AcceptRetry` | src/auditable_mcp/mcp/seam.py:1076-1109 | only the attempts of the round it closes are settled, each once, and the call answers on the retry's id |
| `ToolTransports.McpAuditTransport.SettleRound` | src/auditable_mcp/mcp/seam.py:1088-1100 | each awaiting attempt gets the retry's answer under its id or unavailable, the first answer standing |
| `ToolTransports.McpAuditTransport.EndCall` | src/auditable_mcp/mcp/seam.py:1235-1260 | a dropped call leaves every table, its round closes, and its attempts are settled unavailable |
| `ToolTransports.McpAuditTransport.Cancel` | src/auditable_mcp/mcp/seam.py:1200-1227 | a cancellation by any id the call was served under ends it; keeps the invariant |
| `ToolTransports.McpAuditTransport.KeepWaiting` | src/auditable_mcp/mcp/seam.py:1355-1372 | the final frame waits last in line, and the call that has waited longest goes beyond the bound |
| `ToolTransports.McpAuditTransport.FinalFrame` | src/auditable_mcp/mcp/seam.py:1382-1425 | a result goes out with the outcomes left, and an error with none: where some are left it waits for the retry of a round of their own |
| `ToolTransports.McpAuditTransport.Finish` | src/auditable_mcp/mcp/seam.py:1298-1353 | a cancelled call's frame is withheld, one with a round out waits, any other is concluded; keeps the invariant |
| `SessionKeeping.OneNumberingPerSession` | src/auditable_mcp/mcp/seam.py:1262-1296 | requests of one session in flight together share one session object and so one numbering; only sessions with nothing in flight are idle, and at most the bound of them |
| `SessionKeeping.TakeKeeps` | src/auditable_mcp/mcp/seam.py:1168-1198 | a new request joins the session held or begins one; live counts equal the requests in flight |
| `SessionKeeping.ReleaseKeeps` | src/auditable_mcp/mcp/seam.py:1262-1296 | a released request counts out once, and eviction drops only sessions with nothing in flight |
| `SessionKeeping.OneNumberingOverRounds` | src/auditable_mcp/mcp/seam.py:1168-1198 | over every run a session is served under one numbering from request to request until its last release, unless more than the bound of sessions were idle meanwhile |
| `SessionKeeping.SessionGoesIff` | src/auditable_mcp/mcp/seam.py:1262-1296 | a release gives a session up if and only if it is its last, with nothing left in flight, or one more would be idle than may be and it is the one idle longest |
| `SessionKeeping.AuditSessions.TakeRequest` | src/auditable_mcp/mcp/seam.py:1174-1187 | computes the specified tables and names the session object the request is served under; keeps the invariant |
| `SessionKeeping.AuditSessions.ReleaseRequest` | src/auditable_mcp/mcp/seam.py:1262-1296 | the session is kept idle for the next round, given up at its last request, and beyond the bound the one idle longest goes; keeps the invariant |
| `HostRounds.OutcomesHandedOnce` | src/auditable_mcp/mcp/seam.py:1950-2083 | over every run, whatever the tool sends, wherever the cut-off falls and whatever a worker left behind still does, each item due was handed to the endpoint exactly once, is still queued, or came in a round whose call had ended before it was taken up; nothing is queued once the session is closed |
| `HostRounds.OutcomesHandedInOrder` | src/auditable_mcp/mcp/seam.py:1950-2003 | with a tool that answers each request once, the endpoint is handed what arrived in arrival order across rounds, cut-offs and the final answer |
| `HostRounds.UncancelledLosesNothing` | src/auditable_mcp/mcp/seam.py:1950-2108 | a call neither cancelled nor evicted hands over exactly what arrived, in order, by the time its session closes |
| `HostRounds.OutcomeIsLostIff` | src/auditable_mcp/mcp/seam.py:1950-2037 | whatever the tool sends, a closed call lost something it was due if and only if some step ended it while a round with an outcome waited behind that step in its queue |
| `HostRounds.RoundIsLostIff` | src/auditable_mcp/mcp/seam.py:1950-2003 | with a tool that answers each request once, that is if and only if it was cancelled or evicted while a round with an outcome waited in its queue; the limit on rounds, a missing state and an unsent retry lose nothing |
| `HostRounds.CancelledBeforeTaken` | src/auditable_mcp/mcp/seam.py:1961-1963 | a concrete run in which a cancellation overtakes a queued round and its outcome is never handed over |
| `HostRounds.AnswersWereInTime` | src/auditable_mcp/mcp/seam.py:1994-2083 | a retry answers exactly the attempts of its round with a string id, each with the last decision reached before the cut-off for that id and unavailable where there was none; every attempt taken up by then was decided in time or is the one in hand, a late decision is only ever of that one, and no attempt is taken up afterwards |
| `HostRounds.UndecidedWasUntaken` | src/auditable_mcp/mcp/seam.py:1994-2083 | an answer that no decision in time gives is unavailable, and each attempt of its id was not taken up by the cut-off or was the one then in hand |
| `ReceiverHistory.RoundsAreFollowed` | src/auditable_mcp/mcp/seam.py:1960-2037 | over every run the rounds of a call are taken up in the order they came, each followed if and only if it carried a state and was among the first 256; one that was not ends the call; and while the call lives each followed was retried, the one at hand excepted |
| `ReceiverHistory.EachRequestIsAnswered` | src/auditable_mcp/mcp/seam.py:1887-2037 | with a tool that answers each request once, while the call lives the tool owes at most one answer, and the rounds that asked for the client's input are those the client retried and at most one more |
| `ReceiverHistory.ArrivedIsSent` | src/auditable_mcp/mcp/seam.py:1887-1905 | what is due at the endpoint is what the tool's answers carried: the outcomes of each round and all of a final answer, in order |
| `HostReceivers.RoundWork.TakeNext` | src/auditable_mcp/mcp/seam.py:2062-2078 | the next item is taken up once, and an attempt no retry would answer is passed over |
| `HostReceivers.RoundWork.Finish` | src/auditable_mcp/mcp/seam.py:2079-2083 | the decision of the item in hand is stored under its string id exactly where it comes before the cut-off; after it nothing the retry reads changes |
| `HostReceivers.RoundWork.CutOff` | src/auditable_mcp/mcp/seam.py:2040-2050 | what counted by the cut-off stays; the worker is not to take another item up |
| `HostReceivers.RoundWork.LeftoverOutcomes` | src/auditable_mcp/mcp/seam.py:1529-1532 | the outcomes among the items not taken up, in order |
| `HostReceivers.RoundWork.CollectAnswers` | src/auditable_mcp/mcp/seam.py:1994-2003 | the map of answers the retry carries |
| `HostReceivers.ReceiverCall.Arrive` | src/auditable_mcp/mcp/seam.py:1887-1905 | a round is queued to be followed, a final answer ends the call and queues what it carries; keeps the invariant |
| `HostReceivers.ReceiverCall.Evict` | src/auditable_mcp/mcp/seam.py:1795-1810 | the call ends and its close is queued behind its work; keeps the invariant |
| `HostReceivers.ReceiverCall.TakeJob` | src/auditable_mcp/mcp/seam.py:1960-1989 | the next job of the queue begins, a round of an ended call is let go, and one past the limit or without a state is abandoned; keeps the invariant |
| `HostReceivers.ReceiverCall.WorkerTurn` | src/auditable_mcp/mcp/seam.py:2062-2078 | any worker's turn, that of a round left behind included: the next item is taken up, and nothing is once the round was cut off; keeps the invariant |
| `HostReceivers.ReceiverCall.WorkerDone` | src/auditable_mcp/mcp/seam.py:2079-2083 | any worker completes the item in hand, and what the cut-off settled stays as it was; keeps the invariant |
| `HostReceivers.ReceiverCall.CutOff` | src/auditable_mcp/mcp/seam.py:2040-2060 | the cut-off stops the worker and fixes what the round leaves over; keeps the invariant |
| `HostReceivers.ReceiverCall.LeaveRound` | src/auditable_mcp/mcp/seam.py:1984-2037 | what is left is sealed at once where the call ended and otherwise queued before the retry, which answers the round; keeps the invariant |
| `HostReceivers.ReceiverCall.ClientRetry` | src/auditable_mcp/mcp/seam.py:1707-1720 | a round waiting for the client's input is retried by the client; keeps the invariant |
| `HostReceivers.ReceiverCall.SealNext` | src/auditable_mcp/mcp/seam.py:2087-2092 | the next outcome of the job is handed over, once and in order; keeps the invariant |
| `RegistryModel.RegistryHolds` | src/auditable_mcp/mcp/http.py:1311-1329 | over every run with fresh tokens: token table and open connections' tokens mirror each other, in-flight counts equal waiters, held calls are the open connections and within the bound, eviction and expiry cut no running call short, and a token's retry is written at most once |
| `RegistryModel.RefusalBurnsNothing` | src/auditable_mcp/mcp/http.py:928-958 | a retry is refused exactly for another principal, or another session than a tool's own round; a refusal changes nothing, and consuming then restoring gives the same registry back |
| `RegistryModel.FullOnlyWhenNoneEvictable` | src/auditable_mcp/mcp/http.py:1112-1130 | a new call is refused if and only if the registry is full and every open call is running or holds something undelivered |
| `RegistryModel.EvictableIsIdle` | src/auditable_mcp/mcp/http.py:503-520 | what is chosen for eviction is held and not running, and none is chosen only if no held call qualifies |
| `RegistryReference.RegistryFollows` | src/auditable_mcp/mcp/http.py:924-1460 | over every run the registry is a plainer thing - each call with its requests, the order in which calls were used, the calls gone, and where each token is - that follows the moves without its order list, its token tables and its counters |
| `RegistryReference.ClosedIff` | src/auditable_mcp/mcp/http.py:1112-1329 | a move closes a call if and only if it is its close, the idle bound of one that is not busy, or an opening under a new session with as many held as may be, of which it was used longest ago among those that may be closed |
| `RegistryReference.AnswersFollow` | src/auditable_mcp/mcp/http.py:924-1139 | what an opening, a retry and a request are answered, from that alone |
| `CallRegistries.AuditedStreamableHTTP.Close` | src/auditable_mcp/mcp/http.py:1311-1329 | the call leaves both tables, its tokens with it, and its requests are answered; keeps the invariant |
| `CallRegistries.AuditedStreamableHTTP.Open` | src/auditable_mcp/mcp/http.py:1112-1139 | already open, full, or opened - after closing the least recently used call that may be closed; keeps the invariant |
| `CallRegistries.AuditedStreamableHTTP.FindEvictable` | src/auditable_mcp/mcp/http.py:1117-1121 | the first evictable call in order of use |
| `CallRegistries.AuditedStreamableHTTP.Expire` | src/auditable_mcp/mcp/http.py:1273-1295 | the idle bound closes a call only if it is not running; keeps the invariant |
| `CallRegistries.AuditedStreamableHTTP.NoteRound` | src/auditable_mcp/mcp/http.py:1231-1257 | the round's token finds its connection from then on, unless the connection closed; keeps the invariant |
| `CallRegistries.AuditedStreamableHTTP.Present` | src/auditable_mcp/mcp/http.py:924-947 | a token is consumed at once by the retry that may use it, and by no other; keeps the invariant |
| `CallRegistries.AuditedStreamableHTTP.Restore` | src/auditable_mcp/mcp/http.py:949-957 | the token of a retry that was not written is out again, unless the connection closed; keeps the invariant |
| `CallRegistries.AuditedStreamableHTTP.Enter` | src/auditable_mcp/mcp/http.py:1423-1452 | a request is registered, counted and written, or none of these; keeps the invariant |
| `CallRegistries.AuditedStreamableHTTP.Leave` | src/auditable_mcp/mcp/http.py:1454-1460 | a request is counted out once; keeps the invariant |
| `CallRegistries.AuditedStreamableHTTP.WriteRetry` | src/auditable_mcp/mcp/http.py:958-970 | the retry is written and its token is spent, or the token is given back; keeps the invariant |
| `Base64.UrlRoundTrip` | src/auditable_mcp/encoding.py:19-22 | decoding any encoding gives the octets back |
| `Base64.UrlBijection` | src/auditable_mcp/encoding.py:25-44 | a string decodes to octets if and only if it is their encoding, so no two accepted strings share their octets |
| `Base64.UrlAccepts` | src/auditable_mcp/encoding.py:34-44 | exactly the unpadded strings of the alphabet, of a possible length and with no stray bits, decode |
| `Base64.StandardBijection` | src/auditable_mcp/encoding.py:47-68 | the padded form is a bijection for octets that are not none |
| `Base64.StandardAccepts` | src/auditable_mcp/encoding.py:60-68 | exactly the correctly padded, non-empty strings of the standard alphabet with no stray bits decode |
| `Base64.StandardRoundTrip` | src/auditable_mcp/encoding.py:47-68 | decoding a padded encoding gives the octets back, and the empty one is refused |
| `Base64.SextetsOfOctets` | src/auditable_mcp/encoding.py:38-44 | a run of sextets survives decoding and encoding if and only if it has no stray bits |
| `Base64.PlaceInAlphabet` | src/auditable_mcp/encoding.py:14-16 | each value is written as the character at its place of the alphabets of RFC 4648 sections 4 and 5, and no other character has a value |
| `Base64.BitsGiveSextets` | src/auditable_mcp/encoding.py:19-22 | the sextets are the octets' bits in their order, six by six and filled up with zeros, and no others are |
| `Base64.UrlWritesBits` | src/auditable_mcp/encoding.py:19-22 | a string is the encoding of octets if and only if it writes those bits in that alphabet |
| `Base64.StandardWritesBits` | src/auditable_mcp/encoding.py:60-68 | the same of the padded form, with as many = as make its length a multiple of four |
| `KeyProvisioning.ProvisioningKeeps` | src/auditable_mcp/l2/keys.py:160-188 | over any sequence of register, revoke and load no binding changes and no revocation is lifted |
| `KeyProvisioning.LoadIsUnion` | src/auditable_mcp/l2/keys.py:213-259 | a set loads if and only if every member is a key of the role that agrees with the registry and with every other member, and the result is the union with revocations joined |
| `KeyProvisioning.LoadsCommute` | src/auditable_mcp/l2/keys.py:213-259 | two sets load in either order alike: both fail, or both give the same registry |
| `KeyProvisioning.LoadTwice` | src/auditable_mcp/l2/keys.py:213-259 | loading one set and then another is loading both together |
| `KeyProvisioning.ExportReproduces` | src/auditable_mcp/l2/keys.py:195-211 | an exported registry loaded into an empty one of the same role is reproduced, revocations included |
| `KeyRegistries.KeyRegistry.Register` | src/auditable_mcp/l2/keys.py:160-188 | registered, unchanged or refused as specified, and nothing held is rebound or lifted |
| `KeyRegistries.KeyRegistry.Revoke` | src/auditable_mcp/l2/keys.py:261-276 | an entry held is marked and stays, an unknown id is refused and changes nothing |
| `KeyRegistries.KeyRegistry.LoadJwks` | src/auditable_mcp/l2/keys.py:213-259 | the rehearsed loops load the whole set exactly when it fits, and otherwise change nothing |
| `KeyRegistries.KeyRegistry.ToJwks` | src/auditable_mcp/l2/keys.py:195-211 | every entry is listed once with its role and mark, and loading the list elsewhere reproduces the registry |
| `KeyRegistries.KeyRegistry.Current` | src/auditable_mcp/l2/keys.py:283-287 | an entry is given exactly when it is registered and not revoked |

## Left out

- The text of an anomaly and the order of anomalies: a host's anomalies are a multiset of id and kind, so the
  ids rejected earlier, which only choose the wording of an orphaned outcome, are kept but decide nothing.
- A host without a repository, and the host's own checks of its configuration at construction.
- Sessions as shared mutable objects: an open session is a value in the host's table, and a call, a round or
  a connection is named by its place in a list, as the tables hold references; no aliasing beyond that.
- The partition lock and the numbering lock as such: each host operation is one step, and the numbering
  section of the tool is a holder that at most one action is.
- Canonicalization, hashing, signature algorithms and key encodings: an injective hash, equality of events,
  predicates for signatures, and keys as values.
- The wire models and their patterns: one predicate `wellFormed` beside the rules the members carry; the
  auditor with the default record adapter, without the principal binding of an envelope, and with the current
  event version except in `VersionRegressions`.
- `unaccounted_signer_seq` over items that are not objects, which it skips.
- The order of an exported key set and of the anomalies of a closing session: sorted in the program, any
  order here.
- LeftIsUnrefused: a bound where a used id is opened again or a section is left by an exception, for a spare
  refusal may then account for more; exact otherwise (`NothingLeftIff`).
- RestartIsInvisibleIff: for fresh runs, and by `ReopenedRestartIff` as a used id is opened; not for every
  state after that.
- BodyRunsOnlyOnRecord: without Polluted Stop, only over a transport that hands each attempt its own answer.
- The binding for servers before rounds (each attempt a request of its own) in both ends of the seam, task
  augmentation, negotiation and declarations, header handling, and the operations still open that keep a
  connection from closing: a connection's `seamRunning` and `undelivered` are set by the environment.
- Restoring the input requests of a round to the client, beyond the hold and the client's retry; the table of
  held rounds and its eviction appear as a move that ends the call.
- How long the endpoint takes over an outcome: handing one over is one step, taken when it is taken up.
- Closing a connection: each call's end is a move of its own, so the bound on the wait for queued work and
  the report of what it left are not modelled.
- Forwarding a retry to the instance that holds it, schema lookup, notifications and the response streams of
  the HTTP entry.
- Time: a timeout, an idle bound or a deadline is a move that may happen at any point; nothing is claimed to
  happen eventually.
- Capabilities, degradation, decorators, reconciliation, salted hashes and declarations: small case analyses.
