# EverRun's recovery kernel in Dafny

EverRun lets an agent crash in the middle of a mission and be resumed by another
process without repeating an effect in the outside world. It keeps an
append-only, hash-chained event log, an idempotency ledger for external effects,
checkpoints, confirmation and approval tickets, and a recovery kernel that names
one next safe action. This project models those parts and proves what they
promise over whole runs: any number of processes, any interleaving of their
transactions, dying anywhere.

`dafny verify dfyconfig.toml` checks everything.

## How the model is built

| file | what it holds |
|---|---|
| `Prelude`, `Json`, `JsonReader` | exceptions, canonical JSON text, its injectivity, and a reader that gives the value back |
| `Models`, `Facts` | the records and the JSON each one is hashed as, and that this JSON fixes them |
| `Chain` | digests, `verify_chain`, one anchor fixing one history |
| `Projection`, `Contracts`, `Environment` | the folds over a log, success contracts, the staleness fixpoint |
| `Rows`, `Ledger`, `Recovery`, `Decisions`, `Closing` | each transaction as a function on one mission's rows; the recovery decision; closing and approving |
| `Store`, `LedgerStore`, `Capsule`, `Service`, `Demo` | the same operations as methods of classes that update tables in place, each proved against those functions |
| `ToolEffects` | what each tool of the server answers and records |
| `Runs` | interleaved runs of the transactions, and the chain in every run |
| `ReplayedLedger`, `ClosedRuns`, `ClosingGap`, `CheckpointRuns`, `ApprovalRuns`, `WorkerRuns`, `BudgetRuns`, `Gate`, `Settlements`, `Reconcilers`, `PendingRuns` | the theorems about runs, one file a subject |

- A transaction is a function from a mission's rows (`MissionRows`: its row or
  rows in every table) to new rows and a return value or exception. The classes
  keep one field per table, change it statement by statement, and are proved to
  move exactly one mission's rows, to what the function says.
- `complete_mission`, `checkpoint` and the ticket handler act in two steps with a
  gap; a run may put any other step into that gap, or let the process die there.
- `h`, of type `Hash`, stands for SHA-256 of a text and is any function from strings to
  strings.
  Nothing assumes that it is injective: the theorems end in "or here are two
  different texts with one digest".
- Clock readings, fresh tokens, probe answers, what an effect returns and the
  redaction of a payload are arguments.
- An event's type and payload are one value (`Fact`): the constructor is the type,
  its arguments are the payload entries that type's writer stores.

What runs assume: events are appended as the repository's own code appends them
(ACTION_* only by the ledger, MISSION_COMPLETED only by `complete_mission`,
CHECKPOINT_CREATED only by `checkpoint`, MISSION_STARTED only by
`create_mission`); `request_approval` and `approve_with_ticket` each run as one
step, and `ApprovalRuns` says separately what happens when others act between their
checks and their transaction; what `recover` and the checks of `complete_mission` read
in several SELECTs, outside any transaction, they read at one instant. In `Gate`, a
settlement of an uncertain action tells the truth and waits until no live call holds
the claim; nothing in `ledger.py` enforces either, and
`Settlements.SettlementHarmlessIff` says exactly which settlements need it.

Where code and documentation part, the model follows the code:

- `ARCHITECTURE.md:63` maps "goal reached" to `verified_complete`; the code
  answers `continue` with the action `close_mission`, as line 173 of the repository's
  README.md says, and needs the explicit closing event first.
- Line 242 of the repository's README.md says closure is rejected while an effect
  is unresolved. The checks of `complete_mission` run before its write: a mission is
  closed with an unresolved effect exactly when a claim was granted and not settled
  in between (`ClosingGap.UnresolvedIffClaimedInGap`); `recover` then still asks for
  the reconciliation. The same gap lets in unconfirmed work and evidence against the
  contract (`ClosingGap.UnconfirmedIffWorkInGap`, `ClosingGap.UnmetIffOverturnedInGap`).
- Line 132 of the repository's README.md names the anchor as what keeps history
  append-only. Recording an event replaces the anchor without looking at it, so a
  refused log is accepted again exactly when only the anchor refused it
  (`Rows.RefusalForgottenIff`), which `verify_chain` reports before the append.
- `ActionLedger.claim` does not check that the mission exists. A mission verifies,
  once created, exactly when no claim was granted before (`Runs.EveryRunVerifies`).
- A satisfied contract means that all its clauses are met exactly for the contracts
  whose clauses agree on every evidence id (`Contracts.JudgedRightIffAgreeing`).
- A capsule carries the log of the actions but not their rows, so where it lands a
  completed action can be claimed again (`Capsule.ImportForgetsActions`).
- The mission id pattern ends in `$`, which also matches before one final newline;
  `Rows.IsMissionId` accepts that too.
- The crash demo raises FileNotFoundError when there is nothing to do at all
  (`Demo.RunDemo`).

## Model

| member | source | states |
|---|---|---|
| Json.CanonicalExact | src/everrun_agent/crypto.py:6-7 | on trees whose objects repeat no key, two values have one canonical text iff they are equal as Python compares them, whatever the order of their keys |
| Json.CanonicalInjective | src/everrun_agent/crypto.py:6-7 | one canonical text means equal values, with no assumption on the trees |
| Json.WriteSplits | src/everrun_agent/crypto.py:6-7 | a written value can be split off a longer JSON text in one way only |
| JsonReader.ReadBack | src/everrun_agent/crypto.py:6-7 | a reader after RFC 8259 gives back every written value, escapes and negative numbers included, and the text after it |
| JsonReader.CanonicalReads | src/everrun_agent/crypto.py:6-7 | a canonical text is read back whole, as a value that Python counts equal to the one written; for dicts without repeated keys every object's keys come in increasing order |
| Chain.VerifyChain | src/everrun_agent/store.py:240-273 | the loop returns the report that `Chain.VerifyExact` characterises |
| Chain.VerifyExact | src/everrun_agent/store.py:240-273 | for every stored list and anchor: ok iff the list opens with its start at sequence 1, every event is linked and the anchor agrees; `trusted_through` is the length of the longest linked prefix, and 0 without a start |
| Chain.ComplaintExact | src/everrun_agent/store.py:240-273 | which error is reported, exactly when: the missing start, the first event out of its place by its own stored number, the anchor, or none |
| Chain.PreimageReads | src/everrun_agent/crypto.py:14-35 | the text a digest is taken of is read back as one object that says the event's six columns and the previous digest, in the order of their names |
| Facts.FactFixed | src/everrun_agent/crypto.py:14-35 | one event type and one payload text mean one fact, argument by argument |
| Facts.PayloadIsDict | src/everrun_agent/crypto.py:14-35 | no payload says an entry twice |
| Facts.StateTextFixes | src/everrun_agent/checkpoint.py:9-24 | one stored checkpoint text means one semantic state |
| Chain.PreimageInjective | src/everrun_agent/crypto.py:14-35 | the text an event's digest covers fixes every column of the event and the digest before it, and its fact argument by argument: same type, every string, number, verdict and option equal, recorded arguments and results equal as Python compares them, pinned values equal as dicts |
| Chain.AnchorFixesHistory | src/everrun_agent/store.py:251-273 | two event lists that verify against one anchor are equal in every column and every argument of every fact, or a position holds two different texts with one digest |
| Rows.CreateExact | src/everrun_agent/store.py:172-189 | a mission is created iff id, goal and total are valid and the id is free, which alone is an IntegrityError; it then has exactly its row, its numbered start and the anchor on it |
| Rows.MissionIdExact | src/everrun_agent/store.py:29-39 | a mission id is one to 128 letters, digits, dots, underscores or hyphens, and perhaps one newline after them |
| Rows.AppendExact | src/everrun_agent/store.py:197-220 | an append succeeds iff the id is well formed, the payload fits, and the mission exists or is being started; it records exactly the given event, next in number and linked back, and touches no other table |
| Rows.RecordedVerifies | src/everrun_agent/store.py:147-170 | recording an event on a linked log, or a start on no log, leaves a linked log whose anchor is its last event |
| Rows.RecordedVerifiesIff | src/everrun_agent/store.py:154-170 | after any recorded event the log verifies iff it was linked before, whatever anchor it had, or starts with that event |
| Rows.ReopenExact | src/everrun_agent/store.py:102-114 | reopening gives a log without an anchor the anchor of its last event and moves nothing else; the log then verifies iff it is linked from its start and no anchor disagreed |
| Rows.RefusalForgottenIff | src/everrun_agent/store.py:166-169 | a refused log verifies again after the next event iff `verify_chain` reported an anchor mismatch, that is, iff the log is linked and only its anchor disagreed, by a lost tail or a rewritten history |
| Rows.TruncationForgottenByNextEvent | src/everrun_agent/store.py:166-169 | an instance: every log that lost its tail is refused against the old anchor, and verifies again after the next recorded event |
| Rows.CheckpointExact | src/everrun_agent/checkpoint.py:14-24 | a checkpoint is written iff its sequence is free: one row with the digest of its payload, one event naming both, nothing else |
| Rows.IssueExact | src/everrun_agent/store.py:367-385 | a ticket is issued iff the mission exists and the hash is new; exactly that hash becomes redeemable besides those that were |
| Rows.ConsumeExact | src/everrun_agent/store.py:387-396 | a ticket is redeemed iff it is there and unused; then it alone is used up |
| Projection.Project | src/everrun_agent/projection.py:24-49 | the loop raises iff the log does not open with a mission start, and otherwise returns the state that says what the log says, as `Projection.StateExact` states it |
| Projection.StateExact | src/everrun_agent/projection.py:24-49 | the projected state is the only one with the start's id, goal and total, the completed and the failed items, each once and in the order of their first events, and all decisions and findings in log order, repeats kept |
| Projection.StateAppend | src/everrun_agent/projection.py:32-49 | the state of a longer log is the earlier state with the later events replayed onto it |
| Projection.CompletedInFirstOrder | src/everrun_agent/projection.py:32-34 | `completed` lists exactly the completed items, each once, in the order of their first events |
| Projection.ReplayGrows | src/everrun_agent/projection.py:32-49 | more events only extend `completed` and leave the total alone |
| Projection.UnconfirmedExternalProgress | src/everrun_agent/projection.py:4-19 | true iff some agent-reported work has no confirmation numbered at or after it |
| Projection.UnconfirmedStep | src/everrun_agent/projection.py:12-19 | on a numbered log one more event makes progress unconfirmed iff it is agent work, or it was before and the event is no confirmation |
| Contracts.SatisfiedExact | src/everrun_agent/contracts.py:36-45 | a contract is satisfied iff every clause shares its id with a met clause; with distinct ids, iff every clause is met |
| Contracts.EvidenceExact | src/everrun_agent/contracts.py:36-40 | the verdict about an evidence id is that of the latest evidence with that id that a deterministic source or a human gave, and none without any |
| Contracts.ListedInOrder | src/everrun_agent/contracts.py:41-45 | proven and missing ids are listed clause by clause, in the order of the contract |
| Contracts.ListedOne | src/everrun_agent/contracts.py:41-44 | one clause's id is proven iff its evidence is what it expects, and missing iff it is not among the proven ones |
| Contracts.RepeatedIdGap | src/everrun_agent/contracts.py:44-45 | an instance: a contract that expects two verdicts of one id is satisfied with a clause unmet |
| Contracts.JudgedRightIffAgreeing | src/everrun_agent/contracts.py:29-45 | a contract is satisfied exactly when all its clauses are met, on every log, iff clauses that share an id expect the same |
| Contracts.AgentsProveNothing | src/everrun_agent/contracts.py:36-40 | removing everything an agent said never changes what a contract evaluates to |
| Environment.ChangedExact | src/everrun_agent/environment.py:23-27 | `changed` lists exactly the pinned keys whose value is no longer current, increasing and without repeats |
| Environment.Sweep | src/everrun_agent/environment.py:32-37 | one pass over the dependencies keeps the list justified, and either shrinks the valid components or leaves a closed set |
| Environment.ValidateEnvironment | src/everrun_agent/environment.py:18-38 | it terminates, cycles included; changed and stale together are the least set that contains the changed keys and is closed under dependencies; every stale entry is new and requires something changed or listed before it; safe iff nothing drifted |
| Environment.OrderDoesNotMatter | src/everrun_agent/environment.py:31-37 | two dictionaries with the same entries in any order have one invalid set |
| Environment.DependencyGraph | src/everrun_agent/store.py:579-585 | the loop fills the graph that `Environment.GraphExact` characterises |
| Environment.GraphExact | src/everrun_agent/store.py:579-585 | the graph is a dictionary that holds a component with some requirements iff an event declares exactly those and no later one declares that component |
| Environment.PinnedExact | src/everrun_agent/store.py:563-568 | the pinned environment is the one of the last event that pins one |
| Ledger.KeyExact | src/everrun_agent/ledger.py:33-34 | two actions share a key iff kind and arguments are equal, or their two different texts share a digest |
| Ledger.FindExact | src/everrun_agent/ledger.py:53-67 | looking an action up finds nothing iff no row has its key, and otherwise its row's status, external id and result |
| Ledger.MayClaimExact | src/everrun_agent/budgets.py:28-36 | the budget allows a claim iff the row's attempts are below the kind's limit and the number of other rows of the kind is below its total |
| Ledger.ClaimExact | src/everrun_agent/ledger.py:69-119 | each way a claim ends, exactly when: granted iff the action is new or did not occur and the budget allows it, an old claim iff completed, UncertainAction iff started, BudgetExceeded otherwise; a grant leaves one started row with one more attempt and the event that says so, everything else leaves all as it was |
| Ledger.CompleteExact | src/everrun_agent/ledger.py:121-139 | a completion works iff the row is started; it then rewrites status, external id and result of that row alone, a missing result to the empty object and any other as given, and records the event, and otherwise changes nothing |
| Ledger.ReconcileExact | src/everrun_agent/ledger.py:141-161 | the same for a reconciliation, with the status that was found |
| Ledger.UncertainInOrder | src/everrun_agent/ledger.py:169-183 | the uncertain details are exactly the started rows, each once, in rowid order |
| Recovery.Recover | src/everrun_agent/recovery.py:36-133 | mode, safe flag and next action are those `Decisions` states; the candidates are exactly the applicable modes, each with the action and reason its signal calls for; the reasons are theirs, in the order of falling severity: effects, reviews, drift, progress; and the decision is sealed |
| Decisions.DecisionExact | src/everrun_agent/recovery.py:51-133 | each mode exactly when, from the rows alone; safe iff the chain verifies, no row is started, no agent work is unconfirmed, nothing pinned drifted, and no clause of a closed mission's contract is unproven |
| Decisions.ActionExact | src/everrun_agent/recovery.py:56-133 | the next safe action names the first started row, the least drifted key or the first unproven clause, and otherwise is the constant of its mode |
| Recovery.ModeIsMaximum | src/everrun_agent/recovery.py:13-21 | the decided mode applies to the mission and no applicable mode is more severe |
| Recovery.OrderFree | src/everrun_agent/recovery.py:129-133 | reordering the candidates changes neither mode nor safe flag |
| Recovery.SortedWorstFirst | src/everrun_agent/recovery.py:129-132 | the sort keeps every candidate, lists them by falling severity and puts the chosen winner first |
| Recovery.SealFixesContent | src/everrun_agent/recovery.py:26-33 | two sealed decisions with one digest say the same in every field, or their texts collide |
| Closing.AgentNeverLowers | src/everrun_agent/projection.py:12-19 | on a verified log no agent-reported work or evidence lowers the severity; evidence leaves the mode alone and work makes it unsafe, for every environment and contract |
| Closing.CloseIffSafe | src/everrun_agent/store.py:587-617 | without contract, environment or other writers, closing succeeds iff `recover` is safe, the target is met and the row can be appended; then `recover` answers verified_complete; a refused close changes nothing |
| Closing.CloseExact | src/everrun_agent/store.py:587-617 | for every contract: closing works iff the chain verifies, no row is started, no agent work is unconfirmed, the target is met, the contract satisfied and the row can be written; it records the two numbers of the progress and nothing else |
| Closing.RequestExact | src/everrun_agent/store.py:507-527 | a request may be made iff its time to live is in range, the chain verifies, no row is started and agent work is unconfirmed; it shows the mission's own progress, no pending risk, its digest and its expiry |
| Closing.RequestWriteExact | src/everrun_agent/store.py:515-519 | the request's transaction stores its digest and expiry, unused, under its ticket's hash and touches no other ticket, or refuses a hash already there |
| Closing.RequestApprovalExact | src/everrun_agent/store.py:507-528 | it is granted iff besides its ticket's hash is new; exactly one unused row is stored under it |
| Closing.ApproveExact | src/everrun_agent/store.py:530-561 | a ticket is redeemed iff it is stored, unused, not expired, and the digest given is both its own and the mission's; it alone is used then, and the human confirmation recorded |
| Closing.ApprovalTextFixes | src/everrun_agent/store.py:494-505 | one approval text means one mission, progress, event count and verified length |
| Runs.Shape | src/everrun_agent/store.py:137-170 | every step of a run either records the one event named for it and moves the anchor onto it, or leaves log and anchor alone |
| Runs.EveryRunVerifies | src/everrun_agent/store.py:102-273 | in every run events are numbered from 1, reopening changes nothing, every earlier log is a prefix of the later one, and before the first event there are no rows; a created mission verifies, to its last event, iff no claim was granted before its creation |
| Runs.MissionsDoNotInterfere | src/everrun_agent/store.py:137-170 | steps on many missions in any order leave a mission as the steps on it alone would; that one step moves one mission only is what every method of `EverRunStore` and `ActionLedger` ensures as `Only` |
| ReplayedLedger.TableIsReplay | src/everrun_agent/ledger.py:69-161 | in every run the actions table is the replay of the log: one row per started key in order of first start, with status, attempts, external id, kind and arguments as its events say, each start numbered by its attempt, and each key's events of the form (started, not occurred)* (started, (completed or occurred)?)? |
| ClosedRuns.VerifiedCompleteIsEarned | src/everrun_agent/store.py:594-617 | in every run, other writers acting between the closing checks and the closing event included, verified_complete means: the chain verifies, no row is started, all agent work has a later confirmation, the distinct completed items reach the total or it is 0, nothing pinned drifted, and the contract asked about is satisfied |
| ClosingGap.CloseCanRaceAClaim | src/everrun_agent/store.py:596-617 | whenever a mission may be closed and a claim granted, the claim can fall between checks and write: the mission is then closed with a started row, and `recover` answers reconcile |
| ClosingGap.UnresolvedIffClaimedInGap | src/everrun_agent/store.py:594-617 | for every history and every gap of steps between the passed checks and the write: the mission ends with an unresolved effect iff a claim was granted in the gap and not settled in it, and exactly then `recover` answers reconcile |
| ClosingGap.StartedIffUnsettled | src/everrun_agent/ledger.py:69-161 | over any run a key that was not started is started at the end iff some granted claim on it was not settled later |
| ClosingGap.GapWithoutClaims | src/everrun_agent/store.py:594-617 | a gap in which nobody claims, however long, leaves a closed mission with nothing unresolved |
| ClosingGap.GapOfOneStep | src/everrun_agent/store.py:594-617 | a gap of one step leaves an unresolved effect iff that step is a granted claim |
| ClosingGap.UnconfirmedIffWorkInGap | src/everrun_agent/store.py:599-617 | the mission is closed with unconfirmed agent work iff agents worked in the gap with no confirmation after it; `recover` then asks for a review unless an effect is unresolved |
| ClosingGap.UnmetIffOverturnedInGap | src/everrun_agent/store.py:609-617 | the mission is closed against its contract iff the gap's last trusted evidence on some clause's id is what no clause of that id expects |
| ClosingGap.RaceFromStart | src/everrun_agent/store.py:587-617 | from an empty store: create, check, claim any action, write; the mission is closed and unresolved |
| CheckpointRuns.ExecCheckpointsRight | src/everrun_agent/checkpoint.py:9-24 | every checkpoint row, and every checkpoint read but not yet written, holds the projection of exactly the log prefix up to its sequence, whatever is appended in the gap; sequences never repeat |
| CheckpointRuns.RestoreIsPointInTime | src/everrun_agent/store.py:280-306 | in every run restoring fails iff the checkpoint does not exist; otherwise it returns the state of the prefix the checkpoint names, which is the state it stored, and replaying the remaining events gives the current state |
| CheckpointRuns.RestoreExact | src/everrun_agent/store.py:280-306 | for any numbered log and any stored checkpoints: KeyError iff the checkpoint does not exist, RuntimeError iff its payload is not what its digest was taken of, ValueError iff the log has no start up to it, and otherwise the states of the prefix and of the log |
| ApprovalRuns.ApprovalVouches | src/everrun_agent/store.py:494-561 | a redeemed approval was redeemed on exactly the log it was requested on and in time, or two approval texts collide; it records the one confirmation and leaves no agent work unconfirmed |
| ApprovalRuns.ApprovalGrantedIff | src/everrun_agent/store.py:507-561 | after any further steps the request's own digest redeems its ticket iff the ticket is unused and in time and the log is the requested one, or two texts collide |
| ApprovalRuns.TicketRedeemsOnce | src/everrun_agent/store.py:530-561 | after a redemption every later redemption of that ticket is refused and changes nothing |
| ApprovalRuns.OneTicketPerLogState | src/everrun_agent/store.py:507-561 | of two tickets minted in one log state and redeemed one call after the other, in either order, the second redemption shows that two texts of this run collide: the one its ticket was minted on and the one, of a longer log, it was redeemed on |
| ApprovalRuns.RedeemedAcrossGap | src/everrun_agent/store.py:535-556 | whatever others do between the checks and the transaction, the redemption succeeds iff nobody redeemed the ticket meanwhile; its confirmation comes after the gap's events and covers their agent work too |
| ApprovalRuns.BothRedeemedAfterChecks | src/everrun_agent/store.py:545-556 | two tickets whose checks passed on one log are both redeemed; checked again after the first, the second needs a collision |
| WorkerRuns.TicketConsumedOnce | src/everrun_agent/store.py:387-396 | after a confirmation ticket is consumed, every later attempt finds it used and changes nothing |
| WorkerRuns.WorkersNeedTickets | src/everrun_agent/service.py:173-207 | in runs of tool steps in ticket mode confirmations never outnumber consumed tickets, and a mission with a positive total and no consumed ticket is neither closed nor verified complete, for every environment and contract |
| Service.AuthorizeExact | src/everrun_agent/service.py:96-122 | tool by tool: each of the seven changing tools is allowed iff the proven identity is on the allow-list; confirming iff besides, without tickets, the request carries the configured operator token; the five reading tools iff an identity is proven; otherwise TypeError for tokens outside ASCII and AuthorizationError |
| Service.ResolveExact | src/everrun_agent/service.py:96-108 | the proven identity is the pinned transport's, or the request's claim when no tokens are configured, or else the claimed client when the request presents exactly its configured, non-empty token |
| Service.Handle | src/everrun_agent/service.py:124-164 | an unauthorised request raises and changes nothing; an authorised one, claims on missions never created included, answers as specified and moves the store as its run steps do; if the mission's rows changed, the proven identity is on the allow-list; no other mission's rows move |
| Service.Dispatch | src/everrun_agent/service.py:168-277 | each handler of an authorised request answers as specified and moves the store as its run steps do |
| Service.ReadHandler | src/everrun_agent/service.py:228-277 | status, briefing and inspect answer invalid_arguments iff the mission has no start; resume and list_actions always answer |
| ToolEffects.StartRecords | src/everrun_agent/service.py:168-171 | a mission is created with its row and its start iff it can be, or answered invalid_arguments and nothing changed |
| ToolEffects.WorkRecords | src/everrun_agent/service.py:173-181 | reported work is recorded with the agent as its origin iff it fits and the mission exists |
| ToolEffects.CheckpointRecords | src/everrun_agent/service.py:183-185 | a checkpoint stores the text and digest of the state that says what the log says, under the last event's sequence, iff that is free |
| ToolEffects.ConfirmRecords | src/everrun_agent/service.py:187-203 | a redeemed ticket is used up even if the append is refused; the confirmation is a human's and names the proven client |
| ToolEffects.ConfirmRefused | src/everrun_agent/service.py:187-198 | with tickets, a confirmation without a redeemable one raises AuthorizationError and changes nothing |
| ToolEffects.CloseRecords | src/everrun_agent/service.py:205-207 | closing is answered ok iff the mission can be closed, and then records its progress |
| ToolEffects.ClaimRecords | src/everrun_agent/service.py:209-212 | a claim is answered uncertain_action iff its row is started, changes nothing when it is completed, and is granted otherwise, without a budget |
| ToolEffects.CompleteRecords | src/everrun_agent/service.py:214-219 | a completion settles its row iff it is started |
| ToolEffects.ReconcileRecords | src/everrun_agent/service.py:221-226 | a reconciliation settles its row by what was found iff it is started |
| ToolEffects.ReadingRecordsNothing | src/everrun_agent/service.py:228-277 | the reading tools change nothing and fail only where there is no start to project |
| ToolEffects.UnreachedRecordsNothing | src/everrun_agent/service.py:124-134 | a request that is not authorised or names a malformed mission changes nothing |
| Service.ServingIsARun | src/everrun_agent/service.py:124-164 | for every server, with tickets or without: serving requests one after the other is a run of their steps |
| Service.ServerNeedsTickets | src/everrun_agent/service.py:110-207 | a server in ticket mode serving any requests from an empty store: confirmations never outnumber consumed tickets, and without one a mission with a positive total is neither closed nor verified complete |
| BudgetRuns.CapsHold | src/everrun_agent/budgets.py:28-36 | when every claim of a run uses one budget, attempts per action stay within the kind's limit, rows per kind within its total, and ACTION_STARTED events of a kind within their product, or two claims show a digest collision |
| BudgetRuns.RetryNotRefusedByTotal | src/everrun_agent/ledger.py:91-116 | a claim of an existing row is allowed by the budget iff its own attempts are below the limit: the kind's total never refuses a retry, unless keys collide |
| Gate.EffectAtMostOnce | src/everrun_agent/gate.py:43-67 | in every interleaving of any number of calls, with crashes and raises anywhere and truthful settlements of claims no live call holds, each action's effect happens at most once, exactly once when its row is completed, never when it is missing or not occurred, and at most one call per action returns that it performed it |
| Gate.LookExact | src/everrun_agent/gate.py:43-57 | in any state a new call returns for a completed row, raises for a started one or for none when a claim is required, and goes on to claim otherwise |
| Gate.TakeClaimExact | src/everrun_agent/gate.py:59-61 | the claim decides on the row as it is then: completed since, the call returns without performing; started since, it raises UncertainAction; refused by the budget, BudgetExceeded; and otherwise it holds the granted claim |
| Gate.FinishExact | src/everrun_agent/gate.py:66-67 | the completion works iff the row is still started, and raises KeyError otherwise |
| Gate.HolderAlwaysFinishes | src/everrun_agent/gate.py:62-67 | in every such run a call whose effect returned can complete its claim |
| Gate.UnguardedSettlementDoubles | src/everrun_agent/ledger.py:141-161 | an instance: if a truthful settlement does not wait for the live claim, the effect can happen twice, for every action not claimed before |
| Settlements.SettlementHarmlessIff | src/everrun_agent/ledger.py:141-161 | for every state of the guarded protocol and every settlement, truthful or not: no continuation makes the effect happen twice iff the settlement says it occurred, or finds the row not started, or the effect has not happened and no live call is between its claim and its effect |
| Settlements.TruthfulSettlementHarmlessIff | src/everrun_agent/gate.py:59-67 | a truthful settlement is harmless iff no live call is between its granted claim and its effect; a call that has fired may still hold the claim |
| Settlements.SafeRun | src/everrun_agent/gate.py:43-67 | what makes an effect happen at most once is kept by every guarded step, also when a completed row still has a holder |
| Reconcilers.PendingExact | src/everrun_agent/reconcilers.py:30-41 | the table becomes each started row answered by its probe, up to the first started row whose kind has none; all probed, it returns their number, otherwise it raises |
| Reconcilers.AnswersExact | src/everrun_agent/reconcilers.py:30-41 | up to the first started row without a probe each started row has its probe's verdict, no external id and an empty result, and every other row is as it was |
| Reconcilers.TruthfulProbesSettleAll | src/everrun_agent/reconcilers.py:30-41 | with truthful probes for all started kinds nothing stays started, each settled row is completed iff its effect happened, and every other row is untouched |
| Reconcilers.KillAndRerun | src/everrun_agent/reconcilers.py:30-41 | killed after any number of settlements and run again, it reaches the same table |
| PendingRuns.PendingAmongOthers | src/everrun_agent/reconcilers.py:30-41 | from any reachable state and with any steps of others in between: it stops at the first row without a probe, with UnresolvedAction, or not started at its turn, with KeyError, which somebody took since it was listed; without such a row it returns their number; every row before has the loop's own settlement in the log right at its turn |
| PendingRuns.AloneItIsSettleEach | src/everrun_agent/reconcilers.py:30-41 | with nobody in between, it is the loop the other rows speak of |
| Store.EverRunStore.InsertEvent | src/everrun_agent/store.py:147-170 | appends the next event, moves the anchor onto it, and touches no other mission |
| Store.EverRunStore.CreateMission | src/everrun_agent/store.py:172-189 | moves the mission's rows as the transaction function says; no other mission's rows move |
| Store.EverRunStore.Append | src/everrun_agent/store.py:197-220 | moves the mission's rows as the transaction function says; no other mission's rows move |
| Store.EverRunStore.Open | src/everrun_agent/store.py:102-114 | every log without an anchor gets the anchor of its last event, and nothing else changes |
| Store.EverRunStore.WriteCheckpoint | src/everrun_agent/checkpoint.py:14-24 | adds the row and its event in one transaction, or refuses a sequence already taken and changes nothing |
| Store.EverRunStore.CreateCheckpoint | src/everrun_agent/checkpoint.py:9-24 | checkpoints what its own read saw, or raises and changes nothing |
| Store.EverRunStore.IssueConfirmTicket | src/everrun_agent/store.py:367-385 | adds one unused ticket under its hash, or raises and changes nothing |
| Store.EverRunStore.ConsumeConfirmTicket | src/everrun_agent/store.py:387-396 | answers true iff the ticket was there and unused, and marks it used |
| Store.EverRunStore.StoreRequest | src/everrun_agent/store.py:515-519 | stores the request under its ticket's hash, or refuses a hash already there |
| Store.EverRunStore.RequestApproval | src/everrun_agent/store.py:507-528 | reads progress, risks and digest first and stores them in a transaction after, iff `recover` asks for review; returns the whole request |
| Store.EverRunStore.RedeemApproval | src/everrun_agent/store.py:547-556 | marks a ticket used and records the confirmation in one transaction iff it is there and unused |
| Store.EverRunStore.ApproveWithTicket | src/everrun_agent/store.py:530-561 | redeems and confirms iff the ticket is live and the digest is both its own and the current one, and returns what `recover` says then |
| Store.EverRunStore.CompleteMission | src/everrun_agent/store.py:587-617 | the sequence of checks and the append move the rows as the closing function says |
| Store.EverRunStore.Verify | src/everrun_agent/store.py:240-273 | reports on the mission's own log and anchor |
| LedgerStore.ActionLedger.Find | src/everrun_agent/ledger.py:53-67 | the claim of the row with the action's key, if there is one |
| LedgerStore.ActionLedger.Upsert | src/everrun_agent/ledger.py:96-111 | a new started row, or the old one started again with one more attempt; nothing else moves |
| LedgerStore.ActionLedger.Claim | src/everrun_agent/ledger.py:69-119 | moves the mission's rows as the transaction function says; no other mission's rows move |
| LedgerStore.ActionLedger.Complete | src/everrun_agent/ledger.py:121-139 | moves the mission's rows as the transaction function says; no other mission's rows move |
| LedgerStore.ActionLedger.Reconcile | src/everrun_agent/ledger.py:141-161 | moves the mission's rows as the transaction function says; no other mission's rows move |
| LedgerStore.ReconcilePending | src/everrun_agent/reconcilers.py:30-41 | the loop leaves the rows and the count that `Reconcilers.PendingExact` characterises |
| LedgerStore.ProtectedCall | src/everrun_agent/gate.py:33-67 | an uninterrupted call, case by case from the rows and the world before it: a completed row gives its external id, unperformed; a started one UncertainSideEffect; none, when a claim is required, UnclaimedSideEffect; a refusing budget BudgetExceeded, all four with nothing moved; a raising effect EffectFailed on a started row; and a returning one performed, the world one higher and the row completed under the resolved id. It ends where the protocol's steps end |
| LedgerStore.CallExact | src/everrun_agent/gate.py:33-67 | the steps of the protocol, run alone, end in exactly those cases |
| LedgerStore.FireAndComplete | src/everrun_agent/gate.py:62-67 | after a granted claim the effect and its completion end where those steps of the protocol end, whether the effect returns, raises before it happened or raises after |
| Capsule.LeakingSequences | src/everrun_agent/capsule.py:26-31 | lists exactly the sequences whose payload the redaction would change |
| Capsule.ExportCapsule | src/everrun_agent/capsule.py:34-94 | exports every event of a verified mission, refusing unknown, corrupt and, unless redacting, leaking missions in that order |
| Capsule.ExportExact | src/everrun_agent/capsule.py:51-80 | an export succeeds iff the mission exists and verifies and, unless redacting, holds nothing to redact, each refusal having its own cause; every event's columns are the log's; redacted, each fact is its redaction and the file is not transferable; otherwise each is the log's own and one the redaction leaves alone |
| Capsule.ImportedExact | src/everrun_agent/capsule.py:97-161 | an import into a store without the mission succeeds iff its signature is trusted or waived, it is intact and unredacted, and its events are, in whatever order they are listed, a log that verifies against the last one listed; the mission then has exactly that log, row and anchor |
| Capsule.ImportRefusals | src/everrun_agent/capsule.py:112-161 | which import ends with which exception: AttestationError iff a signature fails, ValueError for what is unsigned, damaged, redacted or empty, IntegrityError iff the mission, its anchor or a sequence is taken |
| Capsule.BodyDigestFixes | src/everrun_agent/capsule.py:64-81 | one capsule digest means one format, mission, pair of flags and list of events, fact by fact, or two different texts collide |
| Capsule.NeverImportedOver | src/everrun_agent/capsule.py:132-154 | a mission with a row or an anchor is never imported over, and stays as it was |
| Capsule.LandRows | src/everrun_agent/capsule.py:137-150 | the inserts land every row at its place in sequence order, and fail iff a sequence is taken |
| Capsule.WriteCapsule | src/everrun_agent/capsule.py:132-156 | mission, rows, anchor and final check, one after the other, reach the written rows or end with the exception that the first failing one raises |
| Capsule.ImportCapsule | src/everrun_agent/capsule.py:97-161 | the row-by-row inserts, the anchor and the final check reach the imported rows, or everything written is rolled back |
| Capsule.RoundTrip | src/everrun_agent/capsule.py:51-157 | exported unredacted from a verified mission and imported into a store without it: identical log, mission row and anchor, equal state, pinned environment and dependency graph, and equal mode and next action for every environment and contract when the source has no started action |
| Capsule.RedactedNeverImports | src/everrun_agent/capsule.py:123-127 | a redacted export is refused by every store and changes nothing |
| Capsule.ImportReplaysIff | src/everrun_agent/capsule.py:132-154 | the imported, empty actions table is the replay of the imported log iff the log starts no action |
| Capsule.ImportForgetsActions | src/everrun_agent/ledger.py:69-119 | after a round trip any action, completed ones included, can be claimed afresh in the target iff the budget allows a first attempt |
| Demo.RunDemo | src/everrun_agent/demo.py:22-67 | for every total and crash point: ValueError for an invalid total or an item too long to record, FileNotFoundError when there is nothing to do, and otherwise completed and unique outputs equal the larger of the two, no duplicates, a valid chain and one side effect |

## Left out

- SQLite, WAL, file modes, the append-only triggers, column migration and the schema version check: a transaction is one atomic step, and reopening is the anchor backfill alone.
- SHA-256, HMAC signatures and token randomness: `h` is any function, a signature check is an input that passed or failed, and tokens are arguments.
- The regular expressions of `evidence.py`: redaction is any function on events' payloads.
- `cli.py`, `dashboard.py`, `doctor.py`, `hermes.py`, `mcp_server.py`, `runtime_config.py`, `verifier.py`, `operations.py`, `storage.py` and the installer: user interface, network, files and backups.
- `handoff.py` and `adapters.py`: thin layers over `recover` and the ledger that would add only easy members; their events are in `Fact`.
- `service.py`'s JSON-RPC dispatch, argument parsing, unknown tools, `everrun_list_missions` and the texts the read-only tools return; every tool request opens the file anew, which changes nothing on a verified mission.
- The data in the tool replies besides success and error code.
- `list_missions` and `raw_query`, and the texts of `inspect_mission`: read-only listings without a property of their own.
- `RetryBudget.remaining`: a subtraction next to the check that is modelled.
- Payload shapes the repository's writers do not produce: work items that are not strings, evidence verdicts that are not booleans, floats in JSON, and Python's `True == 1`.
- The text columns: a payload read back is the payload written, up to the order of its keys, which `Json.CanonicalExact` shows no reader of the digest can see.
- ApprovalRuns.OneTicketPerLogState: the two calls of approval are single steps of `Runs`; a run in which two of them overlap is covered by `ApprovalRuns.BothRedeemedAfterChecks` alone.
- Capsule files that are not valid JSON or miss a field, and capsule imports as a step of a run.
- BudgetRuns.CapsHold: says nothing about claims made through different budgets on one mission, because the code enforces no common budget.
- Gate.EffectAtMostOnce: needs truthful settlements that wait for live claims, because the code enforces neither.
- PendingRuns.PendingAmongOthers: a probe's answer does not change while the loop runs.
- Reconcilers.KillAndRerun: compares the actions tables; the two logs differ in the times of their events.
