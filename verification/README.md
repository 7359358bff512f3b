# jean: a verified model of its coordination code

jean is a Slack agent that runs on any number of stateless workers. This project models the parts of it
that have to agree with each other while things fail, and proves what they keep:

- **Session and transcript replication** (`Replication*.dfy`, `TurnScript.dfy`, `JeanSession.dfy`, `MemoryStore.dfy`, `Stores.dfy`,
  `Rows.dfy`, `LocalTranscripts.dfy`, `Settle.dfy`, `Delivery.dfy`). `Replication` is a state machine: workers with
  their own disks, a cached CLI child and the `JeanSession` bookkeeping fields, and the thread's shared row and
  stored transcript. Every await of `run_turn` may fail. `JeanSessions.JeanSession` is the code of one worker as a
  class; its `RunTurn` is proved to take exactly the steps `TurnScripts.TurnT` gives for what the outside world decides, which are
  steps of that machine (`RunTurn`, `TurnLed`, `TurnIsARun`), so what is proved of all runs holds of the code; and `CleanTurnIs` and
  `GoesOnIs` say what a turn leaves behind in which nothing goes wrong.
- **The session cache** (`SessionManager.dfy`, `Sweep.dfy`): `handle` and `sweep` as interleaving tasks, what they never do and what
  they get done.
- **Approvals** (`Approvals.dfy`, `ApprovalInvariant.dfy`, `ApprovalTheorems.dfy`, `ApprovalGate.dfy`): requests, clicks,
  timeouts, notifications and retention across workers.
- **The MCP client** (`McpClient.dfy`, `McpProtocol.dfy`): concurrent JSON-RPC calls down one pipe.
- **Schedules** (`Schedules.dfy`), **environment references** (`EnvRefs.dfy`), **message chunking** (`Chunking.dfy`) and
  **partner engagement** (`Engagement.dfy`).

Classes stand where the source updates an object in place; each method's contract gives the whole new state as
a function of the old one, and the lemmas are about those functions and about all runs of the machines built from
them. Run `dafny verify dfyconfig.toml`.

## What the environment is taken to do

- A CLI child appends to one file, the one it resumed or its own new one, keeps that session id, and writes
  nothing after it is torn down. A resume may be refused at any time and is when there is no local file. A minted
  session id was never used before.
- Every turn and every idle close of a thread holds the thread lock. A worker that dies gives it up; it may leave
  any of its files behind.
- Retention does not delete a thread's row while a worker holds a session for it: a recreated row would count its
  turns from zero.
- "My file is newer" is knowledge of one live `JeanSession`: a new instance has no `_sid` and hydrates, and so does one
  whose first bump failed. So `OwnTurnsSurvive` is about one instance whose bumps land.
- The clock a worker stamps `_last_touch` with does not go back (`SweepSparesTouched` rests on it; the code reads `time.time()`).
- Approval ids and schedule ids are never handed out twice. A LISTEN notification is only sent by `resolve`; it may come
  late, or never. The cron library returns the first occurrence strictly after a time. gzip is lossless. SQL statements
  and transactions are atomic; a row another poll has locked is skipped.

## What the code does not do

- **An update can be lost** (`AbandonedHydrationLosesTurn`, `AnotherIdLosesTurn`). The comments at
  src/jean/session/session.py:289-308 and 741-760 and ARCHITECTURE.md:125 promise that at worst one turn is lost and
  that another worker's archived turn is never overwritten. But `_connect` moves `_seen_seq` to the row's turn at line 279,
  before it hydrates at 316-318. If the load or the write then raises, the next turn finds `_seen_seq == committed_seq` and
  trusts its own file, which lacks the other worker's turn, and archives it over that turn. A connect under another
  session id moves `_seen_seq` in the same way while `_sid` and its file stay. A write that stops part-way loses even a
  turn that nobody else was near (`TornHydrationLosesOwnTurn`). So does a query on another session id, which clears
  `_archived` although the flag was about `_sid`'s file (`QueryOnAnotherIdLosesTurn`). The model follows the code. The one step by
  which the protocol stops being sound is the connect whose `local_is_newer` takes such a stray file (`SoundnessIsExact`), and
  an update is lost only when a client opened that way saves (`NoLostUpdate`, `LossIsTraced`). `ArmingIsExact` says exactly which
  steps leave a file to be trusted, `LossFollowsArming` exactly after which failed turns the next one may lose what is stored,
  and `ArmedLoses` that it then can.
- **A turn can be deleted by `close`** if the CLI had not finished writing when `_archive` read the file: `_settle` may run
  into its deadline, and `_archive` then stores and believes a shorter file (`EarlyArchiveLosesTurn`). `CloseIsExact` gives the
  exact condition.
- **The record count can be wrong after a torn hydration.** `LocalTranscripts.write` (src/jean/session/transcript.py:88-94) drops
  the cached count only after the bytes are written. A write that raises leaves the count of the old file cached over a
  shorter one, and `sample` returns it once the file is that long again (`TornHydrationMiscounts`; exactly when: `TearingIsExact`).
- **A transcript whose row names no session** is possible for a caller that saves before it names one (`TranscriptsAreNamed`);
  `JeanSession` always names the session first.
- **A scheduled turn can start after its grace window.** `run_once` judges lateness by the time of the poll, but a claim may wait
  behind long turns of the same poll (`SecondClaimStartsLate`), and `handle` (src/jean/server.py:332-334) then waits for the thread lock
  before the turn (src/jean/session/manager.py:43-49), even if there is one claim only (`LockedClaimStartsLate`). Exactly when:
  `StartsInTimeIff`.
- **A reply need not carry the id that was sent.** `McpClient` matches replies by dictionary lookup, so `1.0` or `true` answers request 1
  (`LooseIdsAnswer`).

## Model

| member | source | states |
|---|---|---|
| ReplicationTheorems.NoLostUpdate | src/jean/session/session.py:289-318 | over every run of any workers with any failures in which no client that was opened on a trusted stray file gets to save, each save extends the transcript stored under its id or opens an id minted by a client opened without resume, and stored histories only grow |
| ReplicationTheorems.MintedByFreshOpen | src/jean/session/session.py:280-288 | every known session id was minted by an open without resume |
| ReplicationTheorems.Staleness | src/jean/session/session.py:612-628 | a worker never counts a turn that was not committed, is behind while another is between bump and save, and, while no client on a trusted stray file has saved, every other open client that is current continues what is stored |
| ReplicationTheorems.TurnRunsInRowMode | src/jean/session/session.py:612-630 | every query runs in the permission mode of the row read at the start of its turn, whenever `/mode` ran |
| ReplicationTheorems.RowWasRead | src/jean/session/session.py:611-630 | the row a turn works with is the one its own first read returned |
| ReplicationTheorems.Converges | src/jean/session/session.py:298-318 | a connect after another worker's bump resumes exactly the stored transcript, whatever file the worker held |
| ReplicationInvariant.RunInv | src/jean/session/session.py:741-790 | one turn at a time; after a bump every other worker is behind; the stored transcript is the last one saved; in every run |
| ReplicationSafety.SoundnessIsExact | src/jean/session/session.py:309-315 | a step keeps the protocol sound if and only if it is not a connect that takes a stray file for the newer copy |
| ReplicationSafety.RunSound | src/jean/session/session.py:289-318 | a current client or a file about to be resumed contains what is stored under its id, as long as no connect has trusted a stray file |
| ReplicationSafety.RunSoundBut | src/jean/session/session.py:289-318 | the same for every worker that is not itself on a trusted stray file, as long as no client on one has saved |
| ReplicationHazards.ArmingIsExact | src/jean/session/session.py:276-318 | the steps that leave a worker with a trusted stray file are exactly, whatever the others do: an abandoned or torn hydration, a connect under another id, and a query on another id, each its own |
| ReplicationHazards.LossIsTraced | src/jean/session/session.py:276-318 | every lost update of every run: a worker had taken one of those steps, stayed that way, then trusted the file when it connected, and saved from the client it opened there, at the loss or before |
| ReplicationHazards.NothingIsLostWithoutArming | src/jean/session/session.py:276-318 | a run has no trusted stray file anywhere if and only if it takes none of those steps, and then loses no update |
| ReplicationTurns.NextTurnIsExact | src/jean/session/session.py:309-318 | a clean next turn of any idle worker without a client, on a thread whose row names a stored session, is always a save, and that save extends what is stored, whatever the answer, if and only if the worker has no trusted stray file |
| ReplicationFailedTurns.LossFollowsArming | src/jean/session/session.py:276-318 | along any steps in which a worker takes one turn and nobody else bumps, after which it is idle without a client on a thread whose row names a stored session: its next turn may lose what is stored if and only if the turn took one of those steps, and came neither to its save nor to a bump that raised |
| ReplicationFailedTurns.ArmedLoses | src/jean/session/session.py:309-315 | every run that leaves a worker so, idle without a client and with a conversation that fits under the cap, on a thread whose row names a stored session, goes on by one clean turn to a save that neither extends nor opens |
| ReplicationTurns.LiftTurn | src/jean/session/session.py:587-790 | a clean turn is a run of the system, with this row, transcript, file and bookkeeping after it |
| ReplicationCounterexample.AbandonedHydrationLosesTurn | src/jean/session/session.py:279-318 | a run without a failing hydration that stores another worker's turn; then one hydration that raises; then one clean turn that replaces the stored transcript by one without that turn; all given by their steps |
| ReplicationCounterexample.AnotherIdLosesTurn | src/jean/session/session.py:279-318 | a run in which no hydration raises anywhere, and a connect under another id loses the same turn |
| ReplicationCounterexample.QueryOnAnotherIdLosesTurn | src/jean/session/session.py:641-641 | a run in which no hydration raises, and a query on another id clears the flag of an archived file that another worker's turn has overtaken: the next clean turn loses that turn |
| ReplicationCounterexample.TornHydrationLosesOwnTurn | src/jean/session/session.py:309-318 | one worker alone: after `/mode` and one hydration that stops part-way, its next clean turn replaces its own archived turn in the store |
| ReplicationCounterexample.EarlyArchiveLosesTurn | src/jean/session/session.py:443-486 | one worker, nothing fails: a file archived before the CLI finished is believed, completed, and deleted by the idle close with the only copy of the answer |
| ReplicationHealing.OwnTurnsSurvive | src/jean/session/session.py:289-318 | one live session whose bumps land, whose resumes are accepted, whose own hydrations are not torn in a way that leaves a trusted stray file, and beside which no other worker bumps, loses no answered turn once the CLI has written it to the file, to failed saves, over-cap transcripts, mode changes or other workers' turns that fail before their bump, and its next successful save stores them all; a file archived before it was complete must not have been believed |
| ReplicationHealing.SettledIsCaughtUp | src/jean/session/session.py:771-789 | a turn whose file was settled when it was archived is written at once, whatever became of the save |
| ReplicationClose.CloseDeletesOnlyStored | src/jean/session/session.py:791-856 | in runs in which the worker's own believed saves read a settled file, every file its close deletes is a prefix of bytes some save stored |
| ReplicationClose.CloseIsExact | src/jean/session/session.py:443-486 | after a believed save in any reachable state, every close of the session deletes only bytes some save stored, however much the CLI writes in between, if and only if the file held the whole conversation when it was archived or an earlier save had; and the latter adds nothing while stored histories only grow |
| JeanSessions.JeanSession.BeginConnect | src/jean/session/session.py:276-315 | moves `_seen_seq`, and resumes the own file if and only if it is `_sid`'s, not archived, no other turn came between, and it exists |
| JeanSessions.JeanSession.Hydrate | src/jean/session/session.py:316-318 | takes the machine's load step, its torn variant (which leaves the cached count behind), or none when the load raises |
| JeanSessions.JeanSession.OpenFallback | src/jean/session/session.py:321-352 | after a refused resume: the machine's fallback step, or no client when the open or the apology fails |
| JeanSessions.JeanSession.LookUp | src/jean/session/session.py:611-628 | reads the row and closes a client that no longer fits it |
| JeanSessions.JeanSession.CommitBump | src/jean/session/session.py:761-761 | bumps before anything is archived; a bump that raises ends the turn |
| JeanSessions.JeanSession.ArchiveFile | src/jean/session/session.py:443-486 | saves the file unless it is missing, over the cap or the save fails, and sets `_archived` only on success |
| JeanSessions.JeanSession.Close | src/jean/session/session.py:841-856 | drops the client and deletes the file only if archived |
| JeanSessions.JeanSession.RunTurn | src/jean/session/session.py:587-839 | whatever status call, read, load, open, reply, stream, bump, settling or save goes wrong, the turn takes exactly the steps of the script, all the machine's own, and ends idle in the state they lead to; with no failure it comes to its end, archives last, and, on a thread whose session can be resumed, goes on with that session; it ends busy if and only if the status call before the `try` raised, and then has done nothing else |
| TurnScripts.CleanTurnIs | src/jean/session/session.py:587-839 | the row, transcript, files and worker after a turn in which nothing goes wrong, from any state of an idle worker: the cached client if it fits the row, else the row's session on its hydrated file, else a new one; then all the CLI added, the bump, and the save of what it had written |
| TurnScripts.GoesOnIs | src/jean/session/session.py:289-344 | a clean turn on a thread whose session has a file once hydrated, and whose resume is accepted, never opens another session: its client is on the row's id with the resumed bytes followed by everything the CLI added, in order, and the file, and the store if it fits and the save works, hold that as far as the CLI has written it |
| TurnScripts.NewLifeResumesTheStored | src/jean/session/session.py:289-318 | after a worker's death or an idle close, its next clean turn whose resume is accepted goes on from exactly what the store has of the row's session, whatever files are left |
| TurnScripts.TurnLed | src/jean/session/session.py:587-839 | whatever goes wrong, every step of the script is one the machine allows where it is taken, it mints one id at most, and the first step reads the row |
| JeanSessions.TurnIsARun | src/jean/session/session.py:587-839 | the steps of a turn, from any state where the thread lock is free, are a run of the whole system |
| Settle.SettleFile | src/jean/session/session.py:354-441 | exits quiet only with the owed records (when countable) and an unchanged size over the quiet window, else only past the deadline and only when that was not met; at most timeout/interval sleeps |
| Settle.QuietFileIsComplete | src/jean/session/session.py:354-441 | after a quiet exit on an append-only file, a full scan counts all owed records and the file did not change in the window |
| Settle.QuietExit | src/jean/session/session.py:354-441 | enough unchanged readings, rounded up, span the quiet window |
| Settle.SettleTurn | src/jean/session/session.py:771-789 | the target counts up from the baseline only if the turn ran in the file that was counted, and is trusted only if something was streamed; it gives up past the deadline only, with fewer records than that or no unchanged size over the quiet window |
| Settle.TurnIsOnDisk | src/jean/session/session.py:648-653 | after a quiet exit the turn's file has gained a record for every assistant message streamed |
| LocalTranscripts.CountOfAppended | src/jean/session/transcript.py:57-86 | the count of marker occurrences never drops when a file grows |
| LocalTranscripts.LocalTranscripts.Sample | src/jean/session/transcript.py:57-86 | with a cache that can be trusted, returns size and count of one real state of the file, before or after an append that falls between stat and read |
| LocalTranscripts.TrustIsExact | src/jean/session/transcript.py:57-94 | a cached count stays right for everything the CLI may append if and only if the file is already longer, or the counts agree and no marker can be completed before it has the cached length |
| LocalTranscripts.ReadingsAreHonest | src/jean/session/transcript.py:49-98 | over any interleaving of appends, hydrations, torn hydrations, deletes and samples, a reading is what a full rescan would give if each torn hydration before it leaves such a cache, or a delete, a good hydration or a sample that counts anew came in between |
| LocalTranscripts.TearingIsExact | src/jean/session/transcript.py:88-94 | after a torn hydration every later reading is right, whatever is appended, if and only if the cache left behind can be trusted |
| LocalTranscripts.TornHydrationMiscounts | src/jean/session/transcript.py:88-94 | a file, a torn hydration and an append after which `sample` miscounts |
| LocalTranscripts.Replay | src/jean/session/transcript.py:49-98 | the class, over any sequence of events, gives exactly the readings those lemmas are about |
| Delivery.ReadStream | src/jean/session/session.py:654-710 | the fold over the response stream: spoke, throttled, rounds and the last text there was |
| Delivery.FinishStream | src/jean/session/session.py:720-738 | no answer if a speaking tool was used, exactly one attempt if not and anything was said, none if nothing was; it starts with the last text there was, and is exactly that text when it names no file; the outcome label and its precedence |
| Delivery.Deliver | src/jean/session/session.py:488-553 | the one attempt: the text first, or the notice, and what a failed post is called |
| Delivery.NoTextIffBlank | src/jean/session/session.py:130-141 | a message has no text if and only if every text block in it is blank |
| Delivery.TextIsTheBlocks | src/jean/session/session.py:130-141 | a message's text is the text of each of its blocks that has any, stripped of white space at both ends and no more, all of them, in order, with a blank line between |
| Stores.StoresAgree | src/jean/db/postgres.py:163-272 | no sequence of session, partner, turn, transcript, approval and prune calls tells the dictionaries from the tables |
| Stores.CallKeeps | src/jean/db/memory.py:44-129 | every call keeps the foreign key, prune cascades and spares undecided approvals, turns never go back |
| Stores.TranscriptsAreNamed | src/jean/db/memory.py:58-129 | over every sequence of calls the foreign key holds, and every transcript belongs to a named session all along if and only if no call saves for a row that names none |
| MemoryStores.MemoryStore.GetSession | src/jean/db/memory.py:44-56 | hands out a fresh copy, never a stored row |
| MemoryStores.MemoryStore.UpsertSession | src/jean/db/memory.py:58-84 | the session table changes as `upsert_session` says, and only that row |
| MemoryStores.MemoryStore.SetPartner | src/jean/db/memory.py:86-93 | stores the partner, including none, creating the row if needed |
| MemoryStores.MemoryStore.BumpTurn | src/jean/db/memory.py:99-111 | adds one to the row's turn and returns it |
| MemoryStores.MemoryStore.Save | src/jean/db/memory.py:113-123 | replaces the thread's transcript, or refuses when there is no session row |
| MemoryStores.MemoryStore.Resolve | src/jean/db/memory.py:186-195 | decides an undecided approval once, and says whether it did |
| MemoryStores.MemoryStore.Prune | src/jean/db/memory.py:197-217 | deletes exactly the stale rows, their transcripts and the stale decided approvals, and counts them |
| SessionManagers.SessionManager.Enter | src/jean/session/manager.py:43-48 | the cached session or the new one, and its stamp |
| SessionManagers.SessionManager.Select | src/jean/session/manager.py:60-62 | every idle thread, once |
| SessionManagers.SessionManager.Drop | src/jean/session/manager.py:93-99 | looks again under the lock, against the same time, and pops both dictionaries or neither |
| SessionManagers.OneSessionPerThread | src/jean/session/manager.py:35-100 | after any interleaving: same keys in both dictionaries, at most one session per thread not fully closed, an open one is the cached one, a closing one has its thread's lock |
| SessionManagers.ClosedOnlyWhenIdle | src/jean/session/manager.py:75-100 | a session is closed only by a sweep holding its lock, idle by the sweep's time, with no turn in flight |
| SessionManagers.TurnKeepsItsSession | src/jean/session/manager.py:64-77 | a session in a turn stays open and cached |
| SessionManagers.SweepSparesTouched | src/jean/session/manager.py:91-95 | a thread stamped after a sweep began is left alone by it, however long it waited for the lock |
| SessionManagers.SweepNeverParksOnBusy | src/jean/session/manager.py:66-77 | a sweep waits for a lock only if no turn was running on that session |
| Sweeps.LookIsExact | src/jean/session/manager.py:63-90 | after any run, a sweep goes past its next key if and only if the cached session is in a turn, and else waits for that thread's lock |
| Sweeps.SeizeIsExact | src/jean/session/manager.py:90-99 | after any run, once it has the lock it pops both entries and starts to close the session there was if and only if the thread's stamp is still more than the window before the sweep began, and else changes nothing |
| Sweeps.SweepCollects | src/jean/session/manager.py:60-99 | a sweep that ends with nothing else stepping has dropped every thread that was idle when it began and not in a turn, each of those sessions is closed, and every other thread is as it was |
| Sweeps.SweepComesToItsEnd | src/jean/session/manager.py:60-99 | after any run it can be taken to that end whenever the locks of those threads are free |
| Sweeps.HandleRuns | src/jean/session/manager.py:35-53 | after any run, a message on a thread whose lock is free runs its turn on the cached session, or a new one if there is none, and leaves it cached, open, not in a turn and stamped |
| ApprovalTheorems.AuthorizedEndToEnd | src/jean/approval/gate.py:61-110 | a request that returns approved was approved by one of the approvers chosen for it, who pressed Approve or Always in that run, and has the scope of that button; with no approvers it is denied at once |
| ApprovalTheorems.WaitAnswersTheRow | src/jean/db/postgres.py:320-357 | a waiter's answer is the decision in its row, under every interleaving, if the row is still there |
| ApprovalTheorems.LastReadIsFinal | src/jean/db/postgres.py:343-355 | the last read never finds a row someone can still approve |
| ApprovalTheorems.AtMostOneWin | src/jean/db/postgres.py:359-373 | of all `resolve` calls on an approval, clicks and timeouts on any workers, at most one is told it decided it |
| ApprovalTheorems.OneResolver | src/jean/db/postgres.py:359-373 | a clicker is told that they decided an approval only truly: who is told "approved" pressed Approve or Always and the row is approved, who is told "denied" pressed Deny and it is denied; and then no other clicker is told so |
| ApprovalTheorems.WinsAreAsPressed | src/jean/approval/gate.py:122-143 | every decision is that of a timeout, or is approved if and only if the button pressed in that run was Approve or Always, for good if and only if it was Always, and in the name of who pressed it |
| ApprovalTheorems.ClickDecides | src/jean/approval/gate.py:122-143 | a new click decides a pending approval as its button says if its presser may, changes no row otherwise, and its presser is told which |
| ApprovalTheorems.TimeoutDenies | src/jean/db/postgres.py:338-357 | a waiter that nobody answers denies the row itself and returns that |
| ApprovalTheorems.PrunedIsDenied | src/jean/db/postgres.py:338-357 | so does one whose row was deleted meanwhile, and writes nothing |
| ApprovalTheorems.ApprovalGoesThrough | src/jean/approval/gate.py:61-143 | after any run, a new request can be asked, pressed by any one of its approvers, and returns what that button says and who pressed it |
| ApprovalTheorems.DecisionIsFinal | src/jean/db/postgres.py:359-373 | a decision never changes, and a pruned row never comes back |
| ApprovalTheorems.RetentionIsExact | src/jean/db/memory.py:197-217 | after any run, retention deletes exactly the approvals decided before its cutoff, never a pending one |
| ApprovalTheorems.PendingIsTheNumberWaiting | src/jean/approval/gate.py:99-106 | after any run the counter is the number of requests waiting on the thread, and absent if and only if there are none |
| ApprovalInvariant.RunKeeps | src/jean/approval/gate.py:85-143 | the invariant that ties rows, clicks, waiters and approver sets together holds in every run |
| ApprovalGates.ApprovedByTheRightPerson | src/jean/approval/authz.py:15-51 | an approved request was approved by a press of Approve or Always of someone whose scope names a word of its summary if there is any, else of a catch-all, else of someone of the environment's list, else of the manager |
| ApprovalGates.KeywordsAreTheWords | src/jean/approval/authz.py:8-12 | the keywords of a scope are exactly its longest runs without a comma or white space |
| ApprovalGates.CoversIsInScope | src/jean/approval/authz.py:34-40 | an approver covers a summary if and only if they are no catch-all and one of those words, lower-cased, stands somewhere in the lower-cased summary |
| ApprovalGates.RungsInOrder | src/jean/approval/authz.py:15-51 | exactly those who cover it are chosen if there are any, else exactly the catch-alls, else the environment's list, else the manager; nobody if and only if all four are empty |
| ApprovalGates.ActionRoundTrip | src/jean/approval/gate.py:14-14 | the action ids that parse are exactly those of the buttons, and each parses to its verb and id |
| ApprovalGates.ApprovalGate.CountIn | src/jean/approval/gate.py:97-98 | one more waiting on the thread |
| ApprovalGates.ApprovalGate.CountOut | src/jean/approval/gate.py:100-104 | one less, and the last one removes the entry |
| ApprovalGates.ApprovalGate.PendingFor | src/jean/approval/gate.py:57-59 | after any run of the protocol, true exactly when a request is waiting on the thread on this worker |
| ApprovalGates.CountsInOnItsWorker | src/jean/approval/gate.py:97-98 | the machine's counters move on one worker as its gate moves its own, and on no other |
| ApprovalGates.CountsOutOnItsWorker | src/jean/approval/gate.py:100-104 | the same for the end of a wait |
| McpClients.McpClient.Register | src/jean/plugins/mcp_client.py:182-196 | a new id, registered, unless the reader is gone |
| McpClients.McpClient.ReadLoop | src/jean/plugins/mcp_client.py:154-180 | dispatches every frame up to the first that kills the reader, then fails whoever is left |
| McpProtocol.RepliesGoHome | src/jean/plugins/mcp_client.py:166-172 | a frame completes only the unanswered request in flight whose id it carries, its result as the answer and its error as the error, and changes nothing else |
| McpProtocol.FatalFrames | src/jean/plugins/mcp_client.py:154-180 | exactly a frame that is no object, or whose id is a list or an object, ends the reader, and then whoever is in flight unanswered is told that the server is gone |
| McpProtocol.LooseIdsAnswer | src/jean/plugins/mcp_client.py:165-165 | the ids that answer a request in flight are exactly its number, that number with `.0`, and `true` for number 1 |
| McpProtocol.AnsweredAtMostOnce | src/jean/plugins/mcp_client.py:154-202 | an id is answered at most once over the client's whole life |
| McpProtocol.AnswersAreOnesOwn | src/jean/plugins/mcp_client.py:95-122 | what a call returns as an answer was the result, and what it returns as a server error the error, in a frame that came in that run with the id of one of its own requests |
| McpProtocol.CallGoesThrough | src/jean/plugins/mcp_client.py:95-130 | after any run, a new call to a server that is up can be asked, and returns what the server says, result as answer and error as error |
| McpProtocol.DeadServerIsAskedAgain | src/jean/plugins/mcp_client.py:104-113 | a server that dies under a waiting call can be started and asked again, and the call returns what it says then |
| McpProtocol.TimeoutIsReturned | src/jean/plugins/mcp_client.py:114-115 | a call whose request times out returns that, without a second frame, and its request is no longer registered |
| McpProtocol.FailedRestartIsTriedAgain | src/jean/plugins/mcp_client.py:104-122 | a call whose server cannot be started for the first attempt has a second; failing that too, it returns that failure |
| McpProtocol.NobodyIsLeftWaiting | src/jean/plugins/mcp_client.py:173-196 | once the reader has exited, whoever is in flight has been told |
| McpProtocol.IdsAreNew | src/jean/plugins/mcp_client.py:182-184 | ids are never reused, across restarts too |
| McpProtocol.TwoFramesAtMost | src/jean/plugins/mcp_client.py:95-130 | a call writes at most two frames, and a second only after its first attempt ended because the server was gone |
| McpProtocol.FramesAreCounted | src/jean/plugins/mcp_client.py:182-202 | the frames that bound counts are exactly those some step of the run wrote, wholly or in part |
| Schedules.ClaimsAreTheOccurrences | src/jean/db/postgres.py:468-490 | over any workers and polls, the claimed times of a schedule are its cron occurrences from the first on, in order, with no repeat and no gap |
| Schedules.LiveScheduleIsUpToDate | src/jean/db/memory.py:272-282 | a schedule's claims are exactly the occurrences before its `next_run_at` |
| Schedules.DeletedIsOver | src/jean/db/memory.py:263-282 | once deleted, a schedule has no row and is claimed no more, whatever happens later |
| Schedules.OccurrencesFireAtMostOnce | src/jean/schedule/runner.py:50-82 | no occurrence starts two turns |
| Schedules.GraceDecides | src/jean/schedule/runner.py:55-66 | a claim is missed exactly when its poll came more than the grace window after its due time; every turn was started within it by the poll's time; a claim ends ok only after its turn was started |
| Schedules.StartsInTimeIff | src/jean/schedule/runner.py:52-75 | a claim's turn starts within the window of its due time if and only if `handle` comes to start it, and the claims before it and the wait for its thread's lock take no longer than the poll left of the window |
| Schedules.TurnsStartInOrder | src/jean/schedule/runner.py:54-70 | the turns of one poll start in the order of its claims, so one late turn makes every later one late whose schedule was due no later |
| Schedules.LockedClaimStartsLate | src/jean/session/manager.py:43-49 | a poll of one schedule due that moment whose turn starts after the window, because its thread's lock was held |
| Schedules.SecondClaimStartsLate | src/jean/schedule/runner.py:52-75 | a poll of two schedules due that moment whose second turn starts after the window |
| Schedules.RowsTellTheLastRun | src/jean/schedule/runner.py:55-82 | each claim's status is recorded at most once, and a schedule's row always tells the poll and the status of its claim recorded last |
| Schedules.ScheduleStore.ClaimDue | src/jean/db/memory.py:272-282 | claims every due row once, with the time it was due, advances exactly those by one occurrence, and is a run of the machine's steps |
| Schedules.ScheduleRunner.RunOnce | src/jean/schedule/runner.py:50-82 | a whole poll, whatever fails in it, claims every due row once, is a run of the machine's steps that ends in the rows the store holds, raises if and only if a status write fails, returns else the number of its claims that ended ok, each of which started a turn, and starts in time exactly the turns that condition names |
| Schedules.ScheduleRunner.WorkOff | src/jean/schedule/runner.py:54-82 | one status per claim in order, a turn for each that is not late and whose `handle` comes that far, when it starts, the number of ok claims returned, and a failed status write abandons the rest |
| EnvRefs.RefHeadIsExact | src/jean/plugins/env_refs.py:18-18 | the scanner finds a reference exactly where one is written |
| EnvRefs.PiecesSpellTheText | src/jean/plugins/env_refs.py:18-33 | scanning loses nothing |
| EnvRefs.ExpandedPieceByPiece | src/jean/plugins/env_refs.py:21-33 | lenient expansion leaves each stretch of plain text as it is, and puts for each reference the variable if it is set and not empty, else the default, else nothing |
| EnvRefs.StrictPiecesExact | src/jean/plugins/env_refs.py:63-81 | on one string strict expansion agrees with lenient, or names a dangling reference |
| EnvRefs.StrictRefinesLenient | src/jean/plugins/env_refs.py:36-81 | an expanded config has the shape it had, and every string at every depth is what lenient expansion makes of it |
| EnvRefs.FailureNamesTheSpot | src/jean/plugins/env_refs.py:63-79 | the error names a place in the config and a variable that a string there leaves dangling |
| EnvRefs.RefusesIffDangling | src/jean/plugins/env_refs.py:36-61 | a config is refused if and only if some string at some depth has a reference without a default to a variable that is unset or empty |
| Chunking.ChunkText | src/jean/slack/mrkdwn.py:53-68 | cuts at the last newline within the limit, or at the limit |
| Chunking.ChunksSpellTheText | src/jean/slack/mrkdwn.py:53-68 | the chunks spell the text, none is over the limit, none is empty unless the text is, each but the last ends in a newline or is full |
| Chunking.OneChunking | src/jean/slack/mrkdwn.py:53-68 | the specification leaves one cutting of a text |
| Engagement.Gateway.Engage | src/jean/gateway/app.py:128-176 | the stored partner, the dispatch and the write count after one message |
| Engagement.Gateway.Receive | src/jean/gateway/app.py:83-126 | a thread's events are folded over the stored partner |
| Engagement.MentionIsExact | src/jean/gateway/engagement.py:8-8 | a mention is found at a place, with its user and its end, exactly when one is written there |
| Engagement.MentionsAreFound | src/jean/gateway/engagement.py:8-13 | the users found are those of mentions written in the text, in order, and every one that is written is found or starts within one before it |
| Engagement.BystandersDoNotMatter | src/jean/gateway/engagement.py:84-111 | deleting everything from someone who is not the partner and never addresses jean changes no dispatch, no partner and no number of writes |
| Engagement.OneTurnPerMention | src/jean/gateway/app.py:106-126 | a mention delivered both ways starts at most one turn, in either order |
| Engagement.OnlyTheAddressedAreAnswered | src/jean/gateway/engagement.py:47-111 | over every history each started turn is for an unblocked author whose message addressed jean, or who was the partner at the start, or who addressed jean in that history; and so is every new partner |
| Engagement.AnsweredIff | src/jean/gateway/engagement.py:47-111 | at every point of every history, a turn is started if and only if the author is not blocked and the message is direct, or is in a channel open to its author and mentions jean, or is the partner's and mentions nobody; whoever addresses jean becomes the partner, and a partner who turns to someone else stops being it |

## Left out

- NoLostUpdate: excludes a save by a client that was opened on a trusted stray file, because such a save can lose an update (`ArmedLoses`); not every such save does.
- OwnTurnsSurvive: excludes, beyond the assumptions listed above, a turn archived with no file, or with part of it and then believed (`EarlyArchiveLosesTurn` loses one) or dropped before the CLI caught up, and a torn hydration that leaves a trusted stray file (`TornHydrationLosesOwnTurn` loses one).
- LossFollowsArming: starts from a worker that is not armed and not on a stray file; others may be.
- CloseDeletesOnlyStored: assumes the worker's own believed saves read a settled file; `CloseIsExact` and `EarlyArchiveLosesTurn` show what happens otherwise.
- AuthorizedEndToEnd: an approver whose id is the empty string is reported as "unknown" or "system", as the code does.
- SettleFile: clock and readings are a parameter that sleeps at least the interval between polls; the thread pool is not modelled.
- RunTurn: takes no samples, so the count the settling starts from is a parameter of `SettleTurn`; cancellation is a failure like any other; cancellation inside the clean-up code is not modelled.
- The step `Fail`: the machine lets a turn fail between its connect and its query too, where the code awaits nothing; what holds of all runs holds without that.
- ReadLoop: a reader task cancelled before it ever ran, which then skips its clean-up, is not modelled; nor are the bytes of a line that is not valid text.
- ClaimDue: an `advance` that raises in the middle of a poll is not modelled (in Postgres it rolls the poll back; in `MemoryStore` it loses the rows already advanced).
- Schedules: creating and deleting are steps of the machine; that a thread may delete only its own is not modelled.
- Memory and Sql: `MemoryStore.wait` (the waiter modelled is `PostgresStore.wait`, which re-reads the row), schedules' other columns, `try_claim_cleanup` and column defaults that no call reads are not in the table comparison.
- WorkOff: turns change nothing else in the store while a poll is worked off; the machine's steps allow it.
- Drop: the loop of `sweep` is given by the machine's steps; the class has the code between its awaits.
- Restarts of an MCP server: the order of calls relative to a restart's handshake, and waiting for the restart lock; the machine lets a handshake request give up, as a cancelled one does.
- Interleaving of `get_partner` and `set_partner` by two concurrent messages of one thread: engagement is modelled one message at a time.
- `md_to_mrkdwn`, `risk.py`, `policy.py`, the persona extraction, Slack rendering and plugin resolution: tables and regular expressions whose properties would repeat them.
- Settings, server wiring, health, metrics, logging, the slow-turn notice, status and reaction calls: no effect on protocol state.
- croniter, zoneinfo, gzip, asyncpg, the Claude SDK and the CLI: environment, with the behaviour stated above.
- Keyword lower-casing and the set of white-space characters are parameters of the functions that use them.
- Floating-point time: clocks are integers, or reals in the settle loop; rounding plays no part in what is proved.
