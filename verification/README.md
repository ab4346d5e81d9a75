# Verification model of Warranted's host core

Warranted lets an untrusted worker propose work and a host decide what to accept. The
host's core is a crash-safe operation protocol over an append-only evidence ledger. This
project models that core in Dafny and proves what the protocol promises: over any number
of sessions, crashes and resumes, and for every input.

| module files | what they model |
|---|---|
| `Records`, `Names`, `Evidences`, `Ordering` | values the host stores, evidence names, cited inputs, sorted keys |
| `LedgerSpec`, `LedgerInvariant`, `LedgerBudget`, `LedgerSafety`, `Ledger` | the six ledger transactions as functions of the committed state, their invariant, what the budget means, safety over whole runs, and the ledger object whose methods refine them |
| `RecordOnce`, `Attempts`, `Slots`, `Calls`, `Attested`, `Touching`, `OutputText`, `Readings`, `WorkerSpec`, `WorkerReplay`, `WorkerSteps`, `Worker` | an episode: a deterministic agent rerun from the start after every crash, against the journal, what it reads, and that what is recorded came back |
| `OperationsSpec`, `OperationsReplay`, `OperationsSteps`, `OperationsRules`, `OperationsSafety`, `Operations`, `OperationsReconcile`, `OperationsTakeover`, `Batches` | batches of host operations: when an item is executed, reused, refused or replayed, settling unknown ones, and how a batch is read and shown |
| `WorkerBatches`, `WorkerRun`, `WorkerStanding`, `WorkerResume`, `WorkerHistory`, `WorkerBeside` | both together: agents whose tool attempts ask for batches, run and resumed over any number of crashes, beside each other and beside other hosts |
| `AcceptanceCommit`, `AcceptancePolicy`, `Acceptance` | the policy document, deciding acceptance, its soundness, completeness and stability, and committing decisions |
| `ClaimGraph`, `Claims` | claims, their recorded form, and staleness as reachability |
| `TaskSpecs`, `TaskContracts`, `TaskRecords`, `TaskRuns` | tasks, contract revisions, what each contract says, their flattened records and the evidence of each contract |
| `Campaigns`, `CampaignHistory` | pinned campaign plans and split separation, over any sequence of plannings |
| `MemoryRecords`, `MemoryEntries`, `Memory`, `MemorySources`, `MemoryRefusals`, `MemoryHost`, `MemoryDecisions` | memory derived from recorded runs, checks, notes and decisions, and the snapshot a new run shows |
| `Guard`, `Workspace` | the duplicate guard's encoding and edit measure, workspace snapshots and their restoration |

How the model reads the code:

- Each `with self._connection` block is one transaction: a step that commits its whole
  change or none of it. A crash is the absence of further steps. Methods that span several
  transactions may end between any two of them when the host is one that may die
  (`Ledger.mortal`), so their postconditions hold wherever it dies, and a host that does
  not die goes on to a result or to a stated reason.
- Calls to the outside (model service, worker container, domain operations) return any
  result or an exception; a boundary raises, and a delivery fails, only where it may
  (`Boundary.faulty`). Ghost logs of what was sent and executed and what came back, and of
  what hosts were told when they reconciled, outlive every crash.
- SHA-256 and canonical JSON are injective, and stored bytes stay intact: a reference to an
  artifact is the content it names, and a text that is a digest or an operation ID is kept
  as what it stands for.
- The agent, operation parsers, reservations and the acceptance resolver are given,
  deterministic functions; session and run IDs are arbitrary.
- An episode's own IDs are those at or below its prefix; `Foreign` transactions of other
  hosts capture and reserve nothing there. Runs of other episodes and the model's own
  decisions, claims, plans and memory are shown to keep to this. A finished episode's result is promised unless
  the host dies or a delivery fails; recording its first receipt also takes a project whose
  snapshots are not named like captures (`PlainSnapshots`).
- Invariants such as `Traced` (an episode's recorded trajectory) and `BatchOk` (a batch's
  dispositions) relate the ledger to what a rerun will do. Each is established from an
  untouched ledger, kept by the host's own methods and by every transaction of others, and
  the promises are read off it.

Where the code and its documentation could be read differently, the model follows the code:
a reusable result is looked up by an input name's suffix, so a declared file whose evidence
name ends in `/key.json` can take the place of an operation's own key. `OwnChannelCited`
states exactly when it does not, `ReuseAnswersTheSame` what that means for a reuse, and
`DeclaredKeyTakesOver` gives a whole run in which it does. A result over the batch limit is
delivered as `shown.json` and takes the place of an operation's own file of that name;
`FileArrives` states exactly when, and `ShownFileIsDisplaced` gives an instance.

## Model

| member | source | states |
|---|---|---|
| `LedgerInvariant.Reachable` | src/warranted/_ledger.py:603-1067 | Every state reached by any run of transactions, from any sessions and with any crashes, satisfies the ledger invariant: unique IDs, matching provenance, settled operations with distinct captures, admitted amounts within every limit, dispatch discipline |
| `LedgerInvariant.NextKeeps` | src/warranted/_ledger.py:584-1067 | Each of the six transactions keeps the invariant |
| `LedgerInvariant.ReserveAdmits` | src/warranted/_ledger.py:970-990 | A reservation the balances afford leaves what was admitted within the project allowance and every scope cap, also for scopes that are not the reserving one |
| `LedgerInvariant.BeginDiscipline` | src/warranted/_ledger.py:1003-1014 | A dispatch that saw no unknown operation in its scope or root keeps unknown operations ordered: whatever blocks a scope was dispatched after what it blocks |
| `LedgerSafety.BudgetBound` | src/warranted/_ledger.py:870-897 | In every reachable state what completed operations used and open ones reserve exceeds the project's allowance of a unit, and the cap a scope was opened with, by no more than completed operations used beyond their reservations |
| `LedgerSafety.ScopesAreOpened` | src/warranted/_ledger.py:838-863 | A scope is in force with some caps exactly when an opening with those caps succeeded; the first fixes them and none with others succeeds |
| `LedgerBudget.FiguresAre` | src/warranted/_ledger.py:870-897 | The accounting's figures are the sums, over the operations of a scope, of settled usage, open reservations and use beyond a reservation |
| `LedgerBudget.OpenScopeDecides` | src/warranted/_ledger.py:838-863 | A scope opens exactly in a known session, under a proper name, with caps in the project's units, unless it is open with others, which conflict; nothing else changes |
| `LedgerBudget.RecordDecides` | src/warranted/_ledger.py:603-630 | Output is captured exactly in a known session, when it is named, not empty, supersedes nothing or an earlier capture and cites what is there; the capture is the next one and holds exactly what was given |
| `LedgerBudget.OtherConflicts` | src/warranted/_ledger.py:788-809 | A request of another project, or under an ID that another request has, conflicts with every transaction and changes nothing |
| `LedgerBudget.ReserveDecides` | src/warranted/_ledger.py:939-990 | A new request is reserved exactly when no operation of the scope or root overran, no unit is charged beyond its allowance, and the amounts fit what is left of the allowances and of the scope's own caps; it is refused for the budget exactly otherwise, and a known one answers its own row |
| `LedgerBudget.ReservedFits` | src/warranted/_ledger.py:968-974 | After a reservation no unit is charged beyond its allowance, and none it names beyond the scope's cap |
| `LedgerBudget.BeginDecides` | src/warranted/_ledger.py:992-1014 | A dispatch marker is set exactly for a pending operation whose scope awaits no outcome, has no overrun and overdraws nothing; nothing else changes |
| `LedgerBudget.CompleteDecides` | src/warranted/_ledger.py:1016-1067 | A dispatched operation gets exactly the result and output given, when they are named, not empty and cover its reservation's units, and otherwise nothing changes |
| `LedgerSafety.NoBreachNoExcess` | src/warranted/_ledger.py:908-915 | While no completed operation used a unit beyond or outside its reservation, no allowance and no scope's cap is exceeded |
| `LedgerSafety.FullChargeConserves` | src/warranted/_ledger.py:1016-1067 | Charging an unknown operation its full reservation leaves what is charged and what is overused unchanged everywhere and breaches nothing |
| `LedgerSafety.Conservation` | src/warranted/_ledger.py:870-906 | For every unit, also outside the allowances, the project's figure is the sum of the figures of root and all opened scopes, in whatever order they are listed |
| `LedgerSafety.RunExtends` | src/warranted/_ledger.py:939-1067 | Over whole runs nothing committed is lost: scopes, captures, requests, reservations, dispatch markers and completions never change once set, and phases only advance |
| `LedgerSafety.DispatchedOnce` | src/warranted/_ledger.py:992-1014 | Permission to execute is granted at most once per operation ID across all sessions |
| `LedgerSafety.CompletionsAreCaptures` | src/warranted/_ledger.py:400-407 | Completed operations map injectively to captures of the same origin, and a unit is a recorded breach exactly when it was used beyond its reservation or without one |
| `LedgerSafety.UnknownDiscipline` | src/warranted/_ledger.py:923-931 | A scope holds at most one unknown operation; when a run scope and root both hold one, root's was dispatched later |
| `LedgerSafety.UnknownBlocks` | src/warranted/_ledger.py:992-1014 | While an operation stays unknown, nothing is dispatched in a scope it blocks |
| `LedgerSafety.InputsAreEarlier` | src/warranted/_ledger.py:642-662 | Each input of a capture is a project snapshot or the exact channel of an earlier capture, under that capture's printed name |
| `LedgerSafety.OperationInputsAreEarlier` | src/warranted/_ledger.py:788-809 | Each input of an operation cites a snapshot or a capture earlier than its own result |
| `LedgerSafety.ChainsDescend` | src/warranted/_ledger.py:642-662 | Every chain of citations descends strictly and ends at project snapshots |
| `LedgerStore.Ledger.StartSession` | src/warranted/_ledger.py:584-591 | The method refines its transaction and keeps the invariant |
| `LedgerStore.Ledger.OpenScope` | src/warranted/_ledger.py:838-863 | Opening a scope refines its transaction; reopening with equal caps changes nothing and with other caps conflicts |
| `LedgerStore.Ledger.CheckOrigin` | src/warranted/_ledger.py:642-662 | The loop over inputs decides exactly whether every input resolves to its artifact |
| `LedgerStore.Ledger.Record` | src/warranted/_ledger.py:603-630 | Capturing refines its transaction and keeps the invariant |
| `LedgerStore.Ledger.LookupRow` | src/warranted/_ledger.py:788-809 | Finds the operation of exactly this request; conflicts on another request under its ID or another project |
| `LedgerStore.Ledger.Accounting` | src/warranted/_ledger.py:870-897 | The accumulating loop gives, unit by unit, the scope's cap where it has one and else the project's allowance, what completed operations used, and what open ones reserve |
| `LedgerStore.Ledger.CheckBudget` | src/warranted/_ledger.py:908-921 | Decides whether neither a breach in the scope or root nor a project total beyond its allowance blocks, over all units |
| `LedgerStore.Ledger.Unresolved` | src/warranted/_ledger.py:923-931 | Returns exactly the unknown operations of the scope and of root |
| `LedgerStore.Ledger.Reserve` | src/warranted/_ledger.py:939-990 | A reservation is added exactly as given when nothing falls short, after which the scope's own caps and the allowances hold; refused for the budget, something fell short; an equal one is returned and another conflicts |
| `LedgerStore.Ledger.Begin` | src/warranted/_ledger.py:992-1014 | It answers true, and sets the dispatch marker and nothing else, exactly when some pending operation of the request may be dispatched |
| `LedgerStore.Ledger.Complete` | src/warranted/_ledger.py:1016-1067 | Capture and settlement are committed together, once, with exactly the result and output given |
| `Names.ParsePrintedName` | src/warranted/_acceptance.py:56-61 | An evidence name parses back to the sequence and channel it was printed from |
| `Names.PrintParsedName` | src/warranted/_ledger.py:648-656 | A name the ledger parses as a capture is that capture's printed name |
| `Names.EvidenceNameInjective` | src/warranted/_acceptance.py:56-61 | Evidence names are equal only for the same capture and channel |
| `Evidences.CaptureIsUnique` | src/warranted/_acceptance.py:56-61 | On a ledger, an evidence name belongs to one channel of one capture |
| `Evidences.Collect` | src/warranted/_acceptance.py:177-186 | Collecting cited evidence succeeds exactly when no name stands for two artifacts, and then cites exactly that evidence |
| `RecordOnce.StepEffect` | src/warranted/_worker.py:156-177 | A record is there already or is the one new capture, and is the only capture under its ID |
| `RecordOnce.StepAgain` | src/warranted/_worker.py:156-177 | Recording the same evidence again returns it and changes nothing |
| `RecordOnce.Record` | src/warranted/_worker.py:156-177 | The scanning method refines the step |
| `Slots.SlotsDiffer` | src/warranted/_worker.py:297-303 | Different attempt slots have different IDs, and so do their inputs |
| `Slots.SlotIsNoRecord` | src/warranted/_worker.py:297-303 | No attempt slot has the ID of an attempt input, the episode record or the receipt |
| `Calls.GrantIsFresh` | src/warranted/_worker.py:342-347 | A granted dispatch was never used for a call before, so calls stay distinct |
| `Attested.AttemptAttests` | src/warranted/_worker.py:342-349 | An attempt made under a fresh marker leaves every recorded outcome of an attempt what came back, or what a host was told |
| `Attested.CompleteAttests` | src/warranted/_worker.py:346-349 | Settling an operation with what came back for it, or what the host was told of it, leaves that so |
| `Attested.NumberIsNoAttempt` | src/warranted/_operations.py:187 | No host operation of a batch has the ID of an attempt |
| `WorkerReplay.TurnsDiffer` | src/warranted/_worker.py:388-401 | Each attempt of a run has a slot of its own, counted per kind from one |
| `WorkerReplay.ResultIsUninterrupted` | src/warranted/_worker.py:539-576 | The result read off the recorded trajectory is the one an uninterrupted run of the agent gives on the recorded responses |
| `WorkerReplay.TraceStays` | src/warranted/_worker.py:294-349 | Whatever happens on the ledger, if it completes nothing of the episode and touches no slot but the next one, the recorded trajectory is the same |
| `WorkerReplay.TraceGrows` | src/warranted/_worker.py:347-349 | Completing the next attempt adds exactly its outcome to the recorded trajectory |
| `WorkerSteps.OpenIsFrontier` | src/warranted/_worker.py:331-343 | Of an episode's operations only the next attempt can be without an outcome |
| `WorkerSteps.NextIsOpen` | src/warranted/_worker.py:331-343 | The next attempt has no outcome on the ledger yet |
| `WorkerSteps.CompleteStepTraced` | src/warranted/_ledger.py:1016-1067 | Settling any operation, of the episode or not, keeps the recorded trajectory or adds the settled attempt |
| `WorkerHost.EpisodeStepProgress` | src/warranted/_worker.py:240-292 | Recording the episode opens it or finds it open, with the same inputs in every session |
| `WorkerHost.Journal.Prepare` | src/warranted/_worker.py:294-333 | An answered attempt is found again with its recorded operation, and recording and reserving it change nothing, unless the host dies; the next one is reserved unanswered |
| `WorkerHost.Journal.Grant` | src/warranted/_worker.py:180-183 | A dispatch is granted unless the attempt is held up; while anything unknown blocks the scope no attempt is dispatched and nothing changes |
| `WorkerHost.Journal.Dispatch` | src/warranted/_worker.py:334-349 | At most one call is made, under a dispatch marker of its own, with exactly the captured payload, and the result and output recorded are exactly those the boundary gave back; an exception or crash leaves the outcome unknown, and a refusal has one of the reasons named |
| `WorkerHost.Journal.Conclude` | src/warranted/_worker.py:346-349 | What came back is recorded as it is, unless it cannot be recorded or the host dies |
| `WorkerHost.Journal.Attempt` | src/warranted/_worker.py:294-349 | An answered attempt returns its recorded outcome with no call and no change, unless the host dies; a new one sends its payload and returns exactly what came back, or stops because its input is taken, it cites or asks for what is not there, the budget is short or it is held up |
| `WorkerHost.ExchangesCameBack` | src/warranted/_worker.py:334-349 | Every exchange of an episode is exactly what came back to its own payload, or what the host was told when it settled the attempt |
| `WorkerHost.Journal.CompletionInputs` | src/warranted/_worker.py:354-365 | It succeeds exactly when every operation below the episode's prefix has an outcome, and then cites exactly the episode record and every artifact of each |
| `WorkerHost.Journal.Receipt` | src/warranted/_worker.py:367-382 | It returns a receipt's result exactly when there is one, everything is finished and the receipt cites exactly that; it is the one the recorded responses lead to |
| `WorkerHost.Journal.Close` | src/warranted/_worker.py:558-575 | Recording the receipt keeps the trajectory and ties the receipt to its result; it succeeds whenever everything of the episode is done, no receipt is there yet and the project's snapshots are plainly named |
| `WorkerRun.WorkerModel.Query` | src/warranted/_worker.py:393-418 | Each query is the next model slot and parses the recorded raw response; a failed attempt is not retried, and a run stops here only at a hindered or failed attempt |
| `WorkerRun.WorkerEnvironment.Execute` | src/warranted/_worker.py:446-485 | Each action is the next tool slot and reads submissions, requests and markers only from the recorded output; an exchange the agent has had before, with its batch, is given again with no call, no execution and no change; a run stops here only at a hindered attempt, an unreadable one, or a batch with a hindered item |
| `WorkerRun.WorkerEnvironment.Answer` | src/warranted/_worker.py:487-497 | A request is answered with what its decided batch shows; once shown, answering it again executes nothing and adds nothing |
| `WorkerRun.WorkerEnvironment.HandleBatch` | src/warranted/_worker.py:490 | A batch is taken up where earlier runs left it, wherever they died; trajectory and other batches are kept, and what it shows is fixed once every item is decided |
| `WorkerRun.RunAgent` | src/warranted/_worker.py:544-557 | Run from the start, the agent replays every recorded exchange and goes on from there, every exchange being what came back to its payload; it ends with the result the exchanges lead to, or where the next one is stuck for a stated reason, unless the host dies or its boundary fails it; a trajectory that leads to a result calls, executes and adds nothing |
| `WorkerResume.Reconcile` | src/warranted/_worker.py:522-537 | Settling unknown operations of the scope or root, attempts and host operations alike: unless the host dies it asks how every one of them ended and the ledger has whatever it was told, or it stops because the ledger refuses what was told or does not know the scope; an episode's progress and batches are kept and its exchanges only ever added to |
| `WorkerResume.NotTaken` | src/warranted/_worker.py:530-534 | When the ledger refuses an outcome for an unknown operation of its own, that outcome is not the one recorded |
| `WorkerStanding.EventKeepsProgress` | src/warranted/_ledger.py:584-1067 | Whatever other hosts commit between two runs keeps an episode's progress, its batches and its receipt; only settling its unknown attempt adds an exchange |
| `WorkerStanding.OthersKeepProgress` | src/warranted/_ledger.py:584-1067 | The same over any run of transactions by others |
| `WorkerStanding.FinishedIsFinal` | src/warranted/_worker.py:367-382 | Once the recorded exchanges lead to a result, nothing is ever added to them |
| `WorkerResume.Work` | src/warranted/_worker.py:539-576 | A finished episode is only read; otherwise its agent runs, and progress is kept wherever it stops |
| `WorkerResume.Advance` | src/warranted/_worker.py:180-183 | With an unknown operation in the scope or root the run stops at once: no call, no change |
| `WorkerResume.RunWorkflow` | src/warranted/_worker.py:511-603 | One run or resume, wherever earlier ones died: calls and executions stay distinct, exchanges only grow along one trajectory, each being exactly what came back to its payload or what the host was told when it reconciled, and when it reconciles it asks for every unknown operation of its scope or root and records what it is told; nothing but settled unknown operations changes outside the episode's own IDs. It ends with the uninterrupted result on its exchanges, or for a stated reason, unless the host dies or its boundary fails it; and once the exchanges lead to a result every unblocked run ends with it, read again from the final receipt |
| `WorkerStanding.FreshStart` | src/warranted/_worker.py:240-292 | On a new ledger an episode has nothing recorded, and stands as every run requires |
| `WorkerStanding.EpisodesAreApart` | src/warranted/_worker.py:104-106 | Different episodes have prefixes neither of which is at or below the other, because episode names have no slash |
| `WorkerStanding.WorkKeepsOthers` | src/warranted/_worker.py:511-603 | A run of one episode, wherever it dies, keeps the progress, batches and receipt of every other; it adds to their exchanges at most the outcome of an attempt left unknown, when it settles one |
| `WorkerBeside.DecisionKeepsEpisodes` | src/warranted/_acceptance.py:194-225 | Committing a decision or an exception, or dying on the way, keeps every episode as it is |
| `WorkerBeside.ClaimKeepsEpisodes` | src/warranted/_claims.py:43-112 | Recording a claim keeps every episode as it is |
| `WorkerBeside.PlanKeepsEpisodes` | src/warranted/_tasks.py:1464-1542 | Planning a campaign keeps every episode as it is |
| `WorkerBeside.MemoryKeepsEpisodes` | src/warranted/_tasks.py:1697-1738 | Deriving memory keeps every episode as it is |
| `WorkerHistory.Live` | src/warranted/_worker.py:511-603 | From a new ledger, over any sequence of runs, resumes and crashes of any number of episodes, interleaved in any way, with transactions of others in between: no slot is called twice, no host operation executed twice, every exchange is what came back to its payload or what a host was told, nothing is told when no round settles, and all results of an episode are its one uninterrupted result |
| `Readings.LinesAreCut` | src/warranted/_worker.py:455 | The lines of an output are its bytes, cut after every terminator and nowhere else |
| `Readings.StripIs` | src/warranted/_worker.py:456-457 | Stripping a line takes the white space off both ends and nothing else |
| `Readings.SubmissionIs` | src/warranted/_worker.py:455-469 | A command submits exactly when it succeeded, its first line is the submit marker and no line is the request marker |
| `Readings.AskingIs` | src/warranted/_worker.py:482-484 | A command asks for operations exactly when it succeeded, its first line is the request marker and no line is the submit marker |
| `Readings.PlainIs` | src/warranted/_worker.py:470-485 | Anything else readable is only shown, with an error exactly when it begins with one marker and prints the other |
| `Readings.CommandIs` | src/warranted/_worker.py:401-410 | A model's answer is a command exactly when it is the one-field object of a text that is not blank |
| `Readings.ModelIsRead` | src/warranted/_worker.py:395-418 | The agent gets a model's answer exactly when the attempt succeeded and captured one, and what it gets is that capture |
| `Readings.TokensAreReserved` | src/warranted/_worker.py:62-81 | A model attempt reserves what its service says in exactly the units it declares, or else its number of calls, and never without an enforced token unit |
| `Readings.TurnIsNumbered` | src/warranted/_worker.py:393-397 | The next attempt is for what the agent does next and is numbered after the earlier attempts of its kind |
| `WorkerBatches.BatchesApart` | src/warranted/_operations.py:187 | The batches of different tool attempts have no ID in common |
| `WorkerBatches.JournalIdIsApart` | src/warranted/_operations.py:187 | No attempt, attempt input, episode record or receipt has an ID of a batch |
| `WorkerBatches.HandlingStaysTraced` | src/warranted/_operations.py:185-329 | Whatever is done for a batch, the recorded trajectory is the same |
| `WorkerBatches.HandlingStaysBatched` | src/warranted/_operations.py:185-329 | Whatever is done for a batch, the episode's other batches keep what they show and later ones stay unstarted |
| `WorkerBatches.JournalStaysBatched` | src/warranted/_worker.py:294-349 | Whatever the journal does, the batches keep what they show |
| `WorkerBatches.AnswerStaysBatched` | src/warranted/_worker.py:479-484 | The batch of a new exchange has not been started before the exchange is recorded |
| `WorkerBatches.AwaitingHasNoReply` | src/warranted/_worker.py:484-490 | While the last exchange awaits its batch the agent has not gone on |
| `WorkerBatches.FillStaysTraced` | src/warranted/_worker.py:484-490 | Showing the awaited batch keeps the recorded trajectory and lets it go on |
| `WorkerBatches.CompleteIsDone` | src/warranted/_worker.py:354-365 | When the exchanges lead to a result, no attempt and no host operation of the episode is left without an outcome |
| `Batches.Show` | src/warranted/_operations.py:153-165 | Adding one item's result to the display is the specified step, with the listed files in sorted order |
| `Batches.InlineFits` | src/warranted/_operations.py:154-160 | A result that still travels inline was within the batch limit when it was counted |
| `Batches.ResultArrives` | src/warranted/_operations.py:155-164 | Every result reaches the worker, inline or as the delivered file its display names |
| `Batches.FileArrives` | src/warranted/_operations.py:155-164 | A file of an operation's own is delivered as it is exactly when it is not shown.json beside a result that was moved to that name |
| `Batches.ShownFileIsDisplaced` | src/warranted/_operations.py:155-164 | With five results of 60 KiB the fifth moves to shown.json and displaces the file of that name its operation made, which is delivered nowhere |
| `Batches.DeliveriesApart` | src/warranted/_operations.py:153-164 | Deliveries of different items go to different directories |
| `Readings.BatchIs` | src/warranted/_operations.py:168-183 | A batch is read exactly when no line is the submit marker and what follows the first line feed is at most 1 MiB and decodes to the one-field object of 1 to 32 items |
| `Readings.PlanIs` | src/warranted/_operations.py:185-201 | An item runs an operation exactly when it is the two-field object naming one of the catalogue whose own parsing accepts its arguments |
| `Readings.ProducedIsShown` | src/warranted/_operations.py:337-347 | A recorded result shows the outcome and, when measured, the value the code gave back, and where it was reused from |
| `Readings.ProducedArrives` | src/warranted/_operations.py:349-357 | A measured result delivers exactly the files the code gave back, as they are, beside raw output of that name |
| `OperationsReplay.ResultStays` | src/warranted/_operations.py:241-260 | A recorded disposition is final: on every later ledger the item shows the same observation and files |
| `OperationsReplay.BatchStays` | src/warranted/_operations.py:137-166 | Whatever else happens, also to an item's own operation, a batch keeps its dispositions and their order |
| `OperationsSteps.RefusalKeeps` | src/warranted/_operations.py:262-273 | Recording a refusal of the first undecided item keeps the batch in order |
| `OperationsSteps.ReuseKeeps` | src/warranted/_operations.py:278-294 | Recording a reuse keeps the batch in order when no earlier item was refused |
| `OperationsSteps.ReservationKeeps` | src/warranted/_operations.py:295-302 | Reserving an item's operation keeps the batch in order when no earlier item was refused |
| `OperationsHost.FindCited` | src/warranted/_operations.py:360-365 | Finds the first input, in name order, whose name ends in the channel |
| `OperationsHost.Requests.FindReusable` | src/warranted/_operations.py:382-395 | Finds the first operation in ledger order that has the key and a measured result of its own, or there is none |
| `OperationsHost.Requests.Replay` | src/warranted/_operations.py:241-260 | Shows the recorded result, reuse or refusal of an item exactly when it has one |
| `OperationsHost.Requests.Refuse` | src/warranted/_operations.py:262-273 | The item gets a refusal with exactly the reason that applies, and shows it |
| `OperationsHost.Requests.TryReuse` | src/warranted/_operations.py:278-294 | When an operation may be reused the reuse of the first is recorded and the item shows its result; otherwise none may and nothing changes |
| `OperationsHost.Requests.Reserve` | src/warranted/_operations.py:295-302 | Unless something falls short, the item's operation holds exactly the reservation of its arguments, only of declared units, in root when shared and else in the run's scope; it is refused for the budget exactly when something does, and a refused reservation changes nothing |
| `OperationsHost.Requests.Execute` | src/warranted/_operations.py:303-329 | Unless the host dies, what is newly dispatched ran with the item's own arguments and files; what is recorded is exactly what the code gave back under this ID; and it stops only where the item is hindered |
| `OperationsHost.Requests.RecordProduced` | src/warranted/_operations.py:319-329 | The completion is exactly what the code gave back: usage, outcome and shown value unless too large, files, and raw output beside them |
| `OperationsHost.Requests.Item` | src/warranted/_operations.py:185-329 | Whatever is new of an item is by the rules: refused only after an earlier refusal or when the budget falls short, reused only from the first operation that may be, reserved only otherwise and with what it asks for, settled only with what its code gave back; unless the host dies what was dispatched ran, and it stops only where it is hindered; an item with a disposition shows it with no change and no execution |
| `OperationsHost.Requests.Handle` | src/warranted/_operations.py:137-166 | The same of every item of the batch; once it ends every item shows its recorded disposition, and a batch that stops earlier stops at a hindered item unless the host dies; handling a decided batch again ends with the same results, executes nothing and adds nothing |
| `OperationsRules.EvidenceRecords` | src/warranted/_operations.py:416-431 | The raw evidence of a result holds the value, the files and the raw output the code gave back, and an oversized value is a host failure |
| `OperationsRules.OffStaysRuled` | src/warranted/_operations.py:137-166 | What is done for other items keeps what is new of an item by the rules |
| `OperationsSafety.EventKeepsBatch` | src/warranted/_ledger.py:584-1067 | Whatever other hosts commit, a batch keeps its order and dispositions |
| `OperationsSafety.DecidedShape` | src/warranted/_operations.py:137-166 | A decided batch is executed, reused or erroneous items followed by refused or erroneous ones: nothing runs or reserves after a refusal |
| `OperationsSafety.ReuseIsSound` | src/warranted/_operations.py:382-395 | A recorded reuse names an operation that was dispatched, ended by itself, was measured, completed strictly before the reuse, and is found under the item's key |
| `OperationsSafety.KeyDetermines` | src/warranted/_operations.py:203-210 | Equal keys mean equal name, version, arguments and input contents |
| `OperationsSafety.OwnCitedExactly` | src/warranted/_operations.py:360-365 | What is found for a channel is the operation's own artifact exactly when no other input named like it sorts before it, unless that input holds the same bytes |
| `OperationsSafety.OwnChannelCited` | src/warranted/_operations.py:360-365 | On the request of an item: its own capture of the key, arguments or inputs is found exactly when no declared file named like it comes first with other bytes |
| `OperationsTakeover.DeclaredKeyTakesOver` | src/warranted/_operations.py:360-395 | A run in which it fails: an executed operation that declares the file input/key.json is found by another operation's key, and an item asking for that other operation records its reuse and shows its result |
| `OperationsSafety.LedgerIsPlain` | src/warranted/_operations.py:225-236 | When what an item cites is on the ledger, no name it cites stands for two artifacts, and its output has none of the host's own names |
| `OperationsSafety.ReuseAnswersTheSame` | src/warranted/_operations.py:278-294 | Source and item have equal name, version, arguments and input contents exactly when no declared file of the source named like a key comes first with other bytes |
| `OperationsReconcile.ReconcileOperation` | src/warranted/_operations.py:434-486 | An effect-free unknown operation is settled as an unmeasured host failure at its full reservation; an external one only by its receipt on the files and arguments read back from its cited inputs |
| `OperationsReconcile.ContextIsItsOwn` | src/warranted/_operations.py:467-486 | What is read back from an item's cited inputs is exactly its own arguments and files, when no declared file named like them comes first |
| `OperationsReconcile.SettledByItsReceipt` | src/warranted/_operations.py:463-486 | So an external operation is settled exactly by what its receipt says of the item's own arguments and files, and stays unknown when it says nothing |
| `OperationsReconcile.ReconciledInFull` | src/warranted/_operations.py:452-462 | In any known session the effect-free settlement is committed, leaves what is charged unchanged everywhere, breaches nothing and is never reused |
| `AcceptanceSafety.AcceptedExactlyWhenMet` | src/warranted/_acceptance.py:333-415 | The verdict is accepted exactly when receipts and exceptions name only known checks and rules, every requirement is passed by its exact current target-bound request with exactly the required boolean fields, and every excused rule has an exception for this exact scope |
| `AcceptanceSafety.CheckPasses` | src/warranted/_acceptance.py:289-331 | A check passes a field exactly when an operation of exactly the current request succeeded with exactly the required fields and that one true |
| `AcceptanceSafety.ExceptionExcuses` | src/warranted/_acceptance.py:247-287 | An exception counts exactly when its operation recorded it, with a reason, for this rule and exact scope |
| `AcceptanceSafety.VerdictAccepts` | src/warranted/_acceptance.py:392-405 | The list of blocking statuses misses none: the verdict is accepted exactly when no requirement's status is on it |
| `AcceptanceSafety.VerdictIs` | src/warranted/_acceptance.py:392-405 | Of several blocking statuses the verdict is unsupported before infrastructure failure, unknown, missing, stale and rejected, in this order, and a receipt or exception of an unknown name makes it unsupported |
| `AcceptanceSafety.CheckSays` | src/warranted/_acceptance.py:289-331 | When a check is missing, unknown, stale, a host failure or a field of it rejected, said of the request, the receipt and the operations; unsupported is whatever is left |
| `AcceptanceSafety.ExceptionSays` | src/warranted/_acceptance.py:247-287 | An exception is missing exactly when there is no such operation, unknown exactly while it has no outcome, and stale exactly when it was recorded with a reason but not for this rule and exact scope |
| `AcceptancePolicy.ParsePrintedPolicy` | src/warranted/_acceptance.py:130-163 | A policy document with the kinds written out as rule and gate reads back as the same policy |
| `AcceptancePolicy.PrintParsedPolicy` | src/warranted/_acceptance.py:130-163 | A document that reads as a policy is that policy's document |
| `AcceptancePolicy.CurrentIsInForce` | src/warranted/_acceptance.py:130-163 | The host acts on a context exactly when the policy document has the version, transition, owner and well-put rules and gates of a policy, has a gate, and asks for exactly the host's checks |
| `AcceptancePolicy.AcceptedAsAsked` | src/warranted/_acceptance.py:333-415 | The verdict is accepted exactly when every requirement of the policy document whose kind is gate has its check's field true, every one whose kind is rule has that or a recorded exception for this exact scope, and all names are known |
| `AcceptanceSafety.AcceptedStays` | src/warranted/_acceptance.py:333-415 | With an unchanged context, over any extension of the ledger a later judgement of an accepted decision gives every requirement the same status |
| `AcceptanceSafety.SettledVerdictStays` | src/warranted/_acceptance.py:333-415 | Whatever the verdict, it can change later only through a named operation that was missing or unfinished |
| `AcceptanceSafety.ReachableIsSound` | src/warranted/_ledger.py:603-1067 | Every reachable state meets what the acceptance results ask of a ledger: unique operation IDs, one project, settled operations dispatched |
| `AcceptanceCommit.BlockedScopeCommitsNothingNew` | src/warranted/_acceptance.py:204-225 | No new decision is recorded while its scope or root holds an unknown outcome, after a breach there, or beyond the allowance |
| `AcceptanceCommit.CommitRecords` | src/warranted/_acceptance.py:194-225 | A committed decision is settled as succeeded and holds exactly its body |
| `AcceptanceCommit.CommitSucceeds` | src/warranted/_acceptance.py:194-225 | A decision is committed exactly when its session and scope are known, the budget is open, its evidence is on the ledger, its ID is not taken by anything else, and nothing unknown blocks its scope unless it was settled before |
| `AcceptanceHost.Acceptance.Commit` | src/warranted/_acceptance.py:194-225 | The committing method refines its step: check the budget, reserve, reuse or dispatch, and settle; unless the host dies it ends with the committed decision exactly when that is possible; wherever it dies nothing but this request was changed, and it was settled only with these bytes |
| `AcceptanceHost.OnLedgerCanJudge` | src/warranted/_acceptance.py:289-331 | A judgement never fails when the target, the context and the inputs of its checks are on the ledger |
| `AcceptanceHost.DraftAccepts` | src/warranted/_acceptance.py:333-415 | What the ledger supports is drafted as accepted exactly when every requirement is met |
| `AcceptanceHost.AcceptanceIsGiven` | src/warranted/_acceptance.py:333-415 | With every requirement met, all evidence on the ledger, the budget open and nothing unknown in the scope, the decision can be committed and is accepted |
| `AcceptanceHost.Acceptance.Check` | src/warranted/_acceptance.py:289-331 | The deciding branches give the check's specified result |
| `AcceptanceHost.Acceptance.JudgeException` | src/warranted/_acceptance.py:247-287 | The deciding branches give the exception's specified result |
| `AcceptanceHost.Acceptance.Judge` | src/warranted/_acceptance.py:346-394 | The findings are what the ledger supports, and the inputs cite exactly the evidence judged on |
| `AcceptanceHost.Acceptance.Accept` | src/warranted/_acceptance.py:333-415 | Unless the host dies a decision is returned exactly when the context resolves, the ledger can be judged and the decision can be committed; it accepts exactly when every gate of the policy document has its check's field true and every rule that or a recorded exception, and is given whenever all are met and nothing blocks; refused or cut off, at most that decision was added |
| `AcceptanceHost.Acceptance.ExceptionDraft` | src/warranted/_acceptance.py:227-245 | The request of an exception is drafted exactly for a reason that is not blank and a name the policy in force asks for as a rule |
| `AcceptanceHost.Acceptance.RecordException` | src/warranted/_acceptance.py:227-245 | Unless the host dies an exception is recorded exactly when its rule, reason and context allow it and it can be committed, only for a name whose kind in the policy document is rule; it excuses that rule for exactly the current scope; refused or cut off, at most that exception was added |
| `ClaimGraph.StatusIsReachability` | src/warranted/_claims.py:211-266 | The walk's result is stale exactly when a reachable claim has an assumption with a known differing version, else unknown exactly when a reachable claim is incomplete or lacks a version, else current |
| `ClaimGraph.SucceedsWhenReadable` | src/warranted/_claims.py:240-262 | The walk succeeds exactly when every claim it reaches, and every parent one of them cites, is readable and earlier |
| `ClaimGraph.OtherVersionsDoNotMatter` | src/warranted/_claims.py:211-266 | Changing versions no reachable claim names never changes the assessment |
| `ClaimGraph.Walk.Visit` | src/warranted/_claims.py:240-262 | The memoised visit equals the walk without a cache, and ends |
| `Claims.ParseRecordedBody` | src/warranted/_claims.py:87-95 | A recorded claim reads back as the same claim |
| `Claims.GraphIsOrdered` | src/warranted/_claims.py:151-161 | Parents strictly precede their claims, and claim names are apart |
| `Claims.ReadableIsInGraph` | src/warranted/_claims.py:240-262 | On a ledger the walk from a claim can only fail at a parent that is not a readable claim |
| `Claims.ClaimLog.Claim` | src/warranted/_claims.py:114-162 | Reads exactly the captured host claims whose parents precede them |
| `Claims.ValidationAnswers` | src/warranted/_claims.py:164-209 | A claim is passed, or rejected, by its recorded checker exactly when the operation of exactly the recorded request succeeded with that boolean in the recorded field |
| `Claims.ValidationStays` | src/warranted/_claims.py:164-209 | Whatever the ledger grows by, only a check not made or not finished yet can change what was said about a claim |
| `Claims.ClaimLog.Validate` | src/warranted/_claims.py:164-209 | The method gives exactly that validation |
| `Claims.ClaimLog.Assess` | src/warranted/_claims.py:211-266 | There is an assessment exactly when the supplied versions are on the ledger and every claim reached is readable; it is the walk over the ledger's readable claims, and its status is reachability |
| `Claims.ClaimLog.Record` | src/warranted/_claims.py:43-112 | A claim is recorded exactly when it is well posed and its evidence is on the ledger; what is returned reads back as exactly the claim; recording it again returns the same evidence and changes nothing; a refusal changes nothing |
| `Guard.NormalizeInjective` | src/warranted/_guard.py:86-91 | Equal encodings of candidates mean equal candidates |
| `Guard.FieldDecodes` | src/warranted/_guard.py:86-91 | A length-prefixed field can be read back in only one way |
| `Guard.LongestIsLongest` | src/warranted/_guard.py:76-83 | The chosen common block is longest, and earliest among the longest |
| `Guard.MatchCuts` | src/warranted/_guard.py:76-83 | The matching blocks cut both strings into equal blocks and gaps |
| `Guard.EditMassIsMass` | src/warranted/_guard.py:76-83 | Adding up the edits between blocks gives exactly the gaps |
| `Guard.EditMassMeasures` | src/warranted/_guard.py:76-83 | Edit mass is at least the Levenshtein distance and the length difference, and is zero exactly for equal candidates |
| `Guard.Verdict` | src/warranted/_guard.py:56-73 | The exact band counts exactly the equal candidates of the window, the near band those within the threshold, and the refusal reports the least edit |
| `Workspace.DecodeWorkspace` | src/warranted/_sandbox.py:212-237 | Accepts exactly the bounded snapshots whose names are safe relative paths with no file above them and whose contents decode |
| `Workspace.SafeNamesArePaths` | src/warranted/_sandbox.py:216-229 | The accepted names are exactly the printed bounded paths of clean components without ups, and each is read back as that path |
| `Workspace.NoAncestors` | src/warranted/_sandbox.py:222-229 | In an accepted snapshot no path is another's ancestor |
| `Workspace.MakeDirectories` | src/warranted/_sandbox.py:57-63 | Creating parents fails exactly where a file is in the way, and adds exactly the missing ones |
| `Workspace.Restore` | src/warranted/_sandbox.py:57-63 | In any order, every directory and file of an accepted snapshot can be created, and the result is exactly that tree |
| `TaskSpecs.Apply` | src/warranted/_tasks.py:422-442 | The method removes what the revision removes, sets what it sets, replaces the checks exactly when it sets them and appends its note, and keeps the rest; it refuses exactly when a file to remove is not there or the result is not valid |
| `TaskSpecs.AppliedStaysValid` | src/warranted/_tasks.py:422-442 | A revised task keeps its schedule and is valid under it, for every submission |
| `TaskSpecs.AppliedToContract` | src/warranted/_tasks.py:545-550 | For a task without a schedule, revising it is amending its contract |
| `TaskSpecs.VersionSelects` | src/warranted/_tasks.py:541-543 | The revisions that apply to a submission are exactly those whose checkpoint comes before it |
| `TaskSpecs.VersionAtCheckpoint` | src/warranted/_tasks.py:1092-1101 | The first submission after the k-th checkpoint is under version k, so each memory snapshot matches its contract |
| `TaskSpecs.ContractsAreValid` | src/warranted/_tasks.py:545-550 | Every contract a valid schedule leads to is valid |
| `TaskSpecs.AppliedRevises` | src/warranted/_tasks.py:422-442 | Revising gives exactly the task that the revision describes part by part and file by file, when it removes only files that are there and the result is valid, and else is refused |
| `TaskContracts.ContractReads` | src/warranted/_tasks.py:541-550 | A submission's contract has the checks of the last revision before it that sets any, else the task's, and the task's objective with the notes of those revisions in order; everything else is the task's own |
| `TaskContracts.ContractHolds` | src/warranted/_tasks.py:541-550 | A file is in a contract, with its bytes, exactly as the last revision before the submission that mentions it put it there, or as the task has it when none does |
| `TaskRecords.RevisionPrefixesApart` | src/warranted/_tasks.py:687-694 | A channel belongs to at most one numbered revision |
| `TaskRecords.LoadRecordedRevision` | src/warranted/_tasks.py:444-475 | A recorded revision reads back as the same revision |
| `TaskRecords.NumberedHolds` | src/warranted/_tasks.py:687-694 | Under a revision's prefix there is exactly that revision's record |
| `TaskRecords.FlattenIsFlat` | src/warranted/_tasks.py:669-694 | Base files, private files, metadata and numbered revisions never collide when flattened |
| `TaskRecords.LoadRecordedTask` | src/warranted/_tasks.py:1809-1843 | Flattening a valid task with any number of scheduled revisions and loading it gives the same task, whatever else the run recorded |
| `TaskRecords.RunChannelsAreUnrelated` | src/warranted/_tasks.py:1108-1113 | The channels a run keeps beside its task are none of the task's |
| `TaskRuns.LoadedIsHeld` | src/warranted/_tasks.py:909-925 | A run that loads, whatever wrote its record, holds every file its contracts name |
| `TaskRuns.RecordedIsHeld` | src/warranted/_tasks.py:1104-1114 | A run recorded from a valid task loads that task and holds its files |
| `TaskRuns.PlaceRevision` | src/warranted/_tasks.py:914-924 | One revision folded over the evidence gives the names and bytes of the contract after it |
| `TaskRuns.FilesFor` | src/warranted/_tasks.py:909-925 | For every valid task and submission the folded evidence has the names of the contract in force and resolves to its bytes |
| `TaskRuns.CheckInputs` | src/warranted/_tasks.py:2137-2153 | A check request cites its target with its artifact, and beside it exactly the files of the contract in force |
| `TaskRuns.OtherCaptureIsElsewhere` | src/warranted/_tasks.py:2140-2143 | Evidence of another capture, as a submission is, is never a file of the run, so no file takes the target's place |
| `CampaignSpecs.SpecEntriesApart` | src/warranted/_tasks.py:786-809 | The entries of one valid campaign give a task one split and a memory scope one split |
| `CampaignSpecs.ParseRecordedPlan` | src/warranted/_tasks.py:1525-1541 | A recorded plan reads back as the same plan |
| `CampaignHost.CheckOthers` | src/warranted/_tasks.py:1493-1516 | Decides exactly whether the entries keep apart from every other campaign's pinned plan |
| `CampaignHost.PlanCampaign` | src/warranted/_tasks.py:1464-1542 | Across all pinned plans a task and a memory scope keep one split; a plan is returned exactly when its entries keep apart from every other campaign and the campaign is pinned with them or not at all; planning again returns the identical plan with its run IDs; a refusal changes nothing |
| `CampaignHost.PinnedStays` | src/warranted/_tasks.py:1458-1462 | A pinned plan stays as it is on every later ledger |
| `CampaignHost.OthersKeepPlans` | src/warranted/_tasks.py:1430-1436 | Other records leave the pinned plans apart |
| `CampaignHistory.NoPlansYet` | src/warranted/_tasks.py:1458-1462 | A new ledger has no plans, so they are apart |
| `CampaignHistory.Live` | src/warranted/_tasks.py:1430-1542 | From a new ledger, over any sequence of plannings and of transactions by others: every returned plan stays pinned, plans of one campaign are one plan, and across all of them a task and a memory scope keep one split |
| `MemoryRecords.LoadsStays` | src/warranted/_tasks.py:1706-1711 | Recording memory never changes what a run loads as |
| `MemoryEntries.VersionsTellBytes` | src/warranted/_tasks.py:1630-1645 | Two version records of one name are the same evidence exactly when they hold the same bytes |
| `MemoryEntries.SupportIsApplies` | src/warranted/_tasks.py:1740-1751 | The support of an entry's recorded claim is outdated exactly when a file it depends on has other bytes now, else undetermined exactly when one is gone, else current |
| `MemoryHost.Memory.Load` | src/warranted/_tasks.py:1809-1847 | Finds the run of a name exactly when its record can be read |
| `MemoryHost.Memory.CheckFacts` | src/warranted/_tasks.py:1680-1690 | The facts of a check are those its one operation reported, made of exactly the target and the files in force; it fails exactly when the host has no such checker, the request is not on the ledger's terms, or what was reported is not a list |
| `MemoryHost.Memory.NotesFrom` | src/warranted/_tasks.py:1691-1695 | The notes are those of the one captured candidate of the submission, when they are well formed and not empty; it fails exactly when there is not one candidate |
| `MemoryHost.Memory.Accepted` | src/warranted/_tasks.py:1664-1676 | A submission is accepted exactly when a completed decision that cites it says so; it fails exactly when an unreadable decision comes before any that accepts |
| `MemoryHost.Memory.RecordEntry` | src/warranted/_tasks.py:1713-1738 | Wherever the host dies only bookkeeping was added; a recorded entry holds its source, and its claim rests on the versions of its contract's files |
| `MemorySources.SourceIsOne` | src/warranted/_tasks.py:1677-1695 | No two sources of a scope have the same run, submission and name |
| `MemoryHost.Memory.AddRuns` | src/warranted/_tasks.py:1697-1738 | What is found is exactly every source of the scope that the ledger holds, each fact or note of each captured submission of each recorded run, once for every run-spec that names its run |
| `MemoryRefusals.StopsOnlyThere` | src/warranted/_tasks.py:1706-1738 | In a known session the walk over the sources stops only at a run, submission, check or decision that cannot be read, or where something else has the ID of a record memory keeps |
| `MemoryHost.Memory.Entries` | src/warranted/_tasks.py:1622-1634 | Newest first, each entry is of a source the ledger holds and each source has exactly one, or one more for every further run-spec that names its run, with its acceptance, applicability and split as the ledger says; no operation is added, once all is recorded the next call records nothing, and a refusal has one of the reasons named |
| `MemoryHost.Memory.TakeSnapshot` | src/warranted/_tasks.py:1768-1807 | The snapshot is the greedy fit of those entries' candidates, with a count of everything of its split that it withholds |
| `MemoryHost.NothingElseIsWithheld` | src/warranted/_tasks.py:1782-1797 | Every item of an accepted, current source of the split is a candidate, so it is shown unless it does not fit |
| `MemoryDecisions.CommittedDecisionCounts` | src/warranted/_acceptance.py:395-415 | A committed decision is found by memory for its target, with the status that was decided, and counts when it accepts |
| `MemoryDecisions.DecisionSays` | src/warranted/_acceptance.py:406-415 | A recorded decision says exactly its candidate, policy, revision and checks, and its status and no other |
| `MemoryDecisions.DecisionFinds` | src/warranted/_acceptance.py:406-415 | It says of exactly each requirement its own status and no other |
| `MemoryDecisions.DecisionGoesBy` | src/warranted/_acceptance.py:406-415 | It names exactly the receipts and exceptions it went by, each under its own heading |
| `MemoryHost.ShownIsSeparate` | src/warranted/_tasks.py:1771-1807 | Every shown fact is an item of a recorded source whose run-spec records the same split, whose submission a completed decision accepted, and all of whose depended-on files have the same bytes now |
| `MemorySnapshots.OtherSplitsDoNotMatter` | src/warranted/_tasks.py:1782-1786 | Entries of another split, or not accepted, make no difference to what is shown |
| `MemorySnapshots.CandidatesAre` | src/warranted/_tasks.py:1782-1790 | Exactly the items of accepted, current entries of the split may be shown |
| `MemorySnapshots.Snapshot` | src/warranted/_tasks.py:1778-1807 | The loop shows the greedy fit of the candidates and counts everything of its split that it withholds |

## Left out

- SQLite, file publication, `fsync`, schema and format checks: a transaction is one atomic step and the artifact store a growing content-addressed map.
- Timestamps: dispatch times are positions in the order of dispatches, elapsed times are arbitrary numbers.
- Concurrency: the code assumes one serialised host writer, so there are sessions and crashes but no threads.
- Podman, seccomp and Landlock, the container supervisors, `_CAPTURE`, `_DELIVER` and `_EXECUTE`, jobs and Lean verification: foreign processes.
- HTTP and model adapters: one nondeterministic result per attempt; their token bounds are empirical.
- mini-swe-agent and LangGraph: the agent is a function from what it has seen to its next move that finishes within its step limit, and the checkpoint grants no authority.
- An action other than one command, which the environment refuses: the model's responses are checked for one before, so an agent's action is a command.
- JSON text: reading it and the length of its encoding are given functions, and error messages keep their fixed part only.
- How files are put into the container: a delivery succeeds or fails, and a rerun repeats it.
- Details of an episode's recorded specification: continuation parents, file references and package versions are one JSON value and one map of context inputs.
- TOML loading, the CLI, exports, A-E contexts and the M1-M5 drivers: plumbing and demonstrations.
- Proof receipts: the status of a host proof is a given map.
- Text that Python's `str.strip` counts as blank beyond spaces, tabs, line feeds and carriage returns; other names and IDs follow the code's patterns.
- JSON of equal Python value but different type (`True` and `1`), which the host's checks tell apart by type and the model by constructor.
- Base64 and UTF-8 decoding: a workspace entry is given with its decoded bytes, if it has any.
- The duplicate guard's `difflib` heuristics for popular elements, which the code switches off, and the merging of adjacent blocks, which does not change the sum.
- Recorded breaches are a set of units; the code lists them in order.
- Claims are read once per assessment rather than one by one; reading does not change the ledger.
- Ledger.FindRow: linear search over the operations where the code asks an index, with the same answer.
- Scheduling a check, feedback, run status and campaign reports: they read the modelled state.
- How a project's own revisions are recorded; the task handed to a run or a campaign already includes them.
- The provenance a memory snapshot cites, and the dependencies an entry lists.
- MemoryHost.Memory.Entries: every refusal has a stated reason, but that each such reason refuses is stated only of the three methods that read one submission, because the host may also die first.
- A run's model configuration, which loading a run also parses, and facts that are not a list, which no check of the host's records.
- The code makes no promise, and none is stated, that root dispatches wait for run scopes, that scope caps fit the project allowance, or that a reusable key executes only once when a request was left pending by a crash.
