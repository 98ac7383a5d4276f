# PeakPass, modelled and verified

PeakPass sells tickets. Its waiting room is a protocol between one Lua script in Redis and PostgreSQL:
people join a line per event, are promoted at a bounded rate into a bounded number of slots, claim a
slot for one purchase, and the purchase commits in PostgreSQL together with a ledger row that later
frees the slot. This project models that protocol, the sales ledger under it, and three smaller pieces
beside it, and proves what they promise. `dafny verify dfyconfig.toml` checks all of it.

How the layers fit together:

- **One epoch in Redis.** `AdmissionSpace` gives the twelve keys of an epoch as a value and every
  operation of the script as a function; `Agreement` says when the keys are in order, `AgreementSteps`,
  `AgreementOps` and `AgreementCalls` prove that every operation keeps it, and `AdmissionRuns`,
  `AdmissionLaws`, `AdmissionTick` and `AdmissionAnswers` draw the consequences: order, rate, capacity,
  claims, and exactly what each operation answers. `AdmissionControl` is the control record.
  `AdmissionScript` is the script as it runs, a class whose methods update those keys in place, each
  proved equal to its function. `TransitionLog` and `LogReplay` are the executable rules over the log
  of Redis commands; `LogRules`, `LogMeaning` and `LogControl` say what those rules mean on the log alone and
  prove that exactly that is reported.
- **Recovery.** `Recovery` is a state machine over any number of coordinators, each in three
  transactions, with Redis effects that no transaction undoes, losses and kills anywhere. A published
  generation never reopens; `OneLoss` shows that one loss costs one generation, `RecoveryProgress` when
  recovery gets through, `RecoveryLog` what it adds to the log; `LateCreation` adds commands that arrive
  after their coordinator is gone, `RecoveryExamples` has runs that meet the exceptions.
- **The purchase protocol over both stores.** `Protocol` interleaves purchases (with their snapshots,
  gates, locks, claims, savepoints, commits and late settlements), reclaimers of overdue claims, queue
  calls, recovery and crashes. `ProtocolLaws` states what holds in every reachable state: a committed
  row behind every freed slot, one resource per admission, one order per key, fences between epochs;
  `LaterCalls` what every later call is answered once its key has an order or its admission a row;
  `PurchaseProgress` and `ReclaimProgress` that a purchase and a reclaimer nobody interrupts get through.
  It composes the two layers above: entries move by `AdmissionSpace.Step`, epochs by `Recovery.Next`.
- **The log of it all.** `JointLog` runs recovery and the queue on one server with one log, every epoch's
  sets and the control record in the order Redis applied them, and proves that the rules accept it;
  `EpochLog` is the argument that epochs do not disturb each other in it, and `ProtocolLog` shows that
  every run of the purchase protocol leaves such a log.
- **The sales ledger.** `Sales` gives each transaction as a function on the tables, `SalesStore` as
  statements on a class; `SalesLaws`, `SalesWebhook` and `SalesAnswers` prove seat conservation,
  exactly-once payment and ticket issue, replays, and when each transaction goes through; `SalesLinks` ties
  each converted reservation to its one order.
- **Beside them.** `Polling` is the browser's controller as a class, proved to extend its trace only as
  `PollingTrace` allows; `QueryCost` is the GraphQL cost analyser; `Sweeper` is the order sweeper;
  `CanonicalArray` is the fingerprint text of a purchase.

Three of the promises turn out to hold under a condition, which is proved to be exact:

- The log's run-id rule (a namespace is never initialized under a process that is gone) is broken if and
  only if the server is replaced between the moment a coordinator reads its process id and the moment it
  creates the namespace, and an earlier record had been written under that process. Every other rule
  holds in every run (`JointLog.OneLogIsAccepted`), and such a record is never opened
  (`RecoveryProgress.RestartBeforeCreation`, met by the run of `RecoveryExamples.StaleIsReached`).
- A published generation never reopens (`Recovery.NeverReopens`), also when freezes, unlinks, publishes,
  claims and finalizations outlive the transaction that sent them. If an `initialize` does, the promise
  holds unless it creates again the record of a generation that had been ready
  (`LateCreation.NeverReopensLate`), and then it fails (`LateCreation.RevivedReopens`): after a loss of
  every key the policy's own generation is served again, empty, and `maintain` itself completes that
  (`LateCreation.MaintainReopens`). `RecoveryExamples.ReopeningIsReached` is such a run.
- An uninterrupted recovery serves the policy's generation unless two things come together: the record of
  a generation still being created survived the loss of its namespace, and what the coordinator observed
  gives no reason to replace that generation (`RecoveryProgress.AttemptServes`). `maintain`, which passes
  nothing on while the policy is not open, never gets out of such a state; a `recover` that reads the
  record itself does exactly if the record is dirty (`RecoveryProgress.WhoGetsThrough`). How the state
  comes about is `RecoveryProgress.PartialLossSticks`, and `RecoveryExamples.StuckIsReached` gets there.

## Model

| member | source | states |
|---|---|---|
| AdmissionRuns.StepKeeps | src/infra/redis/admission.ts:147-290 | Every operation, from any agreed namespace and at any later instant, leaves the namespace agreed (entries, indexes, owners, numbers, budgets and log all in accord), replies instead of failing, and lets entries change only as entries may |
| AdmissionRuns.ReachedAgrees | src/infra/redis/admission.ts:147-290 | So every state reached from an empty epoch, by calls with fresh join ids and a clock that never goes back, is agreed |
| AdmissionRuns.NeverFenced | src/infra/redis/admission.ts:72-89 | In every reachable state the integrity test passes and the next call raises no internal error, so the script never fences itself |
| AdmissionRuns.IndexesAreTheEntries | src/infra/redis/admission.ts:155-163 | In every reachable state the waiting, lease, active and claim sets are exactly the entries of that state and phase, scored by sequence, lease end, slot end and deadline |
| AdmissionRuns.OneLiveEntryEach | src/infra/redis/admission.ts:213-228 | A user has at most one live entry; `users` names it, and it is also the user's latest |
| AdmissionRuns.SequencesFill | src/infra/redis/admission.ts:217-221 | Sequences are given out once each and without a gap: every number up to the counter belongs to an entry |
| AdmissionRuns.PositionCountsAhead | src/infra/redis/admission.ts:169-179 | A waiter's position is one more than the number of waiting entries with a smaller sequence |
| AdmissionRuns.BudgetsHold | src/infra/redis/admission.ts:241-252 | In every reachable state no more slots are taken than the capacity, and no second holds more promotions than the rate |
| AdmissionTick.TickPromotes | src/infra/redis/admission.ts:229-254 | Read off the entries: unless it lapsed its full number, when it promotes nobody, a tick promotes as many as there is room for, the whole line in time or as many as the rate leaves in the last second, the free slots or the batch; they are the first of the line by sequence |
| AdmissionLaws.RollingRate | src/infra/redis/admission.ts:240-252 | Over every run, the promotions reported within any half-open second number at most the rate |
| AdmissionLaws.ClaimedSlotIsHeld | src/infra/redis/admission.ts:156-168 | A claimed slot stays claimed, with its fingerprint, token and deadline, through every run that holds no complete or close of its own request |
| AdmissionLaws.ClaimRepeats | src/infra/redis/admission.ts:270-282 | Repeating a claim before its deadline changes nothing and returns the same entry whatever token it brings; another request under the same admission is refused |
| AdmissionLaws.FirstFinishWins | src/infra/redis/admission.ts:283-290 | The first of complete and close decides: whatever follows, the entry stays what that call made of it |
| AdmissionTick.TickTends | src/infra/redis/admission.ts:229-254 | Entry by entry: a tick changes exactly the entries it promotes, all waiting in time, and those it lets lapse, all past their time; it reports how many lapsed, at most its budget; and if it stayed below the budget nobody in the line or in an unclaimed slot is past their time afterwards |
| AdmissionAnswers.StatusAnswers | src/infra/redis/admission.ts:205-208 | Status shows the user's entry of the highest sequence, lapsed if its time is over, with its lease renewed if it waits; nothing else changes |
| AdmissionAnswers.JoinAgainAnswers | src/infra/redis/admission.ts:209-214 | A join request seen before shows the entry it made, to the user it made it for, and makes no other |
| AdmissionAnswers.JoinNewAnswers | src/infra/redis/admission.ts:215-228 | A new join request is refused exactly while the user has a live entry, which the refusal shows with its place in line, or while the line or the epoch is full; otherwise the user enters behind everybody who waits |
| AdmissionAnswers.CancelAnswers | src/infra/redis/admission.ts:263-269 | Cancel withdraws an unclaimed live entry in time, lets an overtime one lapse, refuses a claimed or consumed one unchanged, and shows an ended one as it is |
| AdmissionAnswers.ClaimAnswers | src/infra/redis/admission.ts:270-282 | A claim is granted exactly to the owner of an admitted, unclaimed entry in time, which it binds, or of one bound to this request before its deadline; every refusal has its code and leaves only the lapse or the mark it must |
| AdmissionAnswers.ReconcileAnswers | src/infra/redis/admission.ts:255-260 | Reconcile hands over claims past their deadline, the longest overdue first, all of them unless its limit is reached, marks exactly those and changes nothing else |
| AdmissionAnswers.FinishAnswers | src/infra/redis/admission.ts:283-290 | Complete and close act exactly on a claimed entry of this user under this fingerprint and token: complete consumes it with the outcome, close expires it; an entry already ended by one of them is only shown, anything else is refused unchanged |
| AdmissionAnswers.CallsByTime | src/infra/redis/admission.ts:141-146 | Until the epoch's end every call is answered by its own operation; from then on complete, close and reconcile still are, and every other call is sent away with 503 and changes nothing; inspect shows the entry and changes nothing |
| SortedSet.RangeIsPrefix | src/infra/redis/admission.ts:233-245 | A rank range of a sorted set is a strictly ordered prefix: all it leaves out comes after all it holds |
| AdmissionScript.EventKeys.Admit | src/infra/redis/admission.ts:195-204 | The limiter keeps the last minute's requests, denies with 120 (status) or 10 (join, cancel) of them and the wait until the oldest is forgotten, and else counts this request; nobody is ever counted beyond the limit |
| AdmissionScript.LimitsAre | src/infra/redis/admission.ts:195-204 | A status is denied exactly with 120 of the user's own in the last 60000 ms, a join or a cancel with 10, until the oldest of them is a minute old; no other operation is ever denied, and what is not denied is answered by the queue |
| AdmissionScript.WaitingOutTheLimit | src/infra/redis/admission.ts:195-204 | A caller denied by the limiter who waits as long as told, and sends nothing meanwhile, is let through, wherever no more than the limit is counted (which `Admit` and `Serve` keep) |
| AdmissionScript.Namespace.Join | src/infra/redis/admission.ts:209-228 | The statements of `join` on the keys, in place, have exactly the effect and reply of the value-level join |
| AdmissionScript.Namespace.Status | src/infra/redis/admission.ts:205-208 | The same for `status` |
| AdmissionScript.Namespace.Tick | src/infra/redis/admission.ts:229-254 | The same for `tick` with its three loops |
| AdmissionScript.Namespace.Reconcile | src/infra/redis/admission.ts:255-260 | The same for `reconcile` and its loop |
| AdmissionScript.Namespace.Cancel | src/infra/redis/admission.ts:263-269 | The same for `cancel` |
| AdmissionScript.Namespace.Claim | src/infra/redis/admission.ts:270-282 | The same for `claim` |
| AdmissionScript.Namespace.Finish | src/infra/redis/admission.ts:283-290 | The same for `complete` and `close` |
| AdmissionScript.Namespace.Serve | src/infra/redis/admission.ts:129-146 | One invocation from the control tests to the reply: refused without any effect, or answered as the value-level step says on an agreed namespace, with the dirty mark lifted; only an internal error leaves the mark; the limiters stay within their limits |
| AdmissionScript.Namespace.Probe | src/infra/redis/admission.ts:90-102 | `probe` reports a namespace as sound exactly if record, process, marks and counters agree and its session has not ended |
| AdmissionScript.Namespace.Initialize | src/infra/redis/admission.ts:103-128 | `initialize` writes an empty namespace and its record, or confirms its own, or refuses and changes nothing |
| AdmissionScript.Namespace.Freeze | src/infra/redis/admission.ts:129-132 | `freeze` closes the record of exactly this generation and epoch |
| AdmissionScript.Namespace.Publish | src/infra/redis/admission.ts:133-140 | `publish` opens the record of exactly this generation over an intact namespace |
| AdmissionControl.BarredUnlessPublished | src/infra/redis/admission.ts:129-146 | Queue operations run exactly over an intact namespace of the clean, ready record of their epoch, past its end only complete, close and reconcile; a record of another epoch is answered as a reset, everything else as recovering; a publish leads there, and a frozen record admits neither queue operations nor publish nor initialize |
| AdmissionControl.ControlLife | src/infra/redis/admission.ts:90-140 | When each of probe, initialize, freeze and publish succeeds, on the fields of the record, and what it then leaves: initialize creates exactly where no namespace is and no record as new, and confirms exactly what passes probe; publish takes exactly what passes probe of some process; a frozen record passes no probe; a refusal changes nothing; no operation lowers a generation |
| AdmissionControl.NewerIsGreater | src/infra/redis/admission.ts:71 | The comparison of generations as strings by length and then bytes is the comparison of the numbers they stand for |
| LogReplay.ReplayAdmissionLog | src/tests/helpers/admission-transition-log.ts:101-345 | The replay of one event's log, as a loop over maps, sets and lists it updates, reports exactly the rules broken, the promotions and the sets of its definition by recursion |
| LogMeaning.QueueRulesAreReported | src/tests/helpers/admission-transition-log.ts:225-327 | Read off the log alone: the replay reports capacity exactly if some insertion leaves more members in an epoch's active set than the capacity; rate exactly if more than `rate` promotions of one life of the epoch lie in the second that ends with one of them; repromotion, order and claim-without-slot exactly if an entry gets a slot twice, shares a sequence, takes a slot it had not left the line for or ahead of a smaller sequence, or a claim is made without or outlives its slot |
| LogControl.ControlRulesAreReported | src/tests/helpers/admission-transition-log.ts:159-205 | The generation rule is reported exactly if a command leaves the record unfrozen below a generation published before, or publishes one again for another epoch or after it was lost or frozen; the run-id rule exactly if a record is written under a process that had been named before a restart |
| LogControl.BooksAreTheLog | src/tests/helpers/admission-transition-log.ts:206-345 | The promotions counted are the insertions into active sets, the sets at the end hold what was inserted and neither removed nor lost since, and the record is what its fields were last set to since it was last lost |
| Recovery.NextKeeps | src/core/services/admission.service.ts:269-345 | Every statement, Redis call, crash, loss and restart keeps: one epoch per generation, open transactions work on the committed policy, and only an open current generation is ready |
| Recovery.NeverReopens | src/core/services/admission.service.ts:285-345 | A generation that was ready and then lost, frozen, fenced, damaged or retired is served by no later state of any run of any number of coordinators killed anywhere |
| Recovery.ServedIsCurrent | src/core/services/admission.service.ts:334-345 | What is served is the policy's open generation, under its own epoch and on the running server process |
| JointLog.OneLogIsAccepted | src/tests/helpers/admission-transition-log.ts:101-345 | One log of everything, in every run of recovery, losses, restarts and served or limited queue operations over any number of epochs: no capacity, rate, order, claim or generation rule is broken, the run-id rule is broken if and only if a record was written under a replaced process that an earlier record had named, and the replay ends with the record as it is and with exactly the sets of every intact namespace |
| JointLog.NothingIsBroken | src/tests/helpers/admission-transition-log.ts:225-327 | What that means for the log: in every such run no command of it overfills an epoch or a second, promotes twice or out of order, leaves a claim without a slot, or opens a lost generation again; one is written under a replaced process exactly if recovery created a record there; and what the log last added and did not remove is what the sets of every intact namespace hold |
| ProtocolLog.PurchaseLogIsAccepted | src/tests/helpers/admission-transition-log.ts:101-345 | The same of every run of the purchase protocol: what it makes Redis do is such a run |
| EpochLog.AllAlongside | src/tests/helpers/admission-transition-log.ts:119-157 | The share of one epoch, read in its place in a whole log, moves only that epoch's line and is judged as it is alone |
| RecoveryLog.NextTracks | src/tests/helpers/admission-transition-log.ts:159-205 | Whatever the log held before, one recovery action keeps the replay's record, published generation and processes in step, breaks no rule but run-id and that one exactly when it creates under a replaced process, and clears a line only with its namespace |
| RecoveryProgress.WhoGetsThrough | src/core/services/admission.service.ts:361-388 | With what `maintain` passes on, an attempt gets through from every state but a stuck one, which it leaves as it is; a `recover` that reads the record itself also gets through there exactly if the record is dirty |
| RecoveryProgress.ReleasedIsRetired | src/core/services/admission.service.ts:269-282 | Whichever transaction meets a released policy unlinks its record with the epoch's keys and the leftovers, so that nothing is served, and an open policy leaves its epoch for the next generation |
| RecoveryProgress.OvertakenGoalPasses | src/core/services/admission.service.ts:310-345 | A recovery whose generation or epoch another one has overtaken changes nothing any more |
| RecoveryProgress.AttemptServes | src/core/services/admission.service.ts:285-345 | From every reachable state with a free gate one uninterrupted recovery, whatever it observed before and whether or not its freeze got through, ends with its policy's generation served under the running process: the same one, if what is there is intact and not itself what was observed published, or was never written, and otherwise the next number under the new epoch. It does not exactly if the record of a generation still being created outlived its namespace and the observation gives no reason to replace it |
| RecoveryExamples.StuckIsReached | src/core/services/admission.service.ts:310-333 | A run from the beginning that ends in that exception |
| RecoveryExamples.StaleIsReached | src/tests/helpers/admission-transition-log.ts:165-186 | A run from the beginning that breaks the run-id rule |
| LateCreation.NeverReopensLate | src/core/services/admission.service.ts:310-345 | Where an `initialize` too may arrive at any later time, for any generation ever decided and any process ever read, a generation once ready and no longer served is still served by no later state, unless such a command creates again the record of a generation that had been ready |
| LateCreation.RevivedReopens | src/infra/redis/admission.ts:103-140 | The condition is exact: whenever that happens, the generation was not served, and a `publish` of it that arrives late serves it again |
| LateCreation.MaintainReopens | src/core/services/admission.service.ts:285-345 | If it was the policy's own generation on the running process, the next uninterrupted `maintain` already serves it again |
| RecoveryExamples.ReopeningIsReached | src/infra/redis/admission.ts:103-140 | A run from the beginning in which a served generation loses every key and is served again after a late `initialize` |
| RecoveryProgress.PartialLossSticks | src/infra/redis/admission.ts:103-122 | How that exception arises: the namespace, but not the record, is lost between creation and commit, and the coordinator dies; the state is then stuck |
| RecoveryProgress.RestartBeforeCreation | src/core/services/admission.service.ts:310-333 | How the run-id rule gets broken: a process that an earlier record names is replaced between the reading of its id and the creation; that record is never opened |
| OneLoss.OneLossOneGeneration | src/core/services/admission.service.ts:285-388 | After one loss with the server process fixed (of the record, of the namespace, of both, or by a dirty mark, damage or a freeze), however coordinators with null, older or initializing observations interleave and die, the generation is the lost one or its one successor, only the successor is ever served, and one uninterrupted attempt with any such observation serves it |
| ProtocolRuns.RunKeeps | src/core/services/admission-consumption.ts:197-310 | Every interleaving of purchases, reclaimers, queue calls, recovery, time and crashes keeps the protocol's invariant |
| PurchaseProgress.PurchaseGoesThrough | src/core/services/admission-consumption.ts:197-297 | A reservation or direct checkout under protection that nobody interrupts, of the user's own admitted and unclaimed entry in time, in the open epoch of a ready record, is answered with what it made; the ledger row of exactly this request, the resource tied to it and the entry, consumed with that outcome and out of its slot, are all that changed |
| PurchaseProgress.RefusalGoesThrough | src/core/services/admission-consumption.ts:236-262 | The same purchase, when the business refuses it, is answered with that refusal, which its row and its consumed entry store |
| PurchaseProgress.RefusalIsAnswered | src/core/services/admission-consumption.ts:208-234 | Otherwise it is answered, and leaves no row and nothing made: switched off 503 unavailable, policy not open recovering, another epoch reset, an unheard claim unavailable, and else the script's own code, which is spelled out on the record and the entry |
| PurchaseProgress.UnprotectedGoesThrough | src/core/services/admission-consumption.ts:197-204 | Without protection an uninterrupted purchase goes through without Redis and without a row |
| ReclaimProgress.ReclaimerFreesSlot | src/core/services/admission-consumption.ts:388-473 | A reclaimer that nobody interrupts, handed an overdue claim of the protected epoch, commits the closure of the claim's own request, or finds the row that is there, and frees the slot with the entry ended as the row says |
| ReclaimProgress.RowAnswers | src/core/services/admission-consumption.ts:122-159 | With gate and lock free a reservation under an admission that has its row is answered by the row in four steps, and leaves everything as it is |
| ReclaimProgress.DoubtStartsAgain | src/core/services/admission-consumption.ts:338-370 | After a refusal during which the row was committed the call begins again, and so is answered by it |
| ProtocolLaws.LedgerAlwaysMatches | src/tests/helpers/admission-ledger.ts:27-61 | In every reachable state, for every epoch whose entries are there to compare, the comparison of ledger rows and Redis entries finds nothing |
| ProtocolLaws.IntactIsCompared | src/tests/helpers/admission-ledger.ts:27-61 | Every intact namespace is among those compared |
| ProtocolLaws.SlotFreedForARow | src/core/services/admission-consumption.ts:388-473 | An entry that was claimed and no longer holds its slot has a committed ledger row, and its final state and outcome are the row's |
| ProtocolLaws.OneResourceEach | src/core/services/admission-consumption.ts:263-289 | Everything ever made through one admission is one reservation or order, the one its ledger row names |
| ProtocolLaws.AnswersAgree | src/core/services/admission-consumption.ts:144-164 | All linked successes under one admission answered one and the same request, with one resource that carries its payload |
| ProtocolLaws.KeyBuysOnce | src/core/services/checkout.service.ts:89-176 | All successful direct checkouts under one checkout key name one order |
| LaterCalls.OneOrderPerKey | src/core/services/checkout.service.ts:89-117 | No two orders share a checkout key, however they were placed |
| LaterCalls.KeyDecides | src/core/services/checkout.service.ts:89-163 | Once a key has an order, a direct checkout under it that begins at any later time is answered with that order if it repeats the request that made it (the payload, and the admission if both have one), and with a mismatch if not; no later epoch, loss, recovery, closure or row changes that answer, no gate can hold it up, two steps are enough for it, and only a crash of its own process ends it otherwise |
| LaterCalls.RowDecides | src/core/services/admission-consumption.ts:122-159 | Once an admission has its row, a reservation that names it and begins at any later time is answered by the row: with the reservation made, the refusal stored or the closure for the same request, and with 404 or 409 for another, whatever became of the entry, its epoch or the policy |
| ProtocolLaws.NothingStrands | src/core/services/admission-consumption.ts:338-370 | No call is answered with a refusal that a stale snapshot caused, and none meets a result whose order or reservation is missing |
| ProtocolLaws.NextIsFenced | src/infra/postgres/admission-policy.ts:21-46 | Every action only adds rows and resources: a row under the protected policy of its own epoch, and, while the policy is protected, no new occupation without its row |
| ProtocolLaws.LeftEpochGetsNoRow | src/core/services/admission.service.ts:269-282 | Once an epoch was left, no run adds, changes or removes a row of it |
| LedgerCheck.LedgerMismatches | src/tests/helpers/admission-ledger.ts:27-61 | The two maps and the two loops list exactly the problems of each row and then of each entry |
| LedgerCheck.NoMismatchIff | src/tests/helpers/admission-ledger.ts:27-61 | The list is empty if and only if every row and entry of the epoch agree, in whatever order they are listed |
| LedgerCheck.EachProblem | src/tests/helpers/admission-ledger.ts:27-61 | Each of the five kinds of problem is listed for an admission exactly when it is there: no entry, an entry that is neither open nor as its row says, and a consumed, closed or otherwise claimed entry without a row |
| Reflection.StepFits | src/infra/redis/admission.ts:147-290 | No queue operation makes an entry unfit for the ledger as long as complete and close only repeat a committed row |
| CanonicalArray.FingerprintIsInjective | src/core/services/admission-consumption.ts:45-72 | Two purchases have the same fingerprint text if and only if they are the same, and the operation is read back from its fourth place |
| CanonicalArray.ReadsBack | src/core/services/admission-consumption.ts:63-72 | Reading the canonical JSON text gives the array back, quotes, backslashes and control characters included |
| SalesLaws.SeatsAreConserved | src/core/services/inventory.service.ts:12-32 | After every committed transaction of every run, available seats plus active reservations plus pending and paid orders equal the event's seats, and availability stays within 0 and that total |
| SalesLaws.PaidExactlyOnce | src/core/services/payment-webhook.service.ts:135-206 | An order has one ticket per seat if it is paid and none otherwise; a paid one has exactly one provider record, a settlement with nothing to reconcile; a pending one has none; a success on an expired one is flagged; none is ever delivered |
| SalesLaws.TicketsAreNumbered | src/core/services/payment-webhook.service.ts:325-373 | Ticket numbers are given out once each, to seats of a paid order, its event and its user |
| SalesLaws.AcceptedCallbackReplays | src/core/services/payment-webhook.service.ts:74-108 | A callback once accepted is accepted again after any further transactions, reported as a duplicate, and changes nothing |
| SalesLaws.FactsLast | src/core/services/payment-webhook.service.ts:109-206 | A settled record never reverts and an order that left pending never changes again |
| SalesLaws.CheckoutKeyReplays | src/core/services/checkout.service.ts:89-130 | For checkouts with a reservation or without an admission: a checkout key that placed an order returns it ever after to the same payload, without effect, and refuses every other payload |
| SalesLaws.ConvertingAloneLosesSeats | src/core/services/reservation.service.ts:325-369 | The uncalled conversion without an order would break the seat equation, from every state and for every active reservation |
| SalesWebhook.AcceptedIff | src/core/services/payment-webhook.service.ts:48-206 | A callback is accepted exactly if its key is free or its own, its provider transaction is not another order's, and it is no success of a cancelled order, and each refusal has its code: no unique index and no seat count ever stands in its way |
| SalesWebhook.AcceptedIsBound | src/core/services/payment-webhook.service.ts:74-108 | An accepted callback is bound to its key from then on, and undoes no binding and no settlement |
| SalesAnswers.SuccessPays | src/core/services/payment-webhook.service.ts:135-167 | A success of a pending order pays it and issues as many tickets as it has seats, without moving a seat |
| SalesAnswers.FailureCancels | src/core/services/payment-webhook.service.ts:168-206 | A failure of a pending order cancels it and puts exactly its seats back on sale |
| SalesAnswers.LaterCallbackOnlyRecords | src/core/services/payment-webhook.service.ts:109-134 | A callback of an order that left pending changes no order, seat or ticket; its answer and whether it is reported as a duplicate are spelled out; a success of an expired one is on record, flagged for reconciliation |
| SalesAnswers.ReservesIff | src/core/services/reservation.service.ts:97-161 | A reservation is made exactly if the event sells it and has the seats, which it then holds |
| SalesAnswers.ReturnsOnce | src/core/services/reservation.service.ts:279-323 | Release and expiry never fail, and give an active reservation's seats back once |
| SalesAnswers.ExpiresOnce | src/core/services/order-expiration.service.ts:26-52 | Order expiry never fails, and gives an overdue pending order's seats back once |
| SalesAnswers.DirectOrderIff | src/core/services/checkout.service.ts:246-392 | A direct checkout under a new key places its order exactly if the event sells it and has the seats, which the order then holds |
| SalesAnswers.ReservedOrderIff | src/core/services/checkout.service.ts:186-243 | A checkout with a reservation becomes its order, without moving a seat, exactly if user, event, tier and quantity are the reservation's and it is active and in time; an overdue one that is active is returned instead; an unknown one is 404 and any other 409, with nothing changed |
| SalesLinks.ConvertedToItsOwnOrder | src/core/services/checkout.service.ts:186-243 | After any run a reservation is converted exactly if an order was made from it, that order is the only one, and it is for the reservation's own user, event, tier and quantity |
| SalesStore.Store.AdjustAvailableSeats | src/core/services/inventory.service.ts:12-32 | Read, check and overwrite: the seats move by delta, or the shortage is reported and nothing changes |
| SalesStore.Store.CreateReservation | src/core/services/reservation.service.ts:97-161 | The statements have exactly the effect of the value-level reservation, or none |
| SalesStore.Store.ReturnSeatsAndFinalize | src/core/services/reservation.service.ts:279-323 | The same for release and expiry |
| SalesStore.Store.CheckoutOrder | src/core/services/checkout.service.ts:71-254 | The same for checkout: replay, conversion, lapse or direct order |
| SalesStore.Store.CreateOrder | src/core/services/checkout.service.ts:260-392 | The same for the order, its seats and its first payment record |
| SalesStore.Store.ProcessPaymentWebhook | src/core/services/payment-webhook.service.ts:48-134 | The same for a payment callback |
| SalesStore.Store.InsertPaymentRecord | src/core/services/payment-webhook.service.ts:374-435 | The same for the provider record: inserted, replayed, upgraded or refused |
| SalesStore.Store.IssueTickets | src/core/services/payment-webhook.service.ts:325-373 | The loop issues exactly the tickets of the recursive definition |
| SalesStore.Store.ExpirePendingOrder | src/core/services/order-expiration.service.ts:26-52 | The same for order expiry |
| PollingTrace.PurchaseRepeatsItself | frontend/admission-polling.js:518-594 | However often a purchase is sent while every answer to it has status 0, 429, 500 or more, or says that it is in progress, it is sent as it was |
| PollingTrace.JoinRepeatsItself | frontend/admission-polling.js:476-496 | However often a join is sent in its epoch while no usable answer shows another entry than it started from and no answer other than 0, 429, 500 or more, 200 or 201 refuses it, it carries one key, epoch and starting point |
| PollingTrace.WaitIsRespected | frontend/admission-polling.js:399-446 | After an answer with status 0, 429, 500 or more, or an unusable 200 or 201, nothing goes to the queue API before its wait is over, unless a later answer of that API lifted it |
| PollingTrace.OneAtATime | frontend/admission-polling.js:178-205 | At most one request is in flight: between two sends the first was answered or given up |
| PollingTrace.QueueIsQuietWhileBuying | frontend/admission-polling.js:170-173 | While a purchase is being sent or repeated nothing goes to the queue API: no poll, join or cancel follows it before it is decided, its repeats are used up or the user stops it |
| PollingTrace.RepeatsAreBounded | frontend/admission-polling.js:518-564 | From the user's start or retry of a purchase to the end of its run it is sent at most once and four times more: the sends themselves are counted |
| Polling.FailureDelayHolds | frontend/admission-polling.js:26-42 | A failure is followed no sooner than the server asked, and a hidden tab waits no less than a visible one |
| Polling.FailureDelayIs | frontend/admission-polling.js:11-42 | After the k-th failure in a row the wait is the k-th of 1, 2, 4, 8 and then always 15 seconds, give or take a fifth and at most 15, or what the server or a hidden tab asks if that is longer |
| Polling.SuccessDelayIs | frontend/admission-polling.js:26-33 | After a success it is 15 seconds in a hidden tab, one second in fixed mode, and else what the server asked for or five seconds, give or take a fifth, between one and five |
| Polling.Controller.Receive | frontend/admission-polling.js:388-446 | What an answer does, by its status: a usable one lifts the wait, 0, 429, 500 or more and unusable ones keep every identity and set the wait, 404 shows that there is no queue, anything else is final and is followed by a fresh status unless the user is signed out; a purchase ends exactly if its answer decides it |
| Polling.Controller.Join | frontend/admission-polling.js:476-496 | A join is sent exactly when the controller is idle, unblocked and in a joinable phase; it repeats the attempt of its epoch or starts one with a fresh key, and keeps the trace proper: one request in flight, none within an error wait, no poll under a running purchase |
| Polling.Controller.Cancel | frontend/admission-polling.js:498-515 | A cancel is sent exactly when allowed, for the entry as it is now |
| Polling.Controller.StartPurchase | frontend/admission-polling.js:569-586 | A purchase starts exactly from an admitted entry of an idle controller and takes the place of a status poll |
| Polling.Controller.PollTimer | frontend/admission-polling.js:213-237 | When the planned poll is due, the plan is gone and a status request is sent, unless another request is in flight |
| Polling.Controller.PurchaseTimer | frontend/admission-polling.js:547-555 | When the wait of an undecided purchase is over, the same frozen body is sent again |
| Polling.Controller.RetryPurchase | frontend/admission-polling.js:588-594 | Only an unconfirmed purchase is sent again, with its own body and its repeats restored |
| Polling.Controller.StopPurchase | frontend/admission-polling.js:600-609 | A running purchase is left unconfirmed, its attempt dropped, and the status is read again once the error wait allows |
| Polling.Controller.ReceivePurchase | frontend/admission-polling.js:518-564 | An open outcome is repeated four times after the failure delay of its number, then left to the user; a decided one ends the purchase; the status is read again when it is not being repeated |
| Polling.Controller.Accept | frontend/admission-polling.js:349-386 | A usable answer lifts the error wait, shows its entry, ends a join attempt that another entry decides, and plans the next poll |
| Polling.Controller.Fail | frontend/admission-polling.js:399-417 | A failed answer keeps every identity, sets the wait the server and the backoff ask for, and plans the next poll |
| Polling.Controller.Settle | frontend/admission-polling.js:432-446 | A final refusal spends a join's key and reads the state again at once, unless the user is signed out |
| Polling.Controller.OnVisibility | frontend/admission-polling.js:630-657 | A hidden tab's poll moves out to the hidden interval; on return there is one request, at the end of an error wait still in force |
| Polling.Controller.Dispose | frontend/admission-polling.js:676-683 | A disposed controller has nothing in flight and nothing planned |
| QueryCost.SelectionComplexity | src/api/graphql/complexity.ts:74-144 | The analyser, with its loop and its early exits, terminates on every fragment graph and returns the cost of the query with its fragments inlined, or rejects exactly if a depth, a fragment cycle or the full cost is over its limit |
| QueryCost.CostBoundsResponse | src/api/graphql/complexity.ts:98-136 | A response whose lists are as long as the arguments of the query and the schema allow, `limit` items or without one 10, for `myTickets` 20, never has more fields than the query was charged for |
| QueryCost.ValidateQueryComplexity | src/api/graphql/complexity.ts:163-215 | A query that is let through answers with at most as many fields as the limit, however the resolvers fill their pages |
| QueryCost.FieldCharges | src/api/graphql/complexity.ts:31-60 | The numbers: `events` and `myOrders` cost their limit or 10, `myTickets` its limit or 20, every other field 1; a list counts as its limit, or as 10 or 20 items without one; no limit counts for less than one |
| QueryCost.EventsCost | src/api/graphql/complexity.ts:98-124 | n events with their ids cost 2 * n, so a limit of 5000 lets 2500 of them through and not 2501 |
| QueryCost.ChainDepth | src/api/graphql/complexity.ts:82-84 | The depth bound is exact: a chain of fields is let through exactly if it is no deeper than the limit |
| QueryCost.FragmentDepth | src/api/graphql/complexity.ts:82-84 | So is the bound on fragments inside each other, which cost nothing of their own |
| QueryCost.CyclesAreRejected | src/api/graphql/complexity.ts:119-137 | A query that spreads a fragment that reaches itself is rejected |
| Sweeper.Sweeper.SweepExpiredOrders | src/infra/cron/order-sweeper.ts:8-69 | A sweep attempts the first orders whose deadline is over, by last failure or deadline, then deadline, then id, at most a batch; takes those that left pending out, puts saved failures behind, and counts each attempt as what it was |
| Sweeper.CompletedIsSwept | src/infra/cron/order-sweeper.ts:33-64 | A sweep that completes and saves its failures is one of those the fairness argument is about |
| Sweeper.SweepMovesUp | src/infra/cron/order-sweeper.ts:23-29 | A due order that neither a completed sweep nor another worker attempted has at least a batch fewer ahead of it at the next sweep, whatever other workers did meanwhile |
| Sweeper.EveryOrderIsReached | src/infra/cron/order-sweeper.ts:23-64 | A due order that stays pending is attempted, by this worker or another, within ceil(rank / batch) completed sweeps, even if every other order fails for ever and other workers sweep at the same time |

## Left out

- RecoveryProgress.AttemptServes: the session end of a namespace is not reached during the attempt; in `Recovery` itself a probe may find it ended at any time.
- OneLoss.OneLossOneGeneration: coordinators start only as `maintain` starts them, nothing more is lost or frozen by hand, and no session ends meanwhile: the terms of the promise.
- PurchaseProgress.RefusalIsAnswered: the 400 for a tier id no tier can have and the 401 for a user without a row are two more refusals before the claim, on inputs the model does not have.
- LaterCalls.RowDecides: waits for the gate and the lock may end in timeouts, which are plain aborts there too.
- ProtocolLaws.NothingStrands: lock, statement and idle timeouts are plain aborts there, so the wording of the 409 and 503 answers after a timeout is not modelled.
- Sweeper.EveryOrderIsReached: it is about one worker's sweeps that complete and save their failures; a sweep that is stopped or cannot save one promises less.
- LogReplay.ReplayAdmissionLog: the log of one event, with the rules broken but not their wording and instants, and without the list of control changes.
- QueryCost.CostBoundsResponse: `@skip`, `@include` and the merging of fields under one response key only make a response smaller and are not modelled.
- The consumption and recovery services are modelled as steps on values and not as methods: what is proved of them is about their interleaving, one statement or call at a time.
- One event: the ledger, the policy and the gate of other events never meet, and rows of foreign events are not modelled beyond the test that refuses them.
- SalesLaws.CheckoutKeyReplays: the sales tables know no admission, so the comparison with an order's admission is not in it; `LaterCalls.KeyDecides` has it, on the protocol that does.
- SalesStore.Store.CheckoutOrder: the gate, the stored refusal and the comparison of admissions inside the cited lines belong to `Protocol` and are not repeated on the sales tables.
- Redis commands that arrive after their transaction is gone: freezes, unlinks, publishes, claims and finalizations are actions of the protocol at any time; a late `initialize` is followed in `LateCreation` alone, not together with purchases or the log.
- The `__` sentinel of hashes and sorted sets: it is last in every range and one in every cardinality, so the sets are modelled without it; `structures()` stays.
- Corrupt JSON and keys of a wrong type, beyond the broken state of a whole namespace and the error of an unreadable reference.
- The expiry of limiter keys: what it drops is older than a minute and would be forgotten anyway.
- The bound of three attempts per transaction: the model may repeat an aborted transaction any number of times, or never.
- Advisory-lock hash collisions, which only add waiting, and real time: locks are keyed by id, instants are integers, each store has one clock.
- Identifiers are integers: trimming and lower-casing of UUIDs and generation of fresh ones are outside, except that fresh ids are unused.
- The plain READ COMMITTED reservation without an admission takes its reads at once; a reservation under an unprotected policy is otherwise the same.
- `convertReservation` and its sibling are never called and are not steps (see SalesLaws.ConvertingAloneLosesSeats for why they must not be).
- Prices, tiers, event windows and the validation of requests: the judgement of the event is an input of the transaction.
- Orders marked as delivered: no code sets that state, and it is proved unreachable.
- Removal of orphaned namespaces and the scan for leftovers, beyond the unlink of a retired event's keys.
- Caches, hold records, notifications, metrics, logging, connection handling and configuration decide nothing and are not modelled.
- Routes, schemas, tokens, signatures, React components, the mock server, load scripts, seeds and migrations: thin plumbing or tooling.
- The sliding-window limiter of the HTTP layer: the window argument of the admission rate covers it.
- The polling controller's measurements (recognition, visibility log, trace records) and its stored purchase template, which is an input of `Start`.
