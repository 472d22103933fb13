# Durable transitions, verified

A Dafny model of the durable run store and of two algorithms of the workflow model it
serves, with proofs for every input, every reachable state or every run.

- **Optimistic transactions** (`Order`, `Transactions`, `Serializability`, `MemoryStore`):
  point reads, limited range reads through a transaction's own writes, validation at
  commit and the retry loop, for any number of clients interleaved at every read.
- **One run's mailbox** (`Mailbox`, `MailboxProofs`, `MailboxRuns`, `MailboxStore`): copies
  of events, the counters and index rows that summarise the pending ones, takes,
  expiries, wake-ups. `MailboxOrigins`: what is taken was brought; `MailboxDecisions`: what
  each operation leaves.
- **Run rows** (`Runs`, `RunTree`, `RunSafety`, `RunOutcomes`, `RunLeases`, `RunDecisions`,
  `RunJournal`, `RunIndex`, `KeyCodes`, `RunStore`): admission, claims and fences, records, the tree's budget, the end of a
  run with its subtree, holds, the sweep, and every secondary index row. `RunMail` and
  `JointRuns` run the rows and the mailboxes as one machine.
- **Scheduling** (`Schedule`, `SchedulePromotion`, `ScheduleOrigins`, `ScheduleRuns`,
  `ScheduleAdmissions`, `SchedulePauses`, `ScheduleBreaker`, `ScheduleLog`, `ScheduleStreak`, `ScheduleStore`): triggers, the one
  buffered slot per trigger, deferred drains, the catalog, the breaker, pause and resume,
  stop and clear. `ScheduleDecisions`: which case each operation is, written out over the
  rows before it. `TriggerIndex`, `TriggerRuns` and `TriggerHistories`: the index rows of
  triggers over every step, and the firings that break them.
- **Keys and pages** (`Keys`, `Pages`): order-preserving time keys, prefix ranges, due pages
  and cursors.
- **Closed jump cycles** (`Cycles`) and **redaction** (`Secrets`, `Redaction`,
  `RedactedRecords`, `SecretTables`).

Each transition is a function on values; the classes `MemoryBackend`, `MemoryTransaction`,
`RunMailbox`, `RunRows` and `ScheduleRows` perform the same transitions on
fields, row by row and loop by loop, and are proved equal to those functions. A step that
fails leaves the store as it was, because its transaction is not committed.

Check everything with `dafny verify dfyconfig.toml`.

## Assumptions

- Versions of rows are never issued twice, and the clock given to mailbox steps never
  runs backwards.
- Callers do not use `exceeded` or the mailbox's expiry keys as their own record keys, and
  no outside event has the type of a child's `done:` or `waiting:` notice.
- Every run and slot of a trigger key belongs to the definition that owns the key; a
  trigger keeps its overlap policy and ceiling; a firing of a queueing trigger carries a
  next trigger, and if it has a slot to admit also an overlap guard and the trigger to
  store when the slot has to wait.
- Where a theorem says "armed" (`World.armed`, part of `AllCallable`), firings are only of
  stored triggers; `Offered` histories may also fire a trigger that is not stored.
- Declared application versions are not empty.
- Instants are 64-bit; thresholds of a breaker are 32-bit.
- The catalog's refusal of an admission (`barred`) is part of the scheduling model; in the
  model of the run rows an admission may be refused by it at will.

## Model

| member | source | states |
|---|---|---|
| Transactions.LimitedScanIsExact | crates/durable/src/memory.rs:90-116 | Reading the limit plus the writes in range, then overlaying the writes, gives exactly the first `limit` rows of the fully merged range, for any inserts, overwrites and deletions |
| Transactions.ScanUnique | crates/durable/src/memory.rs:47-56 | A limited range has one answer: two scans of the same rows agree |
| Transactions.BetweenIsInRange | crates/durable/src/memory.rs:47-56 | The pair of bounds used on the ordered map selects exactly the ids of the kind between start and end |
| Serializability.CommitCheckIsFull | crates/durable/src/memory.rs:133-176 | Leaving points that a range already covers to the range check misses no conflict |
| Serializability.TouchedIsChecked | crates/durable/src/memory.rs:77-132 | A row read, put or deleted is refused at commit if its version has changed since it was first touched |
| Serializability.AnswerIsAlone | crates/durable/src/memory.rs:77-176 | Whatever was read earlier, if every observation validates at commit, it is what a run alone on the committing state would read through its own writes |
| Serializability.StepKeeps | crates/durable/src/memory.rs:77-176 | Invocations, single reads and writes, conflicts, drops and commits of any client keep the store equal to its serial history |
| Serializability.Serializable | crates/durable/src/backend.rs:271-307 | Every run's committed state is that of the committed operations one by one in commit order, each read what it reads alone there, and a retried call takes effect at most once, exactly once if it committed |
| MemoryStore.MemoryTransaction.Get | crates/durable/src/memory.rs:78-89 | A point read answers from own writes, else from the first observation, and records the version or absence |
| MemoryStore.MemoryTransaction.Scan | crates/durable/src/memory.rs:90-116 | A limited range read answers as the merged range does and records the versions it saw |
| MemoryStore.MemoryTransaction.Put | crates/durable/src/memory.rs:117-124 | A write observes its row first and is buffered; a read-only store refuses it |
| MemoryStore.MemoryTransaction.Delete | crates/durable/src/memory.rs:125-132 | A deletion observes its row first and is buffered; a read-only store refuses it |
| MemoryStore.MemoryTransaction.Check | crates/durable/src/memory.rs:133-158 | The loops over points and ranges accept exactly when every observation still holds |
| MemoryStore.MemoryTransaction.Commit | crates/durable/src/memory.rs:133-176 | A commit conflicts exactly when an observation changed, installs all writes under new versions or none, and may be applied although its answer is lost |
| MemoryStore.RunOnce | crates/durable/src/memory.rs:77-176 | An operation run in a fresh transaction, with other clients committing before every read and before the commit: if it takes effect it read what it reads alone on the rows it committed to; it conflicts only if others wrote in between |
| MemoryStore.Transact | crates/durable/src/backend.rs:271-307 | The retry loop begins, runs and commits the operation again only after a definite conflict, gives up after 128, and only its last attempt can have taken effect, on exactly what the other clients left |
| MailboxRuns.MailboxAlwaysRight | crates/durable/src/engine.rs:618-713 | After any interleaving the type counters, published count, earliest expiry and five index families are those of the stored copies; no identity is held twice; consumed copies and their records correspond one to one; a waiting run holding a wanted copy is due |
| MailboxProofs.PushKeeps | crates/durable/src/engine.rs:635-663 | Storing a copy keeps all of these |
| MailboxProofs.ConsumeKeeps | crates/durable/src/engine.rs:664-687 | Consuming a pending copy under a new record keeps the representation |
| MailboxProofs.ExpireKeeps | crates/durable/src/engine.rs:698-713 | Expiring keeps the representation, consumes exactly the copies past their time and leaves the others |
| MailboxRuns.TakeIsFirst | crates/durable/src/engine.rs:1899-1951 | A take consumes the earliest accepted pending unexpired copy of its types (published for the wildcard), answers and records its type, data, instant and envelope, and touches no other copy but expired ones |
| MailboxOrigins.CopiesBrought | crates/durable/src/engine.rs:776-890 | After any history every stored copy is, field by field with its expiry, what one delivery, publication or notice of the history brought at that instant |
| MailboxOrigins.TakenWasBrought | crates/durable/src/engine.rs:599-612 | What a take answers after any history, repeated takes included, is the type, data, instant and envelope of an earlier delivery, publication or notice |
| MailboxOrigins.RecordBrought | crates/durable/src/engine.rs:664-713 | So is every event and expiry record |
| MailboxRuns.TakeNothing | crates/durable/src/engine.rs:1899-1951 | With nothing to take the listen is registered |
| MailboxRuns.TakeRepeats | crates/durable/src/engine.rs:1899-1911 | Repeating a take's key gives the same event and changes nothing |
| MailboxRuns.AcceptWakes | crates/durable/src/engine.rs:754-775 | Accepting an event leaves no waiting run with a wanted copy undue |
| MailboxRuns.NotifyWakes | crates/durable/src/engine.rs:821-842 | So does a child's notice |
| MailboxRuns.FinishWakes | crates/durable/src/engine.rs:2021-2028 | So does the release as waiting |
| MailboxDecisions.KnownEvent | crates/durable/src/engine.rs:754-775 | An event of a known identity is a repeat if its payload is the held one, and a conflict if not |
| MailboxDecisions.NewEvent | crates/durable/src/engine.rs:754-775 | Any other event is stored as the next copy, and makes the run due if an awaited type, a subscription or its wildcard names it |
| MailboxDecisions.NoticeDecides | crates/durable/src/engine.rs:821-842 | A notice is stored if awaited and none of its type is unread, and wakes only a wait or a listen that names it |
| MailboxDecisions.ChildEndDecides | crates/durable/src/engine.rs:1267-1294 | The end of a child is told once, after the wait for its waiting is closed |
| MailboxDecisions.WaitDecides | crates/durable/src/engine.rs:1872-1884 | An addressed wait awaits its types, from now if it did not before |
| MailboxDecisions.UnregisterDecides | crates/durable/src/engine.rs:1885-1895 | Ending a wait drops its listener and every type no listener lists |
| MailboxDecisions.ExpectDecides | crates/durable/src/engine.rs:2087-2091 | Starting a child awaits both its notices and listens for its end |
| MailboxDecisions.EndDecides | crates/durable/src/engine.rs:892-937 | What the end and the sweep of a run leave of its mailbox |
| MailboxDecisions.StepGuards | crates/durable/src/engine.rs:357-390 | An ended run is only swept, and only the owner of a running one registers, takes, saves or lets go |
| MailboxDecisions.ArrivalDecides | crates/durable/src/engine.rs:776-890 | When a delivery or publication is taken in at all |
| MailboxDecisions.TakenRow | crates/durable/src/engine.rs:1899-1951 | What a take leaves of listeners, awaits and addressed waits |
| MailboxDecisions.WaitingDecides | crates/durable/src/engine.rs:2021-2028 | The release as waiting is due at once exactly if a stored copy is one the run would take |
| MailboxDecisions.OfferDecides | crates/durable/src/engine.rs:2757-2790 | An unread delivery that is offered counts as published, and the run is due |
| MailboxDecisions.OwnerDecides | crates/durable/src/engine.rs:1952-1972 | What subscriptions, releases and saves leave |
| MailboxDecisions.OwnerCommands | crates/durable/src/engine.rs:1872-1972 | What the registrations of an owner are |
| MailboxDecisions.TakeCommand | crates/durable/src/engine.rs:1899-1951 | Its takes are the takes above |
| MailboxDecisions.WaitCommand | crates/durable/src/engine.rs:2021-2028 | Its release as waiting is the one above |
| MailboxDecisions.StoreCommands | crates/durable/src/engine.rs:402-421 | What the store itself does to a live run; a claim changes only its state |
| MailboxStore.WantedHasType | crates/durable/src/engine.rs:717-750 | Looking only at awaited and subscribed types misses no wanted copy |
| MailboxStore.CountersTell | crates/durable/src/engine.rs:724-735 | The two counters of a type say whether a notice and whether an event is pending |
| MailboxStore.TwoRowsTell | crates/durable/src/engine.rs:742-748 | Two rows of a type's live index hold an event's row exactly if one is live |
| MailboxStore.RunMailbox.PendingWanted | crates/durable/src/engine.rs:717-750 | The wake test by counters, earliest expiry and two-row scans is true exactly when some stored copy satisfies `wanted` |
| MailboxStore.RunMailbox.Store | crates/durable/src/engine.rs:635-663 | The row-by-row push is the specified one |
| MailboxStore.RunMailbox.Use | crates/durable/src/engine.rs:666-687 | The row-by-row consume is the specified one |
| MailboxStore.RunMailbox.ExpireCopies | crates/durable/src/engine.rs:698-713 | The expiry loop is the specified one |
| MailboxStore.RunMailbox.AcceptEvent | crates/durable/src/engine.rs:754-775 | Acceptance with its identity check, wake-up and conflict |
| MailboxStore.RunMailbox.NotifyParent | crates/durable/src/engine.rs:821-842 | A lifecycle notice, at most one pending per type |
| MailboxStore.RunMailbox.FirstCandidate | crates/durable/src/engine.rs:1915-1928 | One indexed row per listed type gives the least pending sequence |
| MailboxStore.RunMailbox.TakeNext | crates/durable/src/engine.rs:1899-1951 | The take as performed is the specified one |
| MailboxStore.RunMailbox.ReleaseAsWaiting | crates/durable/src/engine.rs:2021-2028 | Releasing as waiting with the fast wake test |
| RunIndex.Indexes | crates/durable/src/engine.rs:241-320 | The map built for a row has exactly the index rows, and their values, that the declarative reading of each index gives it |
| RunIndex.MovedAgrees | crates/durable/src/engine.rs:327-338 | Applying the difference of a run's index rows keeps the index exact for all runs if the rows it starts from are the stored ones |
| RunIndex.IndexUnique | crates/durable/src/engine.rs:241-338 | The run rows determine the index |
| RunIndex.DueMeansClaimable | crates/durable/src/engine.rs:391-401 | A run is in the due range at an instant exactly when it is claimable then, and has one due row |
| RunIndex.DueByApplication | crates/durable/src/engine.rs:277-293 | A version's due index holds exactly the due runs of that version |
| RunIndex.AwaitingMeans | crates/durable/src/engine.rs:289-310 | An untargeted delivery finds a run under exactly the types it awaits without an unread copy, not held, and not merely joining a child |
| RunIndex.HeldIndexed | crates/durable/src/engine.rs:277-320 | When a run is in the due, mailbox, finished and subscription indexes |
| RunIndex.ClaimMovesDue | crates/durable/src/engine.rs:402-421 | A claim records the instant the run became due and moves it to the end of the new lease |
| RunIndex.HoldThenReleaseIndex | crates/durable/src/engine.rs:2549-2574 | Releasing what a hold of an unheld subtree froze restores every index row |
| KeyCodes.ComponentInjective | crates/durable/src/engine.rs:160-162 | Different texts have different hexadecimal components |
| KeyCodes.NoCollisions | crates/durable/src/engine.rs:241-320 | The stored kind and id of an index key determine it: rows of two runs or two indexes never share a place |
| RunTree.NoCycle | crates/durable/src/engine.rs:2069-2119 | No run is its own ancestor |
| RunTree.LiveRoot | crates/durable/src/engine.rs:2099-2100 | The root a live run names is a live run without parent above it |
| RunTree.ClosedIsSubtree | crates/durable/src/engine.rs:1337-1359 | A set closed under live children is exactly the run and its live descendants |
| RunTree.EndTreeLives | crates/durable/src/engine.rs:1295-1368 | Ending a run with its live descendants leaves no live run under an ended one |
| RunTree.HoldReach | crates/durable/src/engine.rs:2549-2574 | A hold reaches exactly what the end of the run would end |
| RunTree.HoldThenRelease | crates/durable/src/engine.rs:2549-2574 | Hold then release of an unheld subtree restores every row |
| RunSafety.StepGood | crates/durable/src/engine.rs:357-421 | Every step keeps rows well formed, parent links a forest, ancestors of live runs live and roots right, and only lets rows evolve |
| RunSafety.AlwaysGood | crates/durable/src/engine.rs:1295-1368 | So in every reachable store no unfinished run has an ended parent |
| RunSafety.OutcomeIsFinal | crates/durable/src/engine.rs:1295-1316 | A terminal outcome, its instant and the totals never change |
| RunOutcomes.LifeDecides | crates/durable/src/engine.rs:357-421 | What every committed command makes of every stored run: state, fence, generation, lease, interruptions, outcome, hold |
| RunOutcomes.OutcomeTells | crates/durable/src/engine.rs:1295-1316 | In every reachable store a run is completed exactly with an output, failed exactly with a fault, cancelled exactly with neither, and no other run has an outcome |
| RunOutcomes.CountsInARow | crates/durable/src/engine.rs:2015-2042 | The row counts the interruptions of the run in a row, fewer than ten while it lives |
| RunOutcomes.OutcomeComes | crates/durable/src/engine.rs:1295-1368 | Every outcome and its instant come from one committed command: the status its owner gave, a fault with the tenth interruption in a row, its cancellation or that of a run above, or its refusal |
| RunOutcomes.EndReaches | crates/durable/src/engine.rs:1295-1368 | And such a command ends the run with that outcome and every live run below it as cancelled |
| RunLeases.OwnerNeedsLease | crates/durable/src/engine.rs:357-419 | No step of an owner commits but under the lease last given to its fence (start, child start, claim, renewal), while now with the clock skew is before thirty seconds from then |
| RunLeases.LeaseLets | crates/durable/src/engine.rs:357-419 | Until then the owner acts: it always releases, renews unless all is stopped, and does the rest unless the run is held too |
| RunLeases.HeldWaits | crates/durable/src/engine.rs:1816-1835 | A held run is not claimed, and its owner only renews, releases or saves the answer of a pending call |
| RunLeases.StoppedWaits | crates/durable/src/engine.rs:368-390 | While all is stopped nothing is admitted, claimed, renewed or done by an owner but a release |
| RunDecisions.ClaimDecides | crates/durable/src/engine.rs:391-401 | Exactly when a run can be claimed, by state, wake-up, lease, hold, version and generation |
| RunDecisions.ClaimWake | crates/durable/src/engine.rs:402-421 | A claim of a running run records that it was due when its lease ended |
| RunDecisions.NewRowIs | crates/durable/src/engine.rs:428-512 | An admission, start or refusal of a new identity adds just its row: what admission fixed, an empty mailbox, no totals, no evidence |
| RunDecisions.WakeDecides | crates/durable/src/engine.rs:2015-2042 | When a run let go is due again, with the pauses in numbers |
| RunDecisions.SaveDecides | crates/durable/src/engine.rs:1816-1871 | Exactly which records an owner may save over what is stored |
| RunDecisions.SaveLeaves | crates/durable/src/engine.rs:1816-1871 | A save stores the record, leaves evidence, and counts the first answer of a call only |
| RunDecisions.SpendLeaves | crates/durable/src/engine.rs:2136-2180 | A unit is granted exactly while the tree's counter is below the limit, and what the record then says |
| RunDecisions.ChildDecides | crates/durable/src/engine.rs:2069-2119 | Exactly when a child may be started or started again |
| RunDecisions.ChildLeaves | crates/durable/src/engine.rs:2069-2119 | A new child is linked, in its parent's tree, and claimed by its creator |
| RunDecisions.ParentExpects | crates/durable/src/engine.rs:2087-2091 | What the parent's row registers for the child |
| RunDecisions.EndKeepsBudget | crates/durable/src/engine.rs:1300-1360 | What the end of a run leaves in the rows of its subtree and of the tree's counter |
| RunDecisions.SweepDecides | crates/durable/src/engine.rs:2220-2231 | Exactly when evidence is swept, and what goes |
| RunDecisions.HostDecides | crates/durable/src/engine.rs:1395-1418 | Exactly when a run is admitted, cancelled, held, released or delivered to, and that the stop switch can always be set |
| RunDecisions.RootAgrees | crates/durable/src/engine.rs:438-466 | What a root, and a child, must agree on to join the stored run |
| RunDecisions.MailLeaves | crates/durable/src/engine.rs:776-820 | What an arrival or a listen writes to the row and the records |
| RunDecisions.AddToDecides | crates/ows/src/durable.rs:485-500 | A present name sums if the sum is a number; a new one is taken in while there are fewer than thirty-two names and the totals fit |
| RunDecisions.AccumulateDecides | crates/ows/src/durable.rs:485-500 | The annotations of an answer are added one after the other; texts are not |
| RunSafety.StaleFenceNeverCommits | crates/durable/src/engine.rs:357-419 | Once a later claim of the run commits, nothing under an earlier fence ever commits |
| RunSafety.BackoffDoubles | crates/durable/src/engine.rs:2030-2042 | The pause after interruptions doubles up to ten minutes |
| RunJournal.CompletedIsImmutable | crates/ows/src/durable.rs:509-521 | While the run lives a completed record stays as it is and a call keeps its binding |
| RunJournal.RecordsStay | crates/durable/src/engine.rs:1816-1871 | Until the ended run is swept its records only advance |
| RunJournal.RefusalsAgree | crates/durable/src/engine.rs:2151-2170 | The refusals in a run's journal are exactly those that committed, and each of them, with the exceeded record, names the one that committed first |
| RunJournal.BudgetConserved | crates/durable/src/engine.rs:2136-2180 | A live root's counter is the number of units ever granted anywhere in its tree |
| RunJournal.BudgetBounded | crates/durable/src/engine.rs:2147-2152 | No counter passes a limit that every spend keeps to |
| RunJournal.DecidedOnce | crates/durable/src/engine.rs:2139-2146 | A run's key is decided at most once |
| RunJournal.TotalsAreSums | crates/durable/src/engine.rs:1853-1866 | A run's totals are its completed answers accumulated in commit order |
| RunJournal.AnswersAreTheJournal | crates/durable/src/engine.rs:1845-1866 | Those answers are of distinct calls, and while the run lives exactly the answers in its journal |
| RunJournal.NamesKeepSumming | crates/ows/src/durable.rs:485-500 | A name once present keeps summing whatever else arrives, and the names stay within their bound |
| RunStore.RunRows.StoreIndexed | crates/durable/src/engine.rs:327-338 | Storing a row with its true earlier index rows keeps the index exact |
| RunStore.RunRows.Store | crates/durable/src/engine.rs:321-326 | Storing a row keeps the index exact |
| RunStore.RunRows.Lifecycle | crates/durable/src/engine.rs:1267-1294 | A child's notification to its parent |
| RunStore.RunRows.EndChild | crates/durable/src/engine.rs:1339-1358 | The index rows taken when the children were read are still the stored ones when each child ends |
| RunStore.RunRows.Cascade | crates/durable/src/engine.rs:1337-1359 | The cascade terminates and ends exactly the live descendants |
| RunStore.RunRows.Terminate | crates/durable/src/engine.rs:1295-1368 | The end of a run: subtree, budget and the parent's notice |
| RunStore.RunRows.Finish | crates/durable/src/engine.rs:2015-2068 | The owner's last step, with giving up after interruptions |
| RunStore.RunRows.ClaimAs | crates/durable/src/engine.rs:1741-1760 | A claim of a claimable run by a compatible worker |
| RunStore.RunRows.Spend | crates/durable/src/engine.rs:2136-2180 | A budget unit, or what was decided at its key; no decision exactly when the owner may not act, or the key or the first refusal holds another record |
| RunStore.RunRows.SaveRecord | crates/durable/src/engine.rs:1816-1871 | A save, counted once if it completes a call |
| RunStore.AddUp | crates/ows/src/durable.rs:458-500 | The loop over an answer's numbers is the specified accumulation |
| RunStore.RunRows.StartChild | crates/durable/src/engine.rs:2069-2119 | An owned child, or the stored one's report again |
| RunStore.RunRows.Admit | crates/durable/src/engine.rs:428-467 | An admission inserts once or joins, naming what disagrees |
| RunStore.RunRows.Start | crates/durable/src/engine.rs:1723-1740 | An admission claimed by its creator in the same commit, under the first fence |
| RunStore.RunRows.Refuse | crates/durable/src/engine.rs:542-551 | A refused run is stored ended, once |
| RunStore.RunRows.Listen | crates/durable/src/engine.rs:1872-1895 | An owner's change of its mailbox fields keeps the index exact |
| RunStore.RunRows.Deliver | crates/durable/src/engine.rs:776-820 | So does a copy put into a live run's mailbox |
| RunStore.RunRows.Stop | crates/durable/src/engine.rs:2638-2649 | The stop switch moves no row |
| RunStore.RunRows.Renew | crates/durable/src/engine.rs:1769-1780 | A renewal, also of a held run |
| RunStore.RunRows.Release | crates/durable/src/engine.rs:1781-1793 | A release by the owner |
| RunStore.RunRows.Sweep | crates/durable/src/engine.rs:2220-2231 | The sweep of one ended run's evidence |
| RunStore.RunRows.Subtree | crates/durable/src/engine.rs:2552-2563 | The level-by-level search terminates and lists each live run of the subtree once |
| RunStore.RunRows.SetHold | crates/durable/src/engine.rs:2549-2574 | A hold or release of the subtree, answering whether anything changed |
| SchedulePromotion.DrainOneWf | crates/durable/src/engine.rs:986-1006 | After a slot's turn it is promoted or has a reason to wait; slots left are unchanged and get no run |
| SchedulePromotion.DrainWf | crates/durable/src/engine.rs:979-1008 | After a drain each slot of the definition is promoted, waits for a reason, or the definition is marked |
| SchedulePromotion.TerminateWf | crates/durable/src/engine.rs:1332-1363 | The end of runs with the drains of their definitions loses no slot of any definition |
| ScheduleDecisions.QueueDecides | crates/durable/src/engine.rs:1174-1223 | Firing a queueing trigger: at the ceiling nothing is admitted or buffered; with a live run and no slot exactly that slot is buffered; with a slot it is busy; without a live run the run is stored and live, or its refusal recorded |
| ScheduleDecisions.SkipDecides | crates/durable/src/engine.rs:1174-1223 | Firing a skipping trigger: full, busy, or taken |
| ScheduleDecisions.AllowDecides | crates/durable/src/engine.rs:1174-1223 | Firing a trigger that allows overlap: full, or taken |
| ScheduleDecisions.ReplaceDecides | crates/durable/src/engine.rs:1174-1223 | Firing a replacing trigger: its live runs are cancelled, then full, or taken |
| ScheduleDecisions.FirePrecedes | crates/durable/src/engine.rs:1121-1160 | What a stop, a moved trigger, a malformed firing or an event taken before answers |
| ScheduleDecisions.FireDrains | crates/durable/src/engine.rs:1121-1146 | A deferred drain goes first and may change the trigger or refuse the slot |
| ScheduleDecisions.FireJoins | crates/durable/src/engine.rs:1172-1200 | A slot whose run is stored only moves the trigger on, if the admissions agree |
| ScheduleDecisions.GuardNeeds | crates/durable/src/engine.rs:1172-1176 | A guarded firing of several runs, without a ceiling or without triggers to move to fails |
| ScheduleDecisions.FireMissed | crates/durable/src/engine.rs:1205-1223 | A slot that is not fired only moves its trigger on, or removes it |
| ScheduleDecisions.FireBusy | crates/durable/src/engine.rs:1196-1204 | Without a guard a trigger whose last run lives is busy if the firing allows for it |
| ScheduleDecisions.FirePlain | crates/durable/src/engine.rs:1205-1223 | Else its slot is taken |
| ScheduleDecisions.TurnPromotes | crates/durable/src/engine.rs:986-1006 | A slot's turn without a live run of its trigger and below the ceiling stores its run with admission, key and re-arming, or records its refusal |
| ScheduleDecisions.TurnFaults | crates/durable/src/engine.rs:986-1006 | A slot without its trigger, or a row without its slot, fails the drain |
| ScheduleDecisions.StoppedDrain | crates/durable/src/engine.rs:979-985 | A stopped store only marks a definition that has slots |
| ScheduleDecisions.PageDecides | crates/durable/src/engine.rs:1026-1032 | A page of deferred drains unmarks exactly the definitions that come first by name, as many as asked for, and leaves no slot without a reason |
| ScheduleDecisions.TurnWaits | crates/durable/src/engine.rs:986-1006 | With a live run or at the ceiling the slot stays and nothing changes |
| ScheduleDecisions.EarlierFirst | crates/durable/src/engine.rs:979-1008 | Slots take their turns in key order: where one still waits though no run of its trigger lives, none with a later key and no higher ceiling was promoted |
| ScheduleDecisions.EndsExactly | crates/durable/src/engine.rs:1332-1363 | The end of a run ends it and what is below, and no other stored run changes |
| ScheduleDecisions.RearmDecides | crates/durable/src/engine.rs:1323-1331 | An ended run re-arms the trigger its firing stored, if that is still stored and dormant, to its delay from now |
| ScheduleDecisions.FinishDecides | crates/durable/src/engine.rs:2043-2068 | The end by its owner is observed first; an ended or unknown run has none |
| ScheduleDecisions.StartDecides | crates/durable/src/engine.rs:428-467 | Which starts insert, join or fail, for roots and children |
| ScheduleDecisions.StartDrains | crates/durable/src/engine.rs:1711-1740 | A deferred drain goes first, and is kept when it refuses the start |
| RunMail.ChildEndHolds | crates/durable/src/engine.rs:1267-1294 | A child's end changes the parent's row as it changes the parent's mailbox |
| RunMail.StartChildHolds | crates/durable/src/engine.rs:2087-2091 | So does the start of a child |
| RunMail.SleepHolds | crates/durable/src/engine.rs:2021-2028 | So does the release as waiting, woken exactly when the mailbox holds a wanted copy |
| JointRuns.NextAgrees | crates/durable/src/engine.rs:1267-1368 | Every step of the run store, with what it does to the mailboxes of all runs it touches, keeps each row equal to its mailbox's row and each mailbox right |
| JointRuns.AlwaysAgree | crates/durable/src/engine.rs:2015-2119 | So rows and mailboxes agree after every history whose clock does not run back |
| JointRuns.WantedIsClaimed | crates/durable/src/engine.rs:391-401 | In every such history, from its last instant on, a waiting run that is not held and whose mailbox holds a copy it wants can be claimed |
| ScheduleRuns.StepKeeps | crates/durable/src/engine.rs:1121-1236 | Every step keeps slots, triggers, definitions and pauses in agreement and admits no slot out of order, whether or not firings are only of stored triggers; it accounts for every slot but one that a resume displaces |
| ScheduleRuns.NoLostPromotion | crates/durable/src/engine.rs:979-1032 | In every reachable state a buffered slot has a live run of its trigger, a full definition or a deferred drain; where only stored triggers fire it belongs to an armed, untripped definition |
| ScheduleRuns.NoOvertaking | crates/durable/src/engine.rs:1121-1236 | While a slot stays buffered its trigger gets no other run; a slot leaves only promoted, paused aside, or dropped by a trip or activation of its definition; only where triggers that are not stored fire may a resume displace one |
| ScheduleAdmissions.NewRunsAccounted | crates/durable/src/engine.rs:963-1006 | In every history each new run is the promotion of a slot that has gone, buffered or aside, with its admission and trigger key (none if refused), or the firing's own run, or the started one |
| ScheduleAdmissions.PromotedCarries | crates/durable/src/engine.rs:970-1006 | If nothing else the step may admit has the run id of a slot, a run of that id stored by the step carries the slot's admission and key, and the slot is gone |
| SchedulePauses.AsideNotOvertaken | crates/durable/src/engine.rs:2575-2718 | A slot a pause keeps aside is after any step still there unchanged, or the step resumed its definition and the slot is buffered again, has its run or the breaker tripped, or the step activated the definition; while it is aside or buffered its trigger gets no other run |
| SchedulePauses.AsideStays | crates/durable/src/engine.rs:2650-2718 | Until the resume or an activation of its definition the slot stays aside and no run of its trigger is stored |
| ScheduleBreaker.TripIsReported | crates/durable/src/engine.rs:1419-1462 | A trip commits with exactly one notice of its definition and epoch, with its slots gone, and with every trigger it owned gone but the key of a replacing firing that is the step itself |
| ScheduleBreaker.TripDisarms | crates/durable/src/engine.rs:1419-1462 | In one step: a trigger the definition owned is gone with the trip unless the step is a replacing firing of that key |
| ScheduleBreaker.ToldUntilAcknowledged | crates/durable/src/engine.rs:2342-2352 | In every history a reported trip stays reported, unchanged, until its own notice is acknowledged, which changes nothing else |
| TriggerRuns.KeySurvives | crates/durable/src/engine.rs:1174-1223 | A replacing firing that trips its own definition leaves its key stored if and only if the runs it cancelled tripped it, before the key was stored again |
| TriggerHistories.TriggerOutlivesTrip | crates/durable/src/engine.rs:1135-1223 | A history of nine commands after which the definition is tripped, its trigger is stored and the index lacks the trigger's row |
| ScheduleBreaker.OneTripPerEpoch | crates/durable/src/engine.rs:1419-1462 | At most one trip of a definition commits per epoch |
| ScheduleBreaker.FrozenUntilActivation | crates/durable/src/engine.rs:1238-1263 | Until its next activation a tripped definition keeps trip, count, active version and epoch through pause, resume and everything else |
| ScheduleBreaker.TrippedRefuses | crates/durable/src/engine.rs:449-525 | While a trip stands no path admits a run of its digest or of a version the catalog lacks |
| ScheduleBreaker.PausedRefuses | crates/durable/src/engine.rs:517-521 | While a pause stands no path but the resume of that very definition admits a run of it |
| ScheduleDecisions.ObserveDecides | crates/durable/src/engine.rs:1419-1462 | A counted fault adds one and trips exactly when the count reaches the policy's number (off: never; a threshold, or the default, and one at least); a success clears it; other runs change nothing |
| ScheduleStreak.BreakerCounts | crates/durable/src/engine.rs:1419-1462 | Over every history: from an activation on the count is the streak of the outcomes the steps observed, and the breaker is tripped exactly when the last of them made the streak reach, for the first time, the version's own threshold, or the default of that outcome, and one at least; never if it is off |
| ScheduleStreak.OffNeverTrips | crates/durable/src/engine.rs:1419-1440 | A version whose breaker is off never trips it |
| ScheduleStreak.OnlyItsRunsCount | crates/durable/src/engine.rs:1419-1462 | Over every history: if a step other than an activation changes a count, it ended or refused a run of the active version admitted in the current epoch, while no trip stood before it or its pause was lifted by it |
| ScheduleStore.ScheduleRows.DrainQueues | crates/durable/src/engine.rs:979-1008 | The drain loop over the queue rows is the specified one, fault included |
| ScheduleStore.ScheduleRows.DrainMarkedName | crates/durable/src/engine.rs:1017-1024 | A deferred drain before an admission |
| ScheduleStore.ScheduleRows.DrainPage | crates/durable/src/engine.rs:1026-1032 | At most a page of deferred drains, in name order |
| ScheduleStore.ScheduleRows.Observe | crates/durable/src/engine.rs:1419-1462 | The breaker's observation with its trip |
| ScheduleStore.ScheduleRows.EndRun | crates/durable/src/engine.rs:1323-1363 | The end of runs with the re-armed trigger and the drains |
| ScheduleStore.ScheduleRows.Fire | crates/durable/src/engine.rs:1121-1236 | A firing: deferred drain, compare-and-swap, overlap policy, admission or buffering |
| ScheduleStore.ScheduleRows.Start | crates/durable/src/engine.rs:1723-1740 | A start, of a root or a child, after the deferred drain of its definition |
| ScheduleStore.ScheduleRows.Finish | crates/durable/src/engine.rs:2043-2068 | The end of a run, observed by the breaker first |
| ScheduleStore.ScheduleRows.StoreTrigger | crates/durable/src/engine.rs:1045-1065 | Storing a trigger moves its index rows from those of the trigger it is told was stored |
| ScheduleStore.ScheduleRows.Rearrange | crates/durable/src/engine.rs:1079-1097 | The loops that replace the triggers a definition owns |
| ScheduleStore.ScheduleRows.Activate | crates/durable/src/engine.rs:1238-1263 | An activation |
| ScheduleStore.ScheduleRows.Pause | crates/durable/src/engine.rs:2650-2690 | A pause, alone or on top of a trip |
| ScheduleStore.ScheduleRows.Resume | crates/durable/src/engine.rs:2691-2718 | A resume, which lifts the pause only and drains |
| ScheduleStore.ScheduleRows.SetStopped | crates/durable/src/engine.rs:2638-2649 | A stop, and a clear with its page of drains |
| ScheduleDecisions.ActivateDecides | crates/durable/src/engine.rs:1238-1263 | What an activation leaves of the definition, its triggers, slots and pause |
| ScheduleDecisions.SaveDecides | crates/durable/src/engine.rs:2292-2309 | A saved version is added once, unknown definitions begin with it inactive, and no stored version changes |
| ScheduleDecisions.PauseDecides | crates/durable/src/engine.rs:2650-2690 | When a pause is possible, the trip it sets and what it keeps aside |
| ScheduleDecisions.ResumeDecides | crates/durable/src/engine.rs:2691-2718 | When a pause is lifted, and what is restored before the drain |
| ScheduleDecisions.StopDecides | crates/durable/src/engine.rs:2638-2649 | Stopping only stops; a clear drains up to a thousand marked definitions |
| TriggerIndex.StoreIsExact | crates/durable/src/engine.rs:1045-1065 | Storing a trigger keeps its index exact if and only if the stored trigger's rows are compatible with those of the trigger it is taken to replace |
| TriggerRuns.StepExact | crates/durable/src/engine.rs:1045-1236 | A step keeps a trigger's index rows exact if and only if it is not a replacing firing of the key that finds its trigger and fails the condition of `ReplacingExact` |
| TriggerRuns.AlwaysExact | crates/durable/src/engine.rs:1045-1236 | So the index of a trigger is exact after every history without such a firing, and always for a trigger that does not replace |
| TriggerRuns.ReplacingExact | crates/durable/src/engine.rs:1135-1223 | A replacing firing keeps the index of its key exact if and only if: where the cancellations tripped the definition, the expected and the stored trigger share no row; otherwise, where they re-armed the trigger, the stored one is due at that very instant |
| TriggerRuns.ReplacingQuiet | crates/durable/src/engine.rs:1135-1223 | If the definition has no refused slot buffered, that is a matter of the rearms of the stored live runs alone: the cancellations cannot trip it |
| TriggerHistories.StaleRowRemains | crates/durable/src/engine.rs:1174-1223 | A history of four commands after which a due row remains that its trigger no longer has |
| TriggerIndex.DueTriggers | crates/durable/src/engine.rs:1982-1993 | With an exact index the due range and the type ranges find exactly the triggers due and listening |
| Keys.TimeOrder | crates/durable/src/engine.rs:163-166 | The text order of time keys is the order of the instants, on all 64-bit instants |
| Keys.TimeInverse | crates/durable/src/engine.rs:1693 | Decoding a time key gives its instant back |
| Keys.TimedRange | crates/durable/src/engine.rs:167-173 | A timed key is below the end of a range exactly when its instant is at most the range's |
| Keys.NeverIsLast | crates/durable/src/engine.rs:618-620 | The live key without an expiry follows every key with one |
| Keys.LiveScan | crates/durable/src/engine.rs:618-735 | A scan of the live index from the end of an instant reads exactly the copies not expired then |
| Keys.PrefixRange | crates/durable/src/engine.rs:209-222 | A string is in the range of a prefix exactly when it starts with it, across the surrogate gap and the last code point |
| Keys.FindPrefixEnd | crates/durable/src/engine.rs:209-222 | The loop that drops characters without successor computes that end |
| Pages.DueAs | crates/durable/src/engine.rs:2181-2214 | Merging one bounded page per version gives exactly the first rows of all of them in due order |
| Pages.DueAreClaimable | crates/durable/src/lib.rs:165-172 | Those rows are exactly of the runs the worker may claim |
| Pages.PageRows | crates/durable/src/engine.rs:2482-2519 | A page holds the first rows of its listing after the cursor, and a cursor if it is full; bad requests are refused |
| Pages.WindowMeans | crates/durable/src/engine.rs:2482-2519 | A timed row is in the window exactly if its instant lies from its start on and before its end |
| Pages.RestMeans | crates/durable/src/engine.rs:2482-2519 | After a cursor are exactly the rows of the kind above it and before the end |
| Pages.RefusedMeans | crates/durable/src/engine.rs:2482-2519 | Which page requests are refused, in numbers |
| Pages.ListAll | crates/durable/src/engine.rs:2482-2519 | Following the cursors terminates and lists every row of the window once, in order |
| Cycles.SuccessorsExact | crates/ows/src/model.rs:2177-2207 | The edges are exactly the ways a run of the task may go on |
| Cycles.CanLeaveExact | crates/ows/src/model.rs:2213-2228 | A task can leave exactly when a task nested in it at some depth raises, calls a reusable function or ends the workflow |
| Cycles.FunctionNameMeans | crates/ows/src/model.rs:1749-1754 | A call of the default catalog names its function with or without a version, any other call names itself |
| Cycles.ReachableFrom | crates/ows/src/model.rs:2243-2255 | The worklist terminates and computes reachability in one or more steps |
| Cycles.NoExitIsTrapped | crates/ows/src/model.rs:2263-2267 | A component passes the exit test exactly when some walk leaves it |
| Cycles.ReportedOnce | crates/ows/src/model.rs:2256-2271 | No task is reported in two components |
| Cycles.ClosedCycles | crates/ows/src/model.rs:2239-2272 | The result is exactly the strongly connected components no walk leaves, and empty exactly when every task has a path out or to a task that can leave |
| Secrets.RoundTripExactly | crates/ows/src/secrets.rs:101-191 | Every text comes back if and only if, for the first entry of each text, what is stored for that secret alone is read back as it: a finite test of the table |
| Secrets.PathsDecide | crates/ows/src/secrets.rs:101-191 | If no secret occurs in an earlier marker's path, that test is exactly that no first entry shares its path with an entry before it |
| Secrets.RoundTrip | crates/ows/src/secrets.rs:101-110 | With distinct, nonempty paths in which no later secret occurs, restoring redacted text gives the text back |
| Secrets.NoSecretRemains | crates/ows/src/secrets.rs:101-110 | No secret remains in any redacted text if none occurs in a marker path |
| Secrets.HiddenExactly | crates/ows/src/secrets.rs:101-110 | Secrets are hidden in every text if and only if none is left in what is stored for the first entry of each text |
| Secrets.PathsHide | crates/ows/src/secrets.rs:101-110 | If no secret occurs in an earlier marker's path, that is exactly that none occurs in a first entry's path |
| Secrets.LongestFirst | crates/ows/src/secrets.rs:54 | Sorted longest first, no secret occurs in a later different one |
| Secrets.BrokenRoundTrip | crates/ows/src/secrets.rs:101-192 | A concrete pair of secrets for which restoring fails |
| Secrets.RedactText | crates/ows/src/secrets.rs:101-110 | The loop over the secrets is the specified redaction |
| Secrets.RestoreText | crates/ows/src/secrets.rs:162-191 | The decoding loop is the specified one |
| Redaction.ValuesComeBack | crates/ows/src/secrets.rs:112-206 | Every JSON value comes back, keys included, if and only if the table passes the test of `RoundTripExactly` |
| Redaction.RecordsComeBack | crates/ows/src/secrets.rs:139-280 | And so does every record |
| RedactedRecords.RecordMapped | crates/ows/src/secrets.rs:210-300 | A converted record is the record with each payload mapped, one by one and in order, and everything else as it was |
| RedactedRecords.StoredStrings | crates/ows/src/secrets.rs:139-148 | Every string in a payload of a stored record is the redacted form of a string of the same payload |
| RedactedRecords.RecordsHide | crates/ows/src/secrets.rs:139-148 | So no payload of a stored record holds a secret, if none is left in the markers |
| SecretTables.Resolve | crates/ows/src/secrets.rs:42-57 | The loops that resolve the names and gather their strings give the sorted table, or the store's first failure |
| SecretTables.LeavesExact | crates/ows/src/secrets.rs:88-96 | The entries of a value are exactly its nonempty strings at any depth, each with its path |
| SecretTables.LookupMeans | crates/ows/src/secrets.rs:43-47 | Each declared name gets the store's value in order, or the first failure is the answer |
| SecretTables.SortPermutes | crates/ows/src/secrets.rs:54 | Sorting keeps every entry as often as it is there |
| SecretTables.TableOrdered | crates/ows/src/secrets.rs:54-55 | Whatever the values are, no secret occurs in a later different one |
| SecretTables.TableComplete | crates/ows/src/secrets.rs:48-55 | The texts of the table are exactly the nonempty strings of the resolved values |
| SecretTables.RepeatsRemain | crates/ows/src/secrets.rs:55 | Only neighbours are merged: a text can stay twice |
| SecretTables.TableWellFormed | crates/ows/src/secrets.rs:88-96 | Names and keys without dot, bracket and mark give distinct, nonempty, mark-free paths |
| SecretTables.TableRoundTrip | crates/ows/src/secrets.rs:42-191 | For such a table every text comes back if and only if each first entry's own marker is read back |
| SecretTables.PathsMayCollide | crates/ows/src/secrets.rs:88-96 | A key with a dot reads like a nested key, and two strings get one path |
| SecretTables.CollisionLosesText | crates/ows/src/secrets.rs:88-191 | Then some text does not come back, for any two different secrets not occurring in that path |

## Left out

- Secrets.RoundTripExactly: a secret or a path that itself holds the mark character is outside the theorem.
- Secrets.HiddenExactly: so it is outside this one.
- MailboxStore.RunMailbox.Store: the row that lets an addressed redelivery be recognised is not part of the mailbox, nor is the one a wildcard answer leaves behind for the sweep.
- MailboxStore.RunMailbox.TakeNext: the description of a wait that a take drops from the row is in `Runs.Mail` only.
- RunStore.RunRows.Terminate: re-arming and the drains of what ended are in `ScheduleStore.ScheduleRows.EndRun`.
- RunStore.RunRows.Finish: the breaker is in `ScheduleStore.ScheduleRows.Finish`, and the wake test an input that `JointRuns` ties to the mailbox.
- RunStore.RunRows.StartChild: the deferred drain before it and the catalog's refusal are in `ScheduleStore.ScheduleRows.Start`.
- RunStore.RunRows.Admit: the catalog's refusal is in `ScheduleStore.ScheduleRows.Start`.
- RunStore.RunRows.Start: the deferred drain and the catalog's refusal are in `ScheduleStore.ScheduleRows.Start`.
- RunStore.RunRows.Stop: the drains of a clear are in `ScheduleStore.ScheduleRows.SetStopped`.
- RunStore.RunRows.Listen: what the listen does to the mailbox is an input here, and what `JointRuns` takes from the mailbox.
- RunStore.RunRows.Deliver: what the arrival does to the mailbox is an input here, and what `JointRuns` takes from the mailbox.
- RunStore.RunRows.Refuse: the breaker's observation of the refusal is in `Schedule.Refuse`.
- RunStore.RunRows.Sweep: one ended run; its copies are swept by `Mailbox.Forget`, tied to the row by `JointRuns`.
- ScheduleStore.ScheduleRows.EndRun: which runs end with one is a fixed relation of ids; that the children index gives them is proved of `RunStore.RunRows.Cascade`.
- ScheduleStore.ScheduleRows.Finish: which outcomes count as faults and successes is an input of the end of a run.
- ScheduleStore.ScheduleRows.Fire: whether an event was already taken in is a flag of the firing.
- JointRuns.WantedIsClaimed: the journal rows of the two models are not compared, only the row of the run and its mailbox.
- Serializability.Serializable: asynchronous waiting, timeouts and jitter are erased; a lost acknowledgement after a commit is kept.
- RunJournal.TotalsAreSums: the addition of numbers and the size test are parameters; float rounding and JSON bytes are not modelled.
- RunSafety.StepGood: deliveries and listens may change the mailbox fields of a row in any way; their exact effect is in the mailbox model, tied to the row by `JointRuns`.
- ScheduleRuns.NoOvertaking: ingress tombstones appear only as the answer whether an event was already taken.
- JSON, YAML, regular expressions, digests, cron and time zones: values and digests are opaque.
- The SQLite and PostgreSQL backends: only the transaction contract they share.
- The interpreter, runtime, scheduler loop and telemetry.
- Worker heartbeats, definition summaries, totals buckets and the control audit rows, which are single-row updates.
- The response of an operator to a wait beyond its delivery and the offer to a wildcard listen.
- Counter overflows of sequence numbers, epochs and versions; only the fence generation's is modelled.
