# Verification of the personal-finance backend

This project models the parts of the backend whose correctness rests on an order of steps, on guards, or on
calendar arithmetic, and proves what they promise for every input, every run or every reachable state.
`dafny verify dfyconfig.toml` checks all of it.

**Bills.** A user's occurrence table (`occurrences.dfy`) is a map of rows with two unique indexes. Each SQL statement
on it is one atomic step (`bill-occurrences-repository.dfy`). Materialising a bill (`bill-schedule.dfy`,
`bill-materialization.dfy` and its proofs) plans its dates and then either realigns the future schedule or fills it
in. `bill-realignment.dfy` and `bill-protection.dfy` say what a realignment leaves, `bill-repetition.dfy` exactly when
a second pass on the same day changes nothing, and `bill-examples.dfy` has the tables on which it does change
something. `bill-plan.dfy` says exactly which dates are planned and `bill-phase.dfy` what a pass leaves due on them. The
guarded operations of the service and all runs of them are in `bill-lifecycle.dfy` and `bill-history.dfy`, what each
does field by field in `bill-effects.dfy`, settlement from bank payments is in
`bill-reconciliation.dfy`, and `bills-service.dfy` holds the table and the service as classes whose methods run the
loops and are proved to leave exactly the specified ledger. The invariant behind everything says that keys agree with
baseline dates, that the status of a row determines which payment fields it has, and that no transaction serves two
rows.

**Webhook queue.** `inbound-events.dfy` models each statement on the event queue as one step of a table shared by
workers who hold possibly stale (id, worker, attempt, token) tickets; `inbound-events-proofs.dfy` proves fencing,
per-item order, attempt accounting and that no item starves; `inbound-events-effects.dfy` says what each statement
does to a row and how long a lease protects it; `inbound-events-poller.dfy` holds the repository and the poller.

**Matching.** `merchant-match.dfy` runs the pairing's loops over maps and proves them equal to a definition by ranks;
`merchant-match-proofs.dfy` says what that definition guarantees. `edit-distance.dfy` has the two-row edit distance.

**Calendar.** `calendar.dfy` follows the day numbers of section 21.4.1 of ECMA-262. On it stand the banking days and
semi-monthly pay dates (`business-days.dfy`), cadences (`recurring-engine.dfy`), month-clamped cycles
(`month-cycles.dfy`, `budget-calculations.dfy`, `card-statement.dfy`) and wall-clock times (`quiet-hours.dfy`).

**Others.** `split-series.dfy` splits payments into series and reads their names back. `pipeline.dfy`,
`pipeline-proofs.dfy` and `pipeline-effects.dfy` model the resumable nine-stage run. `category-tree.dfy`,
`category-tree-proofs.dfy`, `category-tree-effects.dfy` and `categories-service.dfy` model the copy-on-write category
tree.

Conventions: ids are natural numbers in the order of their text; dates are `(y, m, d)` with the order of ISO strings;
money is in cents. A lock that another session may hold, a lookup in a table outside the model and the clock are
parameters. A mutation that fails leaves the state from before it.

Where the code and its promises part, the code is kept and the exact condition is proved:

- `createCategory` does not check the parent it is given. `CategoryTreeProofs.CreateKeepsInvIff` shows that the tree
  stays two levels deep exactly when that parent is a live, visible group; `CreatesThirdLevel` and
  `CreatesUnderHidden` are two parents that are not.
- The walk back in `zonedWallTime` does not always reach the earliest instant of a repeated hour.
  `QuietHours.ZonedWallTime` gives the exact condition, `TrollTwoOClock` a night on which it fails.
- Replaying a dead event, or a delivery that arrives late, can break the per-item order of the queue.
  `InboundEventsProofs.ReplayKeepsOrder` and `InsertKeepsOrder` say exactly when it does not; `ReplayBreaksOrder` and
  `LateArrivalBreaksOrder` are runs in which it does.
- A split gives a payment and a deposit of the same amount one series name: names tell amounts apart only up to sign
  (`SplitSeries.SeriesNames`, `PaycheckSharesName`).
- A realignment can disturb a protected row only through a card's revive step, which works by month whatever the
  bill's cadence (`BillProtection.ProtectedRowsStay`, `BillExamples.WeeklyCardRevivesProtected`). Repeating a
  realignment on the same day changes nothing exactly when the rows it so revived are all past
  (`BillRealignment.RealignAgain`, `BillRepetition.RescheduleAgain`, `BillExamples.WeeklyCardChangesAgain`).
- Two passes over a bill on the same day can differ when the first realigns: it refuses a planned date because a
  protected row holds its key, and the next, ordinary one moves that row onto the date.
  `BillRepetition.MaterializeAgain` gives the exact condition, for every bill and table; `BillExamples.OverdueRowMoves`
  and `IdenticalPassesDiffer` are tables where they differ.

## Model

| member | source | states |
|---|---|---|
| BillOccurrencesRepository.InsertSucceeds | src/modules/bills/bill-occurrences.repository.ts:182-199 | On dates whose days no other cycle of the bill holds, the upsert batch meets neither unique index, keeps the table invariant, refreshes exactly the open rows under its keys and adds exactly the missing ones |
| BillOccurrencesRepository.InsertAgain | src/modules/bills/bill-occurrences.repository.ts:182-199 | Upserting what is already there changes nothing |
| BillOccurrencesRepository.RetireKeepsInv | src/modules/bills/bill-occurrences.repository.ts:200-252 | Retiring the untouched future schedule keeps keys and baseline dates unique and payments exclusive |
| BillOccurrencesRepository.RetiredOrProtected | src/modules/bills/bill-schedule.ts:16-44 | After retiring, every row of the bill is either protected and exactly as it was, or retired and adoptable: the two conditions written in two files are complementary |
| BillOccurrencesRepository.AdoptKeepsInv | src/modules/bills/bill-occurrences.repository.ts:253-298 | Adopting safe dates under a new schedule's keys keeps both unique indexes |
| BillOccurrencesRepository.AdoptDatesSucceeds | src/modules/bills/bills.service.ts:1169-1183 | The adoption loop, one statement a date, never meets a unique index and equals adopting all the dates at once |
| BillOccurrencesRepository.ReviveKeepsInv | src/modules/bills/bill-occurrences.repository.ts:667-688 | Reviving a cancelled row keeps the table invariant |
| BillOccurrencesRepository.ReconcileKeepsInv | src/modules/bills/bill-occurrences.repository.ts:586-654 | Restoring and cancelling around an end date keeps the table invariant |
| BillOccurrencesRepository.CancelKeepsInv | src/modules/bills/bill-occurrences.repository.ts:655-666 | Cancelling the future rows keeps the table invariant |
| BillOccurrencesRepository.SweepKeepsInv | src/modules/bills/bill-occurrences.repository.ts:727-756 | The overdue sweep keeps the table invariant |
| BillOccurrencesRepository.RowUpdateKeepsInv | src/modules/bills/bill-occurrences.repository.ts:572-585 | A guarded row update keeps the invariant when the new row fits and claims only payments no other row uses |
| BillMaterialization.CatchUp | src/modules/bills/bills.service.ts:1113-1125 | The cursor loop ends, at or after today, and a monthly cursor never falls back to an earlier month |
| BillMaterialization.PlannedDatesAreSchedule | src/modules/bills/bills.service.ts:1101-1130 | For every bill, today and horizon the planned dates strictly ascend and get pairwise different keys |
| BillPlan.PlannedIff | src/modules/bills/bills.service.ts:1101-1130 | For a bill that is not a card's, a date is planned iff it is on the schedule of cadence steps from the bill's anchor and lies from today to the horizon, or is a past date of this month whose monthly row is already there |
| BillPlan.PlanSteps | src/modules/bills/bills.service.ts:1126-1129 | From today on the planned dates follow each other exactly one cadence step apart, and the step after the last is beyond the horizon |
| BillPlan.ScheduleInDays | src/modules/bills/recurring-engine.ts:125-130 | A daily, weekly or biweekly schedule falls on exactly every first, seventh or fourteenth day from its anchor |
| BillPlan.FirstCursorIsAnchor | src/modules/bills/bills.service.ts:1102-1107 | The plan starts on the next expected date, and a semi-monthly one on the first pay date not before it |
| BillPlan.HorizonIs | src/modules/bills/bills.service.ts:1070-1077 | The horizon is the same day so many months ahead, counted on from the first of that month where the month is too short |
| BillMaterializationProofs.MaterializeSafe | src/modules/bills/bills.service.ts:1075-1240 | Materialising any bill from any table that keeps the invariant meets no unique violation and keeps the invariant; other bills' rows, payments and overrides are untouched and no row is lost |
| BillMaterializationProofs.RealignSafe | src/modules/bills/bills.service.ts:1158-1184 | The same for the realigning branch |
| BillMaterializationProofs.OrdinarySafe | src/modules/bills/bills.service.ts:1185-1218 | The same for the ordinary branch |
| BillMaterializationProofs.FillInserts | src/modules/bills/bills.service.ts:1192-1215 | Filling dates that fit meets no unique index and leaves exactly what reviving a card's cancelled months and then upserting the dates leaves |
| BillRealignment.RealignLeaves | src/modules/bills/bills.service.ts:1158-1218 | The exact table after a realignment of any bill: each old row is unchanged, retired, adopted on an allowed date or revived by a card; each new row is a new allowed date |
| BillProtection.ProtectedRowsStay | src/modules/bills/bills.service.ts:1158-1218 | A realignment leaves every row it does not retire exactly as it was iff no card revive of an allowed month takes it; with monthly keys it always does |
| BillPhase.NoOldScheduleLeft | src/modules/bills/bills.service.ts:1135-1184 | After any pass over a bill that is not a card's, if its cadence is not monthly, or the pass reschedules, or a retired row waits, every untouched upcoming row due today or later stands on a planned date: nothing of an old schedule stays due beside the new one |
| BillPhase.ScheduleStays | src/modules/bills/bills.service.ts:1135-1157 | When such rows already stand on planned dates, or the cadence is monthly, or it is a card's, no retired row waits and the pass does not reschedule, it retires no row and cancels nothing |
| BillPhase.LeavesOut | src/modules/bills/bills.service.ts:1084-1100 | Just the bills with no date or cadence, a missing account, or a card with no positive statement are left out, and a pass over one changes nothing |
| BillPhase.NoDateForgotten | src/modules/bills/bills.service.ts:1131-1215 | After any pass each planned date from today to the end date has its own row, or a row of the bill stands on it |
| BillPhase.OrdinarySets | src/modules/bills/bills.service.ts:1185-1215 | An ordinary pass leaves, for each planned date no other cycle stands on, the row of the date's key; open, it is due that day for the statement balance or average amount, and when new it is untouched |
| BillPhase.RealignSets | src/modules/bills/bills.service.ts:1158-1215 | A realignment leaves, for each planned date from today on that no row it must not disturb holds, an untouched row due that day for what the bill costs |
| BillExamples.WeeklyCardRevivesProtected | src/modules/bills/bills.service.ts:1191-1203 | A concrete card bill with a weekly cadence whose protected, cancelled row a rescheduling pass brings back |
| BillExamples.WeeklyCardChangesAgain | src/modules/bills/bills.service.ts:1152-1215 | For that bill a second rescheduling pass on the same day changes the table again |
| BillExamples.WeeklyCardRepeatsPast | src/modules/bills/bills.service.ts:1152-1215 | Five days past the row's date the pass brings it back just the same, but repeating it changes nothing |
| BillRealignment.RealignAgain | src/modules/bills/bills.service.ts:1152-1215 | For every bill, table and schedule, realigning a realigned table on the same day changes nothing iff every row the first pass revived is past; off cards, and under monthly keys, it revives none |
| BillRepetition.RescheduleAgain | src/modules/bills/bills.service.ts:1053-1240 | Rescheduling any bill twice on one day, with the plan computed afresh from the changed table, is rescheduling it once iff every row the first pass revived is past |
| BillMaterializationProofs.OrdinaryAgain | src/modules/bills/bills.service.ts:1185-1218 | Repeating the ordinary branch on the same schedule changes no row at all |
| BillRepetition.MaterializeAgain | src/modules/bills/bills.service.ts:1053-1240 | After any pass over any bill, rescheduling or not, an ordinary request for another on the same day changes nothing iff the first pass did not realign, or it left a retired row waiting and revived past rows alone, or it left none and every planned date it could not use is quiet: held, nothing to refresh, nothing to revive |
| BillRepetition.OnlyOpenRowsMove | src/modules/bills/bills.service.ts:1131-1218 | For a bill that is not a card's, those dates are quiet iff no protected open row holds the key of a planned date, with no other cycle on it, under another date or amount |
| BillRepetition.NextPassMoves | src/modules/bills/bills.service.ts:1131-1218 | Each such row is left alone by the realigning pass and moved onto the date by the next pass of the same day |
| BillRepetition.FillUnchanged | src/modules/bills/bills.service.ts:1192-1215 | Filling dates changes nothing iff each date is held, with nothing to refresh or revive |
| BillExamples.OverdueRowMoves | src/modules/bills/bills.service.ts:1053-1240 | A concrete monthly bill whose overdue row a rescheduling pass leaves and the ordinary pass of the same day moves |
| BillExamples.IdenticalPassesDiffer | src/modules/bills/bills.service.ts:1053-1240 | With a retired row waiting, two identical ordinary passes of one day leave different tables |
| BillRepetition.PlanIsStable | src/modules/bills/bills.service.ts:1113-1130 | An ordinary pass never creates the row that would make the next pass keep a past date |
| BillRepetition.PlanAfterRealign | src/modules/bills/bills.service.ts:1113-1130 | Nor does a realigning pass, unless it leaves a retired row waiting and the bill is monthly |
| BillRepetition.StaysOrdinary | src/modules/bills/bills.service.ts:1139-1157 | An ordinary pass leaves nothing that would make the next one realign |
| BillRepetition.NextRealigns | src/modules/bills/bills.service.ts:1139-1157 | The pass after a realigning one realigns iff a retired row stands on a date the first could not use |
| BillMaterializationProofs.SameCollisions | src/modules/bills/bill-schedule.ts:46-60 | Refreshing rows onto the dates their keys name neither makes nor removes a collision |
| BillLifecycle.MarkPaidKeepsInv | src/modules/bills/bills.service.ts:676-717 | Marking paid by hand keeps the invariant |
| BillLifecycle.SkipKeepsInv | src/modules/bills/bills.service.ts:718-746 | Skipping keeps the invariant |
| BillLifecycle.UnlinkKeepsInv | src/modules/bills/bills.service.ts:747-801 | Unlinking keeps the invariant |
| BillLifecycle.LinkKeepsInv | src/modules/bills/bills.service.ts:802-917 | Linking a payment the user picks keeps the invariant: the claim keeps it to one bill |
| BillLifecycle.ConfirmKeepsInv | src/modules/bills/bills.service.ts:1344-1421 | Automatic confirmation keeps the invariant, with and without the row's own hold let through the claim |
| BillLifecycle.HoldKeepsInv | src/modules/bills/bills.service.ts:1831-1847 | Holding a bill for a pending payment keeps the invariant |
| BillLifecycle.RevertKeepsInv | src/modules/bills/bills.service.ts:1527-1540 | Giving up a hold keeps the invariant |
| BillLifecycle.OverrideKeepsInv | src/modules/bills/bills.service.ts:558-675 | Editing an occurrence's date, amount or payment keeps the invariant |
| BillLifecycle.RunKeepsInv | src/modules/bills/bills.service.ts:1053-1888 | Every state reached by any run of the twelve operations keeps the invariant |
| BillLifecycle.StatusTellsPayment | src/modules/bills/bills.service.ts:676-916 | In every reachable state: paid iff linked; processing iff exactly one of a hold and a manual mark, and no link; every other status iff all payment fields are empty |
| BillLifecycle.OnePaymentOneBill | src/modules/bills/bills.repository.ts:1102-1131 | In every reachable state no two occurrences of a user use the same transaction, linked or held |
| BillLifecycle.KeysAndDatesUnique | database/schema/schema.ts:770-771 | In every reachable state no two occurrences of a bill share a key or a baseline date, and materialising any bill succeeds |
| BillLifecycle.UnlinkUndoesConfirm | src/modules/bills/bills.service.ts:747-801 | Unlinking straight after an automatic confirmation restores the ledger exactly, plus the remembered refusal |
| BillLifecycle.UnlinkUndoesLink | src/modules/bills/bills.service.ts:747-917 | Unlinking a payment the user has just linked restores the row exactly and remembers the refusal |
| BillLifecycle.RelinkReplaces | src/modules/bills/bills.service.ts:802-917 | Linking another payment leaves only that one, frees and refuses the first, and linking it again changes nothing |
| BillLifecycle.MarkThenConfirm | src/modules/bills/bills.service.ts:1344-1421 | Confirming a bill marked by hand takes the bank's amount and account, keeps the mark, and changes no other row |
| BillLifecycle.RevertUndoesHold | src/modules/bills/bills.service.ts:1527-1540 | Reverting a hold restores the ledger exactly |
| BillLifecycle.LiftingEndDateRestores | src/modules/bills/bill-occurrences.repository.ts:586-654 | Setting an end date and lifting it again gives the same table as lifting it straight away |
| BillLifecycle.SweepSettles | src/modules/bills/bill-occurrences.repository.ts:727-756 | After the sweep every open row's status agrees with the day, and a second sweep changes nothing |
| BillLifecycle.OverrideAvoidsCollision | src/modules/bills/bills.service.ts:558-675 | An accepted edit never moves a row onto the effective date of another row of the bill that awaits payment |
| BillHistory.MaterializeKeepsDecided | src/modules/bills/bills.service.ts:1053-1240 | Materialising any bill, card or not, leaves every paid, processing and skipped row exactly as it was |
| BillHistory.SkippedForever | src/modules/bills/bills.service.ts:718-746 | Over any further run a skipped occurrence stays the same row: nothing brings it back |
| BillEffects.SkipIsForGood | src/modules/bills/bills.service.ts:718-746 | Skipping succeeds exactly on an open row, changes no other row and no refusal, and after any further run the row is that row, skipped |
| BillEffects.MarkPaidDoes | src/modules/bills/bills.service.ts:676-717 | Marking paid: each refusal with its condition; else the one row waits for the bank with the user's amount and account |
| BillEffects.UnlinkDoes | src/modules/bills/bills.service.ts:747-801 | Unlinking: each refusal with its condition; else the one row is unpaid by its date with no payment left, and exactly its payment is refused from then on |
| BillEffects.LinkDoes | src/modules/bills/bills.service.ts:802-917 | Linking: each refusal with its condition; else that payment alone settles the row, the old match is refused and the new one allowed |
| BillEffects.ConfirmDoes | src/modules/bills/bills.service.ts:1344-1421 | Automatic confirmation succeeds exactly on a waiting row with an unlocked payment no row uses, the row's own hold aside, and settles that row alone |
| BillEffects.HoldDoes | src/modules/bills/bills.service.ts:1831-1847 | A pending payment holds exactly an open row when it is unlocked and no row uses it |
| BillEffects.RevertDoes | src/modules/bills/bills.service.ts:1527-1540 | Giving up a hold leaves the row unpaid by its date, with no payment |
| BillEffects.OverrideDoes | src/modules/bills/bills.service.ts:558-675 | An edit: each refusal with its condition, on a date past the end or one another row waits on; else the three edits change alone, and an amount given for income stays income |
| BillEffects.ReconcileDoes | src/modules/bills/bill-occurrences.repository.ts:586-654 | After an end date is set, moved or lifted, each coming row it decides about is upcoming up to that day, the day included, and cancelled by it after; no other row changes |
| BillEffects.CancelDoes | src/modules/bills/bill-occurrences.repository.ts:655-666 | Cancelling a bill's future cancels exactly its upcoming rows, and not by an end date |
| BillEffects.SweepDoes | src/modules/bills/bill-occurrences.repository.ts:727-756 | The sweep makes late open rows overdue and the other open rows upcoming, and changes no other row |
| BillEffects.RetireDoes | src/modules/bills/bill-occurrences.repository.ts:200-252 | Retiring takes exactly the bill's coming rows nobody edited or paid: upcoming, cancelled by an end date, or retired before |
| BillEffects.ReviveDoes | src/modules/bills/bill-occurrences.repository.ts:667-688 | Reviving takes exactly the bill's cancelled row of the month that neither an end date nor an edit explains |
| BillHistory.PaidStays | src/modules/bills/bills.service.ts:1053-1888 | No step but the user's own unlink or relink of it changes a paid occurrence |
| BillHistory.PaidUntilUnlinked | src/modules/bills/bills.service.ts:747-917 | Over any run without such a step a paid occurrence stays the same row |
| BillReconciliation.PairsConfirmed | src/modules/bills/bills.service.ts:1691-1698 | With an injective pairing each row is untouched or settled by exactly its own payment, and every awaiting row whose payment is free and unlocked is settled |
| BillReconciliation.PairsHeld | src/modules/bills/bills.service.ts:1831-1850 | The same for pending payments, which hold the bill |
| BillReconciliation.HeldSettled | src/modules/bills/bills.service.ts:1484-1560 | A held bill is settled by the one payment its hold became, given up exactly when the payment is gone, and left alone otherwise; when the payment arrived on the account the bill pays to, the payer is the bill's own account, or none when paid from outside, and the amount counts positive; else both are the payment's own |
| BillReconciliation.LoneHoldIsSettled | src/modules/bills/bills.service.ts:1484-1516 | A hold whose one posted payment no other row uses, and whose lock is free, is settled |
| BillReconciliation.PairingFits | src/modules/bills/merchant-match.ts:222-304 | What the matcher hands to the settlement is an injective pairing of its candidates |
| BillReconciliation.OfferedAre | src/modules/bills/bills.service.ts:1616-1625 | The candidates a pass looks at are those of its own occurrences that the user has not undone, each once |
| BillsService.OccurrencesRepository.InsertOccurrences | src/modules/bills/bill-occurrences.repository.ts:182-199 | The statement loop leaves all of its rows or, when an index refuses one, the old table |
| BillsService.OccurrencesRepository.ReconcileEndDate | src/modules/bills/bill-occurrences.repository.ts:586-654 | The two updates around an end date leave the specified table |
| BillsService.OccurrencesRepository.SweepOverdue | src/modules/bills/bill-occurrences.repository.ts:727-756 | The two updates leave the specified table and count exactly the rows the sweep changes |
| BillsService.OccurrencesRepository.UpdateIfStatus | src/modules/bills/bill-occurrences.repository.ts:572-585 | Writes the row only while its status is one of those asked for, and says whether it did |
| BillsService.OccurrencesRepository.ListAutoConfirmationCandidates | src/modules/bills/bill-occurrences.repository.ts:705-719 | Lists every occurrence still awaiting a payment, once |
| BillsService.Service.CatchUpDates | src/modules/bills/bills.service.ts:1113-1125 | The first cursor loop computes the kept past dates and the cursor |
| BillsService.Service.DatesUntil | src/modules/bills/bills.service.ts:1126-1129 | The second cursor loop computes the dates up to the horizon |
| BillsService.Service.PlanDates | src/modules/bills/bills.service.ts:1101-1130 | Both loops, or the one date of a card statement, give the planned dates |
| BillsService.Service.AdoptSchedule | src/modules/bills/bills.service.ts:1169-1183 | The adoption loop on the table |
| BillsService.Service.FillDates | src/modules/bills/bills.service.ts:1191-1218 | The revive loop for a card, then the insert |
| BillsService.Service.MaterializeBill | src/modules/bills/bills.service.ts:1075-1240 | One bill, in place: leaves exactly the specified table, keeps the invariant, and no statement can be refused |
| BillsService.Service.MaterializeBills | src/modules/bills/bills.service.ts:1053-1240 | The loop over bills leaves the table of that run of materialisations |
| BillsService.Service.MarkOccurrencePaid | src/modules/bills/bills.service.ts:676-717 | New state and outcome, with each error and its order |
| BillsService.Service.SkipOccurrence | src/modules/bills/bills.service.ts:718-746 | New state and outcome |
| BillsService.Service.CheckEdit | src/modules/bills/bills.service.ts:558-631 | The guards of an edit, in order |
| BillsService.Service.OverrideOccurrence | src/modules/bills/bills.service.ts:558-675 | New state and outcome of an edit |
| BillsService.Service.UnlinkOccurrence | src/modules/bills/bills.service.ts:747-801 | New state and outcome, with the refused pair remembered |
| BillsService.Service.LinkOccurrence | src/modules/bills/bills.service.ts:802-917 | New state and outcome: the claim, the settled row, the old match refused and the new one allowed again |
| BillsService.Service.ConfirmPaid | src/modules/bills/bills.service.ts:1344-1421 | New state and whether the payment settled the row |
| BillsService.Service.SettleHeldPayment | src/modules/bills/bills.service.ts:1484-1540 | One held payment: settled, given up or kept |
| BillsService.Service.SettleHeldPayments | src/modules/bills/bills.service.ts:1464-1560 | The loop over held payments, in place |
| BillsService.Service.ConfirmAll | src/modules/bills/bills.service.ts:1691-1698 | The confirmation loop over a pairing, in place |
| BillsService.Service.HoldAll | src/modules/bills/bills.service.ts:1831-1860 | The hold loop over a pairing, in place |
| BillsService.Service.ConfirmClosest | src/modules/bills/bills.service.ts:1684-1698 | A pass over posted payments settles every awaiting occurrence the matcher pairs with a free, unlocked payment, by that payment, and changes no other row |
| BillsService.Service.HoldClosest | src/modules/bills/bills.service.ts:1824-1860 | A pass over pending payments holds every open occurrence the matcher pairs with a free, unlocked payment, and changes no other row |
| BillsService.Service.DebitPass | src/modules/bills/bills.service.ts:1616-1698 | The debit pass settles every payable pair of a waiting occurrence with the payment's own account as payer, leaves every other row as it was or settled by a payment paired with it, and uses no pair the user has undone |
| BillsService.Service.CardPass | src/modules/bills/bills.service.ts:1731-1772 | The same for payments seen on the card's side, among the bills still waiting for one, with the bill's own payer recorded |
| BillsService.Service.PendingPass | src/modules/bills/bills.service.ts:1774-1860 | The pending pass holds every open occurrence paired with a free, unlocked pending payment, changes no other row and uses no undone pair; a card-side payment holds bills no pending debit qualifies for |
| BillsService.Service.ResolveMatured | src/modules/bills/bills.service.ts:1338-1888 | The whole settlement is the held payments and those three passes in turn, each on what the ones before left; it keeps the invariant, touches awaiting rows alone, links nothing the user has undone except a hold's own posted payment, and what the debit and card passes settle stays settled |
| MerchantMatch.PairClosest | src/modules/bills/merchant-match.ts:222-304 | The loops over maps, met in any order, compute exactly the pairs of a definition by ranks: qualifying for every member, closest first up to a clear cut-off, mutually closest, by id to slots in order |
| MerchantMatch.MembersByGroup | src/modules/bills/merchant-match.ts:226-232 | The member map holds each group's occurrences in the order they first appear |
| MerchantMatch.TalliesByGroup | src/modules/bills/merchant-match.ts:233-249 | The tally map counts the candidates of each group and payment and keeps their largest distance |
| MerchantMatch.TalliesMean | src/modules/bills/merchant-match.ts:237-247 | A tally is positive iff some candidate supports the pair, and its distance is an attained upper bound |
| MerchantMatch.Choose | src/modules/bills/merchant-match.ts:262-276 | The sorted slice up to a clear cut-off is the group's choice, and a tie leaves none |
| MerchantMatch.CutIsLeading | src/modules/bills/merchant-match.ts:266-276 | Taking the first n of a sorted list takes exactly those with at most n no farther, unless the cut-off is a tie |
| MerchantMatch.ClosestGroups | src/modules/bills/merchant-match.ts:277-292 | The map of closest groups, met in any order, names a group iff it is strictly closer than every other |
| MerchantMatch.HandOutGroup | src/modules/bills/merchant-match.ts:293-303 | Handing sorted payments to sorted members gives each member the payment of its own rank |
| MerchantMatch.StableSort | src/modules/bills/merchant-match.ts:266-299 | The sort is an ordered, stable permutation |
| MerchantMatchProofs.QualifiesForEveryMember | src/modules/bills/merchant-match.ts:250-256 | With no candidate listed twice, a payment counts for a group iff it is a candidate of every member |
| MerchantMatchProofs.PairsAreCandidates | src/modules/bills/merchant-match.ts:222-304 | Only candidates are paired, and a slot's payment qualifies for all of its group |
| MerchantMatchProofs.PairingIsInjective | src/modules/bills/merchant-match.ts:222-304 | An occurrence gets at most one payment and a payment goes to at most one occurrence |
| MerchantMatchProofs.WithoutSlotsMutualClosest | src/modules/bills/merchant-match.ts:208-221 | Without slots a pair is linked iff each is the other's unique closest candidate |
| MerchantMatchProofs.ChosenIsTheClearCut | src/modules/bills/merchant-match.ts:257-276 | A group's choice is its one full load strictly closer than every payment left out, or empty when a tie leaves none |
| MerchantMatchProofs.SlotsFillFromTheLowest | src/modules/bills/merchant-match.ts:293-303 | An occurrence is paired iff fewer members come before it in slot order than payments its group has won |
| MerchantMatchProofs.EveryMutualIsPaired | src/modules/bills/merchant-match.ts:293-303 | Every payment a group has won is handed out |
| MerchantMatchProofs.SlotOrderIsIdOrder | src/modules/bills/merchant-match.ts:295-301 | Within a group lower slots get lower payment ids |
| MerchantMatchProofs.OrderDoesNotMatter | src/modules/bills/merchant-match.ts:222-304 | When slots of a group differ, the pairing is the same for every order of the candidates |
| EditDistance.Levenshtein | src/modules/bills/merchant-match.ts:32-45 | The two-row loop computes the recursive edit distance of any two strings |
| EditDistance.Symmetric | src/modules/bills/merchant-match.ts:32-45 | The distance is symmetric |
| EditDistance.ZeroIffEqual | src/modules/bills/merchant-match.ts:32-45 | It is zero iff the strings are equal |
| EditDistance.LengthBounds | src/modules/bills/merchant-match.ts:32-45 | It is at least the difference of the lengths and at most the longer length |
| EditDistance.Triangle | src/modules/bills/merchant-match.ts:32-45 | It meets the triangle inequality |
| EditDistance.ContainedIsNear | src/modules/bills/merchant-match.ts:47-68 | An exact hit at a word start of a long enough name is also a near one |
| EditDistance.NearNeedsFourFifths | src/modules/bills/merchant-match.ts:57-68 | A near hit leaves at least four fifths of the name's letters |
| EditDistance.ContainedIff | src/modules/bills/merchant-match.ts:51-56 | An exact hit is a name of four letters or more that the text begins with from the start of some word on |
| EditDistance.NearIff | src/modules/bills/merchant-match.ts:63-69 | A near hit is a name of six letters or more which a stretch of its length from a word start misses by at most a fifth of its letters |
| InboundEvents.LeasesInEveryRun | database/schema/inbound-webhook-events.ts:59-70 | In every run of competing workers: lease fields are set iff processing, live tokens differ, attempts stay within 0..8 |
| InboundEvents.RunKeepsInv | src/modules/plaid/inbound-events.repository.ts:117-369 | Every step of every run keeps the queue invariant |
| InboundEvents.FirstComesFirst | src/modules/plaid/inbound-events.repository.ts:155-157 | The rows a claim orders and limits come before every row it leaves out |
| InboundEventsProofs.Fencing | src/modules/plaid/inbound-events.repository.ts:231-318 | Once a lease has ended by anyone's step, then after any further steps every write with its token answers false and changes nothing |
| InboundEventsProofs.LeaseGoesOn | src/modules/plaid/inbound-events.repository.ts:231-318 | A lease that no step ends goes on: the same worker, attempt and token still own the event |
| InboundEventsEffects.LeaseHolds | src/modules/plaid/inbound-events.repository.ts:145-318 | A lease that runs until some moment is its holder's until then: whatever steps anyone takes before it, other than the holder's own finishing or shortening writes, the same worker, attempt and token own the event |
| InboundEventsEffects.LiveLeaseIsLeft | src/modules/plaid/inbound-events.repository.ts:145-229 | A claim leaves every row whose lease is still running exactly as it was |
| InboundEventsEffects.ClaimDoes | src/modules/plaid/inbound-events.repository.ts:145-229 | One claim, row by row: it leases, until now plus the lease time and for the next attempt, rows that are due or abandoned, have attempts left, wait for no earlier event of their item and are unlocked; it writes off rows out of attempts; other rows stay as they are |
| InboundEventsEffects.ClaimTakesTheFirst | src/modules/plaid/inbound-events.repository.ts:169-200 | A claim takes no more rows than asked for or a hundred, and passes over a row it could lease only for that many rows ahead of it |
| InboundEventsEffects.ClaimGivesUpTheFirst | src/modules/plaid/inbound-events.repository.ts:146-168 | A row out of attempts is written off unless a hundred such rows are ahead of it |
| InboundEventsEffects.WriteDoes | src/modules/plaid/inbound-events.repository.ts:231-349 | Each write answers true exactly for the holder, changes that row alone, and leaves it finished, waiting, leased on or handed back, field by field |
| InboundEventsEffects.InsertDoes | src/modules/plaid/inbound-events.repository.ts:117-135 | A delivery comes in waiting and unleased with no attempt behind it; an id already there is refused |
| InboundEventsEffects.ReplayDoes | src/modules/plaid/inbound-events.repository.ts:350-369 | A replay brings exactly a dead event back, with all of its attempts |
| InboundEventsProofs.ClaimTakesOnePerItem | src/modules/plaid/inbound-events.repository.ts:169-200 | One claim never takes two events of one item |
| InboundEventsProofs.InsertKeepsOrder | src/modules/plaid/inbound-events.repository.ts:117-135 | An insert keeps the per-item order iff it does not arrive before a started or finished event of its item |
| InboundEventsProofs.LateArrivalBreaksOrder | src/modules/plaid/inbound-events.repository.ts:117-135 | A concrete run: a delivery received earlier comes in after a later one of its item was claimed |
| InboundEventsProofs.ReplayKeepsOrder | src/modules/plaid/inbound-events.repository.ts:350-369 | A replay keeps the per-item order iff no later event of the item has been started |
| InboundEventsProofs.ReplayBreaksOrder | src/modules/plaid/inbound-events.repository.ts:350-369 | A concrete run: a dead event is replayed after the next one of its item was claimed |
| InboundEventsProofs.OneAtATime | src/modules/plaid/inbound-events.repository.ts:169-200 | In runs whose inserts and replays keep the order, one event of an item is processed at a time, and only after all earlier ones are finished |
| InboundEventsProofs.OrderedArrivalIsInTime | src/modules/plaid/inbound-events.repository.ts:169-200 | Deliveries arriving in (received, id) order keep the order |
| InboundEventsProofs.AttemptsAreClaimsMinusReleases | src/modules/plaid/inbound-events.repository.ts:137-318 | In every run a row's attempts are its claims minus its releases since insert or replay |
| InboundEventsProofs.SomeEventMoves | src/modules/plaid/inbound-events.repository.ts:137-229 | In every reachable state with an unfinished event, from some time on every claim takes or gives up some event |
| InboundEventsProofs.EveryItemMoves | src/modules/plaid/inbound-events.repository.ts:137-229 | No item starves: from any reachable state, once an item's first unfinished event is due, any run in which no earlier event of the item comes in and as many claims find it unlocked as there are units ahead of it, whatever their limits, takes it up or writes it off |
| InboundEventsProofs.ItemHasHead | src/modules/plaid/inbound-events.repository.ts:137-229 | Every item with an unfinished event has one that waits for no other |
| InboundEventsProofs.EverythingFinishes | src/modules/plaid/inbound-events.repository.ts:137-349 | Once nothing new, replayed or released comes in, timely claims, each using up a unit of at most nine an event, finish every event |
| InboundEventsPoller.InboundEventsRepository.SelectFirst | src/modules/plaid/inbound-events.repository.ts:155-157 | The selection loop returns the first rows of the order |
| InboundEventsPoller.InboundEventsRepository.ClaimInboundEvents | src/modules/plaid/inbound-events.repository.ts:137-229 | One claim statement leaves the specified queue and returns a ticket for each row taken, or a range error |
| InboundEventsPoller.InboundEventsRepository.UpdateOwned | src/modules/plaid/inbound-events.repository.ts:231-318 | Each guarded write changes the row iff id, worker, attempt and token own it, and says so |
| InboundEventsPoller.RetryDelay | src/modules/plaid/inbound-events.repository.ts:98-111 | A retry comes between 30 seconds and 75 minutes later, at most a quarter over its base |
| InboundEventsPoller.RetryBaseGrows | src/modules/plaid/inbound-events.repository.ts:98-111 | Later attempts never have a smaller base, which is the cap from the eighth on |
| InboundEventsPoller.RetryTable | src/modules/plaid/inbound-events.repository.ts:98-111 | The delays before jitter are half a minute, doubling up to an hour from the eighth attempt on |
| InboundEventsPoller.NextWriteFollows | src/modules/plaid/inbound-events-poller.ts:127-220 | What the poller writes after a handler never retries the last attempt, for any outcome |
| InboundEventsPoller.NextWriteIs | src/modules/plaid/inbound-events-poller.ts:127-220 | After a handler the event is processed on success, dead on a terminal error or the eighth attempt, and else tried again 30 seconds to 75 minutes later |
| InboundEventsPoller.PollerStrandsNothing | src/modules/plaid/inbound-events-poller.ts:127-220 | With the poller's rule no waiting event is out of attempts, so a claim only writes off expired leases |
| InboundEventsPoller.ClaimedOwns | src/modules/plaid/inbound-events.repository.ts:137-229 | Right after a claim each returned ticket owns its event |
| InboundEventsPoller.Poller.RunEvent | src/modules/plaid/inbound-events-poller.ts:127-220 | A poller that lost its lease or is stopping writes nothing; otherwise exactly the one write its outcome calls for |
| InboundEventsPoller.Poller.PollBatch | src/modules/plaid/inbound-events-poller.ts:222-262 | In a batch no other worker disturbs, every claimed event leaves the batch processed, dead or waiting as its handler ended, with its attempt spent unless the poller is stopping, and no other event moves |
| InboundEventsPoller.Poller.RunBatch | src/modules/plaid/inbound-events-poller.ts:222-262 | The loop over an undisturbed batch settles each of its events and no other |
| InboundEventsPoller.Poller.Settle | src/modules/plaid/inbound-events-poller.ts:112-220 | One claimed event, its lease kept, handed back or run |
| Calendar.OrderIsDayOrder | src/modules/bills/business-days.ts:10-30 | ISO string order is the order of the day numbers of section 21.4.1 of ECMA-262, and a day number names one date |
| Calendar.ShiftMovesDayNumber | src/modules/bills/business-days.ts:24-30 | Shifting by n days moves the day number by n, across months, years and leap days |
| Calendar.ShiftComposes | src/modules/bills/recurring-engine.ts:98-103 | Shifts compose and undo each other |
| Calendar.DayZeroIsLastDay | src/modules/bills/recurring-engine.ts:104-115 | Day zero of the next month is the month's last day |
| BusinessDays.NthWeekdayLands | src/modules/bills/business-days.ts:31-40 | The nth weekday lies in the month's nth seven days, or its last seven, on that weekday |
| BusinessDays.HolidaysApart | src/modules/bills/business-days.ts:47-66 | Any two bank holidays are at least five days apart, also across a new year |
| BusinessDays.HolidaysAre | src/modules/bills/business-days.ts:47-66 | The computed set of a year is exactly its eleven federal holidays, each named by its weekday and date range or its fixed date, moved from a Sunday to Monday |
| BusinessDays.FourDaysHoldABusinessDay | src/modules/bills/business-days.ts:67-82 | Of any four days in a row one is a business day |
| BusinessDays.OnOrBefore | src/modules/bills/business-days.ts:73-82 | The search ends within three steps at the greatest business day not after the date |
| BusinessDays.PayDateInMonth | src/modules/bills/business-days.ts:84-94 | Each month has two ordered pay dates, both business days inside the month |
| BusinessDays.NextHalfIsLeast | src/modules/bills/business-days.ts:96-109 | The next pay date is the least one after the date |
| BusinessDays.IterationEnumerates | src/modules/bills/business-days.ts:96-109 | Iterating visits every later pay date once, in order |
| BusinessDays.GeneratorIsRecognised | src/modules/bills/business-days.ts:121-142 | Three or more consecutive pay dates, each on time or one day late, also into the next month, are recognised |
| BusinessDays.AnchorTestsMean | src/modules/bills/business-days.ts:121-142 | The recogniser's tests hold iff each date is within a day after a pay date and both kinds occur |
| BusinessDays.HolidayCalendar.BankHolidays | src/modules/bills/business-days.ts:44-66 | The cached set is the year's holidays, and the cache stays right |
| BusinessDays.HolidayCalendar.IsBusinessDay | src/modules/bills/business-days.ts:67-72 | True iff neither weekend nor bank holiday |
| BusinessDays.HolidayCalendar.OnOrBeforeBusinessDay | src/modules/bills/business-days.ts:73-82 | The loop returns the closest business day not after the date |
| BusinessDays.HolidayCalendar.SemimonthlyPayDates | src/modules/bills/business-days.ts:84-94 | Returns the month's two pay dates |
| BusinessDays.HolidayCalendar.NextSemimonthlyPayDate | src/modules/bills/business-days.ts:96-109 | The loop returns the next pay date; its final throw is unreachable |
| BusinessDays.HolidayCalendar.LooksSemimonthly | src/modules/bills/business-days.ts:121-142 | The loop accepts exactly the lists the tests describe |
| RecurringEngine.AddCalendarMonths | src/modules/bills/recurring-engine.ts:104-115 | The month moves by exactly that many and the day is the same or the month's last |
| RecurringEngine.NextIsOneApart | src/modules/bills/recurring-engine.ts:117-138 | The next date is 1, 7 or 14 days later, 1, 3 or 12 months later on the same or the month's last day, or the first pay date after |
| RecurringEngine.OneApartIsNext | src/modules/bills/recurring-engine.ts:117-138 | And no other date is |
| SplitSeries.SplitByAmount | src/modules/bills/recurring-engine.ts:217-249 | The map loops produce the specified series in order |
| SplitSeries.SplitPartitions | src/modules/bills/recurring-engine.ts:217-249 | The series hold the payments exactly once each, as a multiset |
| SplitSeries.SplitShape | src/modules/bills/recurring-engine.ts:231-248 | Each series has one amount and at most one payment a date, and a later slot's dates are among an earlier slot's |
| SplitSeries.NameReadsBack | src/modules/bills/recurring-engine.ts:173-193 | A printed series name is read back to its base, slot and count, and to nothing when there is one slot |
| SplitSeries.NamesDiffer | src/modules/bills/recurring-engine.ts:201-204 | Two names are equal iff the amounts, slots and counts are |
| SplitSeries.NamesLookLike | src/modules/bills/recurring-engine.ts:201-204 | Three printed names, letter by letter |
| SplitSeries.SeriesNames | src/modules/bills/recurring-engine.ts:217-249 | The series of one split share a name iff they agree in absolute amount, slot and count |
| SplitSeries.PaycheckSharesName | src/modules/bills/recurring-engine.ts:217-249 | A purchase and a paycheck of the same amount are two series under one name |
| Pipeline.ExecutePipelineJob | src/modules/pipeline/pipeline.service.ts:245-339 | The stage loop leaves the specified run row and steps, calls the specified ports, and ends as specified, for any outcomes, cancellation point and lease loss |
| Pipeline.RunStage | src/modules/pipeline/pipeline.service.ts:272-327 | One turn of the stage loop, with its cancellation checks, skip and error path |
| Pipeline.RecordOutcome | src/modules/pipeline/pipeline.service.ts:297-327 | The try and catch around a port |
| Pipeline.PipelineRepository.ReopenRunForJob | src/modules/pipeline/pipeline.repository.ts:148-161 | Reopens the run iff the job row still carries this lease |
| Pipeline.PipelineRepository.FinishRunForJob | src/modules/pipeline/pipeline.repository.ts:162-175 | Finishes the run iff the job row still carries this lease |
| Pipeline.PipelineRepository.FailRunForExpiredJob | src/modules/pipeline/pipeline.repository.ts:176-189 | Fails the run iff it is this job's and still running |
| PipelineProofs.RunsKeepInv | src/modules/pipeline/pipeline.service.ts:245-339 | In every reachable state: success means all nine stages, partial means the sync but not all, and a bill stage has succeeded only after the sync |
| PipelineProofs.CompletedMeans | src/modules/pipeline/pipeline.service.ts:328-338 | An attempt that completes records failed iff the sync did not succeed, success iff all nine stages did, partial otherwise, and each stage got the outcome its port gave |
| PipelineProofs.SuccessStays | src/modules/pipeline/pipeline.service.ts:263-273 | A recorded success is never undone by any later attempt or expiry |
| PipelineProofs.NeverRunAgain | src/modules/pipeline/pipeline.service.ts:263-273 | A stage recorded as successful is never run again |
| PipelineProofs.AttemptKeepsInv | src/modules/pipeline/pipeline.service.ts:272-327 | An attempt runs only stages not yet successful, each at most once and in order, and keeps the invariant |
| PipelineProofs.WithoutLease | src/modules/pipeline/pipeline.repository.ts:148-175 | An attempt without the lease changes neither status nor finish time, and with steps to resume does nothing at all |
| PipelineEffects.CompletedRecords | src/modules/pipeline/pipeline.service.ts:245-339 | An attempt that completes held the lease, by job, running state and token, recorded each stage as its port ended it, a missing port as failed and the bill stages as skipped after a failed sync, and asks for a retry iff the sync failed and may be retried |
| PipelineEffects.RefusedEarly | src/modules/pipeline/pipeline.service.ts:245-290 | An attempt aborted at its first checks, for another job's run, or resuming without the lease changes nothing and calls no port |
| PipelineEffects.CutOffIff | src/modules/pipeline/pipeline.service.ts:245-339 | An attempt that may start is cut off iff its signal is aborted by its last check, counted stage by stage; otherwise it loses its lease iff the job row no longer carries it |
| PipelineProofs.ResumeCompletes | src/modules/pipeline/pipeline.service.ts:245-339 | Whatever happened before, one attempt that keeps its lease and meets no failure completes the run |
| CategoryTreeProofs.RunKeepsInv | src/modules/categories/categories.service.ts:107-345 | In every state a run with sound creates reaches, the tree is two levels deep under live visible parents, a replaced group hides all its defaults, and no plan item points at an archived or hidden category |
| CategoryTreeProofs.CustomizeKeepsInv | src/modules/categories/categories.repository.ts:318-427 | Replacing a default with all of its subcategories keeps the invariant, leaves defaults and older copies alone, hides the default and conserves every plan's total |
| CategoryTreeProofs.UpdateKeepsInv | src/modules/categories/categories.service.ts:107-144 | A rename or move past the guards keeps the invariant |
| CategoryTreeProofs.UpdateDoes | src/modules/categories/categories.service.ts:216-259 | An accepted edit lands on the user's own live row, under the new name and place, and hides the default it was asked for |
| CategoryTreeProofs.ArchiveDoes | src/modules/categories/categories.service.ts:261-345 | An archived category is gone with its plan items, nothing live is left under it, and what stands for each of its live subcategories, also as a copy made on the way, is a group |
| CategoryTreeProofs.ArchiveKeepsInv | src/modules/categories/categories.service.ts:261-345 | Archiving, with its promoted subcategories and moved plan items, keeps the invariant |
| CategoryTreeProofs.CreateKeepsInvIff | src/modules/categories/categories.service.ts:187-215 | Creating keeps the tree two levels deep iff the parent, which the service does not check, is a live visible group |
| CategoryTreeProofs.CreatesThirdLevel | src/modules/categories/categories.service.ts:187-215 | A category created under a subcategory is accepted and breaks the tree |
| CategoryTreeProofs.CreatesUnderHidden | src/modules/categories/categories.service.ts:187-215 | So is one created under a default the user has replaced |
| CategoryTreeProofs.MovingConserves | src/modules/categories/categories.repository.ts:181-227 | Moving a category's plan items conserves, per plan and member, every total over categories with both ends or neither |
| CategoryTreeProofs.MovingConservesPlan | src/modules/categories/categories.repository.ts:181-227 | Moving a category's plan items conserves what each plan holds for each member |
| CategoryTreeProofs.UncategorisedDrops | src/modules/categories/categories.repository.ts:196-204 | Dropping them changes no total of the other categories |
| CategoryTreeProofs.NoneStayBehind | src/modules/categories/categories.repository.ts:181-227 | No plan item stays on the old category, and only the destination gains any |
| CategoryTreeProofs.ArchiveConserves | src/modules/categories/categories.service.ts:261-345 | Archiving into a category conserves what every plan holds for every member, also through the copies it makes |
| CategoryTreeEffects.ArchiveMoves | src/modules/categories/categories.service.ts:261-345 | Archiving moves the category's plan items to the named category, to the parent, or nowhere: per plan and member the destination gains what the category held, it keeps nothing, no other total changes |
| CategoryTreeEffects.ArchivingMerges | src/modules/categories/categories.repository.ts:119-200 | A concrete archive: two items of one plan become one of both amounts |
| CategoryTreeEffects.ArchiveRefuses | src/modules/categories/categories.service.ts:261-345 | Archiving is refused for exactly a category not live in the user's view, a bad destination, or a subcategory that would become a group beside one of its name; a refusal changes nothing |
| CategoryTreeEffects.UpdateRefuses | src/modules/categories/categories.service.ts:216-259 | An edit is refused for exactly a category not live in the user's view, a bad move, a name clash, or a copy that cannot be made; a refusal changes nothing |
| CategoryTreeEffects.CreateDoes | src/modules/categories/categories.service.ts:187-215 | A new category is the user's own, live and under the parent asked for, and nothing else changes; refused exactly when no category has that id or a sibling has the name |
| CategoryTreeEffects.NoTwinsInAnyRun | database/schema/schema.ts:405-415 | In every state a run reaches, siblings have different names |
| CategoryTreeProofs.UpdateConserves | src/modules/categories/categories.service.ts:216-259 | An edit, and the copies it makes, conserve them too |
| CategoriesService.CategoryRepository.MoveCategoryReferences | src/modules/categories/categories.repository.ts:181-227 | The loop over plan items leaves exactly the specified items |
| CategoriesService.CategoryRepository.CustomizeOne | src/modules/categories/categories.repository.ts:335-426 | One copy, made or found, or a refused write |
| CategoriesService.CategoryRepository.CustomizeDefault | src/modules/categories/categories.repository.ts:318-427 | The copy and the loop over default subcategories |
| CategoriesService.Service.OwnedOrCopied | src/modules/categories/categories.service.ts:146-168 | The row a write applies to, in the state after any copies |
| CategoriesService.Service.UpdateCategory | src/modules/categories/categories.service.ts:216-259 | New state and outcome; a refusal rolls everything back |
| CategoriesService.Service.ArchiveCategory | src/modules/categories/categories.service.ts:261-345 | New state and outcome; a refusal rolls everything back |
| CategoriesService.Service.CreateCategory | src/modules/categories/categories.service.ts:187-215 | New state and outcome |
| MonthCycles.CycleContains | src/modules/accounts/card-statement.ts:27-34 | Every date lies in exactly one cycle of any day of the month |
| BudgetCalculations.CurrentPeriodRange | src/modules/budgets/budget-calculations.ts:24-70 | The month and year arithmetic returns the period from the clamped anchor to the day before the next, or the error |
| BudgetCalculations.PeriodsTile | src/modules/budgets/budget-calculations.ts:24-70 | Periods contain their date, are equal or disjoint, and the next starts the day after the last one ends |
| BudgetCalculations.PeriodLength | src/modules/budgets/budget-calculations.ts:24-70 | A period has 28 to 31 days |
| CardStatement.LastStatementIsLatest | src/modules/accounts/card-statement.ts:36-41 | The last statement date is the greatest cycle day not after today |
| CardStatement.DueDateIsNext | src/modules/accounts/card-statement.ts:43-56 | The due date is the least due day after the statement date |
| CardStatement.OneQueryIsEnough | src/modules/accounts/card-statement.ts:136-169 | One query from the earliest close and a filter per card sum to the same as a query per card |
| CardStatement.EachCardOnItsOwn | src/modules/accounts/card-statement.ts:127-181 | Each card whose statement is worked out closes on the last turn of its own cycle, is due on the next due day, and owes today's balance less what was posted to it since that close; other rows pass through |
| CardStatement.DerivedIsNewer | src/modules/accounts/card-statement.ts:101-120 | A worked-out statement is newer than the bank's, closed by today, and due after its close |
| QuietHours.ZonedWallTime | src/modules/notifications/bill-schedule.ts:105-171 | For a zone with at most one change: null iff no instant shows the time, else an instant that does, within five iterations; it is the earliest iff the first guess does not land past a fold |
| QuietHours.TrollTwoOClock | src/modules/notifications/bill-schedule.ts:105-171 | In a zone that goes back two hours, the two o'clock that comes twice is answered with the second |
| QuietHours.WalkBack | src/modules/notifications/bill-schedule.ts:125-164 | The walk back ends at an instant showing the time, and leaves a later one only from the change itself |
| QuietHours.WindowEndsFirst | src/modules/notifications/bill-schedule.ts:180-198 | The window's end is the first wall time after this one outside quiet hours |
| QuietHours.QuietIsRoundTheClock | src/modules/notifications/bill-schedule.ts:35-42 | The quiet hours are those the clock shows from the start hour round to the end hour, over midnight if need be |
| QuietHours.ShiftOutOfQuiet | src/modules/notifications/bill-schedule.ts:180-198 | Outside quiet hours nothing changes; inside, the answer shows the window's end if any instant does; every answer is outside quiet hours, so shifting again is the identity |
| QuietHours.ShiftMovesOn | src/modules/notifications/bill-schedule.ts:180-198 | The answer is later, unless the clocks went back in between |

## Left out

- BillLifecycle.StatusTellsPayment: does not cover the hard deletion of transactions, whose foreign keys clear a link without changing the status.
- BillLifecycle.KeysAndDatesUnique: about baseline dates; effective dates can coincide, since unlinking a paid row leaves its date as it is.
- BillsService.Service.ResolveMatured: a hold's own posted payment may be a pair the user has undone, because that hand-over does not look at refusals; which payments qualify by amount, date, account and name is an input.
- BillsService.Service.MaterializeBill: the two result counters and the forecast-event mirror rows are not modelled.
- Pipeline.ExecutePipelineJob: attempts do not overlap, a missing run or malformed payload is not modelled, and database failures inside a stage are part of the port's outcome.
- QuietHours.ZonedWallTime: zones with more than one offset change near the requested time, and offsets with seconds, are not modelled.
- InboundEventsPoller.Poller.RunEvent: the heartbeat timer is reduced to whether the lease was lost while the handler ran; timers, wake-ups and start and stop are not modelled.
- InboundEventsPoller.Poller.PollBatch: about an undisturbed batch; no other worker's step falls between its writes, its leases are not lost while handlers run, and the poller does not begin to stop within it. What stale writes do is proved in InboundEventsProofs.Fencing.
- InboundEventsPoller.Poller.RunBatch: the same.
- InboundEventsPoller.Poller.Settle: the lease is not lost while the handler runs; RunEvent covers that case.
- CategoriesService.CategoryRepository.CustomizeOne: when several of the user's groups share the default's name, the model takes the first in table order; the query names none.
- MerchantMatch.PairClosest: an empty payment id, which the code would skip, is not an id of the model.
- EditDistance.Levenshtein: strings are sequences of characters, not of UTF-16 code units.
- Occurrence keys are values, not text, so their rendering and parsing is not modelled; nor are years outside four digits and the treatment of years 0 to 99 by `Date.UTC`.
- Lease tokens are values never used before, where the code draws random UUIDs.
- The name rules of `namesMatch` and `normalizeMerchant`, floating-point confidence, and the detection of new series.
- The categories' icons, colours and display order, and the transactions, rules, bills and goals that move with a category as plan items do.
- Audit rows, caching, revisions, `updatedAt`, HTTP routes, validation schemas, encryption and calls to outside services.
- The forecast engine, rules, reports, budgets' progress sums, net worth and dashboard figures.
