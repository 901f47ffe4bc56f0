/** Tables on which materialising disturbs a protected row, or a second pass on the same day changes something. */
module BillExamples {
  import opened Wrappers
  import opened Calendar
  import opened Occurrences
  import opened BillSchedule
  import opened BillOccurrencesRepository
  import opened BillMaterialization
  import opened BillMaterializationProofs
  import opened BillProtection
  import opened BillRealignment
  import opened BillRepetition
  import opened RecurringEngine

  // ------------------------------------------------------------------ a card off monthly keys

  const MARCH_1: Day := Date(2024, 3, 1)
  const DUE: Day := Date(2024, 3, 20)

  /** A weekly card bill, whose March row the user cancelled. */
  function WeeklyCard(): Bill {
    Bill(0, Some(Weekly), Some(DUE), None, 0, Credit(BillMaterialization.CardStatement(Some(DUE), Some(100))))
  }

  function CancelledRow(due: Day): Occurrence {
    Occurrence(0, MonthKey(2024, 3), due, None, Cancelled, false, 50, None, None, None, None, None, None, None, None)
  }

  function CardLedger(due: Day): Ledger {
    Ledger(map[0 := CancelledRow(due)], 1, {})
  }

  lemma CardDates(due: Day, today: Day, months: int)
    requires due.y == 2024 && due.m == 3 && due != DUE && !Before(DUE, today)
    ensures var l, b := CardLedger(due), WeeklyCard();
            && Inv(l) && b.Materializes() && PlannedDates(l.rows, b, today, months) == [DUE]
            && !Retirable(CancelledRow(due), 0, today) && RevivedBy(b, CancelledRow(due), AllowedDates(l, b, today, [DUE]))
  {
    var l, b := CardLedger(due), WeeklyCard();
    assert RowFits(0, CancelledRow(due));
    var retired := RetireFutureSchedule(l.rows, b.id, today);
    assert retired[0] == CancelledRow(due);
    assert Safe(retired, b.id, Weekly, today, DUE);
    assert DUE in AllowedDates(l, b, today, [DUE]);
    assert Revivable(CancelledRow(due), b.id, DUE.y, DUE.m);
  }

  /** Rescheduling it brings the cancelled, protected row of the month back beside the statement's own row. */
  lemma WeeklyCardRevivesProtected(months: int)
    ensures Inv(CardLedger(Date(2024, 3, 5))) && Protected(CancelledRow(Date(2024, 3, 5)), MARCH_1)
    ensures var after := MaterializeBill(CardLedger(Date(2024, 3, 5)), WeeklyCard(), MARCH_1, months, true);
            after.Some? && 0 in after.value.rows && after.value.rows[0] == CancelledRow(Date(2024, 3, 5)).(status := Upcoming)
  {
    CardDates(Date(2024, 3, 5), MARCH_1, months);
    hide Realign, AllowedDates, RevivedBy;
    ProtectedRowsStay(CardLedger(Date(2024, 3, 5)), WeeklyCard(), MARCH_1, [DUE], 0);
  }

  /** Rescheduling it a second time on the same day retires that row again. */
  lemma WeeklyCardChangesAgain(months: int)
    ensures var once := MaterializeBill(CardLedger(Date(2024, 3, 5)), WeeklyCard(), MARCH_1, months, true);
            once.Some? && MaterializeBill(once.value, WeeklyCard(), MARCH_1, months, true) != once
  {
    var l, b := CardLedger(Date(2024, 3, 5)), WeeklyCard();
    CardDates(Date(2024, 3, 5), MARCH_1, months);
    assert l.rows[0] == CancelledRow(Date(2024, 3, 5)) && !Before(l.rows[0].dueDate, MARCH_1);
    hide MaterializeBill, Realign, AllowedDates, RevivedBy, PlannedDates;
    assert !RevivesPastOnly(l, b, MARCH_1, [DUE]);
    RescheduleAgain(l, b, MARCH_1, months);
  }

  /** Had the row fallen due by then, it would be brought back just the same, but the second time nothing would change. */
  lemma WeeklyCardRepeatsPast(months: int)
    ensures var l, b, today := CardLedger(Date(2024, 3, 5)), WeeklyCard(), Date(2024, 3, 10);
            var once := MaterializeBill(l, b, today, months, true);
            once.Some? && once != Some(l) && MaterializeBill(once.value, b, today, months, true) == once
  {
    var l, b, today: Day := CardLedger(Date(2024, 3, 5)), WeeklyCard(), Date(2024, 3, 10);
    CardDates(Date(2024, 3, 5), today, months);
    assert l.rows[0] == CancelledRow(Date(2024, 3, 5)) && Before(l.rows[0].dueDate, today);
    hide Realign, AllowedDates, RevivedBy, PlannedDates;
    ProtectedRowsStay(l, b, today, [DUE], 0);
    assert RevivesPastOnly(l, b, today, [DUE]);
    hide MaterializeBill;
    RescheduleAgain(l, b, today, months);
  }

  // ------------------------------------------------------------------ an overdue row under a monthly key

  const MARCH_10: Day := Date(2025, 3, 10)
  const MARCH_20: Day := Date(2025, 3, 20)
  const APRIL_20: Day := Date(2025, 4, 20)

  /** A monthly bill expected on 20 March, whose March row fell due on the fifth. */
  function Rent(): Bill {
    Bill(0, Some(Monthly), Some(MARCH_20), None, 50, NotTransfer)
  }

  function OverdueRow(): Occurrence {
    Occurrence(0, MonthKey(2025, 3), Date(2025, 3, 5), None, Overdue, false, 50, None, None, None, None, None, None, None, None)
  }

  function RetiredRow(): Occurrence {
    Occurrence(0, Retired(1), APRIL_20, None, Cancelled, false, 50, None, None, None, None, None, None, None, None)
  }

  function RentLedger(): Ledger {
    Ledger(map[0 := OverdueRow()], 2, {})
  }

  function RentLedgerRetired(): Ledger {
    Ledger(map[0 := OverdueRow(), 1 := RetiredRow()], 2, {})
  }

  lemma NextMonth(t: Day)
    requires t.m < 12 && t.d <= 28
    ensures NextDateForCadence(t, Monthly) == Date(t.y, t.m + 1, t.d)
  {
  }

  lemma RentHorizon()
    ensures Horizon(MARCH_10, 2) == Date(2025, 5, 10)
  {
    IsoInMonth(Date(2025, 5, 10));
  }

  lemma RentFuture(horizon: Day)
    requires horizon == Date(2025, 5, 10)
    ensures FutureDates(MARCH_20, Monthly, horizon) == [MARCH_20, APRIL_20]
  {
    hide NextDateForCadence, Gap;
    NextMonth(MARCH_20);
    NextMonth(APRIL_20);
    assert FutureDates(Date(2025, 5, 20), Monthly, horizon) == [];
    assert FutureDates(APRIL_20, Monthly, horizon) == [APRIL_20];
  }

  lemma RentDates(rows: Rows)
    ensures Rent().Materializes() && PlannedDates(rows, Rent(), MARCH_10, 2) == [MARCH_20, APRIL_20]
  {
    hide NextDateForCadence, Gap, Horizon, FutureDates;
    RentHorizon();
    RentFuture(Date(2025, 5, 10));
    assert PastDates(rows, 0, MARCH_20, Monthly, MARCH_10) == [] && CatchUp(MARCH_20, Monthly, MARCH_10) == MARCH_20;
  }

  lemma OverdueFacts()
    ensures Inv(RentLedger()) && Protected(OverdueRow(), MARCH_10) && Rent().Materializes()
    ensures var l, dates := RentLedger(), [MARCH_20, APRIL_20];
            !LeavesRetired(l, Rent(), MARCH_10, dates) && Moves(RetireFutureSchedule(l.rows, 0, MARCH_10), Rent(), dates, 0, MARCH_20)
  {
    OverdueInv();
    hide AllowedDates, RestIsQuiet, Inv;
    assert RetireFutureSchedule(RentLedger().rows, 0, MARCH_10) == map[0 := OverdueRow()];
    OverdueWouldMove(RentLedger(), [MARCH_20, APRIL_20]);
  }

  lemma OverdueInv()
    ensures Inv(RentLedger())
  {
    assert RowFits(0, OverdueRow());
  }

  /** Rescheduling leaves the overdue row where it is; the ordinary pass of the same day then moves it to the 20th. */
  lemma OverdueRowMoves()
    ensures Inv(RentLedger()) && Protected(OverdueRow(), MARCH_10)
    ensures var once := MaterializeBill(RentLedger(), Rent(), MARCH_10, 2, true);
            && once.Some? && 0 in once.value.rows && once.value.rows[0] == OverdueRow()
            && var next := MaterializeBill(once.value, Rent(), MARCH_10, 2, false);
            next.Some? && 0 in next.value.rows && next.value.rows[0] == OverdueRow().(dueDate := MARCH_20)
  {
    var l, b := RentLedger(), Rent();
    hide MaterializeBill, PlannedDates, LeavesRetired, Moves, Inv;
    RentDates(l.rows);
    OverdueFacts();
    NextPassMoves(l, b, MARCH_10, 2, 0, MARCH_20);
  }

  /** The overdue row holds March's key, so the twentieth is refused to the realignment and left to the next pass. */
  lemma OverdueWouldMove(l: Ledger, dates: seq<Day>)
    requires Rent().Materializes() && MARCH_20 in dates && 0 in l.rows && l.rows[0] == OverdueRow()
    requires NonColliding(RetireFutureSchedule(l.rows, 0, MARCH_10), 0, Monthly, MARCH_20)
    ensures Moves(RetireFutureSchedule(l.rows, 0, MARCH_10), Rent(), dates, 0, MARCH_20)
  {
    var retired := RetireFutureSchedule(l.rows, 0, MARCH_10);
    assert retired[0] == OverdueRow();
    assert MARCH_20 in WithinEnd(Rent(), dates);
    assert RefreshRow(retired[0], 0, MonthKey(2025, 3), MARCH_20, 50) != retired[0];
  }

  /** With a retired row waiting on 20 April the first of two identical ordinary requests realigns, and the second moves the row. */
  lemma IdenticalPassesDiffer()
    ensures Inv(RentLedgerRetired())
    ensures var once := MaterializeBill(RentLedgerRetired(), Rent(), MARCH_10, 2, false);
            && once.Some? && 0 in once.value.rows && once.value.rows[0] == OverdueRow()
            && var next := MaterializeBill(once.value, Rent(), MARCH_10, 2, false);
            next.Some? && 0 in next.value.rows && next.value.rows[0] == OverdueRow().(dueDate := MARCH_20)
  {
    var l, b := RentLedgerRetired(), Rent();
    hide MaterializeBill, PlannedDates, LeavesRetired, Moves, Inv, Realigns;
    RentDates(l.rows);
    RetiredFacts();
    NextPassMoves(l, b, MARCH_10, 2, 0, MARCH_20);
    RealignsAnyway(l, b, MARCH_10, 2);
  }

  /** A pass that realigns anyway is the rescheduling pass. */
  lemma RealignsAnyway(l: Ledger, b: Bill, today: Day, months: int)
    requires b.Materializes() && Realigns(l.rows, b, today, PlannedDates(l.rows, b, today, months), false)
    ensures MaterializeBill(l, b, today, months, false) == MaterializeBill(l, b, today, months, true)
  {
    hide PlannedDates, Realign;
  }

  lemma RetiredFacts()
    ensures Inv(RentLedgerRetired()) && Rent().Materializes()
    ensures Realigns(RentLedgerRetired().rows, Rent(), MARCH_10, [MARCH_20, APRIL_20], false)
    ensures var l, dates := RentLedgerRetired(), [MARCH_20, APRIL_20];
            !LeavesRetired(l, Rent(), MARCH_10, dates) && Moves(RetireFutureSchedule(l.rows, 0, MARCH_10), Rent(), dates, 0, MARCH_20)
  {
    hide LeavesRetired, NonColliding, RetireFutureSchedule, PhaseMoved, Moves;
    RetiredInv();
    assert 1 in RentLedgerRetired().rows && RentLedgerRetired().rows[1] == RetiredRow();
    AprilIsAllowed();
    OverdueWouldMove(RentLedgerRetired(), [MARCH_20, APRIL_20]);
  }

  lemma RetiredInv()
    ensures Inv(RentLedgerRetired())
  {
    assert RowFits(0, OverdueRow()) && RowFits(1, RetiredRow());
  }

  lemma AprilIsAllowed()
    ensures Rent().Materializes() && !LeavesRetired(RentLedgerRetired(), Rent(), MARCH_10, [MARCH_20, APRIL_20])
    ensures NonColliding(RetireFutureSchedule(RentLedgerRetired().rows, 0, MARCH_10), 0, Monthly, MARCH_20)
  {
    var l, b, dates := RentLedgerRetired(), Rent(), [MARCH_20, APRIL_20];
    var retired := RetireFutureSchedule(l.rows, b.id, MARCH_10);
    assert retired == map[0 := OverdueRow(), 1 := RetiredRow()];
    assert Safe(retired, b.id, Monthly, MARCH_10, APRIL_20);
    assert APRIL_20 in NotPast(WithinEnd(b, dates), MARCH_10);
    assert APRIL_20 in AllowedDates(l, b, MARCH_10, dates);
  }
}
