/** When a realignment leaves a row it must not disturb exactly as it was (src/modules/bills/bills.service.ts, bill-schedule.ts). */
module BillProtection {
  import opened Wrappers
  import opened Calendar
  import opened Occurrences
  import opened BillSchedule
  import opened BillOccurrencesRepository
  import opened BillMaterialization
  import opened BillMaterializationProofs
  import opened BillRealignment
  import opened RecurringEngine

  /**
   A realignment leaves every row of the bill it does not retire exactly as it was, unless the bill is a card's and
   its revive step brings the row back; with monthly keys it never does.
   */
  lemma ProtectedRowsStay(l: Ledger, b: Bill, today: Day, dates: seq<Day>, i: nat)
    requires Inv(l) && b.Materializes() && Schedule(dates, b.cadence.value)
    requires i in l.rows && l.rows[i].bill == b.id && !Retirable(l.rows[i], b.id, today)
    ensures var after := Realign(l, b, today, dates);
            var allowed := AllowedDates(l, b, today, dates);
            && after.Some? && i in after.value.rows
            && (after.value.rows[i] == l.rows[i] <==> !RevivedBy(b, l.rows[i], allowed))
            && (RevivedBy(b, l.rows[i], allowed) ==> after.value.rows[i] == l.rows[i].(status := Upcoming))
            && (!b.Card() || b.cadence.value.Monthly? ==> after.value.rows[i] == l.rows[i])
  {
    var allowed := AllowedDates(l, b, today, dates);
    RealignLeaves(l, b, today, dates);
    var after := Realign(l, b, today, dates).value;
    RevivedNotMonthly(l, b, today, dates, i);
    RevivedNeeds(b, l.rows[i], allowed);
    RetiredOrProtected(l, b.id, today, i);
    RetireAt(l.rows, b.id, today, i);
    hide Inv, Schedule, Realign, Realigned, AllowedDates, RevivedBy, Protected, RetireFutureSchedule;
    RealignedOldRow(l, after, b, today, dates, i);
  }
}
