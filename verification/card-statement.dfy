/** A card statement worked out from its statement and due days (src/modules/accounts/card-statement.ts). */
module CardStatement {
  import opened Wrappers
  import opened Calendar
  import opened RecurringEngine
  import opened MonthCycles

  /** Months outside 1..12 carry over. */
  function OnDay(year: int, month: int, day: int): Day
    requires day >= 1
  {
    CycleDay(day, 12 * year + month - 1)
  }

  function LastStatementDate(statementDay: int, today: Day): Day
    requires statementDay >= 1
  {
    var thisMonth := OnDay(today.y, today.m, statementDay);
    if AtMost(thisMonth, today) then thisMonth else OnDay(today.y, today.m - 1, statementDay)
  }

  function DueDateAfter(statementDate: Day, paymentDueDay: int): Day
    requires paymentDueDay >= 1
  {
    var sameMonth := OnDay(statementDate.y, statementDate.m, paymentDueDay);
    if Before(statementDate, sameMonth) then sameMonth else OnDay(statementDate.y, statementDate.m + 1, paymentDueDay)
  }

  predicate IsCycleDay(day: int, t: Day)
    requires day >= 1
  {
    t == CycleDay(day, MonthIndex(t))
  }

  /** The greatest cycle day not after today. */
  lemma LastStatementIsLatest(statementDay: int, today: Day, t: Day)
    requires statementDay >= 1
    ensures IsCycleDay(statementDay, LastStatementDate(statementDay, today)) && AtMost(LastStatementDate(statementDay, today), today)
    ensures IsCycleDay(statementDay, t) && AtMost(t, today) ==> AtMost(t, LastStatementDate(statementDay, today))
  {
    hide DaysInMonth, CycleDay;
    var month := CycleMonth(statementDay, today);
    assert LastStatementDate(statementDay, today) == CycleDay(statementDay, month);
    CycleContains(statementDay, today, month);
    hide LastStatementDate, CycleMonth;
    if IsCycleDay(statementDay, t) && MonthIndex(t) < month { CyclesAscend(statementDay, MonthIndex(t), month); }
    if IsCycleDay(statementDay, t) && MonthIndex(t) > month + 1 { CyclesAscend(statementDay, month + 1, MonthIndex(t)); }
  }

  /** The least due day after the statement date. */
  lemma DueDateIsNext(statementDate: Day, paymentDueDay: int, t: Day)
    requires paymentDueDay >= 1
    ensures IsCycleDay(paymentDueDay, DueDateAfter(statementDate, paymentDueDay)) && Before(statementDate, DueDateAfter(statementDate, paymentDueDay))
    ensures IsCycleDay(paymentDueDay, t) && Before(statementDate, t) ==> AtMost(DueDateAfter(statementDate, paymentDueDay), t)
  {
    hide DaysInMonth, CycleDay;
    var month := CycleMonth(paymentDueDay, statementDate);
    assert DueDateAfter(statementDate, paymentDueDay) == CycleDay(paymentDueDay, month + 1);
    CycleContains(paymentDueDay, statementDate, month);
    hide DueDateAfter, CycleMonth;
    if IsCycleDay(paymentDueDay, t) && MonthIndex(t) < month { CyclesAscend(paymentDueDay, MonthIndex(t), month); }
    if IsCycleDay(paymentDueDay, t) && MonthIndex(t) > month + 1 { CyclesAscend(paymentDueDay, month + 1, MonthIndex(t)); }
  }

  // ------------------------------------------------------------------ statements for many cards

  datatype CardRow = CardRow(
    id: nat, credit: bool, currentBalance: Option<int>, statementBalance: Option<int>, statementDate: Option<Day>,
    paymentDueDate: Option<Day>, statementDay: Option<int>, paymentDueDay: Option<int>, derived: bool)
  {
    predicate Valid() {
      (statementDay.Some? ==> 1 <= statementDay.value <= 31) && (paymentDueDay.Some? ==> 1 <= paymentDueDay.value <= 31)
    }

    /** The user's day, else the day of the bank's last statement. */
    function CycleStatementDay(): Option<int> {
      if statementDay.Some? then statementDay else if statementDate.Some? then Some(statementDate.value.d) else None
    }

    function CycleDueDay(): Option<int> {
      if paymentDueDay.Some? then paymentDueDay else if paymentDueDate.Some? then Some(paymentDueDate.value.d) else None
    }

    predicate Derivable(today: Day)
      requires Valid()
    {
      credit &&
      if statementDate.None? && statementBalance.None? then statementDay.Some? && paymentDueDay.Some?
      else
        && currentBalance.Some?
        && paymentDueDate.Some? && Before(paymentDueDate.value, today)
        && CycleStatementDay().Some? && CycleDueDay().Some?
        && (statementDate.None? || Before(statementDate.value, LastStatementDate(CycleStatementDay().value, today)))
    }

    function Close(today: Day): Day
      requires Valid() && Derivable(today)
    {
      LastStatementDate(CycleStatementDay().value, today)
    }
  }

  datatype Transaction = Transaction(account: nat, date: Day, amount: int, posted: bool, deleted: bool)

  predicate Since(t: Transaction, from: Day, today: Day) {
    t.posted && !t.deleted && Before(from, t.date) && AtMost(t.date, today)
  }

  /** A query for one card: everything posted after its close. */
  function PostedSince(transactions: seq<Transaction>, account: nat, close: Day, today: Day): int {
    if transactions == [] then 0
    else
      var last := transactions[|transactions| - 1];
      PostedSince(transactions[..|transactions| - 1], account, close, today)
      + if last.account == account && Since(last, close, today) then last.amount else 0
  }

  /** The one query for all cards, from the earliest close. */
  function Posted(transactions: seq<Transaction>, accounts: set<nat>, earliest: Day, today: Day): seq<Transaction> {
    if transactions == [] then []
    else
      var rest, last := Posted(transactions[..|transactions| - 1], accounts, earliest, today), transactions[|transactions| - 1];
      if last.account in accounts && Since(last, earliest, today) then rest + [last] else rest
  }

  /** The filter and the sum on its rows, for one card. */
  function SumAfter(posted: seq<Transaction>, account: nat, close: Day): int {
    if posted == [] then 0
    else
      var last := posted[|posted| - 1];
      SumAfter(posted[..|posted| - 1], account, close) + if last.account == account && Before(close, last.date) then last.amount else 0
  }

  /** One query for all cards and a filter per card add up to a query per card. */
  lemma {:induction false} OneQueryIsEnough(transactions: seq<Transaction>, accounts: set<nat>, earliest: Day,
        account: nat, close: Day, today: Day)
    requires account in accounts && AtMost(earliest, close)
    ensures SumAfter(Posted(transactions, accounts, earliest, today), account, close) == PostedSince(transactions, account, close, today)
  {
    if transactions != [] {
      var front, last := transactions[..|transactions| - 1], transactions[|transactions| - 1];
      OneQueryIsEnough(front, accounts, earliest, account, close, today);
      var rest := Posted(front, accounts, earliest, today);
      assert (rest + [last])[..|rest|] == rest;
    }
  }

  function Derive(row: CardRow, sinceClose: int, today: Day): CardRow
    requires row.Valid() && row.Derivable(today)
  {
    var close := row.Close(today);
    row.(statementDate := Some(close), paymentDueDate := Some(DueDateAfter(close, row.CycleDueDay().value)), derived := true,
         statementBalance := if row.currentBalance.Some? then Some(row.currentBalance.value - sinceClose) else None)
  }

  /** The cards whose statement is worked out. */
  function Cards(rows: seq<CardRow>, today: Day): seq<CardRow>
    requires forall r :: r in rows ==> r.Valid()
    ensures forall r :: r in Cards(rows, today) <==> r in rows && r.Derivable(today)
  {
    if rows == [] then []
    else
      var rest, last := Cards(rows[..|rows| - 1], today), rows[|rows| - 1];
      if last.Derivable(today) then rest + [last] else rest
  }

  function Closes(cards: seq<CardRow>, today: Day): seq<Day>
    requires forall c :: c in cards ==> c.Valid() && c.Derivable(today)
  {
    seq(|cards|, i requires 0 <= i < |cards| => cards[i].Close(today))
  }

  /** `sort()[0]`. */
  function Least(dates: seq<Day>): Day
    requires dates != []
  {
    if |dates| == 1 then dates[0]
    else
      var before, last := Least(dates[..|dates| - 1]), dates[|dates| - 1];
      if Before(last, before) then last else before
  }

  lemma {:induction false} LeastIsLeast(dates: seq<Day>, d: Day)
    requires d in dates
    ensures AtMost(Least(dates), d)
  {
    if |dates| > 1 && d in dates[..|dates| - 1] {
      LeastIsLeast(dates[..|dates| - 1], d);
    }
  }

  function Earliest(cards: seq<CardRow>, today: Day): Day
    requires cards != [] && forall c :: c in cards ==> c.Valid() && c.Derivable(today)
  {
    Least(Closes(cards, today))
  }

  function Ids(cards: seq<CardRow>): set<nat> {
    set c | c in cards :: c.id
  }

  function WithDerivedRow(row: CardRow, posted: seq<Transaction>, today: Day): CardRow
    requires row.Valid()
  {
    if row.Derivable(today) then Derive(row, SumAfter(posted, row.id, row.Close(today)), today) else row.(derived := false)
  }

  function WithDerivedStatements(rows: seq<CardRow>, transactions: seq<Transaction>, today: Day): seq<CardRow>
    requires forall r :: r in rows ==> r.Valid()
  {
    var cards := Cards(rows, today);
    var posted := if cards == [] then [] else Posted(transactions, Ids(cards), Earliest(cards, today), today);
    seq(|rows|, i requires 0 <= i < |rows| => WithDerivedRow(rows[i], posted, today))
  }

  /** The day of the month a card's cycle turns on: the user's, else that of the bank's last date. */
  function TurnDay(chosen: Option<int>, last: Option<Day>): Option<int> {
    if chosen.Some? then chosen else if last.Some? then Some(last.value.d) else None
  }

  /** The last day on which the cycle turned, today included. */
  ghost predicate LastTurn(day: int, today: Day, t: Day)
    requires day >= 1
  {
    IsCycleDay(day, t) && AtMost(t, today) && forall u: Day :: IsCycleDay(day, u) && AtMost(u, today) ==> AtMost(u, t)
  }

  /** The first one after a day. */
  ghost predicate NextTurn(day: int, from: Day, t: Day)
    requires day >= 1
  {
    IsCycleDay(day, t) && Before(from, t) && forall u: Day :: IsCycleDay(day, u) && Before(from, u) ==> AtMost(t, u)
  }

  /**
   A card whose statement is worked out: a credit card the bank says nothing of, with both days set by the user; or
   one whose last payment fell due before today, with a balance, and whose cycle has turned since the bank's statement.
   */
  ghost predicate WorkedOut(row: CardRow, today: Day)
    requires row.Valid()
  {
    var turn := TurnDay(row.statementDay, row.statementDate);
    && row.credit
    && if row.statementDate.None? && row.statementBalance.None? then row.statementDay.Some? && row.paymentDueDay.Some?
       else
         && row.currentBalance.Some? && row.paymentDueDate.Some? && Before(row.paymentDueDate.value, today)
         && turn.Some? && TurnDay(row.paymentDueDay, row.paymentDueDate).Some?
         && (row.statementDate.Some? ==> forall t: Day :: LastTurn(turn.value, today, t) ==> Before(row.statementDate.value, t))
  }

  /** The statement it gets: closed on the last turn, due on the next due day, for today's debt less what was posted since the close. */
  ghost predicate Statement(row: CardRow, after: CardRow, transactions: seq<Transaction>, today: Day)
    requires row.Valid() && WorkedOut(row, today)
  {
    && after.derived && after.statementDate.Some? && after.paymentDueDate.Some?
    && LastTurn(TurnDay(row.statementDay, row.statementDate).value, today, after.statementDate.value)
    && NextTurn(TurnDay(row.paymentDueDay, row.paymentDueDate).value, after.statementDate.value, after.paymentDueDate.value)
    && (row.currentBalance.Some? ==>
          after.statementBalance == Some(row.currentBalance.value - PostedSince(transactions, row.id, after.statementDate.value, today)))
    && (row.currentBalance.None? ==> after.statementBalance == None)
    && after == row.(derived := true, statementDate := after.statementDate, paymentDueDate := after.paymentDueDate,
                     statementBalance := after.statementBalance)
  }

  lemma LastStatementIsLastTurn(day: int, today: Day, t: Day)
    requires day >= 1
    ensures LastTurn(day, today, t) <==> t == LastStatementDate(day, today)
  {
    hide LastStatementDate, CycleDay;
    forall u: Day
      ensures IsCycleDay(day, u) && AtMost(u, today) ==> AtMost(u, LastStatementDate(day, today))
    {
      LastStatementIsLatest(day, today, u);
    }
    LastStatementIsLatest(day, today, today);
  }

  lemma DueDateIsNextTurn(day: int, from: Day)
    requires day >= 1
    ensures NextTurn(day, from, DueDateAfter(from, day))
  {
    hide DueDateAfter, CycleDay;
    forall u: Day
      ensures IsCycleDay(day, u) && Before(from, u) ==> AtMost(DueDateAfter(from, day), u)
    {
      DueDateIsNext(from, day, u);
    }
    DueDateIsNext(from, day, from);
  }

  lemma WorkedOutIsDerivable(row: CardRow, today: Day)
    requires row.Valid()
    ensures WorkedOut(row, today) <==> row.Derivable(today)
  {
    hide LastStatementDate, LastTurn, Before;
    if row.CycleStatementDay().Some? {
      forall t: Day
        ensures LastTurn(row.CycleStatementDay().value, today, t) <==> t == LastStatementDate(row.CycleStatementDay().value, today)
      {
        LastStatementIsLastTurn(row.CycleStatementDay().value, today, t);
      }
    }
  }

  /** Every row of the list: a worked-out card gets its own statement, whatever the other cards are; any other row passes through. */
  lemma EachCardOnItsOwn(rows: seq<CardRow>, transactions: seq<Transaction>, today: Day, i: nat)
    requires (forall r :: r in rows ==> r.Valid()) && i < |rows|
    ensures var after := WithDerivedStatements(rows, transactions, today);
            && |after| == |rows| && rows[i] in rows
            && if WorkedOut(rows[i], today) then Statement(rows[i], after[i], transactions, today) else after[i] == rows[i].(derived := false)
  {
    assert rows[i] in rows;
    WorkedOutIsDerivable(rows[i], today);
    hide WorkedOut, LastTurn, NextTurn;
    if rows[i].Derivable(today) {
      ClosesCover(rows, transactions, today, i);
      StatementOf(rows[i], transactions, today);
    }
  }

  lemma ClosesCover(rows: seq<CardRow>, transactions: seq<Transaction>, today: Day, i: nat)
    requires (forall r :: r in rows ==> r.Valid()) && i < |rows| && rows[i].Valid() && rows[i].Derivable(today)
    ensures WithDerivedStatements(rows, transactions, today)[i]
            == Derive(rows[i], PostedSince(transactions, rows[i].id, rows[i].Close(today), today), today)
  {
    assert rows[i] in rows;
    var cards := Cards(rows, today);
    var k :| 0 <= k < |cards| && cards[k] == rows[i];
    assert Closes(cards, today)[k] == rows[i].Close(today);
    LeastIsLeast(Closes(cards, today), rows[i].Close(today));
    OneQueryIsEnough(transactions, Ids(cards), Earliest(cards, today), rows[i].id, rows[i].Close(today), today);
  }

  lemma StatementOf(row: CardRow, transactions: seq<Transaction>, today: Day)
    requires row.Valid() && row.Derivable(today)
    ensures WorkedOut(row, today) && Statement(row, Derive(row, PostedSince(transactions, row.id, row.Close(today), today), today), transactions, today)
  {
    WorkedOutIsDerivable(row, today);
    LastStatementIsLastTurn(row.CycleStatementDay().value, today, row.Close(today));
    DueDateIsNextTurn(row.CycleDueDay().value, row.Close(today));
    hide LastTurn, NextTurn, LastStatementDate, DueDateAfter, WorkedOut;
  }

  /** A worked-out statement is newer than the bank's, already closed, and due after its close. */
  lemma DerivedIsNewer(row: CardRow, sinceClose: int, today: Day)
    requires row.Valid() && row.Derivable(today)
    ensures var after := Derive(row, sinceClose, today);
            && (row.statementDate.Some? ==> Before(row.statementDate.value, after.statementDate.value))
            && AtMost(after.statementDate.value, today)
            && Before(after.statementDate.value, after.paymentDueDate.value)
  {
    LastStatementIsLatest(row.CycleStatementDay().value, today, today);
    DueDateIsNext(row.Close(today), row.CycleDueDay().value, today);
  }
}
