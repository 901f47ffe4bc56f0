/**
 One merchant's payments split into series by amount and same-day slot, and the names those series are read back
 from (src/modules/bills/recurring-engine.ts, splitSeriesSlot to splitByAmount).
 */
module SplitSeries {
  import opened Wrappers
  import opened Calendar
  import RecurringEngine

  type Day = RecurringEngine.Day

  // ------------------------------------------------------------------ numbers

  predicate IsDigit(c: char) {
    '0' <= c <= '9'
  }

  predicate AllDigits(s: string) {
    forall i :: 0 <= i < |s| ==> IsDigit(s[i])
  }

  function Digit(n: nat): (c: char)
    requires n < 10
    ensures IsDigit(c) && Value(c) == n
  {
    "0123456789"[n]
  }

  function Value(c: char): nat
    requires IsDigit(c)
  {
    c as int - '0' as int
  }

  function Print(n: nat): string {
    if n < 10 then [Digit(n)] else Print(n / 10) + [Digit(n % 10)]
  }

  function ParseNat(s: string): nat
    requires AllDigits(s)
  {
    if s == "" then 0 else 10 * ParseNat(s[..|s| - 1]) + Value(s[|s| - 1])
  }

  lemma {:induction false} PrintReadsBack(n: nat)
    ensures AllDigits(Print(n)) && Print(n) != "" && ParseNat(Print(n)) == n
  {
    if n >= 10 {
      PrintReadsBack(n / 10);
      assert Print(n)[..|Print(n)| - 1] == Print(n / 10);
    } else {
      assert Print(n)[..0] == "";
    }
  }

  // ------------------------------------------------------------------ names

  /** What `normalizeMerchant` leaves of a name, when it leaves anything. */
  predicate Normalised(key: string) {
    key != "" && forall i :: 0 <= i < |key| ==> 'a' <= key[i] <= 'z' || key[i] == ' '
  }

  function Pad2(n: nat): string
    requires n < 100
  {
    [Digit(n / 10), Digit(n % 10)]
  }

  function DollarsLabel(cents: nat): string {
    "$" + Print(cents / 100) + Cents(cents)
  }

  function Cents(cents: nat): string {
    if cents % 100 == 0 then "" else "." + Pad2(cents % 100)
  }

  function Base(key: string, cents: nat): string {
    key + " " + DollarsLabel(cents)
  }

  function CanonicalName(key: string, cents: nat, slot: nat, slots: nat): string {
    if slots == 1 then Base(key, cents) else Base(key, cents) + " " + Print(slot) + "/" + Print(slots)
  }

  /** What the names look like. */
  lemma NamesLookLike()
    ensures CanonicalName("acme", 1250, 2, 3) == "acme $12.50 2/3"
    ensures CanonicalName("acme", 5000, 1, 1) == "acme $50"
    ensures CanonicalName("acme", 5, 1, 1) == "acme $0.05"
  {
    assert Print(12) == Print(1) + [Digit(2)] == "12";
    assert Print(50) == Print(5) + [Digit(0)] == "50";
    assert Print(0) == "0" && Print(2) == "2" && Print(3) == "3";
  }

  /** The last dollar sign, or the length when there is none. */
  function LastDollar(s: string): (p: nat)
    ensures p < |s| ==> s[p] == '$'
  {
    if s == "" then 0
    else if s[|s| - 1] == '$' then |s| - 1
    else
      var p := LastDollar(s[..|s| - 1]);
      if p == |s| - 1 then |s| else p
  }

  /** The digits a string starts with: `\d+`, which never gives any back here. */
  function Digits(s: string): (r: string)
    ensures AllDigits(r) && r <= s
  {
    if s != "" && IsDigit(s[0]) then [s[0]] + Digits(s[1..]) else ""
  }

  predicate OneLine(s: string) {
    '\n' !in s && '\r' !in s && '\U{2028}' !in s && '\U{2029}' !in s
  }

  /** `(?:\.\d{2})?`: what is left after the cents. */
  function AfterCents(s: string): Option<string> {
    if s == "" || s[0] != '.' then Some(s)
    else if |s| >= 3 && IsDigit(s[1]) && IsDigit(s[2]) then Some(s[3..])
    else None
  }

  /** `^(.+ \$\d+(?:\.\d{2})?)`: what is left of a name after its amount, at its last dollar sign. */
  function AfterBase(name: string): Option<string> {
    var p := LastDollar(name);
    if p < 2 || p >= |name| || name[p - 1] != ' ' || !OneLine(name[..p - 1]) then None
    else
      var tail := name[p + 1..];
      if Digits(tail) == "" then None else AfterCents(tail[|Digits(tail)|..])
  }

  /** ` (\d+)\/(\d+)$`. */
  function SlotOf(rest: string): Option<(nat, nat)> {
    if rest == "" || rest[0] != ' ' then None
    else
      var slot := Digits(rest[1..]);
      var after := rest[1..][|slot|..];
      if slot == "" || after == "" || after[0] != '/' || after[1..] == "" || !AllDigits(after[1..]) then None
      else Some((ParseNat(slot), ParseNat(after[1..])))
  }

  datatype Slot = Slot(base: string, slot: nat, of: nat)

  /** The slot a series name ends in; `None` for any other bill. */
  function SplitSeriesSlot(name: string): Option<Slot> {
    match AfterBase(name)
    case None => None
    case Some(rest) =>
      match SlotOf(rest)
      case None => None
      case Some((slot, of)) => if |rest| <= |name| then Some(Slot(name[..|name| - |rest|], slot, of)) else None
  }

  lemma {:induction false} LastDollarOf(u: string, v: string)
    requires '$' !in v
    ensures LastDollar(u + "$" + v) == |u|
  {
    var s := u + "$" + v;
    if v != "" {
      assert s[..|s| - 1] == u + "$" + v[..|v| - 1];
      assert s[|s| - 1] == v[|v| - 1] && v[|v| - 1] in v;
      LastDollarOf(u, v[..|v| - 1]);
    }
  }

  lemma {:induction false} DigitsOf(x: string, y: string)
    requires AllDigits(x) && (y == "" || !IsDigit(y[0]))
    ensures Digits(x + y) == x && (x + y)[|x|..] == y
  {
    if x == "" {
      assert x + y == y;
    } else {
      assert (x + y)[1..] == x[1..] + y;
      DigitsOf(x[1..], y);
    }
  }

  lemma CentsAreSkipped(cents: nat, rest: string)
    requires rest == "" || rest[0] == ' '
    ensures AfterCents(Cents(cents) + rest) == Some(rest)
    ensures Cents(cents) + rest == "" || !IsDigit((Cents(cents) + rest)[0])
    ensures '$' !in Cents(cents)
  {
    if cents % 100 == 0 {
      assert Cents(cents) + rest == rest;
    } else {
      assert (Cents(cents) + rest)[3..] == rest;
    }
  }

  lemma Regroup(key: string, dollars: string, cents: string, rest: string)
    ensures key + " " + ("$" + dollars + cents) + rest == (key + " ") + "$" + (dollars + (cents + rest))
  {
  }

  lemma Tail(u: string, v: string)
    ensures (u + "$" + v)[|u| + 1..] == v && (u + "$" + v)[..|u|] == u
  {
  }

  /** What is left of a printed name after its amount, whatever follows it, if that starts with a space. */
  lemma BaseReadsBack(key: string, cents: nat, rest: string)
    requires Normalised(key) && '$' !in rest && (rest == "" || rest[0] == ' ')
    ensures AfterBase(Base(key, cents) + rest) == Some(rest)
  {
    var dollars := Print(cents / 100);
    PrintReadsBack(cents / 100);
    CentsAreSkipped(cents, rest);
    Regroup(key, dollars, Cents(cents), rest);
    var v := dollars + (Cents(cents) + rest);
    NoDollarIn(dollars, Cents(cents), rest);
    DigitsOf(dollars, Cents(cents) + rest);
    hide Print, Cents, AfterCents, AfterBase, Digits, AllDigits, Normalised;
    AtLastDollar(key, v);
  }

  lemma AtLastDollar(key: string, v: string)
    requires Normalised(key) && '$' !in v && Digits(v) != ""
    ensures AfterBase((key + " ") + "$" + v) == AfterCents(v[|Digits(v)|..])
  {
    hide Digits, AfterCents;
    var u := key + " ";
    var name := u + "$" + v;
    LastDollarOf(u, v);
    Tail(u, v);
    hide LastDollar;
    assert name[..|u| - 1] == u[..|u| - 1] == key && name[|u| - 1] == u[|u| - 1];
  }

  lemma NoDollarIn(dollars: string, cents: string, rest: string)
    requires AllDigits(dollars) && '$' !in cents && '$' !in rest
    ensures '$' !in dollars + (cents + rest)
  {
  }

  /** A printed slot is read back. */
  lemma SlotReadsBack(slot: nat, slots: nat)
    ensures SlotOf(" " + (Print(slot) + ("/" + Print(slots)))) == Some((slot, slots))
    ensures '$' !in " " + (Print(slot) + ("/" + Print(slots)))
  {
    PrintReadsBack(slot);
    PrintReadsBack(slots);
    hide Print;
    var after := "/" + Print(slots);
    DigitsOf(Print(slot), after);
    assert after[1..] == Print(slots);
    assert (" " + (Print(slot) + after))[1..] == Print(slot) + after;
    NoDollarIn(Print(slot), "/", Print(slots));
  }

  /** A printed name is read back: its base, slot and count, or nothing when there is one slot. */
  lemma NameReadsBack(key: string, cents: nat, slot: nat, slots: nat)
    requires Normalised(key) && 1 <= slot <= slots
    ensures SplitSeriesSlot(CanonicalName(key, cents, slot, slots))
            == if slots == 1 then None else Some(Slot(Base(key, cents), slot, slots))
  {
    hide Base, AfterBase, SlotOf, Print;
    var base := Base(key, cents);
    if slots == 1 {
      BaseReadsBack(key, cents, "");
      assert base + "" == base;
      assert SlotOf("") == None by { NoSlot(); }
    } else {
      var rest := " " + (Print(slot) + ("/" + Print(slots)));
      SlotReadsBack(slot, slots);
      BaseReadsBack(key, cents, rest);
      assert base + " " + Print(slot) + "/" + Print(slots) == base + rest;
      assert (base + rest)[..|base + rest| - |rest|] == base;
    }
  }

  lemma NoSlot()
    ensures SlotOf("") == None
  {
  }

  /** Different amounts are printed differently. */
  lemma LabelsDiffer(a: nat, b: nat)
    requires DollarsLabel(a) == DollarsLabel(b)
    ensures a == b
  {
    LabelReads(a);
    LabelReads(b);
    PrintReadsBack(a / 100);
    PrintReadsBack(b / 100);
    if a % 100 != 0 && b % 100 != 0 {
      assert Cents(a)[1] == Digit(a % 100 / 10) && Cents(b)[1] == Digit(b % 100 / 10);
      assert Cents(a)[2] == Digit(a % 100 % 10) && Cents(b)[2] == Digit(b % 100 % 10);
    }
  }

  lemma LabelReads(cents: nat)
    ensures Digits(DollarsLabel(cents)[1..]) == Print(cents / 100)
    ensures DollarsLabel(cents)[1..][|Print(cents / 100)|..] == Cents(cents)
  {
    PrintReadsBack(cents / 100);
    CentsAreSkipped(cents, "");
    assert Cents(cents) + "" == Cents(cents);
    DigitsOf(Print(cents / 100), Cents(cents));
    assert DollarsLabel(cents)[1..] == Print(cents / 100) + Cents(cents);
  }

  /** Two series of a merchant share a name exactly when their amounts agree up to sign, and their slots. */
  lemma NamesDiffer(key: string, a: nat, slotA: nat, slotsA: nat, b: nat, slotB: nat, slotsB: nat)
    requires Normalised(key) && 1 <= slotA <= slotsA && 1 <= slotB <= slotsB
    ensures CanonicalName(key, a, slotA, slotsA) == CanonicalName(key, b, slotB, slotsB)
            <==> a == b && slotA == slotB && slotsA == slotsB
  {
    if CanonicalName(key, a, slotA, slotsA) == CanonicalName(key, b, slotB, slotsB) {
      NameReadsBack(key, a, slotA, slotsA);
      NameReadsBack(key, b, slotB, slotsB);
      hide SplitSeriesSlot;
      assert Base(key, a) == Base(key, b);
      assert DollarsLabel(a) == Base(key, a)[|key| + 1..];
      LabelsDiffer(a, b);
    }
  }

  // ------------------------------------------------------------------ the split

  datatype Row = Row(id: nat, date: Day, amount: int)

  /** One series: an amount, a slot out of `of`, and its payments. */
  datatype Series = Series(amount: int, slot: nat, of: nat, rows: seq<Row>)

  function Abs(n: int): nat {
    if n < 0 then -n else n
  }

  function SeriesName(key: string, s: Series): string {
    CanonicalName(key, Abs(s.amount), s.slot, s.of)
  }

  function OfAmount(rows: seq<Row>, amount: int): seq<Row> {
    if rows == [] then []
    else
      var rest, last := OfAmount(rows[..|rows| - 1], amount), rows[|rows| - 1];
      if last.amount == amount then rest + [last] else rest
  }

  function OnDate(rows: seq<Row>, date: Day): seq<Row> {
    if rows == [] then []
    else
      var rest, last := OnDate(rows[..|rows| - 1], date), rows[|rows| - 1];
      if last.date == date then rest + [last] else rest
  }

  /** The amounts, and the dates, in the order they first appear. */
  function Amounts(rows: seq<Row>): seq<int> {
    if rows == [] then []
    else
      var before, a := Amounts(rows[..|rows| - 1]), rows[|rows| - 1].amount;
      if a in before then before else before + [a]
  }

  function Dates(rows: seq<Row>): seq<Day> {
    if rows == [] then []
    else
      var before, d := Dates(rows[..|rows| - 1]), rows[|rows| - 1].date;
      if d in before then before else before + [d]
  }

  /** The most payments one of these dates has. */
  function Busiest(rows: seq<Row>, dates: seq<Day>): (n: nat)
    ensures forall d :: d in dates ==> |OnDate(rows, d)| <= n
  {
    if dates == [] then 0
    else
      var before, day := Busiest(rows, dates[..|dates| - 1]), |OnDate(rows, dates[|dates| - 1])|;
      if before < day then day else before
  }

  /** Slot `index` (from 0): each date's payment of that rank, if it has one. */
  function SlotRows(rows: seq<Row>, dates: seq<Day>, index: nat): seq<Row> {
    if dates == [] then []
    else
      var before, day := SlotRows(rows, dates[..|dates| - 1], index), OnDate(rows, dates[|dates| - 1]);
      if index < |day| then before + [day[index]] else before
  }

  function SlotSeries(rows: seq<Row>, amount: int, slots: nat, n: nat): seq<Series>
    requires n <= slots
  {
    if n == 0 then []
    else SlotSeries(rows, amount, slots, n - 1) + [Series(amount, n, slots, SlotRows(rows, Dates(rows), n - 1))]
  }

  function AmountSeries(rows: seq<Row>, amount: int): seq<Series> {
    var slots := Busiest(rows, Dates(rows));
    SlotSeries(rows, amount, slots, slots)
  }

  function SeriesOf(group: seq<Row>, amounts: seq<int>): seq<Series> {
    if amounts == [] then []
    else
      var last := amounts[|amounts| - 1];
      SeriesOf(group, amounts[..|amounts| - 1]) + AmountSeries(OfAmount(group, last), last)
  }

  /** `splitByAmount`, less the labels. */
  function Split(group: seq<Row>): seq<Series> {
    SeriesOf(group, Amounts(group))
  }

  // ------------------------------------------------------------------ the loops

  method GroupByAmount(group: seq<Row>) returns (order: seq<int>, byAmount: map<int, seq<Row>>)
    ensures order == Amounts(group)
    ensures forall a :: a in order <==> a in byAmount
    ensures forall a :: a in byAmount ==> byAmount[a] == OfAmount(group, a)
  {
    order, byAmount := [], map[];
    for i := 0 to |group|
      invariant order == Amounts(group[..i])
      invariant forall a :: a in order <==> a in byAmount
      invariant forall a :: OfAmount(group[..i], a) == if a in byAmount then byAmount[a] else []
    {
      assert group[..i + 1][..i] == group[..i];
      var a := group[i].amount;
      if a !in order { order := order + [a]; }
      byAmount := byAmount[a := (if a in byAmount then byAmount[a] else []) + [group[i]]];
    }
    assert group[..|group|] == group;
  }

  method GroupByDate(rows: seq<Row>) returns (order: seq<Day>, byDate: map<Day, seq<Row>>)
    ensures order == Dates(rows)
    ensures forall d :: d in order <==> d in byDate
    ensures forall d :: d in byDate ==> byDate[d] == OnDate(rows, d)
  {
    order, byDate := [], map[];
    for i := 0 to |rows|
      invariant order == Dates(rows[..i])
      invariant forall d :: d in order <==> d in byDate
      invariant forall d :: OnDate(rows[..i], d) == if d in byDate then byDate[d] else []
    {
      assert rows[..i + 1][..i] == rows[..i];
      var d := rows[i].date;
      if d !in order { order := order + [d]; }
      byDate := byDate[d := (if d in byDate then byDate[d] else []) + [rows[i]]];
    }
    assert rows[..|rows|] == rows;
  }

  method SplitAmount(rows: seq<Row>, amount: int) returns (series: seq<Series>)
    ensures series == AmountSeries(rows, amount)
  {
    hide OnDate, Dates;
    var order, byDate := GroupByDate(rows);
    var slots := 0;
    for i := 0 to |order|
      invariant slots == Busiest(rows, order[..i])
    {
      assert order[..i + 1][..i] == order[..i] && order[i] in order;
      if slots < |byDate[order[i]]| { slots := |byDate[order[i]]|; }
    }
    assert order[..|order|] == order;
    series := [];
    for n := 0 to slots
      invariant series == SlotSeries(rows, amount, slots, n)
    {
      var mine: seq<Row> := [];
      for i := 0 to |order|
        invariant mine == SlotRows(rows, order[..i], n)
      {
        assert order[..i + 1][..i] == order[..i] && order[i] in order;
        if n < |byDate[order[i]]| { mine := mine + [byDate[order[i]][n]]; }
      }
      series := series + [Series(amount, n + 1, slots, mine)];
    }
  }

  method SplitByAmount(group: seq<Row>) returns (series: seq<Series>)
    ensures series == Split(group)
  {
    hide AmountSeries, Amounts, OfAmount;
    var order, byAmount := GroupByAmount(group);
    series := [];
    for i := 0 to |order|
      invariant series == SeriesOf(group, order[..i])
    {
      assert order[..i + 1][..i] == order[..i];
      var amount := order[i];
      assert amount in order;
      var mine := SplitAmount(byAmount[amount], amount);
      series := series + mine;
    }
    assert order[..|order|] == order;
  }

  // ------------------------------------------------------------------ every payment once

  function Payments(series: seq<Series>): multiset<Row> {
    if series == [] then multiset{} else Payments(series[..|series| - 1]) + multiset(series[|series| - 1].rows)
  }

  lemma {:induction false} PaymentsConcat(a: seq<Series>, b: seq<Series>)
    ensures Payments(a + b) == Payments(a) + Payments(b)
  {
    if b == [] {
      assert a + b == a;
    } else {
      assert (a + b)[..|a + b| - 1] == a + b[..|b| - 1];
      PaymentsConcat(a, b[..|b| - 1]);
    }
  }

  lemma {:induction false} DatesAre(rows: seq<Row>)
    ensures NoRepeats(Dates(rows)) && forall r :: r in rows ==> r.date in Dates(rows)
  {
    if rows != [] {
      DatesAre(rows[..|rows| - 1]);
      assert rows == rows[..|rows| - 1] + [rows[|rows| - 1]];
    }
  }

  lemma {:induction false} AmountsAre(rows: seq<Row>)
    ensures NoRepeats(Amounts(rows)) && forall r :: r in rows ==> r.amount in Amounts(rows)
  {
    if rows != [] {
      AmountsAre(rows[..|rows| - 1]);
      assert rows == rows[..|rows| - 1] + [rows[|rows| - 1]];
    }
  }

  /** The payments on none of these dates. */
  function Elsewhen(rows: seq<Row>, dates: seq<Day>): seq<Row> {
    if rows == [] then []
    else
      var rest, last := Elsewhen(rows[..|rows| - 1], dates), rows[|rows| - 1];
      if last.date in dates then rest else rest + [last]
  }

  lemma {:induction false} OneMoreDate(rows: seq<Row>, dates: seq<Day>, d: Day)
    requires d !in dates
    ensures multiset(Elsewhen(rows, dates)) == multiset(Elsewhen(rows, dates + [d])) + multiset(OnDate(rows, d))
  {
    if rows != [] { OneMoreDate(rows[..|rows| - 1], dates, d); }
  }

  lemma {:induction false} NoDates(rows: seq<Row>)
    ensures Elsewhen(rows, []) == rows
  {
    if rows != [] {
      NoDates(rows[..|rows| - 1]);
      assert rows == rows[..|rows| - 1] + [rows[|rows| - 1]];
    }
  }

  lemma {:induction false} AllDates(rows: seq<Row>, dates: seq<Day>)
    requires forall r :: r in rows ==> r.date in dates
    ensures Elsewhen(rows, dates) == []
  {
    if rows != [] { AllDates(rows[..|rows| - 1], dates); }
  }

  function Bag(rows: seq<Row>): multiset<Row> {
    multiset(rows)
  }

  /** The first `n` payments of each of these dates. */
  function FirstOfEach(rows: seq<Row>, dates: seq<Day>, n: nat): multiset<Row> {
    if n == 0 then multiset{} else FirstOfEach(rows, dates, n - 1) + Bag(SlotRows(rows, dates, n - 1))
  }

  function UpTo(rows: seq<Row>, n: nat): seq<Row> {
    if n <= |rows| then rows[..n] else rows
  }

  /** The payment of rank `k`, if there is one. */
  function At(rows: seq<Row>, k: nat): seq<Row> {
    if k < |rows| then [rows[k]] else []
  }

  lemma SlotRowsMore(rows: seq<Row>, dates: seq<Day>, d: Day, k: nat)
    ensures SlotRows(rows, dates + [d], k) == SlotRows(rows, dates, k) + At(OnDate(rows, d), k)
  {
    assert (dates + [d])[..|dates|] == dates;
    hide OnDate;
  }

  lemma UpToMore(rows: seq<Row>, n: nat)
    ensures UpTo(rows, n + 1) == UpTo(rows, n) + At(rows, n)
  {
  }

  lemma Shuffle(first: multiset<Row>, taken: multiset<Row>, slot: multiset<Row>, at: multiset<Row>)
    ensures (first + taken) + (slot + at) == (first + slot) + (taken + at)
  {
  }

  lemma Concat(a: seq<Row>, b: seq<Row>)
    ensures Bag(a + b) == Bag(a) + Bag(b)
  {
  }

  lemma NextOfEach(rows: seq<Row>, dates: seq<Day>, n: nat)
    ensures FirstOfEach(rows, dates, n + 1) == FirstOfEach(rows, dates, n) + Bag(SlotRows(rows, dates, n))
  {
    hide SlotRows;
  }

  lemma NoneOfEach(rows: seq<Row>, dates: seq<Day>, d: Day)
    ensures FirstOfEach(rows, dates + [d], 0) == FirstOfEach(rows, dates, 0) + Bag(UpTo(OnDate(rows, d), 0))
  {
    assert UpTo(OnDate(rows, d), 0) == [];
  }

  lemma OneMoreRank(rows: seq<Row>, dates: seq<Day>, d: Day, k: nat)
    requires FirstOfEach(rows, dates + [d], k) == FirstOfEach(rows, dates, k) + Bag(UpTo(OnDate(rows, d), k))
    ensures FirstOfEach(rows, dates + [d], k + 1) == FirstOfEach(rows, dates, k + 1) + Bag(UpTo(OnDate(rows, d), k + 1))
  {
    hide OnDate, SlotRows, At, FirstOfEach, UpTo, Bag;
    var day, slot := OnDate(rows, d), SlotRows(rows, dates, k);
    NextOfEach(rows, dates + [d], k);
    NextOfEach(rows, dates, k);
    SlotRowsMore(rows, dates, d, k);
    Concat(slot, At(day, k));
    UpToMore(day, k);
    Concat(UpTo(day, k), At(day, k));
    Shuffle(FirstOfEach(rows, dates, k), Bag(UpTo(day, k)), Bag(slot), Bag(At(day, k)));
  }

  lemma FirstOfOneMore(rows: seq<Row>, dates: seq<Day>, d: Day, n: nat)
    ensures FirstOfEach(rows, dates + [d], n) == FirstOfEach(rows, dates, n) + Bag(UpTo(OnDate(rows, d), n))
  {
    hide OnDate, FirstOfEach, UpTo, Bag;
    NoneOfEach(rows, dates, d);
    for k := 0 to n
      invariant FirstOfEach(rows, dates + [d], k) == FirstOfEach(rows, dates, k) + Bag(UpTo(OnDate(rows, d), k))
    {
      OneMoreRank(rows, dates, d, k);
    }
  }

  lemma {:induction false} FirstOfNoDates(rows: seq<Row>, n: nat)
    ensures FirstOfEach(rows, [], n) == multiset{}
  {
    if n > 0 { FirstOfNoDates(rows, n - 1); }
  }

  /** Taking as many as the busiest date has takes everything on these dates. */
  lemma {:induction false} SlotsHoldAll(rows: seq<Row>, dates: seq<Day>, n: nat)
    requires NoRepeats(dates) && forall d :: d in dates ==> |OnDate(rows, d)| <= n
    ensures FirstOfEach(rows, dates, n) + multiset(Elsewhen(rows, dates)) == multiset(rows)
  {
    if dates == [] {
      NoDates(rows);
      FirstOfNoDates(rows, n);
    } else {
      var front, d := dates[..|dates| - 1], dates[|dates| - 1];
      assert dates == front + [d];
      SlotsHoldAll(rows, front, n);
      OneMoreDate(rows, front, d);
      FirstOfOneMore(rows, front, d, n);
      assert UpTo(OnDate(rows, d), n) == OnDate(rows, d);
    }
  }

  lemma {:induction false} SlotPayments(rows: seq<Row>, amount: int, slots: nat, n: nat)
    requires n <= slots
    ensures Payments(SlotSeries(rows, amount, slots, n)) == FirstOfEach(rows, Dates(rows), n)
  {
    if n > 0 {
      SlotPayments(rows, amount, slots, n - 1);
      var series := SlotSeries(rows, amount, slots, n);
      assert series[..|series| - 1] == SlotSeries(rows, amount, slots, n - 1);
    }
  }

  lemma AmountPayments(rows: seq<Row>, amount: int)
    ensures Payments(AmountSeries(rows, amount)) == multiset(rows)
  {
    var slots := Busiest(rows, Dates(rows));
    SlotPayments(rows, amount, slots, slots);
    DatesAre(rows);
    SlotsHoldAll(rows, Dates(rows), slots);
    AllDates(rows, Dates(rows));
  }

  /** The payments of none of these amounts. */
  function Otherwise(rows: seq<Row>, amounts: seq<int>): seq<Row> {
    if rows == [] then []
    else
      var rest, last := Otherwise(rows[..|rows| - 1], amounts), rows[|rows| - 1];
      if last.amount in amounts then rest else rest + [last]
  }

  lemma {:induction false} OneMoreAmount(rows: seq<Row>, amounts: seq<int>, a: int)
    requires a !in amounts
    ensures multiset(Otherwise(rows, amounts)) == multiset(Otherwise(rows, amounts + [a])) + multiset(OfAmount(rows, a))
  {
    if rows != [] { OneMoreAmount(rows[..|rows| - 1], amounts, a); }
  }

  lemma {:induction false} NoAmounts(rows: seq<Row>)
    ensures Otherwise(rows, []) == rows
  {
    if rows != [] {
      NoAmounts(rows[..|rows| - 1]);
      assert rows == rows[..|rows| - 1] + [rows[|rows| - 1]];
    }
  }

  lemma {:induction false} AllAmounts(rows: seq<Row>, amounts: seq<int>)
    requires forall r :: r in rows ==> r.amount in amounts
    ensures Otherwise(rows, amounts) == []
  {
    if rows != [] { AllAmounts(rows[..|rows| - 1], amounts); }
  }

  lemma {:induction false} SeriesHoldAll(group: seq<Row>, amounts: seq<int>)
    requires NoRepeats(amounts)
    ensures Payments(SeriesOf(group, amounts)) + multiset(Otherwise(group, amounts)) == multiset(group)
  {
    if amounts == [] {
      NoAmounts(group);
    } else {
      var front, a := amounts[..|amounts| - 1], amounts[|amounts| - 1];
      assert amounts == front + [a];
      SeriesHoldAll(group, front);
      OneMoreAmount(group, front, a);
      AmountPayments(OfAmount(group, a), a);
      PaymentsConcat(SeriesOf(group, front), AmountSeries(OfAmount(group, a), a));
    }
  }

  /** Splitting loses no payment and repeats none. */
  lemma SplitPartitions(group: seq<Row>)
    ensures Payments(Split(group)) == multiset(group)
  {
    AmountsAre(group);
    SeriesHoldAll(group, Amounts(group));
    AllAmounts(group, Amounts(group));
  }

  // ------------------------------------------------------------------ the shape of a series

  lemma {:induction false} OnDateMeans(rows: seq<Row>, d: Day)
    ensures forall r :: r in OnDate(rows, d) ==> r in rows && r.date == d
  {
    if rows != [] {
      OnDateMeans(rows[..|rows| - 1], d);
      assert rows == rows[..|rows| - 1] + [rows[|rows| - 1]];
    }
  }

  lemma {:induction false} OfAmountMeans(rows: seq<Row>, a: int)
    ensures forall r :: r in OfAmount(rows, a) ==> r in rows && r.amount == a
  {
    if rows != [] {
      OfAmountMeans(rows[..|rows| - 1], a);
      assert rows == rows[..|rows| - 1] + [rows[|rows| - 1]];
    }
  }

  /** A slot has at most one payment on a date: those dates with more payments than its index, in order. */
  lemma {:induction false} SlotMeans(rows: seq<Row>, dates: seq<Day>, index: nat)
    requires NoRepeats(dates)
    ensures forall r :: r in SlotRows(rows, dates, index) ==> r in rows && r.date in dates && index < |OnDate(rows, r.date)|
    ensures forall d :: d in dates && index < |OnDate(rows, d)| ==> exists r :: r in SlotRows(rows, dates, index) && r.date == d
    ensures forall i, j :: 0 <= i < j < |SlotRows(rows, dates, index)| ==>
              SlotRows(rows, dates, index)[i].date != SlotRows(rows, dates, index)[j].date
  {
    if dates != [] {
      var front, d := dates[..|dates| - 1], dates[|dates| - 1];
      assert dates == front + [d];
      SlotMeans(rows, front, index);
      OnDateMeans(rows, d);
      hide OnDate;
      var before, slot := SlotRows(rows, front, index), SlotRows(rows, dates, index);
      assert forall i :: 0 <= i < |before| ==> before[i] in before;
      forall e | e in dates && index < |OnDate(rows, e)|
        ensures exists r :: r in slot && r.date == e
      {
        if e in front {
          var r :| r in before && r.date == e;
          assert r in slot;
        } else {
          assert OnDate(rows, d)[index] in slot;
        }
      }
    }
  }

  /** What one series holds. */
  ghost predicate Fits(s: Series) {
    && 1 <= s.slot <= s.of
    && (forall r :: r in s.rows ==> r.amount == s.amount)
    && (forall i, j :: 0 <= i < j < |s.rows| ==> s.rows[i].date != s.rows[j].date)
  }

  lemma SlotFits(rows: seq<Row>, amount: int, slots: nat, n: nat)
    requires 1 <= n <= slots && forall r :: r in rows ==> r.amount == amount
    ensures Fits(Series(amount, n, slots, SlotRows(rows, Dates(rows), n - 1)))
  {
    hide SlotRows, Dates, OnDate;
    DatesAre(rows);
    SlotMeans(rows, Dates(rows), n - 1);
  }

  lemma {:induction false} SlotSeriesFit(rows: seq<Row>, amount: int, slots: nat, n: nat)
    requires n <= slots && forall r :: r in rows ==> r.amount == amount
    ensures forall s :: s in SlotSeries(rows, amount, slots, n) ==>
              Fits(s) && s.amount == amount && s.of == slots && s.slot <= n && s.rows == SlotRows(rows, Dates(rows), s.slot - 1)
  {
    if n > 0 {
      hide SlotRows, Dates, Fits;
      SlotSeriesFit(rows, amount, slots, n - 1);
      SlotFits(rows, amount, slots, n);
    }
  }

  lemma {:induction false} SeriesFit(group: seq<Row>, amounts: seq<int>)
    ensures forall s :: s in SeriesOf(group, amounts) ==>
              Fits(s) && s.amount in amounts && s.rows == SlotRows(OfAmount(group, s.amount), Dates(OfAmount(group, s.amount)), s.slot - 1)
  {
    if amounts != [] {
      var front, a := amounts[..|amounts| - 1], amounts[|amounts| - 1];
      assert amounts == front + [a];
      SeriesFit(group, front);
      OfAmountMeans(group, a);
      var rows := OfAmount(group, a);
      SlotSeriesFit(rows, a, Busiest(rows, Dates(rows)), Busiest(rows, Dates(rows)));
      hide Fits, SlotRows, OfAmount, Dates, SlotSeries;
    }
  }

  /** Each series has one amount and one payment a day, and a later slot's dates are among an earlier slot's. */
  lemma SplitShape(group: seq<Row>, s: Series, later: Series)
    requires s in Split(group) && later in Split(group) && s.amount == later.amount && s.slot <= later.slot
    ensures Fits(s)
    ensures forall r :: r in later.rows ==> exists q :: q in s.rows && q.date == r.date
  {
    hide SeriesOf, Amounts, OfAmount, Dates, SlotRows, OnDate;
    SeriesFit(group, Amounts(group));
    var rows := OfAmount(group, s.amount);
    DatesAre(rows);
    SlotMeans(rows, Dates(rows), s.slot - 1);
    SlotMeans(rows, Dates(rows), later.slot - 1);
  }

  /** The series of one merchant are told apart by their names, up to the sign of the amount. */
  lemma SeriesNames(key: string, group: seq<Row>, s: Series, t: Series)
    requires Normalised(key) && s in Split(group) && t in Split(group)
    ensures SeriesName(key, s) == SeriesName(key, t) <==> Abs(s.amount) == Abs(t.amount) && s.slot == t.slot && s.of == t.of
    ensures SplitSeriesSlot(SeriesName(key, s)) == if s.of == 1 then None else Some(Slot(Base(key, Abs(s.amount)), s.slot, s.of))
  {
    SeriesFit(group, Amounts(group));
    hide CanonicalName, SplitSeriesSlot, Normalised;
    NamesDiffer(key, Abs(s.amount), s.slot, s.of, Abs(t.amount), t.slot, t.of);
    NameReadsBack(key, Abs(s.amount), s.slot, s.of);
  }

  /** A purchase and a paycheck of the same amount from one merchant are two series under one name. */
  lemma PaycheckSharesName(key: string, day: Day)
    ensures var bought, earned := Row(0, day, 5000), Row(1, day, -5000);
            var split := Split([bought, earned]);
            && split == [Series(5000, 1, 1, [bought]), Series(-5000, 1, 1, [earned])]
            && SeriesName(key, split[0]) == SeriesName(key, split[1])
  {
    var bought, earned := Row(0, day, 5000), Row(1, day, -5000);
    var group := [bought, earned];
    hide CanonicalName;
    assert group[..1] == [bought] && group[..1][..0] == [];
    assert OfAmount([bought], 5000) == [bought] && OfAmount([bought], -5000) == [];
    assert OfAmount(group, 5000) == [bought] && OfAmount(group, -5000) == [earned];
    assert Amounts([bought]) == [5000] && Amounts(group) == [5000, -5000];
    OneSeries(bought);
    OneSeries(earned);
    assert SeriesOf(group, [5000, -5000][..1]) == AmountSeries([bought], 5000) by { assert [5000, -5000][..1] == [5000] && [5000][..0] == []; }
  }

  lemma OneSeries(r: Row)
    ensures AmountSeries([r], r.amount) == [Series(r.amount, 1, 1, [r])]
  {
    assert [r][..0] == [];
    assert OnDate([r], r.date) == [r];
    assert Dates([r]) == [r.date] && [r.date][..0] == [];
    assert Busiest([r], [r.date][..0]) == 0 && Busiest([r], [r.date]) == 1;
    assert SlotRows([r], [r.date], 0) == [] + [r];
    assert SlotSeries([r], r.amount, 1, 0) == [];
    assert SlotSeries([r], r.amount, 1, 1) == [] + [Series(r.amount, 1, 1, [r])];
  }
}
