/** Collections and subscription payments settled against the gateway's word
    (packages/mcp-payments/src/tools.ts, billing.ts). Calls do not overlap. */
module Settlement {
  import opened OptionType

  datatype GatewayStatus = CompletedG | PendingG | InitiatedG | RefundedG | PartlyRefundedG | ExpiredG | CanceledG

  datatype Lookup = Lookup(total: int, status: GatewayStatus, transaction: Option<string>)

  datatype PayStatus = Initiated | Completed | Refunded | Expired | Canceled | AmountMismatch

  // ---------------------------------------------------------------- a customer's payment

  /** `sale` is the exactly-once latch. */
  datatype PayRow = PayRow(amount: nat, status: PayStatus, transaction: Option<string>, sale: Option<nat>)

  datatype GatewaySale = GatewaySale(excl: int, vat: int)

  /** The payment's row and the confirmed gateway sales booked for it. */
  datatype Desk = Desk(row: PayRow, sales: seq<GatewaySale>)

  datatype Reply = Mismatch | AlreadyRecorded(sale: nat) | Recorded(sale: nat) | NotCompleted | RefundRequested | CannotRefund

  datatype Call = Verify(l: Lookup) | Refund

  /** `divRoundHalfUp(total * 10000, 11300)`: the taxable part of a VAT-inclusive amount. */
  function Excl(total: nat): nat { (2 * total * 10000 + 11300) / (2 * 11300) }

  function SaleOf(amount: nat): (s: GatewaySale)
    ensures s.excl + s.vat == amount
  {
    GatewaySale(Excl(amount), amount - Excl(amount))
  }

  /** `None` for a state that may still change. */
  function RowStatusFor(s: GatewayStatus): Option<PayStatus> {
    match s
    case CompletedG => Some(Completed)
    case RefundedG => Some(Refunded)
    case PartlyRefundedG => Some(Refunded)
    case ExpiredG => Some(Expired)
    case CanceledG => Some(Canceled)
    case _ => None
  }

  /** One call of `settlePayment` or `refund_payment`. The completing UPDATE asks for `status = 'initiated'`. */
  function Do(d: Desk, c: Call): Desk {
    match c
    case Refund =>
      if d.row.status == Completed && d.row.transaction.Some? then d.(row := d.row.(status := Refunded)) else d
    case Verify(l) =>
      if l.total != d.row.amount then d.(row := d.row.(status := AmountMismatch))
      else if l.status == CompletedG then
        if d.row.sale.Some? then d
        else Desk(if d.row.status == Initiated
                  then d.row.(status := Completed, transaction := l.transaction, sale := Some(|d.sales|)) else d.row,
                  d.sales + [SaleOf(d.row.amount)])
      else if RowStatusFor(l.status).Some? && d.row.status == Initiated then d.(row := d.row.(status := RowStatusFor(l.status).value))
      else d
  }

  function Play(d: Desk, calls: seq<Call>): Desk
    decreases |calls|
  {
    if calls == [] then d else Play(Do(d, calls[0]), calls[1..])
  }

  function Opened(amount: nat): Desk { Desk(PayRow(amount, Initiated, None, None), []) }

  class Collection {
    var row: PayRow
    var sales: seq<GatewaySale>

    constructor (amount: nat)
      ensures Desk(row, sales) == Opened(amount)
    {
      row, sales := PayRow(amount, Initiated, None, None), [];
    }

    method SettlePayment(l: Lookup) returns (r: Reply)
      modifies this
      ensures Desk(row, sales) == Do(old(Desk(row, sales)), Verify(l))
      ensures r.Recorded? <==> |sales| == |old(sales)| + 1
      ensures r.Recorded? ==> r.sale == |old(sales)| && sales[r.sale].excl + sales[r.sale].vat == row.amount
    {
      if l.total != row.amount {
        row := row.(status := AmountMismatch);
        return Mismatch;
      }
      if l.status == CompletedG {
        if row.sale.Some? { return AlreadyRecorded(row.sale.value); }
        var id := |sales|;
        sales := sales + [SaleOf(row.amount)];
        if row.status == Initiated {
          row := row.(status := Completed, transaction := l.transaction, sale := Some(id));
        }
        return Recorded(id);
      }
      var terminal := RowStatusFor(l.status);
      if terminal.Some? && row.status == Initiated {
        row := row.(status := terminal.value);
      }
      return NotCompleted;
    }

    method RefundPayment() returns (r: Reply)
      modifies this
      ensures Desk(row, sales) == Do(old(Desk(row, sales)), Refund) && sales == old(sales)
      ensures r == if old(row).status == Completed && old(row).transaction.Some? then RefundRequested else CannotRefund
    {
      if row.status != Completed || row.transaction.None? { return CannotRefund; }
      row := row.(status := Refunded);
      return RefundRequested;
    }
  }

  // ---------------------------------------------------------------- how often a sale is booked

  /** The call finds the payment completed at the gateway with the amount we asked for. */
  predicate Completes(amount: nat, c: Call) { c.Verify? && c.l.total == amount && c.l.status == CompletedG }

  predicate GivenUp(s: GatewayStatus) { s != CompletedG && RowStatusFor(s).Some? }

  /** The call moves a row that is still open somewhere else. */
  predicate Spoils(amount: nat, c: Call) {
    c.Verify? && (c.l.total != amount || GivenUp(c.l.status))
  }

  function Completions(amount: nat, calls: seq<Call>): nat
    decreases |calls|
  {
    if calls == [] then 0 else (if Completes(amount, calls[0]) then 1 else 0) + Completions(amount, calls[1..])
  }

  /** Once the row has left `initiated` without a sale, nothing latches any more: every completed lookup books one. */
  function Booked(amount: nat, calls: seq<Call>): nat
    decreases |calls|
  {
    if calls == [] then 0
    else if Completes(amount, calls[0]) then 1
    else if Spoils(amount, calls[0]) then Completions(amount, calls[1..])
    else Booked(amount, calls[1..])
  }

  lemma {:induction false} LatchedStays(d: Desk, calls: seq<Call>)
    requires d.row.sale.Some? && d.row.status != Initiated
    ensures Play(d, calls).sales == d.sales && Play(d, calls).row.sale == d.row.sale
    decreases |calls|
  {
    if calls != [] { LatchedStays(Do(d, calls[0]), calls[1..]); }
  }

  lemma {:induction false} UnlatchedBooks(d: Desk, calls: seq<Call>)
    requires d.row.sale.None? && d.row.status != Initiated && d.row.status != Completed
    ensures |Play(d, calls).sales| == |d.sales| + Completions(d.row.amount, calls) && Play(d, calls).row.sale.None?
    decreases |calls|
  {
    if calls != [] { UnlatchedBooks(Do(d, calls[0]), calls[1..]); }
  }

  lemma {:induction false} OpenBooks(d: Desk, calls: seq<Call>)
    requires d.row.sale.None? && d.row.status == Initiated && d.sales == []
    ensures |Play(d, calls).sales| == Booked(d.row.amount, calls)
    decreases |calls|
  {
    if calls != [] {
      var d' := Do(d, calls[0]);
      if Completes(d.row.amount, calls[0]) { LatchedStays(d', calls[1..]); }
      else if Spoils(d.row.amount, calls[0]) { UnlatchedBooks(d', calls[1..]); }
      else { OpenBooks(d', calls[1..]); }
    }
  }

  /** For every sequence of calls, exactly how many sales a payment gets. */
  lemma SalesBooked(amount: nat, calls: seq<Call>)
    ensures |Play(Opened(amount), calls).sales| == Booked(amount, calls)
  {
    OpenBooks(Opened(amount), calls);
  }

  /** The gateway always reports one amount, and a payment it gave up on never completes afterwards. */
  predicate Steady(calls: seq<Call>) {
    && (forall i, j :: 0 <= i < j < |calls| && calls[i].Verify? && calls[j].Verify? ==> calls[i].l.total == calls[j].l.total)
    && (forall i, j :: 0 <= i < j < |calls| && calls[i].Verify? && calls[j].Verify? && GivenUp(calls[i].l.status) ==>
          calls[j].l.status != CompletedG)
  }

  lemma {:induction false} CompletionsSome(amount: nat, calls: seq<Call>)
    ensures Completions(amount, calls) > 0 <==> exists i :: 0 <= i < |calls| && Completes(amount, calls[i])
    decreases |calls|
  {
    if calls != [] {
      CompletionsSome(amount, calls[1..]);
      if i :| 0 <= i < |calls| && Completes(amount, calls[i]) { if i > 0 { assert Completes(amount, calls[1..][i-1]); } }
      if i :| 0 <= i < |calls[1..]| && Completes(amount, calls[1..][i]) { assert Completes(amount, calls[i+1]); }
    }
  }

  lemma {:induction false} SteadyBooked(amount: nat, calls: seq<Call>)
    requires Steady(calls)
    ensures Booked(amount, calls) == if exists i :: 0 <= i < |calls| && Completes(amount, calls[i]) then 1 else 0
    decreases |calls|
  {
    if calls != [] {
      var rest := calls[1..];
      assert Steady(rest) by { assert forall i :: 0 <= i < |rest| ==> rest[i] == calls[i+1]; }
      if Completes(amount, calls[0]) {}
      else if Spoils(amount, calls[0]) {
        CompletionsSome(amount, rest);
        assert forall i :: 0 <= i < |rest| ==> rest[i] == calls[i+1];
      } else {
        SteadyBooked(amount, rest);
        if i :| 0 <= i < |calls| && Completes(amount, calls[i]) { assert rest[i-1] == calls[i]; }
        if i :| 0 <= i < |rest| && Completes(amount, rest[i]) { assert calls[i+1] == rest[i]; }
      }
    }
  }

  lemma {:induction false} LatchAgrees(d: Desk, calls: seq<Call>)
    requires d.row.sale.None? && d.row.status == Initiated && d.sales == [] && Steady(calls)
    ensures var e := Play(d, calls); e.row.sale == if e.sales == [] then None else Some(0)
    decreases |calls|
  {
    if calls != [] {
      var d', rest := Do(d, calls[0]), calls[1..];
      assert forall i :: 0 <= i < |rest| ==> rest[i] == calls[i+1];
      if Completes(d.row.amount, calls[0]) { LatchedStays(d', rest); }
      else if Spoils(d.row.amount, calls[0]) {
        UnlatchedBooks(d', rest);
        CompletionsSome(d.row.amount, rest);
      } else {
        LatchAgrees(d', rest);
      }
    }
  }

  /** With a steady gateway a payment gets at most one sale, gets it exactly when some call saw it completed with the
      right amount, and the row's latch names it. */
  lemma SettledOnce(amount: nat, calls: seq<Call>)
    requires Steady(calls)
    ensures
      var e := Play(Opened(amount), calls);
      && |e.sales| == (if exists i :: 0 <= i < |calls| && Completes(amount, calls[i]) then 1 else 0)
      && e.row.sale == (if e.sales == [] then None else Some(0))
  {
    SalesBooked(amount, calls);
    SteadyBooked(amount, calls);
    LatchAgrees(Opened(amount), calls);
  }

  /** Without that, it can be booked twice: expired once, then found completed by two calls. */
  lemma BookedTwice()
    ensures
      var paid := Verify(Lookup(100, CompletedG, Some("t")));
      |Play(Opened(100), [Verify(Lookup(100, ExpiredG, None)), paid, paid]).sales| == 2
  {
    var paid := Verify(Lookup(100, CompletedG, Some("t")));
    var calls := [Verify(Lookup(100, ExpiredG, None)), paid, paid];
    SalesBooked(100, calls);
    assert calls[1..] == [paid, paid] && [paid, paid][1..] == [paid] && [paid][1..] == [];
    assert Completions(100, [paid]) == 1;
  }

  // ---------------------------------------------------------------- a subscription payment

  datatype SubStatus = Trial | Active | PastDue | Suspended | Cancelled

  datatype Subscription = Subscription(plan: string, status: SubStatus, periodEnd: int)

  datatype BillRow = BillRow(amount: nat, plan: string, status: PayStatus, periodEnd: Option<int>)

  /** The business' subscription, the billing row, and the receipt if one was queued (its key is the payment's). */
  datatype Account = Account(sub: Option<Subscription>, row: BillRow, receipt: bool, credits: nat)

  /** `renew`: a month from the later of the period's end and today; `None` when the subscription was cancelled. */
  function Renew(nextMonth: int -> int, s: Option<Subscription>, plan: string, today: int): Option<Subscription> {
    if s.None? then Some(Subscription(plan, Active, nextMonth(today)))
    else if s.value.status == Cancelled then None
    else Some(Subscription(plan, Active, nextMonth(if s.value.periodEnd > today then s.value.periodEnd else today)))
  }

  /** `settleSubscriptionPayment`; a cancelled subscription makes it throw, and the transaction leaves nothing behind. */
  function Credit(nextMonth: int -> int, a: Account, l: Lookup, today: int): Account {
    if l.total != a.row.amount then a.(row := a.row.(status := AmountMismatch))
    else if l.status == CompletedG then
      if a.row.status == Completed && a.row.periodEnd.Some? then a
      else
        match Renew(nextMonth, a.sub, a.row.plan, today)
        case None => a
        case Some(next) =>
          Account(Some(next), if a.row.status == Initiated then a.row.(status := Completed, periodEnd := Some(next.periodEnd)) else a.row,
                  true, a.credits + 1)
    else if (l.status == ExpiredG || l.status == CanceledG) && a.row.status == Initiated then
      a.(row := a.row.(status := if l.status == ExpiredG then Expired else Canceled))
    else a
  }

  function Bill(nextMonth: int -> int, a: Account, calls: seq<(Lookup, int)>): Account
    decreases |calls|
  {
    if calls == [] then a else Bill(nextMonth, Credit(nextMonth, a, calls[0].0, calls[0].1), calls[1..])
  }

  class Billing {
    const nextMonth: int -> int
    var account: Account

    constructor (nextMonth: int -> int, account: Account)
      ensures this.nextMonth == nextMonth && this.account == account
    {
      this.nextMonth, this.account := nextMonth, account;
    }

    /** `None` is the exception a cancelled subscription raises. */
    method SettleSubscription(l: Lookup, today: int) returns (credited: Option<bool>)
      modifies this
      ensures account == Credit(nextMonth, old(account), l, today)
      ensures credited == Some(true) <==> account.credits == old(account).credits + 1
      ensures credited.None? ==> account == old(account)
    {
      if l.total != account.row.amount {
        account := account.(row := account.row.(status := AmountMismatch));
        return Some(false);
      }
      if l.status == CompletedG {
        if account.row.status == Completed && account.row.periodEnd.Some? { return Some(false); }
        var next := Renew(nextMonth, account.sub, account.row.plan, today);
        if next.None? { return None; }
        account := account.(sub := next);
        if account.row.status == Initiated {
          account := account.(row := account.row.(status := Completed, periodEnd := Some(next.value.periodEnd)));
        }
        account := account.(receipt := true, credits := account.credits + 1);
        return Some(true);
      }
      if account.row.status == Initiated {
        if l.status == ExpiredG { account := account.(row := account.row.(status := Expired)); }
        if l.status == CanceledG { account := account.(row := account.row.(status := Canceled)); }
      }
      return Some(false);
    }
  }

  predicate Paid(amount: nat, l: Lookup) { l.total == amount && l.status == CompletedG }

  /** One amount throughout, and nothing completes after it expired or was canceled. */
  predicate SteadyBills(calls: seq<(Lookup, int)>) {
    && (forall i, j :: 0 <= i < j < |calls| ==> calls[i].0.total == calls[j].0.total)
    && (forall i, j :: 0 <= i < j < |calls| && (calls[i].0.status == ExpiredG || calls[i].0.status == CanceledG) ==> calls[j].0.status != CompletedG)
  }

  predicate Renewable(a: Account) { a.sub.None? || a.sub.value.status != Cancelled }

  lemma {:induction false} CreditedStays(nextMonth: int -> int, a: Account, calls: seq<(Lookup, int)>)
    requires a.row.status == Completed && a.row.periodEnd.Some?
    requires forall i :: 0 <= i < |calls| ==> calls[i].0.total == a.row.amount
    ensures Bill(nextMonth, a, calls) == a
    decreases |calls|
  {
    if calls != [] { CreditedStays(nextMonth, Credit(nextMonth, a, calls[0].0, calls[0].1), calls[1..]); }
  }

  lemma {:induction false} NeverPaid(nextMonth: int -> int, a: Account, calls: seq<(Lookup, int)>)
    requires forall i :: 0 <= i < |calls| ==> !Paid(a.row.amount, calls[i].0)
    ensures Bill(nextMonth, a, calls).credits == a.credits && Bill(nextMonth, a, calls).sub == a.sub
    ensures a.row.periodEnd.None? ==> Bill(nextMonth, a, calls).row.periodEnd.None?
    decreases |calls|
  {
    if calls != [] { NeverPaid(nextMonth, Credit(nextMonth, a, calls[0].0, calls[0].1), calls[1..]); }
  }

  /** Calls that find the payment paid in full. */
  function PaidCalls(amount: nat, calls: seq<(Lookup, int)>): nat
    decreases |calls|
  {
    if calls == [] then 0 else (if Paid(amount, calls[0].0) then 1 else 0) + PaidCalls(amount, calls[1..])
  }

  /** Calls that credit once more after the payment was latched: those that find it paid behind one that found another
      amount. */
  function AfterLatch(amount: nat, calls: seq<(Lookup, int)>): nat
    decreases |calls|
  {
    if calls == [] then 0
    else if calls[0].0.total != amount then PaidCalls(amount, calls[1..])
    else AfterLatch(amount, calls[1..])
  }

  function Months(amount: nat, calls: seq<(Lookup, int)>): nat
    decreases |calls|
  {
    if calls == [] then 0
    else
      var l := calls[0].0;
      if Paid(amount, l) then 1 + AfterLatch(amount, calls[1..])
      else if l.total != amount || l.status == ExpiredG || l.status == CanceledG then PaidCalls(amount, calls[1..])
      else Months(amount, calls[1..])
  }

  lemma {:induction false} SpoiledCredits(nextMonth: int -> int, a: Account, calls: seq<(Lookup, int)>)
    requires Renewable(a) && a.row.status != Initiated && a.row.status != Completed
    ensures Bill(nextMonth, a, calls).credits == a.credits + PaidCalls(a.row.amount, calls)
    decreases |calls|
  {
    if calls != [] { SpoiledCredits(nextMonth, Credit(nextMonth, a, calls[0].0, calls[0].1), calls[1..]); }
  }

  lemma {:induction false} LatchedCredits(nextMonth: int -> int, a: Account, calls: seq<(Lookup, int)>)
    requires Renewable(a) && a.row.status == Completed && a.row.periodEnd.Some?
    ensures Bill(nextMonth, a, calls).credits == a.credits + AfterLatch(a.row.amount, calls)
    decreases |calls|
  {
    if calls != [] {
      var a' := Credit(nextMonth, a, calls[0].0, calls[0].1);
      if calls[0].0.total != a.row.amount { SpoiledCredits(nextMonth, a', calls[1..]); } else { LatchedCredits(nextMonth, a', calls[1..]); }
    }
  }

  lemma {:induction false} NeverRenewed(nextMonth: int -> int, a: Account, calls: seq<(Lookup, int)>)
    requires !Renewable(a)
    ensures Bill(nextMonth, a, calls).credits == a.credits && Bill(nextMonth, a, calls).sub == a.sub
    decreases |calls|
  {
    if calls != [] { NeverRenewed(nextMonth, Credit(nextMonth, a, calls[0].0, calls[0].1), calls[1..]); }
  }

  /** For every sequence of calls, exactly how many months an initiated payment is credited. */
  lemma {:induction false} MonthsCredited(nextMonth: int -> int, a: Account, calls: seq<(Lookup, int)>)
    requires a.row.status == Initiated && a.row.periodEnd.None?
    ensures Bill(nextMonth, a, calls).credits == a.credits + if Renewable(a) then Months(a.row.amount, calls) else 0
    decreases |calls|
  {
    if !Renewable(a) { NeverRenewed(nextMonth, a, calls); }
    else if calls != [] {
      var l, a', rest := calls[0].0, Credit(nextMonth, a, calls[0].0, calls[0].1), calls[1..];
      if Paid(a.row.amount, l) { LatchedCredits(nextMonth, a', rest); }
      else if l.total != a.row.amount || l.status == ExpiredG || l.status == CanceledG { SpoiledCredits(nextMonth, a', rest); }
      else { MonthsCredited(nextMonth, a', rest); }
    }
  }

  /** With a steady gateway an initiated payment extends the subscription at most once - exactly when some call saw it
      paid in full and the subscription was not cancelled - by a month from the later of its end and that call's day. */
  lemma {:induction false} CreditedOnce(nextMonth: int -> int, a: Account, calls: seq<(Lookup, int)>)
    requires a.row.status == Initiated && a.row.periodEnd.None? && SteadyBills(calls)
    ensures
      var e := Bill(nextMonth, a, calls);
      if Renewable(a) && exists i :: 0 <= i < |calls| && Paid(a.row.amount, calls[i].0) then
        && e.credits == a.credits + 1 && e.sub.Some? && e.row.periodEnd == Some(e.sub.value.periodEnd)
        && exists i :: 0 <= i < |calls| && Paid(a.row.amount, calls[i].0) && e.sub == Renew(nextMonth, a.sub, a.row.plan, calls[i].1)
      else e.credits == a.credits && e.sub == a.sub && e.row.periodEnd.None?
    decreases |calls|
  {
    if calls != [] {
      var a', rest := Credit(nextMonth, a, calls[0].0, calls[0].1), calls[1..];
      assert forall i :: 0 <= i < |rest| ==> rest[i] == calls[i+1];
      assert SteadyBills(rest);
      if Paid(a.row.amount, calls[0].0) && Renewable(a) {
        CreditedStays(nextMonth, a', rest);
      } else if a'.row.status != Initiated {
        NeverPaid(nextMonth, a', rest);
      } else {
        CreditedOnce(nextMonth, a', rest);
        if i :| 0 <= i < |rest| && Paid(a.row.amount, rest[i].0) { assert Paid(a.row.amount, calls[i+1].0); }
      }
    }
  }

  /** A gateway that changes its mind about the amount gets the month credited again. */
  lemma CreditedTwice(nextMonth: int -> int)
    ensures
      var paid := (Lookup(100, CompletedG, Some("t")), 0);
      var off := (Lookup(99, CompletedG, Some("t")), 0);
      Bill(nextMonth, Account(None, BillRow(100, "pro", Initiated, None), false, 0), [paid, off, paid]).credits == 2
  {
    var paid := (Lookup(100, CompletedG, Some("t")), 0);
    var off := (Lookup(99, CompletedG, Some("t")), 0);
    var calls := [paid, off, paid];
    var rest, last := [off, paid], [paid];
    assert calls[1..] == rest && rest[1..] == last && last[1..] == [];
    var a0 := Account(None, BillRow(100, "pro", Initiated, None), false, 0);
    var a1 := Credit(nextMonth, a0, paid.0, 0);
    var a2 := Credit(nextMonth, a1, off.0, 0);
    assert Bill(nextMonth, a2, [paid]) == Bill(nextMonth, Credit(nextMonth, a2, paid.0, 0), []);
    assert Bill(nextMonth, a1, [off, paid]) == Bill(nextMonth, a2, [paid]);
    assert Bill(nextMonth, a0, calls) == Bill(nextMonth, a1, [off, paid]);
  }
}
