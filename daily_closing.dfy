/** The daily cash closing (Store/DailyClosing.tsx): counting the cash drawer
    by denomination, the expected cash from the day's cash payments and
    expenses, the difference between the two, and the ±1000 won gate on
    completing the closing. Money is in whole won. */
module DailyClosing {
  import opened Common

  /** The bank notes and coins counted: 50,000 down to 10 won. */
  const Denominations: seq<int> := [50000, 10000, 5000, 1000, 500, 100, 50, 10]

  /** The voucher kinds entered by amount. */
  const VoucherTypes: seq<string> := ["culture", "book", "department", "online", "other"]

  /** The opening float of the drawer. */
  const StartingCash: int := 200000

  /** The largest difference between counted and expected cash that still closes. */
  const Tolerance: int := 1000

  /** Today's payments of one kind, by order type. */
  datatype Payments = Payments(visit: int, delivery: int, takeout: int)

  datatype Expense = Expense(id: int, description: string, amount: int, time: string)

  function PaymentsTotal(p: Payments): int {
    p.visit + p.delivery + p.takeout
  }

  function ExpenseAmount(e: Expense): int {
    e.amount
  }

  /** totalExpenses: the sum of the expense amounts. */
  function TotalExpenses(expenses: seq<Expense>): int {
    Sum(expenses, ExpenseAmount)
  }

  /** calculatedCash: what the drawer should hold. */
  function ExpectedCash(startingCash: int, cash: Payments, expenses: seq<Expense>): int {
    startingCash + PaymentsTotal(cash) - TotalExpenses(expenses)
  }

  function CountOf(counts: map<int, int>, value: int): int {
    if value in counts then counts[value] else 0
  }

  /** `denominations.reduce((total, d) => total + counts[d.value] * d.value, 0)`
      over the denominations `ds`. */
  function CashFromCounts(ds: seq<int>, counts: map<int, int>): int {
    if ds == [] then 0 else CashFromCounts(ds[..|ds| - 1], counts) + CountOf(counts, ds[|ds| - 1]) * ds[|ds| - 1]
  }

  /** actualCashFromCounts. */
  function CountedCash(counts: map<int, int>): int {
    CashFromCounts(Denominations, counts)
  }

  /** Counting `delta` more of one denomination in `ds` raises the cash by
      `delta` times its value; the other denominations count as before. */
  lemma {:induction false} CashFromCountsUpdate(ds: seq<int>, counts: map<int, int>, value: int, count: int)
    requires forall i, j :: 0 <= i < j < |ds| ==> ds[i] != ds[j]
    ensures CashFromCounts(ds, counts[value := count])
            == CashFromCounts(ds, counts) + (if value in ds then (count - CountOf(counts, value)) * value else 0)
  {
    if ds != [] {
      var pre, last := ds[..|ds| - 1], ds[|ds| - 1];
      CashFromCountsUpdate(pre, counts, value, count);
      assert value in ds <==> value in pre || value == last;
      if value == last {
        assert value !in pre;
        var c := CountOf(counts, value);
        assert count * value == c * value + (count - c) * value;
      }
    }
  }

  /** Changing one denomination's count changes the counted cash by the
      change in count times the face value. */
  lemma CountedCashUpdate(counts: map<int, int>, k: nat, count: int)
    requires k < |Denominations|
    ensures CountedCash(counts[Denominations[k] := count])
            == CountedCash(counts) + (count - CountOf(counts, Denominations[k])) * Denominations[k]
  {
    CashFromCountsUpdate(Denominations, counts, Denominations[k], count);
  }

  /** With every count at zero the drawer counts as empty. */
  lemma {:induction false} ZeroCountsZeroCash(ds: seq<int>, counts: map<int, int>)
    requires forall i :: 0 <= i < |ds| ==> CountOf(counts, ds[i]) == 0
    ensures CashFromCounts(ds, counts) == 0
  {
    if ds != [] {
      ZeroCountsZeroCash(ds[..|ds| - 1], counts);
    }
  }

  /** totalVouchers: the sum of the voucher amounts in `kinds`. */
  function VoucherSum(kinds: seq<string>, vouchers: map<string, int>): int {
    if kinds == [] then 0
    else VoucherSum(kinds[..|kinds| - 1], vouchers)
         + (if kinds[|kinds| - 1] in vouchers then vouchers[kinds[|kinds| - 1]] else 0)
  }

  lemma {:induction false} ZeroVouchers(kinds: seq<string>, vouchers: map<string, int>)
    requires forall i :: 0 <= i < |kinds| ==> kinds[i] !in vouchers || vouchers[kinds[i]] == 0
    ensures VoucherSum(kinds, vouchers) == 0
  {
    if kinds != [] {
      ZeroVouchers(kinds[..|kinds| - 1], vouchers);
    }
  }

  /** The sum of the five fixed voucher kinds, which `ScreenVoucherTotal`
      equals while the voucher object holds exactly those keys. */
  function TotalVouchers(vouchers: map<string, int>): int {
    VoucherSum(VoucherTypes, vouchers)
  }

  /** The keys named in a list. */
  function KindsOf(kinds: seq<string>): set<string> {
    set k | k in kinds
  }

  /** `Object.values(vouchers).reduce((sum, amount) => sum + amount, 0)` over
      the given keys, taken in any order. */
  ghost function ValuesSum(vouchers: map<string, int>, keys: set<string>): int
    requires keys <= vouchers.Keys
    decreases keys
  {
    if keys == {} then 0
    else
      var k :| k in keys;
      vouchers[k] + ValuesSum(vouchers, keys - {k})
  }

  /** The order of the values does not matter: any key can be taken first. */
  lemma ValuesSumRemove(vouchers: map<string, int>, keys: set<string>, k: string)
    requires keys <= vouchers.Keys && k in keys
    ensures ValuesSum(vouchers, keys) == vouchers[k] + ValuesSum(vouchers, keys - {k})
    decreases keys
  {
    var j :| j in keys && ValuesSum(vouchers, keys) == vouchers[j] + ValuesSum(vouchers, keys - {j});
    if j != k {
      ValuesSumRemove(vouchers, keys - {j}, k);
      ValuesSumRemove(vouchers, keys - {k}, j);
      assert keys - {j} - {k} == keys - {k} - {j};
    }
  }

  /** Summing the values of the keys of a list of distinct kinds equals
      summing the kinds one after another. */
  lemma {:induction false} ValuesSumOfKinds(kinds: seq<string>, vouchers: map<string, int>)
    requires forall i, j :: 0 <= i < j < |kinds| ==> kinds[i] != kinds[j]
    requires KindsOf(kinds) <= vouchers.Keys
    ensures ValuesSum(vouchers, KindsOf(kinds)) == VoucherSum(kinds, vouchers)
  {
    if kinds != [] {
      var pre := kinds[..|kinds| - 1];
      var last := kinds[|kinds| - 1];
      assert KindsOf(kinds) - {last} == KindsOf(pre) by {
        assert kinds == pre + [last];
        forall k | k in KindsOf(pre) ensures k != last {
          var i :| 0 <= i < |pre| && pre[i] == k;
          assert kinds[i] == k;
        }
      }
      ValuesSumRemove(vouchers, KindsOf(kinds), last);
      ValuesSumOfKinds(pre, vouchers);
    }
  }

  /** difference: counted minus expected cash. */
  function Difference(counts: map<int, int>, startingCash: int, cash: Payments, expenses: seq<Expense>): int {
    CountedCash(counts) - ExpectedCash(startingCash, cash, expenses)
  }

  /** The total revenue line: cash plus card payments plus vouchers. */
  function TotalRevenue(cash: Payments, card: Payments, vouchers: map<string, int>): int {
    PaymentsTotal(cash) + PaymentsTotal(card) + TotalVouchers(vouchers)
  }

  /** What handleCompleteClosing decides. */
  datatype ClosingOutcome = NothingCounted | DifferenceTooLarge | Closed

  function ClosingCheck(counted: int, difference: int): (r: ClosingOutcome)
    ensures r == Closed <==> counted != 0 && -Tolerance <= difference <= Tolerance
    ensures r == NothingCounted <==> counted == 0
  {
    if counted == 0 then NothingCounted
    else if (if difference < 0 then -difference else difference) > Tolerance then DifferenceTooLarge
    else Closed
  }

  /** The gate is inclusive: a difference of exactly 1000 won, either way, closes. */
  lemma ToleranceIsInclusive(counted: int)
    requires counted != 0
    ensures ClosingCheck(counted, 1000) == Closed && ClosingCheck(counted, -1000) == Closed
    ensures ClosingCheck(counted, 1001) == DifferenceTooLarge && ClosingCheck(counted, -1001) == DifferenceTooLarge
  {
  }

  predicate ExpenseIdIsNot(e: Expense, id: int) {
    e.id != id
  }

  function IdIsNot(id: int): Expense -> bool {
    e => ExpenseIdIsNot(e, id)
  }

  function IdIs(id: int): Expense -> bool {
    e => !ExpenseIdIsNot(e, id)
  }

  /** The expenses kept and the expenses removed together add up to all of them. */
  lemma {:induction false} RemovedExpensesSplitTotal(expenses: seq<Expense>, id: int)
    ensures TotalExpenses(Filter(expenses, IdIsNot(id))) + TotalExpenses(Filter(expenses, IdIs(id)))
            == TotalExpenses(expenses)
  {
    if expenses != [] {
      var e, rest := expenses[0], expenses[1..];
      RemovedExpensesSplitTotal(rest, id);
      assert expenses == [e] + rest;
      var kept := if ExpenseIdIsNot(e, id) then [e] else [];
      var gone := if ExpenseIdIsNot(e, id) then [] else [e];
      SumAppend(kept, Filter(rest, IdIsNot(id)), ExpenseAmount);
      SumAppend(gone, Filter(rest, IdIs(id)), ExpenseAmount);
      SumAppend([e], rest, ExpenseAmount);
      assert Sum([e], ExpenseAmount) == e.amount by { assert [e][..0] == []; }
    }
  }

  /** Adding an expense lowers the expected cash by its amount. */
  lemma AddExpenseLowersExpected(startingCash: int, cash: Payments, expenses: seq<Expense>, e: Expense)
    ensures ExpectedCash(startingCash, cash, expenses + [e]) == ExpectedCash(startingCash, cash, expenses) - e.amount
  {
    assert (expenses + [e])[..|expenses|] == expenses;
  }

  class DailyClosing {
    var startingCash: int
    /** Today's cash and card payments, refreshed every second from the order context. */
    var cash: Payments
    var card: Payments
    var expenses: seq<Expense>
    var denomCounts: map<int, int>
    var vouchers: map<string, int>
    var isClosingComplete: bool

    /** Every denomination has an entry, so every count the screen shows is
        one the user set (or the initial 0), and the voucher object holds
        exactly the five voucher kinds, so summing its values is summing the
        five kinds. */
    ghost predicate Valid()
      reads this
    {
      && (forall i :: 0 <= i < |Denominations| ==> Denominations[i] in denomCounts)
      && vouchers.Keys == KindsOf(VoucherTypes)
    }

    constructor (cash: Payments, card: Payments, expenses: seq<Expense>)
      ensures Valid()
      ensures this.cash == cash && this.card == card && this.expenses == expenses
      ensures startingCash == StartingCash && !isClosingComplete
      ensures CountedCash(denomCounts) == 0 && TotalVouchers(vouchers) == 0
    {
      this.cash := cash;
      this.card := card;
      this.expenses := expenses;
      startingCash := StartingCash;
      denomCounts := map[50000 := 0, 10000 := 0, 5000 := 0, 1000 := 0, 500 := 0, 100 := 0, 50 := 0, 10 := 0];
      vouchers := map["culture" := 0, "book" := 0, "department" := 0, "online" := 0, "other" := 0];
      isClosingComplete := false;
      new;
      ZeroCountsZeroCash(Denominations, denomCounts);
      ZeroVouchers(VoucherTypes, vouchers);
    }

    method RefreshPayments(cash: Payments, card: Payments)
      modifies this`cash, this`card
      ensures this.cash == cash && this.card == card
    {
      this.cash := cash;
      this.card := card;
    }

    /** The starting-cash input, `parseFloat(value) || 0`: None stands for
        NaN (an empty or unreadable field) and, like 0, sets 0. The input is
        disabled once closing is complete. */
    method SetStartingCash(typed: Option<int>)
      modifies this`startingCash
      ensures isClosingComplete ==> startingCash == old(startingCash)
      ensures !isClosingComplete && typed.None? ==> startingCash == 0
      ensures !isClosingComplete && typed.Some? ==> startingCash == typed.value
    {
      if isClosingComplete {
        return;
      }
      startingCash := if typed.Some? then typed.value else 0;
    }

    /** handleAddExpense: both inputs are needed (None is the empty amount
        field; "0" is a non-empty field and passes); the new expense goes last.
        Returns whether it was added. The add button is disabled once closing
        is complete. */
    method AddExpense(description: string, amount: Option<int>, id: int, time: string) returns (added: bool)
      modifies this`expenses
      ensures added <==> !isClosingComplete && description != "" && amount.Some?
      ensures added ==> expenses == old(expenses) + [Expense(id, description, amount.value, time)]
      ensures !added ==> expenses == old(expenses)
    {
      if isClosingComplete || description == "" || amount.None? {
        return false;
      }
      expenses := expenses + [Expense(id, description, amount.value, time)];
      added := true;
    }

    /** handleRemoveExpense: drops every expense with that id. The remove
        button is not rendered once closing is complete. */
    method RemoveExpense(id: int)
      modifies this`expenses
      ensures isClosingComplete ==> expenses == old(expenses)
      ensures !isClosingComplete ==> expenses == Filter(old(expenses), IdIsNot(id))
    {
      if !isClosingComplete {
        expenses := Filter(expenses, IdIsNot(id));
      }
    }

    /** handleDenomCountChange; the count inputs are disabled once closing is complete. */
    method SetDenomCount(value: int, count: int)
      requires Valid()
      modifies this`denomCounts
      ensures Valid()
      ensures isClosingComplete ==> denomCounts == old(denomCounts)
      ensures !isClosingComplete ==> denomCounts == old(denomCounts)[value := count]
    {
      if !isClosingComplete {
        denomCounts := denomCounts[value := count];
      }
    }

    /** handleVoucherChange, called by the input of one of the five voucher
        kinds; the inputs are disabled once closing is complete. */
    method SetVoucher(kind: string, amount: int)
      requires Valid() && kind in KindsOf(VoucherTypes)
      modifies this`vouchers
      ensures Valid()
      ensures isClosingComplete ==> vouchers == old(vouchers)
      ensures !isClosingComplete ==> vouchers == old(vouchers)[kind := amount]
    {
      if !isClosingComplete {
        vouchers := vouchers[kind := amount];
      }
    }

    /** totalVouchers as the screen computes it: the sum of every value of the
        voucher object, which is the sum of the five voucher kinds. */
    method ScreenVoucherTotal() returns (total: int)
      requires Valid()
      ensures total == ValuesSum(vouchers, vouchers.Keys)
      ensures total == TotalVouchers(vouchers)
    {
      total := TotalVouchers(vouchers);
      ValuesSumOfKinds(VoucherTypes, vouchers);
    }

    /** handleCompleteClosing. Its button is disabled once closing is complete
        (and while nothing is counted, a case the handler refuses as well), so
        a completed closing stays complete. */
    method CompleteClosing() returns (outcome: ClosingOutcome)
      modifies this`isClosingComplete
      ensures outcome == ClosingCheck(CountedCash(denomCounts), Difference(denomCounts, startingCash, cash, expenses))
      ensures isClosingComplete == (old(isClosingComplete) || outcome == Closed)
    {
      var counted := CountedCash(denomCounts);
      var difference := counted - ExpectedCash(startingCash, cash, expenses);
      outcome := ClosingCheck(counted, difference);
      if outcome == Closed {
        isClosingComplete := true;
      }
    }
  }
}
