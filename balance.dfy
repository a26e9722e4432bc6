/** BalanceView.tsx (and the same sums on the dashboard): the total of the
    account balances and the income and spending of the current month. */
module Balance {
  import opened Types

  /** `accounts.reduce((acc, curr) => acc + curr.balance, 0)`. */
  function TotalBalance(accs: seq<BankAccount>): real {
    if accs == [] then 0.0 else accs[0].balance + TotalBalance(accs[1..])
  }

  predicate InMonth(t: Transaction, month: int, year: int) {
    t.date.month == month && t.date.year == year
  }

  /** Sum of the amounts of the transactions of one type dated in the given month of the given year. */
  function MonthlyTotal(ts: seq<Transaction>, kind: TransactionType, month: int, year: int): real {
    if ts == [] then 0.0
    else (if ts[0].kind == kind && InMonth(ts[0], month, year) then ts[0].amount else 0.0)
         + MonthlyTotal(ts[1..], kind, month, year)
  }

  function MonthlyIncome(ts: seq<Transaction>, month: int, year: int): real {
    MonthlyTotal(ts, Income, month, year)
  }

  function MonthlySpent(ts: seq<Transaction>, month: int, year: int): real {
    MonthlyTotal(ts, Expense, month, year)
  }

  function NetMonthly(ts: seq<Transaction>, month: int, year: int): real {
    MonthlyIncome(ts, month, year) - MonthlySpent(ts, month, year)
  }

  /** The signed effect of one transaction: income adds, expense subtracts. */
  function Signed(kind: TransactionType, amount: real): (d: real)
    ensures kind == Income ==> d == amount
    ensures kind == Expense ==> d == -amount
  {
    if kind == Income then amount else -amount
  }

  /** Independent reading of the monthly result: the signed sum of the month's transactions. */
  function MonthSignedSum(ts: seq<Transaction>, month: int, year: int): real {
    if ts == [] then 0.0
    else (if InMonth(ts[0], month, year) then Signed(ts[0].kind, ts[0].amount) else 0.0)
         + MonthSignedSum(ts[1..], month, year)
  }

  /** The monthly net is the signed sum of exactly the transactions dated in that month and year. */
  lemma {:induction false} NetMonthlyIsSignedSum(ts: seq<Transaction>, month: int, year: int)
    ensures NetMonthly(ts, month, year) == MonthSignedSum(ts, month, year)
  {
    if ts != [] {
      NetMonthlyIsSignedSum(ts[1..], month, year);
    }
  }

  /** Totals over a concatenation add up. */
  lemma {:induction false} TotalBalanceAppend(a: seq<BankAccount>, b: seq<BankAccount>)
    ensures TotalBalance(a + b) == TotalBalance(a) + TotalBalance(b)
  {
    if a == [] {
      assert a + b == b;
    } else {
      assert (a + b)[1..] == a[1..] + b;
      TotalBalanceAppend(a[1..], b);
    }
  }

  lemma {:induction false} MonthlyTotalAppend(a: seq<Transaction>, b: seq<Transaction>, kind: TransactionType, month: int, year: int)
    ensures MonthlyTotal(a + b, kind, month, year) == MonthlyTotal(a, kind, month, year) + MonthlyTotal(b, kind, month, year)
  {
    if a == [] {
      assert a + b == b;
    } else {
      assert (a + b)[1..] == a[1..] + b;
      MonthlyTotalAppend(a[1..], b, kind, month, year);
    }
  }

  /** A transaction counts towards a monthly sum exactly when its type, month and
      year all match; one from the same month of another year changes neither sum. */
  lemma MonthlyTotalPrepend(t: Transaction, ts: seq<Transaction>, kind: TransactionType, month: int, year: int)
    ensures MonthlyTotal([t] + ts, kind, month, year)
      == MonthlyTotal(ts, kind, month, year) + (if t.kind == kind && t.date.month == month && t.date.year == year then t.amount else 0.0)
  {
    assert ([t] + ts)[1..] == ts;
  }

  /** If every transaction of the month has a non-negative amount, both monthly sums are non-negative. */
  lemma {:induction false} MonthlyTotalNonNegative(ts: seq<Transaction>, kind: TransactionType, month: int, year: int)
    requires forall i :: 0 <= i < |ts| ==> ts[i].amount >= 0.0
    ensures MonthlyTotal(ts, kind, month, year) >= 0.0
  {
    if ts != [] {
      MonthlyTotalNonNegative(ts[1..], kind, month, year);
    }
  }
}
