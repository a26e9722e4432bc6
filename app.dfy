/** App.tsx: the in-memory store of transactions and accounts and its three
    handlers. Each handler replaces a whole list, as `setTransactions` and
    `setAccounts` do; the new lists are computed by the functions below. */
module App {
  import opened Types
  import opened Balance

  /** The account list used when nothing is stored yet. */
  const DEFAULT_ACCOUNT: BankAccount := BankAccount("1", "Carteira Principal", 0.0, "bg-purple-600")

  /** One account after a transaction: the balance moves by the signed amount
      when the ids match, and the account is returned as it was otherwise. */
  function Adjusted(acc: BankAccount, t: TransactionInput): BankAccount {
    if acc.id == t.accountId then acc.(balance := acc.balance + Signed(t.kind, t.amount)) else acc
  }

  /** The `prev.map(...)` of `addTransaction`. */
  function ApplyTransaction(accs: seq<BankAccount>, t: TransactionInput): (r: seq<BankAccount>)
    ensures |r| == |accs|
  {
    if accs == [] then [] else [Adjusted(accs[0], t)] + ApplyTransaction(accs[1..], t)
  }

  /** The `prev.map(...)` of `updateAccountBalance`. */
  function SetBalance(accs: seq<BankAccount>, id: string, newBalance: real): (r: seq<BankAccount>)
    ensures |r| == |accs|
    ensures forall i :: 0 <= i < |r| ==> r[i].id == accs[i].id
  {
    if accs == [] then []
    else [if accs[0].id == id then accs[0].(balance := newBalance) else accs[0]] + SetBalance(accs[1..], id, newBalance)
  }

  /** Every account whose id matches gains `+amount` for income and `-amount`
      for expense, keeping its id, name and colour; every other account is
      unchanged; the list keeps its length and order. */
  lemma {:induction false} ApplyTransactionAt(accs: seq<BankAccount>, t: TransactionInput, i: nat)
    requires i < |accs|
    ensures ApplyTransaction(accs, t)[i].id == accs[i].id
    ensures ApplyTransaction(accs, t)[i].name == accs[i].name
    ensures ApplyTransaction(accs, t)[i].color == accs[i].color
    ensures accs[i].id == t.accountId && t.kind == Income ==> ApplyTransaction(accs, t)[i].balance == accs[i].balance + t.amount
    ensures accs[i].id == t.accountId && t.kind == Expense ==> ApplyTransaction(accs, t)[i].balance == accs[i].balance - t.amount
    ensures accs[i].id != t.accountId ==> ApplyTransaction(accs, t)[i] == accs[i]
  {
    if i > 0 {
      ApplyTransactionAt(accs[1..], t, i - 1);
    }
  }

  /** When no account has the transaction's account id, the accounts stay exactly as they were. */
  lemma {:induction false} ApplyTransactionNoMatch(accs: seq<BankAccount>, t: TransactionInput)
    requires forall i :: 0 <= i < |accs| ==> accs[i].id != t.accountId
    ensures ApplyTransaction(accs, t) == accs
  {
    if accs != [] {
      ApplyTransactionNoMatch(accs[1..], t);
    }
  }

  /** Only the balance of accounts with the given id becomes `newBalance`;
      names, colours, ids and every other account are unchanged. */
  lemma {:induction false} SetBalanceAt(accs: seq<BankAccount>, id: string, newBalance: real, i: nat)
    requires i < |accs|
    ensures SetBalance(accs, id, newBalance)[i] == if accs[i].id == id then accs[i].(balance := newBalance) else accs[i]
  {
    if i > 0 {
      SetBalanceAt(accs[1..], id, newBalance, i - 1);
    }
  }

  /** How many accounts carry the id. */
  function CountId(accs: seq<BankAccount>, id: string): (n: nat)
    ensures n <= |accs|
  {
    if accs == [] then 0 else (if accs[0].id == id then 1 else 0) + CountId(accs[1..], id)
  }

  /** The total balance moves by the signed amount once per account with the
      transaction's id: by exactly the amount when ids are unique, not at all when none matches. */
  lemma {:induction false} TotalAfterTransaction(accs: seq<BankAccount>, t: TransactionInput)
    ensures TotalBalance(ApplyTransaction(accs, t)) == TotalBalance(accs) + (CountId(accs, t.accountId) as real) * Signed(t.kind, t.amount)
  {
    if accs != [] {
      var r := ApplyTransaction(accs, t);
      assert r[1..] == ApplyTransaction(accs[1..], t);
      TotalAfterTransaction(accs[1..], t);
      var c := CountId(accs[1..], t.accountId) as real;
      var d := Signed(t.kind, t.amount);
      assert (c + 1.0) * d == c * d + d;
    }
  }

  /** The signed sum of the transactions that reference account `id`. */
  function NetFor(ts: seq<Transaction>, id: string): real {
    if ts == [] then 0.0
    else (if ts[0].accountId == id then Signed(ts[0].kind, ts[0].amount) else 0.0) + NetFor(ts[1..], id)
  }

  /** The reconciliation invariant: each account's stored balance is its
      baseline plus the signed amounts of the transactions referencing it.
      The baseline is fixed when the account first appears (loaded, added) and
      moves only when its balance is overwritten by hand. */
  ghost predicate Reconciled(accs: seq<BankAccount>, baseline: seq<real>, ts: seq<Transaction>) {
    |baseline| == |accs|
    && forall i :: 0 <= i < |accs| ==> accs[i].balance == baseline[i] + NetFor(ts, accs[i].id)
  }

  /** The baseline that makes a freshly loaded account list reconciled. */
  ghost function Baseline(accs: seq<BankAccount>, ts: seq<Transaction>): (b: seq<real>)
    ensures Reconciled(accs, b, ts)
  {
    seq(|accs|, i requires 0 <= i < |accs| => accs[i].balance - NetFor(ts, accs[i].id))
  }

  /** Recording a transaction and adjusting the balances keeps every account
      reconciled with the same baselines. */
  lemma AddTransactionReconciles(accs: seq<BankAccount>, baseline: seq<real>, ts: seq<Transaction>, t: TransactionInput, id: string)
    requires Reconciled(accs, baseline, ts)
    ensures Reconciled(ApplyTransaction(accs, t), baseline, [WithId(t, id)] + ts)
  {
    var ts' := [WithId(t, id)] + ts;
    assert ts'[1..] == ts;
    forall i | 0 <= i < |accs|
      ensures ApplyTransaction(accs, t)[i].balance == baseline[i] + NetFor(ts', ApplyTransaction(accs, t)[i].id)
    {
      ApplyTransactionAt(accs, t, i);
    }
  }

  /** The baselines after a manual override: only the overwritten accounts move theirs. */
  ghost function Rebased(accs: seq<BankAccount>, baseline: seq<real>, ts: seq<Transaction>, id: string, newBalance: real): seq<real>
    requires |baseline| == |accs|
  {
    seq(|accs|, i requires 0 <= i < |accs| => if accs[i].id == id then newBalance - NetFor(ts, id) else baseline[i])
  }

  /** Overwriting a balance keeps the invariant, moving only the overwritten accounts' baselines. */
  lemma SetBalanceReconciles(accs: seq<BankAccount>, baseline: seq<real>, ts: seq<Transaction>, id: string, newBalance: real)
    requires Reconciled(accs, baseline, ts)
    ensures Reconciled(SetBalance(accs, id, newBalance), Rebased(accs, baseline, ts, id, newBalance), ts)
  {
    forall i | 0 <= i < |accs|
      ensures SetBalance(accs, id, newBalance)[i].balance
        == Rebased(accs, baseline, ts, id, newBalance)[i] + NetFor(ts, SetBalance(accs, id, newBalance)[i].id)
    {
      SetBalanceAt(accs, id, newBalance, i);
    }
  }

  /** Appending an account keeps the earlier accounts reconciled. */
  lemma AddAccountReconciles(accs: seq<BankAccount>, baseline: seq<real>, ts: seq<Transaction>, a: BankAccount)
    requires Reconciled(accs, baseline, ts)
    ensures Reconciled(accs + [a], baseline + [a.balance - NetFor(ts, a.id)], ts)
  {
  }

  class Store {
    var transactions: seq<Transaction>
    var accounts: seq<BankAccount>
    ghost var baseline: seq<real>

    ghost predicate Valid()
      reads this
    {
      Reconciled(accounts, baseline, transactions)
    }

    /** The lists restored at start-up: stored data when present, otherwise no
        transactions and the single default account. */
    constructor (savedTransactions: Option<seq<Transaction>>, savedAccounts: Option<seq<BankAccount>>)
      ensures Valid()
      ensures transactions == savedTransactions.GetOr([])
      ensures savedAccounts.Some? ==> accounts == savedAccounts.value
      ensures savedAccounts.None? ==> accounts == [BankAccount("1", "Carteira Principal", 0.0, "bg-purple-600")]
    {
      transactions := savedTransactions.GetOr([]);
      accounts := savedAccounts.GetOr([DEFAULT_ACCOUNT]);
      baseline := Baseline(savedAccounts.GetOr([DEFAULT_ACCOUNT]), savedTransactions.GetOr([]));
    }

    /** `addTransaction`: prepend the transaction with the fresh id, then adjust
        the balance of every account with its account id. */
    method AddTransaction(t: TransactionInput, freshId: string)
      requires Valid()
      modifies this
      ensures Valid() && baseline == old(baseline)
      ensures transactions == [WithId(t, freshId)] + old(transactions)
      ensures accounts == ApplyTransaction(old(accounts), t)
      ensures |accounts| == |old(accounts)|
      ensures forall i :: 0 <= i < |accounts| ==>
        accounts[i] == if old(accounts)[i].id == t.accountId
                       then old(accounts)[i].(balance := old(accounts)[i].balance + Signed(t.kind, t.amount))
                       else old(accounts)[i]
    {
      AddTransactionReconciles(accounts, baseline, transactions, t, freshId);
      forall i | 0 <= i < |accounts|
        ensures ApplyTransaction(accounts, t)[i] == Adjusted(accounts[i], t)
      {
        ApplyTransactionAt(accounts, t, i);
      }
      transactions := [WithId(t, freshId)] + transactions;
      accounts := ApplyTransaction(accounts, t);
    }

    /** `addAccount`: append one account with the fresh id. */
    method AddAccount(a: AccountInput, freshId: string)
      requires Valid()
      modifies this
      ensures Valid()
      ensures accounts == old(accounts) + [BankAccount(freshId, a.name, a.balance, a.color)]
      ensures transactions == old(transactions)
    {
      var acc := BankAccount(freshId, a.name, a.balance, a.color);
      AddAccountReconciles(accounts, baseline, transactions, acc);
      baseline := baseline + [acc.balance - NetFor(transactions, acc.id)];
      accounts := accounts + [acc];
    }

    /** `updateAccountBalance`: overwrite the balance of the accounts with the id. */
    method UpdateAccountBalance(id: string, newBalance: real)
      requires Valid()
      modifies this
      ensures Valid()
      ensures accounts == SetBalance(old(accounts), id, newBalance)
      ensures |accounts| == |old(accounts)|
      ensures forall i :: 0 <= i < |accounts| ==>
        accounts[i] == if old(accounts)[i].id == id then old(accounts)[i].(balance := newBalance) else old(accounts)[i]
      ensures transactions == old(transactions)
    {
      SetBalanceReconciles(accounts, baseline, transactions, id, newBalance);
      forall i | 0 <= i < |accounts|
        ensures SetBalance(accounts, id, newBalance)[i] == if accounts[i].id == id then accounts[i].(balance := newBalance) else accounts[i]
      {
        SetBalanceAt(accounts, id, newBalance, i);
      }
      baseline := Rebased(accounts, baseline, transactions, id, newBalance);
      accounts := SetBalance(accounts, id, newBalance);
    }
  }
}
