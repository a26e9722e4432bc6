/** AccountsView.tsx: the "new bank" modal and the manual balance adjustment.
    Both amount inputs are HTML number inputs, so their text is always empty or
    a valid number (`IsNumberField`); `parseFloat` then reads it exactly. */
module Accounts {
  import opened Types
  import opened NumberText
  import App

  const NEW_ACCOUNT_COLOR: string := "bg-purple-600"

  /** What `handleAdd` passes to the store, or None when the name or the balance text is empty. */
  function NewAccount(name: string, balanceText: string): (r: Option<AccountInput>)
    requires IsNumberField(balanceText)
    ensures r.Some? <==> name != "" && balanceText != ""
    ensures r.Some? ==> r.value.name == name && r.value.color == "bg-purple-600"
    ensures r.Some? ==> ParseFloat(balanceText) == Some(r.value.balance)
  {
    if name == "" || balanceText == "" then None
    else
      NumberTextParses(balanceText);
      Some(AccountInput(name, NumberValue(balanceText), NEW_ACCOUNT_COLOR))
  }

  /** The new balance `handleAdjustSubmit` sends, or None when no account is
      being adjusted or the value is empty. */
  function Adjustment(adjusting: Option<BankAccount>, valueText: string): (r: Option<(string, real)>)
    requires IsNumberField(valueText)
    ensures r.Some? <==> adjusting.Some? && valueText != ""
    ensures r.Some? ==> r.value.0 == adjusting.value.id && ParseFloat(valueText) == Some(r.value.1)
  {
    if adjusting.None? || valueText == "" then None
    else
      NumberTextParses(valueText);
      Some((adjusting.value.id, NumberValue(valueText)))
  }

  class AccountsForm {
    var showAdd: bool
    var adjusting: Option<BankAccount>
    var newName: string
    var newBalance: string
    var adjustValue: string

    ghost predicate Valid()
      reads this
    {
      IsNumberField(newBalance) && IsNumberField(adjustValue)
    }

    constructor ()
      ensures Valid()
      ensures !showAdd && adjusting == None && newName == "" && newBalance == "" && adjustValue == ""
    {
      showAdd, adjusting := false, None;
      newName, newBalance, adjustValue := "", "", "";
    }

    /** "Novo Banco" opens the modal; "Cancelar" closes it and keeps what was typed. */
    method SetShowAdd(show: bool)
      requires Valid()
      modifies this
      ensures Valid() && showAdd == show
      ensures adjusting == old(adjusting) && newName == old(newName) && newBalance == old(newBalance) && adjustValue == old(adjustValue)
    {
      showAdd := show;
    }

    /** The two `onChange` handlers of the new-bank form. */
    method EditNewAccount(name: string, balance: string)
      requires Valid() && IsNumberField(balance)
      modifies this
      ensures Valid() && newName == name && newBalance == balance
      ensures showAdd == old(showAdd) && adjusting == old(adjusting) && adjustValue == old(adjustValue)
    {
      newName, newBalance := name, balance;
    }

    /** `handleAdd`: append the account (colour `bg-purple-600`), clear the form
        and close the modal; a no-op when the name or the balance is empty. */
    method HandleAdd(store: App.Store, freshId: string) returns (added: bool)
      requires Valid() && store.Valid()
      modifies this, store
      ensures Valid() && store.Valid()
      ensures added == (old(newName) != "" && old(newBalance) != "")
      ensures !added ==> unchanged(this, store)
      ensures added ==>
        var a := old(NewAccount(newName, newBalance)).value;
        && store.accounts == old(store.accounts) + [BankAccount(freshId, a.name, a.balance, "bg-purple-600")]
        && store.transactions == old(store.transactions)
        && a.name == old(newName) && ParseFloat(old(newBalance)) == Some(a.balance)
      ensures added ==> newName == "" && newBalance == "" && !showAdd
      ensures adjusting == old(adjusting) && adjustValue == old(adjustValue)
    {
      var a := NewAccount(newName, newBalance);
      if a.None? {
        return false;
      }
      store.AddAccount(a.value, freshId);
      newName, newBalance := "", "";
      showAdd := false;
      added := true;
    }

    /** "Ajustar Saldo": select the account and pre-fill the value with its
        current balance. `shown` is `acc.balance.toString()`, which
        `parseFloat` reads back as the same number. */
    method OpenAdjust(acc: BankAccount, shown: string)
      requires Valid() && IsNumberText(shown) && NumberValue(shown) == acc.balance
      modifies this
      ensures Valid() && adjusting == Some(acc) && adjustValue == shown
      ensures ParseFloat(adjustValue) == Some(acc.balance)
      ensures showAdd == old(showAdd) && newName == old(newName) && newBalance == old(newBalance)
    {
      NumberTextParses(shown);
      adjusting, adjustValue := Some(acc), shown;
    }

    /** The `onChange` of the adjustment input. */
    method EditAdjustValue(value: string)
      requires Valid() && IsNumberField(value)
      modifies this
      ensures Valid() && adjustValue == value
      ensures showAdd == old(showAdd) && adjusting == old(adjusting) && newName == old(newName) && newBalance == old(newBalance)
    {
      adjustValue := value;
    }

    /** "Cancelar" of the adjustment modal: deselect, keeping the typed value. */
    method CancelAdjust()
      requires Valid()
      modifies this
      ensures Valid() && adjusting == None
      ensures showAdd == old(showAdd) && adjustValue == old(adjustValue) && newName == old(newName) && newBalance == old(newBalance)
    {
      adjusting := None;
    }

    /** `handleAdjustSubmit`: overwrite the selected account's balance with the
        parsed value, then clear the selection and the value; a no-op unless an
        account is selected and the value is non-empty. */
    method HandleAdjustSubmit(store: App.Store) returns (applied: bool)
      requires Valid() && store.Valid()
      modifies this, store
      ensures Valid() && store.Valid()
      ensures applied == (old(adjusting).Some? && old(adjustValue) != "")
      ensures !applied ==> unchanged(this, store)
      ensures applied ==>
        var v := old(Adjustment(adjusting, adjustValue)).value;
        && store.accounts == App.SetBalance(old(store.accounts), old(adjusting).value.id, v.1)
        && store.transactions == old(store.transactions)
        && ParseFloat(old(adjustValue)) == Some(v.1)
      ensures applied ==> adjusting == None && adjustValue == ""
      ensures showAdd == old(showAdd) && newName == old(newName) && newBalance == old(newBalance)
    {
      var adj := Adjustment(adjusting, adjustValue);
      if adj.None? {
        return false;
      }
      store.UpdateAccountBalance(adj.value.0, adj.value.1);
      adjusting, adjustValue := None, "";
      applied := true;
    }
  }

  /** Opening the adjustment on an account and submitting the pre-filled value
      leaves that account as it was. */
  method AdjustWithoutEditingKeepsBalance(store: App.Store, i: nat, shown: string)
    requires store.Valid() && i < |store.accounts|
    requires IsNumberText(shown) && NumberValue(shown) == store.accounts[i].balance
    modifies store
    ensures |store.accounts| == |old(store.accounts)| && store.accounts[i] == old(store.accounts[i])
  {
    var form := new AccountsForm();
    form.OpenAdjust(store.accounts[i], shown);
    ghost var before := store.accounts;
    assert shown != "";
    var applied := form.HandleAdjustSubmit(store);
    NumberTextParses(shown);
    App.SetBalanceAt(before, before[i].id, before[i].balance, i);
  }
}
