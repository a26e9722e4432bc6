/** Dashboard.tsx: the Brazilian amount parser, the guard and construction of
    `handleAdd`, the form and modal state, and the recent-movements slice. The
    total balance and the month's spending it shows are `Balance.TotalBalance`
    and `Balance.MonthlySpent`. */
module Dashboard {
  import opened Types
  import opened NumberText
  import opened Balance
  import App

  /** `value.replace(/\./g, '')`: every `.` removed, the rest kept in order. */
  function RemoveDots(s: string): (r: string)
    ensures forall i :: 0 <= i < |r| ==> r[i] != '.'
  {
    if s == [] then [] else (if s[0] == '.' then [] else [s[0]]) + RemoveDots(s[1..])
  }

  /** `.replace(',', '.')`: only the first `,` becomes `.`. */
  function ReplaceFirstComma(s: string): (r: string)
    ensures |r| == |s|
  {
    if s == [] then []
    else if s[0] == ',' then ['.'] + s[1..]
    else [s[0]] + ReplaceFirstComma(s[1..])
  }

  /** Only the first comma becomes a point: everything before it and after it
      is kept as it was. */
  lemma {:induction false} ReplaceFirstCommaAt(s: string, k: nat)
    requires k < |s| && s[k] == ','
    requires forall j :: 0 <= j < k ==> s[j] != ','
    ensures ReplaceFirstComma(s) == s[..k] + ['.'] + s[k + 1..]
  {
    if k > 0 {
      assert s[1..][k - 1] == ',';
      assert forall j :: 0 <= j < k - 1 ==> s[1..][j] == s[j + 1];
      ReplaceFirstCommaAt(s[1..], k - 1);
      assert s[..k] == [s[0]] + s[1..][..k - 1];
      assert s[k + 1..] == s[1..][k..];
    }
  }

  /** Removing dots keeps every other character, as often as it occurs. */
  lemma {:induction false} RemoveDotsKeepsOthers(s: string)
    ensures multiset(RemoveDots(s)) == multiset(s)['.' := 0]
  {
    if s != [] {
      RemoveDotsKeepsOthers(s[1..]);
      assert s == [s[0]] + s[1..];
    }
  }

  /** Removing dots keeps the other characters in their order: it distributes
      over concatenation, and a single character is kept unless it is a dot. */
  lemma {:induction false} RemoveDotsAppend(a: string, b: string)
    ensures RemoveDots(a + b) == RemoveDots(a) + RemoveDots(b)
    ensures |a| == 1 ==> RemoveDots(a) == if a[0] == '.' then [] else a
  {
    if a == [] {
      assert a + b == b;
    } else {
      assert (a + b)[1..] == a[1..] + b;
      RemoveDotsAppend(a[1..], b);
    }
  }

  function CleanBRL(s: string): string {
    ReplaceFirstComma(RemoveDots(s))
  }

  /** `parseBRL`: empty text is 0; otherwise thousands dots are dropped, the
      decimal comma becomes a point, and text that `parseFloat` cannot read
      (NaN) falls back to 0 through `|| 0`. */
  function ParseBRL(s: string): real {
    if s == "" then 0.0
    else match ParseFloat(CleanBRL(s))
      case None => 0.0
      case Some(v) => v
  }

  lemma {:induction false} RemoveDotsNoDots(s: string)
    requires forall i :: 0 <= i < |s| ==> s[i] != '.'
    ensures RemoveDots(s) == s
  {
    if s != [] {
      RemoveDotsNoDots(s[1..]);
      assert s == [s[0]] + s[1..];
    }
  }

  lemma {:induction false} ReplaceFirstCommaDigits(w: string, rest: string)
    requires AllDigits(w)
    ensures ReplaceFirstComma(w + [','] + rest) == w + ['.'] + rest
  {
    if w == [] {
      assert w + [','] + rest == [','] + rest;
      assert ([','] + rest)[1..] == rest;
    } else {
      assert (w + [','] + rest)[1..] == w[1..] + [','] + rest;
      ReplaceFirstCommaDigits(w[1..], rest);
      assert w == [w[0]] + w[1..];
    }
  }

  lemma {:induction false} LeadingDigitsStop(w: string, c: char, rest: string)
    requires AllDigits(w) && !IsDigit(c)
    ensures LeadingDigits(w + [c] + rest) == |w|
  {
    if w != [] {
      assert (w + [c] + rest)[1..] == w[1..] + [c] + rest;
      LeadingDigitsStop(w[1..], c, rest);
    }
  }

  /** Dropping the dots first changes nothing: `parseBRL` ignores every `.`. */
  lemma {:induction false} RemoveDotsIdempotent(s: string)
    ensures RemoveDots(RemoveDots(s)) == RemoveDots(s)
  {
    RemoveDotsNoDots(RemoveDots(s));
  }

  lemma ParseBRLIgnoresDots(s: string)
    ensures ParseBRL(RemoveDots(s)) == ParseBRL(s)
  {
    RemoveDotsIdempotent(s);
  }

  /** The digits of `w`, then a character that is not a digit (or nothing). */
  lemma LeadingDigitsThen(w: string, tail: string)
    requires AllDigits(w) && (tail == [] || !IsDigit(tail[0]))
    ensures LeadingDigits(w + tail) == |w|
  {
    if tail == [] {
      assert w + tail == w;
      LeadingDigitsAll(w);
    } else {
      assert w + tail == w + [tail[0]] + tail[1..];
      LeadingDigitsStop(w, tail[0], tail[1..]);
    }
  }

  lemma ParseUnsignedDecimal(w: string, f: string, tail: string)
    requires AllDigits(w) && AllDigits(f) && (w != [] || f != [])
    requires tail == [] || !IsDigit(tail[0])
    ensures ParseUnsigned(w + ['.'] + f + tail) == Some(Decimal(DigitsValue(w), DigitsValue(f), |f|))
  {
    var u := f + tail;
    Associate(w + ['.'], f, tail);
    SplitAt(w, '.', u);
    LeadingDigitsStop(w, '.', u);
    LeadingDigitsThen(f, tail);
    assert u[..|f|] == f;
    ParseUnsignedAtPoint(w + ['.'] + u, |w|, |f|);
  }

  lemma Associate(a: string, b: string, c: string)
    ensures a + b + c == a + (b + c)
  {
  }

  /** The pieces of `a + [c] + b`. */
  lemma SplitAt(a: string, c: char, b: string)
    ensures (a + [c] + b)[..|a|] == a && (a + [c] + b)[|a|] == c && (a + [c] + b)[|a| + 1..] == b
  {
  }

  /** `ParseUnsigned` when the leading digits are followed by a point. */
  lemma ParseUnsignedAtPoint(t: string, i: nat, j: nat)
    requires i == LeadingDigits(t) && i < |t| && t[i] == '.'
    requires j == LeadingDigits(t[i + 1..]) && i + j > 0
    ensures ParseUnsigned(t) == Some(Decimal(DigitsValue(t[..i]), DigitsValue(t[i + 1..][..j]), j))
  {
  }

  /** The parser's first step on digit text with one comma: no dot to drop,
      and the comma becomes the decimal point. */
  lemma CleanDecimal(w: string, f: string, rest: string)
    requires AllDigits(w) && AllDigits(f)
    ensures CleanBRL(w + [','] + f + rest) == w + ['.'] + f + RemoveDots(rest)
  {
    var head := w + [','] + f;
    var kept := f + RemoveDots(rest);
    DigitsCommaNoDots(w, f);
    RemoveDotsNoDots(head);
    RemoveDotsAppend(head, rest);
    Associate(w + [','], f, RemoveDots(rest));
    ReplaceFirstCommaDigits(w, kept);
    Associate(w + ['.'], f, RemoveDots(rest));
  }

  lemma DigitsCommaNoDots(w: string, f: string)
    requires AllDigits(w) && AllDigits(f)
    ensures forall i :: 0 <= i < |w + [','] + f| ==> (w + [','] + f)[i] != '.'
  {
  }

  /** Brazilian decimal text `w,f` (integer digits, comma, fraction digits,
      either part possibly empty but not both) has the value it denotes, so
      ",5" is 0.5 and "5," is 5. */
  lemma ParseBRLDecimal(w: string, f: string)
    requires AllDigits(w) && AllDigits(f) && (w != [] || f != [])
    ensures ParseBRL(w + [','] + f) == Decimal(DigitsValue(w), DigitsValue(f), |f|)
  {
    var t := w + ['.'] + f;
    CleanDecimal(w, f, []);
    assert w + [','] + f + [] == w + [','] + f;
    assert t + [] == t;
    assert t[0] == if w != [] then w[0] else '.';
    assert ParseFloat(t) == ParseUnsigned(t);
    ParseUnsignedDecimal(w, f, []);
  }

  /** Only the first comma becomes a point, so a second comma ends the number
      whatever follows it: `w,f,rest` is read as `w,f`. */
  lemma ParseBRLStopsAtSecondComma(w: string, f: string, rest: string)
    requires AllDigits(w) && AllDigits(f) && (w != [] || f != [])
    ensures ParseBRL(w + [','] + f + [','] + rest) == Decimal(DigitsValue(w), DigitsValue(f), |f|)
  {
    var tail := [','] + RemoveDots(rest);
    var t := w + ['.'] + f + tail;
    assert w + [','] + f + [','] + rest == w + [','] + f + ([','] + rest);
    CleanDecimal(w, f, [','] + rest);
    RemoveDotsAppend([','], rest);
    assert [','] + rest != [];
    assert t[0] == if w != [] then w[0] else '.';
    assert ParseFloat(t) == ParseUnsigned(t);
    ParseUnsignedDecimal(w, f, tail);
  }

  /** Plain digits are read as the integer they denote. */
  lemma ParseBRLInteger(w: string)
    requires AllDigits(w) && w != []
    ensures ParseBRL(w) == DigitsValue(w) as real
  {
    RemoveDotsNoDots(w);
    assert CleanBRL(w) == w by {
      ReplaceFirstCommaNone(w);
    }
    LeadingDigitsAll(w);
    assert w[..|w|] == w;
  }

  lemma {:induction false} ReplaceFirstCommaNone(s: string)
    requires forall i :: 0 <= i < |s| ==> s[i] != ','
    ensures ReplaceFirstComma(s) == s
  {
    if s != [] {
      ReplaceFirstCommaNone(s[1..]);
      assert s == [s[0]] + s[1..];
    }
  }

  /** `parseBRL("")` is 0. */
  lemma ParseBRLEmpty()
    ensures ParseBRL("") == 0.0
  {
  }

  /** Grouped thousands with a decimal comma: "1.234,56" is 1234.56. */
  lemma ParseBRLGrouped()
    ensures ParseBRL("1.234,56") == 1234.56
  {
    GroupedParts();
    assert "1234" + [','] + "56" == "1234,56";
    ParseBRLDecimal("1234", "56");
    GroupedDots();
    ParseBRLIgnoresDots("1.234,56");
  }

  lemma GroupedParts()
    ensures DigitsValue("1234") == 1234 && DigitsValue("56") == 56
    ensures Decimal(1234, 56, 2) == 1234.56
  {
    assert "1234"[..3] == "123" && "123"[..2] == "12" && "12"[..1] == "1" && "1"[..0] == "";
    assert "56"[..1] == "5" && "5"[..0] == "";
    assert Pow10(2) == 100;
  }

  lemma GroupedDots()
    ensures RemoveDots("1.234,56") == "1234,56"
  {
    assert "1.234,56" == "1" + "." + "234,56";
    RemoveDotsAppend("1" + ".", "234,56");
    RemoveDotsAppend("1", ".");
    RemoveDotsAppend(".", []);
    RemoveDotsNoDots("1");
    RemoveDotsNoDots("234,56");
  }

  /** Text that `parseFloat` reads as NaN gives 0: a lone comma, or letters. */
  lemma ParseBRLNotANumber()
    ensures ParseBRL(",") == 0.0
    ensures ParseBRL("abc") == 0.0
  {
    assert CleanBRL(",") == ".";
    assert ParseUnsigned(".") == None by {
      assert LeadingDigits(".") == 0;
      assert "."[1..] == "";
    }
    assert CleanBRL("abc") == "abc";
    assert LeadingDigits("abc") == 0;
  }

  /** Only the first comma becomes a point, so a second comma ends the number. */
  lemma ParseBRLSecondComma()
    ensures ParseBRL("1,2,3") == 1.2
  {
    assert CleanBRL("1,2,3") == "1.2,3";
    assert LeadingDigits("1.2,3") == 1;
    assert "1.2,3"[2..] == "2,3";
    assert LeadingDigits("2,3") == 1;
    assert "1.2,3"[..1] == "1" && "2,3"[..1] == "2";
    assert DigitsValue("1") == 1 && DigitsValue("2") == 2;
  }

  /** `accounts[0]?.id || ''`: the account the form starts on. */
  function DefaultAccountId(accs: seq<BankAccount>): (id: string)
    ensures accs == [] ==> id == ""
    ensures accs != [] ==> id == accs[0].id
  {
    if |accs| > 0 then accs[0].id else ""
  }

  /** What `handleAdd` hands to the store, or None when a guard returns early:
      the description is empty, the parsed amount is not positive, no account
      is chosen, or no modal is open. */
  function Submission(modal: Option<TransactionType>, description: string, amountText: string,
                      category: Category, accountId: string, now: CDate): (r: Option<TransactionInput>)
    ensures r.Some? <==> description != "" && ParseBRL(amountText) > 0.0 && accountId != "" && modal.Some?
    ensures r.Some? ==> r.value.amount > 0.0 && r.value.amount == ParseBRL(amountText)
    ensures r.Some? ==> r.value.kind == modal.value
    ensures r.Some? && r.value.kind == Income ==> r.value.category == Renda
    ensures r.Some? && r.value.kind == Expense ==> r.value.category == category
    ensures r.Some? ==> r.value.description == description && r.value.accountId == accountId && r.value.date == now
  {
    var amount := ParseBRL(amountText);
    if description == "" || amount <= 0.0 || accountId == "" || modal.None? then None
    else Some(TransactionInput(modal.value, amount, description,
                               if modal.value == Income then Renda else category, now, accountId))
  }

  /** An accepted submission dated today raises the month's spending (for an
      expense) or income (for income) by its amount and leaves the other sum as it
      was; the total balance moves by the signed amount per account with its id. */
  lemma SubmissionEffects(sub: TransactionInput, freshId: string, ts: seq<Transaction>, accs: seq<BankAccount>)
    requires sub.amount > 0.0
    ensures MonthlySpent([WithId(sub, freshId)] + ts, sub.date.month, sub.date.year)
      == MonthlySpent(ts, sub.date.month, sub.date.year) + (if sub.kind == Expense then sub.amount else 0.0)
    ensures MonthlyIncome([WithId(sub, freshId)] + ts, sub.date.month, sub.date.year)
      == MonthlyIncome(ts, sub.date.month, sub.date.year) + (if sub.kind == Income then sub.amount else 0.0)
    ensures App.CountId(accs, sub.accountId) == 1 ==>
      TotalBalance(App.ApplyTransaction(accs, sub)) == TotalBalance(accs) + Signed(sub.kind, sub.amount)
  {
    MonthlyTotalPrepend(WithId(sub, freshId), ts, Expense, sub.date.month, sub.date.year);
    MonthlyTotalPrepend(WithId(sub, freshId), ts, Income, sub.date.month, sub.date.year);
    App.TotalAfterTransaction(accs, sub);
  }

  /** `transactions.slice(0, 5)`: the five most recent movements. */
  function Recent(ts: seq<Transaction>): seq<Transaction> {
    ts[..if |ts| < 5 then |ts| else 5]
  }

  /** After a transaction is added it heads the recent list, followed by the
      previous recent movements minus the oldest one when five were shown. */
  lemma RecentAfterAdd(t: Transaction, ts: seq<Transaction>)
    ensures |Recent([t] + ts)| == if |ts| < 4 then |ts| + 1 else 5
    ensures Recent([t] + ts) == [t] + Recent(ts)[..if |ts| < 4 then |ts| else 4]
  {
  }

  class DashboardForm {
    var showModal: Option<TransactionType>
    var description: string
    var amount: string
    var category: Category
    var accountId: string

    constructor (accounts: seq<BankAccount>)
      ensures showModal == None && description == "" && amount == "" && category == Outros
      ensures accountId == DefaultAccountId(accounts)
    {
      showModal := None;
      description := "";
      amount := "";
      category := Outros;
      accountId := DefaultAccountId(accounts);
    }

    /** The "Entrada" button: open the income modal with category `Renda`. */
    method OpenIncome()
      modifies this
      ensures showModal == Some(Income) && category == Renda
      ensures description == old(description) && amount == old(amount) && accountId == old(accountId)
    {
      showModal := Some(Income);
      category := Renda;
    }

    /** The "Gasto" button: open the expense modal; the category is left as it is. */
    method OpenExpense()
      modifies this
      ensures showModal == Some(Expense)
      ensures description == old(description) && amount == old(amount) && accountId == old(accountId) && category == old(category)
    {
      showModal := Some(Expense);
    }

    /** "Cancelar": close the modal, keeping what was typed. */
    method Cancel()
      modifies this
      ensures showModal == None
      ensures description == old(description) && amount == old(amount) && accountId == old(accountId) && category == old(category)
    {
      showModal := None;
    }

    /** The form's four inputs after their `onChange` handlers have run: each
        input holds the value given, and an input not touched is passed its
        current value. The modal stays as it is. */
    method Edit(newDescription: string, newAmount: string, newAccountId: string, newCategory: Category)
      modifies this
      ensures description == newDescription && amount == newAmount && accountId == newAccountId && category == newCategory
      ensures showModal == old(showModal)
    {
      description, amount, accountId, category := newDescription, newAmount, newAccountId, newCategory;
    }

    /** `handleAdd`: when the guards pass, record the transaction dated `now`
        with the fresh id, reset the form and close the modal; otherwise do nothing. */
    method HandleAdd(store: App.Store, now: CDate, freshId: string) returns (added: bool)
      requires store.Valid()
      modifies this, store
      ensures store.Valid()
      ensures added == old(Submission(showModal, description, amount, category, accountId, now)).Some?
      ensures !added ==> unchanged(this, store)
      ensures added ==>
        var sub := old(Submission(showModal, description, amount, category, accountId, now)).value;
        && store.transactions == [WithId(sub, freshId)] + old(store.transactions)
        && store.accounts == App.ApplyTransaction(old(store.accounts), sub)
      ensures added ==>
        && showModal == None && description == "" && amount == "" && category == Outros
        && accountId == DefaultAccountId(old(store.accounts))
    {
      var sub := Submission(showModal, description, amount, category, accountId, now);
      if sub.None? {
        return false;
      }
      var accountsShown := store.accounts;
      store.AddTransaction(sub.value, freshId);
      description, amount, category, accountId := "", "", Outros, DefaultAccountId(accountsShown);
      showModal := None;
      added := true;
    }
  }

  /** The category is only set to `Renda` by the income button and never reset
      by the expense button: opening income, cancelling and opening expense
      records an expense under `Renda`, which the category chart then leaves out. */
  method StaleIncomeCategory(store: App.Store, now: CDate, freshId: string)
    requires store.Valid() && store.accounts != []
    requires store.accounts[0].id != ""
    modifies store
    ensures store.transactions != [] && store.transactions[0].kind == Expense && store.transactions[0].category == Renda
  {
    var form := new DashboardForm(store.accounts);
    form.OpenIncome();
    form.Cancel();
    form.OpenExpense();
    form.Edit("Almoço", "25,90", form.accountId, form.category);
    ParseBRLDecimal("25", "90");
    assert "25" + [','] + "90" == "25,90";
    var added := form.HandleAdd(store, now, freshId);
    assert added;
    assert store.transactions[0].kind == Expense && store.transactions[0].category == Renda;
  }
}
