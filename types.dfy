/** The records of types.ts. Timestamps arrive already decomposed into local
    calendar fields (`CDate`) or, for the subscription end, as milliseconds. */
module Types {

  datatype Option<+T> = None | Some(value: T) {
    function GetOr(default: T): T {
      match this
      case Some(v) => v
      case None => default
    }
  }

  /** The category union of types.ts; `Renda` is the income-only category. */
  datatype Category = Alimentacao | Transporte | Moradia | Lazer | Saude | Educacao | Outros | Renda

  /** The string each category has in the stored records. */
  function CategoryName(c: Category): string {
    match c
    case Alimentacao => "Alimentação"
    case Transporte => "Transporte"
    case Moradia => "Moradia"
    case Lazer => "Lazer"
    case Saude => "Saúde"
    case Educacao => "Educação"
    case Outros => "Outros"
    case Renda => "Renda"
  }

  /** Distinct categories have distinct stored names. */
  lemma CategoryNamesDistinct(a: Category, b: Category)
    ensures CategoryName(a) == CategoryName(b) <==> a == b
  {
  }

  datatype TransactionType = Expense | Income

  /** A local calendar date: `month` is 0-based, as `Date.getMonth()` returns it. */
  datatype CDate = CDate(year: int, month: int, day: int)

  datatype Transaction = Transaction(
    id: string,
    kind: TransactionType,
    amount: real,
    description: string,
    category: Category,
    date: CDate,
    accountId: string)

  /** `Omit<Transaction, 'id'>`: what a form hands to the store. */
  datatype TransactionInput = TransactionInput(
    kind: TransactionType,
    amount: real,
    description: string,
    category: Category,
    date: CDate,
    accountId: string)

  /** The stored transaction: every supplied field plus the given id. */
  function WithId(t: TransactionInput, id: string): Transaction {
    Transaction(id, t.kind, t.amount, t.description, t.category, t.date, t.accountId)
  }

  datatype BankAccount = BankAccount(id: string, name: string, balance: real, color: string)

  /** `Omit<BankAccount, 'id'>`. */
  datatype AccountInput = AccountInput(name: string, balance: real, color: string)

  datatype OnboardingData = OnboardingData(anotaGastos: string, maiorPeso: string, objetivo: string)

  /** Optional fields of the TypeScript interface are `Option`s; `subscriptionEnd`
      is the end date in milliseconds since the epoch. */
  datatype UserProfile = UserProfile(
    name: string,
    email: string,
    password: Option<string>,
    phone: Option<string>,
    onboardingData: Option<OnboardingData>,
    hasPaid: Option<bool>,
    subscriptionEnd: Option<int>)

  datatype CreditCard = CreditCard(
    id: string,
    name: string,
    limit: real,
    dueDay: int,
    closingDay: int,
    lastFour: string,
    color: string)

  /** The `Expense` interface of types.ts (a credit-card purchase). */
  datatype CardExpense = CardExpense(id: string, cardId: string, amount: real, description: string, date: CDate)
}
