# nexo: a verified model of the finance app's core

nexo is a single-page personal-finance app. Users record income and expenses
against manually kept "bank accounts". They see the month's balance, spending
per category and over the last week, credit-card bills, their subscription
state and a small admin table. The parts modelled here are listed below, with
one Dafny module per source file:

- The in-memory store of `App.tsx` (module `App`, class `App.Store`): it
  prepends transactions, moves account balances, appends accounts and
  overwrites a balance by hand. A ghost baseline per account carries the
  reconciliation invariant: `balance == baseline + signed sum of the
  transactions that reference the account`. Every handler keeps it, and the
  baseline moves only when an account is added or its balance is overwritten.
- The Brazilian amount parser and the add-transaction form of `Dashboard.tsx`
  (module `Dashboard`, class `Dashboard.DashboardForm`).
- The new-bank and balance-adjustment modals of `AccountsView.tsx` (class
  `Accounts.AccountsForm`).
- The login / register / reset checks of `Registration.tsx` (function
  `Registration.Submit`, class `Registration.Screen`).
- The four-step questionnaire of `Onboarding.tsx` (class `Onboarding.Wizard`).
- The aggregations: `BalanceView.tsx` (module `Balance`), `ChartsView.tsx`
  (module `Charts`), `CardsView.tsx` (module `Cards`), `ProfileView.tsx`
  (module `Profile`) and `AdminView.tsx` (module `Admin`).
- `constants.ts` (module `Constants`): the category list, the colour table
  and the six-month window of `getDynamicMonthlyData`, which is a method with
  its loop.

Helper modules:

- `Types`: the records of `types.ts`.
- `Calendar`: Gregorian day stepping, for `Date.setDate`.
- `NumberText`: JavaScript `parseFloat` on fixed-point text.

Modelling choices:

- Money is an exact `real`.
- A transaction's date is the local calendar date it denotes: year, 0-based
  month and day.
- The subscription end and "now" in the profile page are integer milliseconds.
- Ids from `Date.now()` and draws of `Math.random()` are parameters.
- `parseFloat` returns `None` where JavaScript returns NaN.
- The model assumes that the number inputs of the accounts page hold an
  empty text or a valid floating-point number without an exponent: an optional `-`, then
  digits, a point and digits, or both (`5`, `.5`, `-0.25`). The class
  invariant `AccountsForm.Valid` states this.

About the store:

- The program has no transaction update or delete. The store accepts any
  amount; only the dashboard form requires a positive one.
- The reconciliation invariant holds relative to a per-account
  baseline. The baseline is set when the account is loaded or added, and is
  reset when the balance is overwritten. It is not the sum over all
  transactions.

Two behaviours the code shows and the model records:

- The income button sets the form's category to `Renda`, and the expense button
  never resets it. An expense entered after a cancelled income form is therefore
  stored under `Renda`, and the category chart never counts it
  (`Dashboard.StaleIncomeCategory`).
- Registering does not look at the stored users, so an e-mail already in use is
  accepted (`Registration.RegisterIgnoresUsers`).

## Model

| member | source | states |
|---|---|---|
| App.Store.constructor | App.tsx:25-33 | stored lists are used when present; otherwise no transactions and the single account `1` / "Carteira Principal" / 0 / `bg-purple-600`; the invariant holds from the start |
| App.Store.AddTransaction | App.tsx:53-68 | the list becomes the new transaction (every field plus the fresh id) followed by the old list; every account with the transaction's account id gains `+amount` (income) or `-amount` (expense); any other account is unchanged; length and order are kept; the reconciliation invariant is kept with the same baselines |
| App.Store.AddAccount | App.tsx:70-72 | exactly one account with the fresh id is appended; earlier accounts and the transactions are unchanged; the invariant is kept |
| App.Store.UpdateAccountBalance | App.tsx:74-76 | accounts with the id get the new balance and keep id, name and colour; others are unchanged; transactions are unchanged; the invariant is kept |
| App.ApplyTransaction | App.tsx:57-67 | the model of `addTransaction`'s `prev.map`; its own contract keeps the length, and `ApplyTransactionAt`, `ApplyTransactionNoMatch` and `TotalAfterTransaction` characterise it |
| App.SetBalance | App.tsx:75 | the model of `updateAccountBalance`'s map; its own contract keeps the length and every id in place, and `SetBalanceAt` characterises it |
| App.ApplyTransactionAt | App.tsx:57-67 | position by position: a matching account gains the signed amount with the same id, name and colour; a non-matching one is returned as it was |
| App.ApplyTransactionNoMatch | App.tsx:55-67 | when no account has the transaction's account id, the accounts stay exactly as they were |
| App.SetBalanceAt | App.tsx:75 | position by position, only accounts with the id get the new balance |
| App.TotalAfterTransaction | App.tsx:57-67 | the total balance moves by the signed amount once per account carrying the id: exactly once when ids are unique, not at all when none matches |
| App.AddTransactionReconciles | App.tsx:53-68 | adding a transaction keeps every account reconciled with its baseline |
| App.SetBalanceReconciles | App.tsx:74-76 | overwriting a balance keeps the invariant, moving only the overwritten accounts' baselines |
| App.AddAccountReconciles | App.tsx:70-72 | appending an account keeps the earlier accounts reconciled |
| App.CountId | App.tsx:58 | the number of accounts with an id is at most the number of accounts |
| Balance.TotalBalance | components/BalanceView.tsx:29 | the model of `totalBalance` (the same reduce as Dashboard.tsx:18); no contract of its own, characterised by `TotalBalanceAppend` and `App.TotalAfterTransaction` |
| Balance.MonthlyTotal | components/BalanceView.tsx:15-27 | the filter-and-reduce over one type in one month and year; no contract of its own, characterised by `MonthlyTotalAppend`, `MonthlyTotalPrepend` and `MonthlyTotalNonNegative` |
| Balance.MonthlyIncome | components/BalanceView.tsx:15-20 | the model of `totalIncomeMonth`: `MonthlyTotal` for income; no contract of its own |
| Balance.MonthlySpent | components/BalanceView.tsx:22-27 | the model of `totalSpentMonth` (also Dashboard.tsx:24-26): `MonthlyTotal` for expenses; no contract of its own |
| Balance.NetMonthly | components/BalanceView.tsx:30 | the model of `netMonthly`; no contract of its own, characterised by `NetMonthlyIsSignedSum` |
| Balance.NetMonthlyIsSignedSum | components/BalanceView.tsx:15-30 | net monthly (income minus spending of the current month and year) equals the signed sum of exactly the transactions dated in that month and year, so the other years' same month is excluded |
| Balance.MonthlyTotalAppend | components/BalanceView.tsx:15-27 | the monthly sums add up over a concatenation of transaction lists |
| Balance.MonthlyTotalPrepend | components/BalanceView.tsx:15-27 | prepending a transaction adds its amount to the sum of its own type and month, and nothing otherwise |
| Balance.MonthlyTotalNonNegative | components/BalanceView.tsx:15-27 | with non-negative amounts the monthly sums are non-negative |
| Balance.TotalBalanceAppend | components/BalanceView.tsx:29 | the total balance of a concatenation is the sum of the totals |
| Dashboard.ParseBRL | components/Dashboard.tsx:29-34 | the model of `parseBRL`; no contract of its own, characterised by the `ParseBRL…` lemma rows below |
| Dashboard.ParseBRLEmpty | components/Dashboard.tsx:30 | `parseBRL("")` is 0 |
| Dashboard.ParseBRLGrouped | components/Dashboard.tsx:32-33 | `"1.234,56"` is 1234.56 |
| Dashboard.ParseBRLNotANumber | components/Dashboard.tsx:33 | text `parseFloat` cannot read (`","`, `"abc"`) gives 0, never NaN |
| Dashboard.ParseBRLSecondComma | components/Dashboard.tsx:32 | only the first comma is replaced: `"1,2,3"` is 1.2 |
| Dashboard.ParseBRLDecimal | components/Dashboard.tsx:29-34 | digits, a comma and fraction digits give exactly the decimal they denote; either part may be empty but not both, so `",5"` is 0.5 and `"5,"` is 5 |
| Dashboard.ParseBRLStopsAtSecondComma | components/Dashboard.tsx:29-34 | for any text after a second comma, `w,f,rest` reads as `w,f`: only the first comma becomes the decimal point |
| Dashboard.ParseBRLInteger | components/Dashboard.tsx:29-34 | plain digits give the integer they denote |
| Dashboard.ParseBRLIgnoresDots | components/Dashboard.tsx:32 | dots never matter: removing them first changes nothing |
| Dashboard.RemoveDots | components/Dashboard.tsx:32 | the cleaned text holds no dot |
| Dashboard.RemoveDotsKeepsOthers | components/Dashboard.tsx:32 | every character other than `.` is kept, as often as it occurs |
| Dashboard.RemoveDotsAppend | components/Dashboard.tsx:32 | removing dots distributes over concatenation and keeps a single non-dot character, so the kept characters stay in order |
| Dashboard.ReplaceFirstCommaAt | components/Dashboard.tsx:32 | with `k` the first comma, the result is the text before it, a point, and the text after it unchanged |
| Dashboard.DefaultAccountId | components/Dashboard.tsx:15 | the form starts on the first account's id, or `""` with no accounts |
| Dashboard.Submission | components/Dashboard.tsx:36-47 | a transaction is produced iff the description is non-empty, the parsed amount is positive, an account is chosen and a modal is open; income always gets `Renda`, an expense keeps the chosen category; every other field is the form's |
| Dashboard.SubmissionEffects | components/Dashboard.tsx:18-26 | an accepted transaction dated today raises the month's spending (expense) or income by its amount only; with a unique account id the total balance moves by the signed amount |
| Dashboard.Recent | components/Dashboard.tsx:118 | the model of `transactions.slice(0, 5)`; no contract of its own, characterised by `RecentAfterAdd` |
| Dashboard.RecentAfterAdd | components/Dashboard.tsx:118 | after an add, the recent list is the new transaction followed by at most four earlier ones (at most five in all) |
| Dashboard.DashboardForm.constructor | components/Dashboard.tsx:14-15 | no modal, empty description and amount, category `Outros`, first account |
| Dashboard.DashboardForm.OpenIncome | components/Dashboard.tsx:61 | opens the income modal and sets the category to `Renda` |
| Dashboard.DashboardForm.OpenExpense | components/Dashboard.tsx:68 | opens the expense modal, leaving the category as it is |
| Dashboard.DashboardForm.Cancel | components/Dashboard.tsx:198 | closes the modal, keeping the typed values |
| Dashboard.DashboardForm.Edit | components/Dashboard.tsx:159-191 | the four inputs hold the values their `onChange` handlers gave (an untouched input is passed its current value), and the modal is kept |
| Dashboard.DashboardForm.HandleAdd | components/Dashboard.tsx:36-50 | when the guards pass, the store records the submission and the form is reset and closed; otherwise nothing changes |
| Dashboard.StaleIncomeCategory | components/Dashboard.tsx:61-68 | income, cancel, expense with a valid amount records an expense under `Renda` |
| Charts.CategoryData | components/ChartsView.tsx:12-17 | the model of `categoryData`: `Positive(Totals(WithoutIncome(CATEGORIES), ts))`; no contract of its own, characterised by `CategoryDataSound`, `CategoryDataComplete` and `CategoryDataOrdered` |
| Charts.CategoryTotal | components/ChartsView.tsx:13-15 | one category's expense total; no contract of its own, characterised by `IncomeNeverCounts` and `Totals` |
| Charts.CategoryDataSound | components/ChartsView.tsx:12-17 | every slice is a category of the list other than `Renda` with a strictly positive value equal to its expense total |
| Charts.CategoryDataComplete | components/ChartsView.tsx:12-17 | every listed category with a positive expense total has its slice |
| Charts.CategoryDataOrdered | components/ChartsView.tsx:12 | slices follow the order of `CATEGORIES` |
| Charts.IncomeNeverCounts | components/ChartsView.tsx:14 | income transactions never reach a category total |
| Charts.OnlyIncomeNoSlices | components/ChartsView.tsx:12-17 | with only income recorded the chart is empty |
| Charts.WithoutIncome | components/ChartsView.tsx:12 | the filtered category list never contains `Renda` |
| Charts.Positive | components/ChartsView.tsx:17 | exactly the slices with positive value are kept |
| Charts.Totals | components/ChartsView.tsx:12-16 | one slice per category holding its expense total |
| Charts.Last7Days | components/ChartsView.tsx:20-28 | the model of `last7Days`; no contract of its own, characterised by `Last7DaysSpec` |
| Charts.DayTotal | components/ChartsView.tsx:24-26 | one day's expense total; no contract of its own, characterised by `DayWithoutSpendingIsZero` and `QuietWeek` |
| Charts.Last7DaysSpec | components/ChartsView.tsx:19-28 | seven entries, oldest first, each the day after the previous one, the last today, each holding the expenses dated that day |
| Charts.DayWithoutSpendingIsZero | components/ChartsView.tsx:24-26 | a day without expenses reports 0 |
| Charts.QuietWeek | components/ChartsView.tsx:20-27 | with no expenses every one of the seven entries is 0 |
| Calendar.PrevDay | components/ChartsView.tsx:22 | the previous calendar day is a valid date strictly before |
| Calendar.NextDay | components/ChartsView.tsx:22 | the next calendar day is a valid date strictly after |
| Calendar.NoDateBetween | components/ChartsView.tsx:20-23 | no valid date lies strictly between a date and its next day, or between its previous day and the date |
| Calendar.PrevNextInverse | components/ChartsView.tsx:22 | stepping back a day and forward again returns the same date |
| Calendar.DaysBefore | components/ChartsView.tsx:22 | `k` days back is a valid date, strictly earlier when `k > 0` |
| Calendar.DaysInMonth | components/ChartsView.tsx:22 | a month has 28 to 31 days |
| Constants.CategoriesShape | constants.ts:4-12 | seven distinct categories in display order, `Renda` not among them |
| Constants.CategoryIndex | constants.ts:4-12 | a category's position in the list; `Renda` has none |
| Constants.CategoryColor | constants.ts:14-23 | every one of the eight categories, `Renda` included, has a colour of seven characters: `#` and six upper-case hexadecimal digits |
| Constants.CategoryColorsDistinct | constants.ts:14-23 | no two categories share a colour |
| Constants.NormalizeMonth | constants.ts:32 | `new Date(year, month, 1)` lands on a month in 0..11 of the same absolute month count |
| Constants.NormalizeStep | constants.ts:32 | normalising month + 1 is the month after, December wrapping to January of the next year |
| Constants.PlaceholderAmount | constants.ts:35 | the placeholder amount lies in 1500..3499 |
| Constants.DynamicMonthlyData | constants.ts:26-41 | six entries, the last the current month and year, consecutive entries one month apart, `month == months[fullMonth]`, `fullMonth` in 0..11, amounts in 1500..3499 |
| NumberText.ParseFloat | components/AccountsView.tsx:21 | the model of `parseFloat` on fixed-point text; no contract of its own, characterised by `NumberTextParses`, `FractionOnlyIsNumber` and the `Dashboard.ParseBRL…` lemmas |
| NumberText.IsNumberText | components/AccountsView.tsx:107-114 | the texts the model lets a number input hold (the exponent form is left out); no contract of its own, characterised by `NumberTextParses` and `FractionOnlyIsNumber` |
| NumberText.NumberTextParses | components/AccountsView.tsx:21 | `parseFloat` reads every valid number text without an exponent, with or without integer digits, completely to the value it denotes |
| NumberText.FractionOnlyIsNumber | components/AccountsView.tsx:21 | a point and digits, such as `".5"`, is a valid number text that `parseFloat` reads as that fraction |
| NumberText.NegativeFractionOnlyIsNumber | components/AccountsView.tsx:21 | the same with a minus sign, such as `"-.5"` |
| Accounts.NewAccount | components/AccountsView.tsx:17-23 | an account is produced iff the name and the balance text are non-empty; its colour is `bg-purple-600` and its balance is what `parseFloat` reads |
| Accounts.Adjustment | components/AccountsView.tsx:28-30 | an update is produced iff an account is selected and the value is non-empty; it targets that account's id |
| Accounts.AccountsForm.constructor | components/AccountsView.tsx:12-15 | no modal, no selection, empty texts |
| Accounts.AccountsForm.SetShowAdd | components/AccountsView.tsx:44 | opens or closes the new-bank modal, keeping the texts |
| Accounts.AccountsForm.EditNewAccount | components/AccountsView.tsx:104-114 | sets the name and balance texts |
| Accounts.AccountsForm.HandleAdd | components/AccountsView.tsx:17-26 | a no-op when the name or the balance is empty; otherwise exactly one account is appended and the form is cleared and closed |
| Accounts.AccountsForm.OpenAdjust | components/AccountsView.tsx:71 | selects the account and pre-fills its current balance |
| Accounts.AccountsForm.EditAdjustValue | components/AccountsView.tsx:145 | sets the adjustment text |
| Accounts.AccountsForm.CancelAdjust | components/AccountsView.tsx:150 | clears the selection |
| Accounts.AccountsForm.HandleAdjustSubmit | components/AccountsView.tsx:28-34 | a no-op unless an account is selected and the value is non-empty; otherwise the store overwrites that id's balance, and the selection and value are cleared |
| Accounts.AdjustWithoutEditingKeepsBalance | components/AccountsView.tsx:28-34 | submitting the pre-filled value leaves the account as it was |
| Registration.FindIndex | components/Registration.tsx:30 | `find` returns the first element satisfying the test, or none when no element does |
| Registration.Submit | components/Registration.tsx:25-63 | login succeeds iff some user has the same e-mail and password, otherwise the login error; register rejects an empty name, e-mail or password, then a password shorter than 6, else passes the form on; reset rejects an unknown e-mail first, then a mismatched confirmation, then a length below 6, else resets with the success message; only the mode's own callback can fire, and an error message appears exactly when none fires |
| Registration.RegisterIgnoresPhone | components/Registration.tsx:37-44 | the phone never affects the register verdict |
| Registration.RegisterIgnoresUsers | components/Registration.tsx:36-45 | registering does not consult the stored users |
| Registration.NoPasswordNoLogin | components/Registration.tsx:30 | a user stored without a password cannot log in |
| Registration.UnknownEmailFirst | components/Registration.tsx:47-51 | with an unknown e-mail neither the confirmation nor the password length matters |
| Registration.Screen.constructor | components/Registration.tsx:15-23 | opens in register mode with an empty form and no message |
| Registration.Screen.Edit | components/Registration.tsx:107-171 | replaces the form fields |
| Registration.Screen.SwitchMode | components/Registration.tsx:153-199 | the links switch mode and clear the message |
| Registration.Screen.HandleSubmit | components/Registration.tsx:25-63 | the message shown and the callback fired are those of `Submit` for the current mode and form, whatever the previous message was |
| Onboarding.Wizard.constructor | components/Onboarding.tsx:10-15 | starts at step 1 with every answer empty |
| Onboarding.Wizard.ChooseHabit | components/Onboarding.tsx:28-31 | stores the chosen option and advances the step by exactly 1 |
| Onboarding.Wizard.ChooseBurden | components/Onboarding.tsx:47-55 | stores the option's label (not its value code) and advances by 1 |
| Onboarding.Wizard.ChooseGoal | components/Onboarding.tsx:71-78 | stores the chosen option and advances by 1 |
| Onboarding.Wizard.Complete | components/Onboarding.tsx:99-100 | only from step 4; hands on all three answers, each one of its question's options |
| Onboarding.Run | components/Onboarding.tsx:10-100 | three clicks and completion yield exactly the three chosen answers |
| Onboarding.RenderStep | components/Onboarding.tsx:19-109 | a screen for steps 1..4 and nothing for any other step |
| Onboarding.Progress | components/Onboarding.tsx:120-122 | four segments, segment `i` lit iff `step >= i`, lit ones forming a prefix |
| Onboarding.BurdenLabelsAreNotCodes | components/Onboarding.tsx:47-55 | no label of step 2 equals a value code |
| Cards.DaysToDue | components/CardsView.tsx:29 | `card.dueDay - currentDay`; no contract of its own |
| Cards.IsDueSoon | components/CardsView.tsx:30 | due in 0 to 5 days; no contract of its own, characterised by `PassedDueNeverNotifies` and `DueSoonNotices` |
| Cards.PassedDueNeverNotifies | components/CardsView.tsx:29-31 | a card whose due day has passed this month never notifies |
| Cards.DueSoonNotices | components/CardsView.tsx:28-44 | each notice is a card due in 0..5 days with that count; every due-soon card has its notice |
| Cards.NoticesDistribute | components/CardsView.tsx:28-44 | notices of consecutive runs of cards follow each other, so they keep the cards' order |
| Cards.BillTotal | components/CardsView.tsx:49-50 | the model of `billTotal`; no contract of its own, characterised by the `BillTotal…` lemma rows below |
| Cards.BillTotalAppend | components/CardsView.tsx:49-50 | bills add up over a concatenation of expense lists |
| Cards.BillTotalAdd | components/CardsView.tsx:49-50 | an expense on another card leaves the bill unchanged; one on this card adds its amount |
| Cards.BillTotalNoExpenses | components/CardsView.tsx:49-50 | a card without expenses has a zero bill |
| Cards.BillTotalNonNegative | components/CardsView.tsx:49-50 | non-negative expenses give a non-negative bill |
| Cards.LimitPercentage | components/CardsView.tsx:51 | the model of `limitPercentage`: `Divide` and then times 100; no contract of its own, characterised by `BarWidthInRange` and `BarWidthZeroLimit` |
| Cards.Divide | components/CardsView.tsx:51 | division by a zero limit gives an infinity or NaN, as JavaScript does |
| Cards.Min100 | components/CardsView.tsx:79 | `Math.min(x, 100)` is never above 100 and never +Infinity |
| Cards.BarWidth | components/CardsView.tsx:51-79 | the bar width is never above 100 |
| Cards.BarWidthInRange | components/CardsView.tsx:51-79 | with a positive limit and non-negative bill the width is the share of the limit used in percent, or 100 once the limit is reached |
| Cards.BarWidthZeroLimit | components/CardsView.tsx:51-79 | a zero limit gives a full bar with spending and NaN without |
| Profile.SummaryOf | components/ProfileView.tsx:11-17 | nothing for a null profile; `N/A` iff there is no end date; the warning shows iff an end date exists and `end - now < 432000000` ms; the phone line shows iff a non-empty phone exists |
| Profile.NoEndNoWarning | components/ProfileView.tsx:13-17 | without an end date there is no warning |
| Profile.ExpiredWarns | components/ProfileView.tsx:17 | an expired subscription warns too |
| Profile.FarEndNoWarning | components/ProfileView.tsx:17 | an end five days away or more shows no warning |
| Profile.WarningPersists | components/ProfileView.tsx:17 | once shown, the warning keeps showing as time passes |
| Admin.IsPremium | components/AdminView.tsx:12 | `hasPaid` is truthy only when present and true; no contract of its own, characterised by `MissingPaidIsFree` |
| Admin.PremiumUsers | components/AdminView.tsx:12 | the premium count is at most the number of users, and zero iff no user has `hasPaid` true |
| Admin.PremiumAndFreeCover | components/AdminView.tsx:11-13 | premium and free users together are all users |
| Admin.FreeUsers | components/AdminView.tsx:13 | `total - premium` is never negative and equals the number of users without a paid plan |
| Admin.MissingPaidIsFree | components/AdminView.tsx:12 | a missing `hasPaid` counts as free, like `false` |
| Admin.PremiumUsersAppend | components/AdminView.tsx:12 | premium counts add up over a concatenation |
| Admin.PlanLabel | components/AdminView.tsx:90 | `Premium` or `Free Trial`; no contract of its own, characterised by `RowOf` and `LabelsDependOnlyOnPaid` |
| Admin.StatusLabel | components/AdminView.tsx:97 | `Ativo` or `Inativo`; no contract of its own, characterised by `RowOf` and `LabelsDependOnlyOnPaid` |
| Admin.PhoneText | components/AdminView.tsx:86 | the phone, or `Nenhum telefone` when it is missing or empty; no contract of its own |
| Admin.RowOf | components/AdminView.tsx:80-97 | the row's id is `idx + 1001`; plan "Premium" and status "Ativo" iff the user has paid |
| Admin.Rows | components/AdminView.tsx:71 | one row per user, in order |
| Admin.DisplayIdsDistinct | components/AdminView.tsx:80 | display ids start at 1001 and never repeat |
| Admin.LabelsDependOnlyOnPaid | components/AdminView.tsx:89-97 | plan and status labels depend only on `hasPaid` |
| Admin.PremiumCountsPremiumRows | components/AdminView.tsx:12-90 | the premium count is the number of rows labelled "Premium" |
| Admin.PremiumCountsPremiumIndices | components/AdminView.tsx:12 | the premium count equals the number of positions holding a premium user |
| Types.CategoryNamesDistinct | types.ts:2 | distinct categories have distinct stored names |

## Left out

- Persistence: the `localStorage` reads and writes and the JSON encoding in `App.tsx` are I/O. The constructor of `App.Store` takes the decoded lists.
- Rendering: all JSX and styling, the recharts charts, the percentage shares of the balance page, and `Sidebar.tsx` and `Payment.tsx`.
- Formatting: `toLocaleString`, `toLocaleDateString`, `toFixed`, the weekday labels of the seven-day chart and the `Intl` month name on the dashboard.
- `Login.tsx` is not part of this model: it imports a user list that `constants.ts` does not define. `AdminLogin.tsx` is a single hard-coded comparison and is not modelled either.
- Timers: the three-second `setTimeout` after a password reset, which returns to login mode and clears the passwords, is not modelled. `Registration.Screen.HandleSubmit` leaves the mode and the form as they are.
- The HTML `required` attributes and the `type="email"` input on the registration screen are not modelled: the browser blocks an empty field or a malformed e-mail before `handleSubmit` runs, while `Registration.Submit` accepts any text and models only the handler's own checks.
- Time zones: dates arrive as local calendar fields, and the ISO string written by `new Date().toISOString()` is taken to denote the local date `now`. The subscription end date text is given as milliseconds, so an empty or unparseable date text is not modelled.
- Floating point: every amount is an exact real. Rounding, `-0` and overflow are not modelled.
- `NumberText.ParseFloat` reads only an optional sign, digits and an optional fraction. Leading whitespace, exponents and `Infinity` are not modelled.
- NumberText.IsNumberText: the exponent form of a valid floating-point number (`1e3`, `2.5E-1`) is not accepted, because `ParseFloat` does not read exponents. `Accounts.NewAccount`, `Accounts.Adjustment` and the methods of `Accounts.AccountsForm` therefore do not cover a number input that holds an exponent.
- String length: `|s|` counts characters, while JavaScript's `length` counts UTF-16 code units. Passwords made only of BMP characters agree.
- `Accounts.AccountsForm.OpenAdjust`: the text `balance.toString()` is a parameter. It must read back as the balance, and floating-point printing is not modelled.
- Clock ids and randomness: ids from `Date.now()` and draws of `Math.random()` are parameters. Their freshness is not modelled.
- Transaction update and delete do not exist in the code, so they are not modelled. The reconciliation invariant of `App.Store` says the balances reflect only additions, loading and manual overrides.
