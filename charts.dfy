/** ChartsView.tsx: spending per category and the zero-filled series of the
    last seven days. */
module Charts {
  import opened Types
  import opened Calendar
  import opened Constants

  /** The spending recorded under one category; income never counts. */
  function CategoryTotal(ts: seq<Transaction>, c: Category): real {
    if ts == [] then 0.0
    else (if ts[0].kind == Expense && ts[0].category == c then ts[0].amount else 0.0) + CategoryTotal(ts[1..], c)
  }

  datatype CategorySlice = CategorySlice(name: Category, value: real)

  /** `CATEGORIES.filter(c => c !== 'Renda')`. */
  function WithoutIncome(cats: seq<Category>): (r: seq<Category>)
    ensures forall k :: 0 <= k < |r| ==> r[k] != Renda && r[k] in cats
  {
    if cats == [] then []
    else (if cats[0] == Renda then [] else [cats[0]]) + WithoutIncome(cats[1..])
  }

  /** `.map(cat => ({ name: cat, value: total }))`. */
  function Totals(cats: seq<Category>, ts: seq<Transaction>): (r: seq<CategorySlice>)
    ensures |r| == |cats|
    ensures forall k :: 0 <= k < |r| ==> r[k] == CategorySlice(cats[k], CategoryTotal(ts, cats[k]))
  {
    if cats == [] then [] else [CategorySlice(cats[0], CategoryTotal(ts, cats[0]))] + Totals(cats[1..], ts)
  }

  /** `.filter(d => d.value > 0)`. */
  function Positive(slices: seq<CategorySlice>): (r: seq<CategorySlice>)
    ensures forall k :: 0 <= k < |r| ==> r[k].value > 0.0 && r[k] in slices
    ensures forall k :: 0 <= k < |slices| && slices[k].value > 0.0 ==> slices[k] in r
  {
    if slices == [] then []
    else (if slices[0].value > 0.0 then [slices[0]] else []) + Positive(slices[1..])
  }

  /** `categoryData`: the pie chart's slices. */
  function CategoryData(ts: seq<Transaction>): seq<CategorySlice> {
    Positive(Totals(WithoutIncome(CATEGORIES), ts))
  }

  /** Slice names in strictly increasing position of the category list. */
  predicate InCategoryOrder(slices: seq<CategorySlice>) {
    forall i, j :: 0 <= i < j < |slices| ==> CategoryIndex(slices[i].name) < CategoryIndex(slices[j].name)
  }

  predicate CatsInOrder(cats: seq<Category>) {
    forall i, j :: 0 <= i < j < |cats| ==> CategoryIndex(cats[i]) < CategoryIndex(cats[j])
  }

  lemma {:induction false} WithoutIncomeKeepsOrder(cats: seq<Category>)
    requires CatsInOrder(cats)
    ensures CatsInOrder(WithoutIncome(cats))
  {
    if cats != [] {
      var tail := cats[1..];
      assert CatsInOrder(tail) by {
        forall i, j | 0 <= i < j < |tail| ensures CategoryIndex(tail[i]) < CategoryIndex(tail[j]) {
          assert tail[i] == cats[i + 1] && tail[j] == cats[j + 1];
        }
      }
      WithoutIncomeKeepsOrder(tail);
      var rest := WithoutIncome(tail);
      forall k | 0 <= k < |rest| ensures CategoryIndex(cats[0]) < CategoryIndex(rest[k]) {
        var m :| 0 <= m < |tail| && tail[m] == rest[k];
        assert cats[1 + m] == rest[k];
      }
      var r := WithoutIncome(cats);
      var off := |r| - |rest|;
      assert r == (if cats[0] == Renda then [] else [cats[0]]) + rest;
      forall i, j | 0 <= i < j < |r| ensures CategoryIndex(r[i]) < CategoryIndex(r[j]) {
        assert r[j] == rest[j - off];
        if i >= off {
          assert r[i] == rest[i - off];
        } else {
          assert r[i] == cats[0];
        }
      }
    }
  }

  lemma {:induction false} WithoutIncomeKeepsOthers(cats: seq<Category>, c: Category)
    requires c in cats && c != Renda
    ensures c in WithoutIncome(cats)
  {
    if cats[0] != c {
      WithoutIncomeKeepsOthers(cats[1..], c);
    }
  }

  lemma {:induction false} PositiveKeepsOrder(slices: seq<CategorySlice>)
    requires InCategoryOrder(slices)
    ensures InCategoryOrder(Positive(slices))
  {
    if slices != [] {
      var tail := slices[1..];
      assert InCategoryOrder(tail) by {
        forall i, j | 0 <= i < j < |tail| ensures CategoryIndex(tail[i].name) < CategoryIndex(tail[j].name) {
          assert tail[i] == slices[i + 1] && tail[j] == slices[j + 1];
        }
      }
      PositiveKeepsOrder(tail);
      var rest := Positive(tail);
      forall k | 0 <= k < |rest| ensures CategoryIndex(slices[0].name) < CategoryIndex(rest[k].name) {
        var m :| 0 <= m < |tail| && tail[m] == rest[k];
        assert slices[1 + m] == rest[k];
      }
      var r := Positive(slices);
      var off := |r| - |rest|;
      assert r == (if slices[0].value > 0.0 then [slices[0]] else []) + rest;
      forall i, j | 0 <= i < j < |r| ensures CategoryIndex(r[i].name) < CategoryIndex(r[j].name) {
        assert r[j] == rest[j - off];
        if i >= off {
          assert r[i] == rest[i - off];
        } else {
          assert r[i] == slices[0];
        }
      }
    }
  }

  /** Every slice is a category of the list other than `Renda`, with a strictly
      positive value equal to that category's spending. */
  lemma CategoryDataSound(ts: seq<Transaction>)
    ensures forall k :: 0 <= k < |CategoryData(ts)| ==>
      var s := CategoryData(ts)[k];
      s.name in CATEGORIES && s.name != Renda && s.value > 0.0 && s.value == CategoryTotal(ts, s.name)
  {
    var totals := Totals(WithoutIncome(CATEGORIES), ts);
    forall k | 0 <= k < |CategoryData(ts)|
      ensures CategoryData(ts)[k].value == CategoryTotal(ts, CategoryData(ts)[k].name)
      ensures CategoryData(ts)[k].name in CATEGORIES && CategoryData(ts)[k].name != Renda
    {
      var m :| 0 <= m < |totals| && totals[m] == CategoryData(ts)[k];
    }
  }

  /** Every category of the list with positive spending has its slice. */
  lemma CategoryDataComplete(ts: seq<Transaction>, c: Category)
    requires c in CATEGORIES && CategoryTotal(ts, c) > 0.0
    ensures CategorySlice(c, CategoryTotal(ts, c)) in CategoryData(ts)
  {
    var cats := WithoutIncome(CATEGORIES);
    var totals := Totals(cats, ts);
    CategoriesShape();
    WithoutIncomeKeepsOthers(CATEGORIES, c);
    var m :| 0 <= m < |cats| && cats[m] == c;
    assert totals[m] == CategorySlice(c, CategoryTotal(ts, c));
  }

  /** The slices follow the order of the category list. */
  lemma CategoryDataOrdered(ts: seq<Transaction>)
    ensures InCategoryOrder(CategoryData(ts))
  {
    CategoriesShape();
    assert CatsInOrder(CATEGORIES);
    WithoutIncomeKeepsOrder(CATEGORIES);
    PositiveKeepsOrder(Totals(WithoutIncome(CATEGORIES), ts));
  }

  /** Income transactions never reach a category total. */
  lemma {:induction false} IncomeNeverCounts(ts: seq<Transaction>, c: Category)
    requires forall i :: 0 <= i < |ts| ==> ts[i].kind == Income
    ensures CategoryTotal(ts, c) == 0.0
  {
    if ts != [] {
      IncomeNeverCounts(ts[1..], c);
    }
  }

  /** With only income recorded, the category chart is empty. */
  lemma OnlyIncomeNoSlices(ts: seq<Transaction>)
    requires forall i :: 0 <= i < |ts| ==> ts[i].kind == Income
    ensures CategoryData(ts) == []
  {
    CategoryDataSound(ts);
    if CategoryData(ts) != [] {
      IncomeNeverCounts(ts, CategoryData(ts)[0].name);
    }
  }

  datatype DayPoint = DayPoint(date: CDate, amount: real)

  /** The spending dated on one calendar day (`toDateString()` equality). */
  function DayTotal(ts: seq<Transaction>, d: CDate): real {
    if ts == [] then 0.0
    else (if ts[0].kind == Expense && ts[0].date == d then ts[0].amount else 0.0) + DayTotal(ts[1..], d)
  }

  /** `last7Days`: entry `i` is the day `today - (6 - i)` with its spending. */
  function Last7Days(ts: seq<Transaction>, today: CDate): seq<DayPoint>
    requires ValidDate(today)
  {
    seq(7, i requires 0 <= i < 7 => DayPoint(DaysBefore(today, 6 - i), DayTotal(ts, DaysBefore(today, 6 - i))))
  }

  /** Exactly seven entries, oldest first, each the day after the one before,
      the last one today, each with that day's spending. */
  lemma Last7DaysSpec(ts: seq<Transaction>, today: CDate)
    requires ValidDate(today)
    ensures |Last7Days(ts, today)| == 7
    ensures Last7Days(ts, today)[6].date == today
    ensures forall i :: 0 <= i < 7 ==> ValidDate(Last7Days(ts, today)[i].date)
    ensures forall i :: 0 <= i < 6 ==> NextDay(Last7Days(ts, today)[i].date) == Last7Days(ts, today)[i + 1].date
    ensures forall i, j :: 0 <= i < j < 7 ==> Before(Last7Days(ts, today)[i].date, Last7Days(ts, today)[j].date)
    ensures forall i :: 0 <= i < 7 ==> Last7Days(ts, today)[i].amount == DayTotal(ts, Last7Days(ts, today)[i].date)
  {
    var r := Last7Days(ts, today);
    forall i | 0 <= i < 6 ensures NextDay(r[i].date) == r[i + 1].date {
      assert r[i].date == PrevDay(DaysBefore(today, 5 - i));
      PrevNextInverse(DaysBefore(today, 5 - i));
    }
    forall i, j | 0 <= i < j < 7 ensures Before(r[i].date, r[j].date) {
      DaysBeforeOrder(today, 6 - j, 6 - i);
    }
  }

  lemma {:induction false} DaysBeforeOrder(d: CDate, a: nat, b: nat)
    requires ValidDate(d) && a < b
    ensures Before(DaysBefore(d, b), DaysBefore(d, a))
  {
    if b > a + 1 {
      DaysBeforeOrder(d, a, b - 1);
      BeforeTransitive(DaysBefore(d, b), DaysBefore(d, b - 1), DaysBefore(d, a));
    }
  }

  /** A day without spending reports 0 rather than disappearing. */
  lemma {:induction false} DayWithoutSpendingIsZero(ts: seq<Transaction>, d: CDate)
    requires forall i :: 0 <= i < |ts| && ts[i].kind == Expense ==> ts[i].date != d
    ensures DayTotal(ts, d) == 0.0
  {
    if ts != [] {
      DayWithoutSpendingIsZero(ts[1..], d);
    }
  }

  /** With no spending in the last week every entry is 0. */
  lemma QuietWeek(ts: seq<Transaction>, today: CDate)
    requires ValidDate(today)
    requires forall i :: 0 <= i < |ts| ==> ts[i].kind == Income
    ensures |Last7Days(ts, today)| == 7
    ensures forall i :: 0 <= i < 7 ==> Last7Days(ts, today)[i].amount == 0.0
  {
    forall i | 0 <= i < 7 ensures Last7Days(ts, today)[i].amount == 0.0 {
      DayWithoutSpendingIsZero(ts, DaysBefore(today, 6 - i));
    }
  }
}
