/** constants.ts: the category list, the colour table and the six-month window
    behind the dashboard's history chart. */
module Constants {
  import opened Types

  /** The categories offered for expenses, in display order. */
  const CATEGORIES: seq<Category> := [Alimentacao, Transporte, Moradia, Lazer, Saude, Educacao, Outros]

  /** Position of a category in the display order; `Renda` comes last. */
  function CategoryIndex(c: Category): (k: nat)
    ensures k < 8
    ensures k < |CATEGORIES| ==> CATEGORIES[k] == c
    ensures c != Renda <==> k < |CATEGORIES|
  {
    match c
    case Alimentacao => 0
    case Transporte => 1
    case Moradia => 2
    case Lazer => 3
    case Saude => 4
    case Educacao => 5
    case Outros => 6
    case Renda => 7
  }

  /** Exactly seven categories, all different, and the income category is not one of them. */
  lemma CategoriesShape()
    ensures |CATEGORIES| == 7 && Renda !in CATEGORIES
    ensures forall c :: c in CATEGORIES <==> c != Renda
    ensures forall k :: 0 <= k < |CATEGORIES| ==> CategoryIndex(CATEGORIES[k]) == k
  {
  }

  /** An upper-case hexadecimal digit. */
  predicate IsHexDigit(c: char) {
    '0' <= c <= '9' || 'A' <= c <= 'F'
  }

  /** The colour of every category, `Renda` included: a `#RRGGBB` hex code. */
  function CategoryColor(c: Category): (col: string)
    ensures |col| == 7 && col[0] == '#'
    ensures forall i :: 1 <= i < 7 ==> IsHexDigit(col[i])
  {
    match c
    case Alimentacao => "#C084FC"
    case Transporte => "#818CF8"
    case Moradia => "#A78BFA"
    case Lazer => "#F472B6"
    case Saude => "#F87171"
    case Educacao => "#34D399"
    case Outros => "#94A3B8"
    case Renda => "#10B981"
  }

  /** No two categories share a colour. */
  lemma CategoryColorsDistinct(a: Category, b: Category)
    ensures CategoryColor(a) == CategoryColor(b) <==> a == b
  {
  }

  const MONTH_NAMES: seq<string> := ["Jan", "Fev", "Mar", "Abr", "Mai", "Jun", "Jul", "Ago", "Set", "Out", "Nov", "Dez"]

  /** `new Date(year, month, 1)` for any integer `month`: the year and the month
      index in 0..11 it normalises to. Dafny's `/` and `%` by a positive divisor
      round down, as the Date constructor does. */
  function NormalizeMonth(year: int, month: int): (ym: (int, int))
    ensures 0 <= ym.1 < 12
    ensures 12 * ym.0 + ym.1 == 12 * year + month
  {
    (year + month / 12, month % 12)
  }

  /** The month after (year, month). */
  function NextMonth(year: int, month: int): (int, int) {
    if month == 11 then (year + 1, 0) else (year, month + 1)
  }

  /** Normalising the month after is the month after normalising. */
  lemma NormalizeStep(year: int, month: int)
    ensures NextMonth(NormalizeMonth(year, month).0, NormalizeMonth(year, month).1) == NormalizeMonth(year, month + 1)
  {
    var (y0, m0) := NormalizeMonth(year, month);
    var (y1, m1) := NormalizeMonth(year, month + 1);
    assert 12 * y1 + m1 == 12 * y0 + m0 + 1;
    if m0 == 11 {
      assert 12 * y1 + m1 == 12 * (y0 + 1);
      assert y1 == y0 + 1 && m1 == 0;
    } else {
      assert 12 * y1 + m1 == 12 * y0 + (m0 + 1);
      assert y1 == y0 && m1 == m0 + 1;
    }
  }

  datatype MonthPoint = MonthPoint(month: string, amount: int, fullMonth: int, year: int)

  /** The placeholder chart value `Math.floor(r * 2000) + 1500` for a draw `r` of `Math.random()`. */
  function PlaceholderAmount(r: real): (a: int)
    requires 0.0 <= r < 1.0
    ensures 1500 <= a <= 3499
  {
    (r * 2000.0).Floor + 1500
  }

  /** The point for the month `back` months before (nowYear, nowMonth). */
  function MonthPointAt(nowYear: int, nowMonth: int, back: int, r: real): MonthPoint
    requires 0.0 <= r < 1.0
  {
    var ym := NormalizeMonth(nowYear, nowMonth - back);
    MonthPoint(MONTH_NAMES[ym.1], PlaceholderAmount(r), ym.1, ym.0)
  }

  /** `getDynamicMonthlyData`: the six months ending with the current one,
      oldest first. `rand` holds the six draws of `Math.random()` in call order. */
  method DynamicMonthlyData(nowYear: int, nowMonth: int, rand: seq<real>) returns (data: seq<MonthPoint>)
    requires 0 <= nowMonth < 12
    requires |rand| == 6 && forall k :: 0 <= k < 6 ==> 0.0 <= rand[k] < 1.0
    ensures |data| == 6
    ensures forall k :: 0 <= k < 6 ==> data[k] == MonthPointAt(nowYear, nowMonth, 5 - k, rand[k])
    ensures data[5].fullMonth == nowMonth && data[5].year == nowYear
    ensures forall k :: 0 <= k < 5 ==> NextMonth(data[k].year, data[k].fullMonth) == (data[k + 1].year, data[k + 1].fullMonth)
    ensures forall k :: 0 <= k < 6 ==>
      0 <= data[k].fullMonth < 12 && data[k].month == MONTH_NAMES[data[k].fullMonth] && 1500 <= data[k].amount <= 3499
  {
    data := [];
    var i := 5;
    while i >= 0
      invariant -1 <= i <= 5
      invariant |data| == 5 - i
      invariant forall k :: 0 <= k < |data| ==> data[k] == MonthPointAt(nowYear, nowMonth, 5 - k, rand[k])
    {
      var ym := NormalizeMonth(nowYear, nowMonth - i);
      data := data + [MonthPoint(MONTH_NAMES[ym.1], PlaceholderAmount(rand[5 - i]), ym.1, ym.0)];
      i := i - 1;
    }
    forall k | 0 <= k < 5
      ensures NextMonth(data[k].year, data[k].fullMonth) == (data[k + 1].year, data[k + 1].fullMonth)
    {
      NormalizeStep(nowYear, nowMonth - (5 - k));
    }
  }
}
