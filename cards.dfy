/** CardsView.tsx: due-date notices, each card's bill and its usage bar. */
module Cards {
  import opened Types

  /** Days left until the due day, counted within the current month only. */
  function DaysToDue(card: CreditCard, currentDay: int): int {
    card.dueDay - currentDay
  }

  /** `isDueSoon`. */
  predicate IsDueSoon(card: CreditCard, currentDay: int) {
    0 <= DaysToDue(card, currentDay) <= 5
  }

  /** A card whose due day has already passed this month never notifies, even
      when the next due date is a few days away across the month boundary. */
  lemma PassedDueNeverNotifies(card: CreditCard, currentDay: int)
    requires card.dueDay < currentDay
    ensures !IsDueSoon(card, currentDay)
  {
  }

  /** One "Fatura … vencendo!" notice. */
  datatype Notice = Notice(card: CreditCard, daysToDue: int)

  /** The notices section: one notice per due-soon card (the `map` returning
      `null` for the others). */
  function DueSoonNotices(cards: seq<CreditCard>, currentDay: int): (r: seq<Notice>)
    ensures |r| <= |cards|
    ensures forall k :: 0 <= k < |r| ==>
      r[k].card in cards && IsDueSoon(r[k].card, currentDay) && r[k].daysToDue == r[k].card.dueDay - currentDay
    ensures forall k :: 0 <= k < |r| ==> 0 <= r[k].daysToDue <= 5
    ensures forall i :: 0 <= i < |cards| && IsDueSoon(cards[i], currentDay) ==>
      Notice(cards[i], cards[i].dueDay - currentDay) in r
  {
    if cards == [] then []
    else
      var rest := DueSoonNotices(cards[1..], currentDay);
      var r := (if IsDueSoon(cards[0], currentDay) then [Notice(cards[0], DaysToDue(cards[0], currentDay))] else []) + rest;
      assert forall i :: 1 <= i < |cards| ==> cards[i] == cards[1..][i - 1];
      r
  }

  /** The notices of two runs of cards are the notices of the first run
      followed by those of the second, so they keep the order of the cards. */
  lemma {:induction false} NoticesDistribute(a: seq<CreditCard>, b: seq<CreditCard>, currentDay: int)
    ensures DueSoonNotices(a + b, currentDay) == DueSoonNotices(a, currentDay) + DueSoonNotices(b, currentDay)
  {
    if a == [] {
      assert a + b == b;
    } else {
      assert (a + b)[1..] == a[1..] + b;
      NoticesDistribute(a[1..], b, currentDay);
    }
  }

  /** `billTotal`: the sum of the expenses charged to the card. */
  function BillTotal(expenses: seq<CardExpense>, cardId: string): real {
    if expenses == [] then 0.0
    else (if expenses[0].cardId == cardId then expenses[0].amount else 0.0) + BillTotal(expenses[1..], cardId)
  }

  lemma {:induction false} BillTotalAppend(a: seq<CardExpense>, b: seq<CardExpense>, cardId: string)
    ensures BillTotal(a + b, cardId) == BillTotal(a, cardId) + BillTotal(b, cardId)
  {
    if a == [] {
      assert a + b == b;
    } else {
      assert (a + b)[1..] == a[1..] + b;
      BillTotalAppend(a[1..], b, cardId);
    }
  }

  /** An expense charged to another card leaves the bill as it was; one charged
      to this card adds exactly its amount. */
  lemma BillTotalAdd(expenses: seq<CardExpense>, e: CardExpense, cardId: string)
    ensures e.cardId != cardId ==> BillTotal(expenses + [e], cardId) == BillTotal(expenses, cardId)
    ensures e.cardId == cardId ==> BillTotal(expenses + [e], cardId) == BillTotal(expenses, cardId) + e.amount
  {
    BillTotalAppend(expenses, [e], cardId);
  }

  /** A card with no expenses of its own has a zero bill. */
  lemma {:induction false} BillTotalNoExpenses(expenses: seq<CardExpense>, cardId: string)
    requires forall k :: 0 <= k < |expenses| ==> expenses[k].cardId != cardId
    ensures BillTotal(expenses, cardId) == 0.0
  {
    if expenses != [] {
      BillTotalNoExpenses(expenses[1..], cardId);
    }
  }

  lemma {:induction false} BillTotalNonNegative(expenses: seq<CardExpense>, cardId: string)
    requires forall k :: 0 <= k < |expenses| ==> expenses[k].amount >= 0.0
    ensures BillTotal(expenses, cardId) >= 0.0
  {
    if expenses != [] {
      BillTotalNonNegative(expenses[1..], cardId);
    }
  }

  /** A JavaScript number as far as the usage bar needs it: a finite value, an
      infinity (division by a zero limit) or NaN (`0 / 0`). */
  datatype Number = Finite(v: real) | PosInf | NegInf | NaN

  /** `billTotal / card.limit`, following IEEE division by zero. */
  function Divide(a: real, b: real): (r: Number)
    ensures b != 0.0 ==> r == Finite(a / b)
    ensures b == 0.0 ==> (r == PosInf <==> a > 0.0) && (r == NegInf <==> a < 0.0) && (r == NaN <==> a == 0.0)
  {
    if b != 0.0 then Finite(a / b)
    else if a > 0.0 then PosInf
    else if a < 0.0 then NegInf
    else NaN
  }

  function Times100(x: Number): Number {
    match x
    case Finite(v) => Finite(v * 100.0)
    case _ => x
  }

  /** `Math.min(x, 100)`: NaN stays NaN, +Infinity becomes 100. */
  function Min100(x: Number): (r: Number)
    ensures r != PosInf
    ensures r.Finite? ==> r.v <= 100.0
    ensures x.Finite? ==> r.Finite? && (r.v == x.v || r.v == 100.0)
  {
    match x
    case Finite(v) => Finite(if v < 100.0 then v else 100.0)
    case PosInf => Finite(100.0)
    case _ => x
  }

  /** `limitPercentage`. */
  function LimitPercentage(billTotal: real, limit: real): Number {
    Times100(Divide(billTotal, limit))
  }

  /** The bar's width in percent. */
  function BarWidth(billTotal: real, limit: real): (w: Number)
    ensures w != PosInf
    ensures w.Finite? ==> w.v <= 100.0
  {
    Min100(LimitPercentage(billTotal, limit))
  }

  /** With a positive limit and a non-negative bill the bar is a number between
      0 and 100: the share of the limit used, or full once the limit is reached. */
  lemma BarWidthInRange(billTotal: real, limit: real)
    requires limit > 0.0 && billTotal >= 0.0
    ensures BarWidth(billTotal, limit).Finite?
    ensures 0.0 <= BarWidth(billTotal, limit).v <= 100.0
    ensures billTotal < limit ==> BarWidth(billTotal, limit).v == billTotal / limit * 100.0
    ensures billTotal >= limit ==> BarWidth(billTotal, limit).v == 100.0
  {
    var q := billTotal / limit;
    assert q * limit == billTotal;
    if billTotal < limit {
      if q >= 1.0 {
        assert false;
      }
    } else {
      if q < 1.0 {
        assert false;
      }
    }
  }

  /** A zero limit gives a full bar when something was spent and no number at
      all (NaN) when nothing was. */
  lemma BarWidthZeroLimit(billTotal: real)
    ensures billTotal > 0.0 ==> BarWidth(billTotal, 0.0) == Finite(100.0)
    ensures billTotal == 0.0 ==> BarWidth(billTotal, 0.0) == NaN
  {
  }
}
