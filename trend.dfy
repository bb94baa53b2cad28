/**
 * The dashboard's time filter and sales trend (src/pages/dashboard/DashboardPage.tsx,
 * `getFilteredData` and `prepareTrendData`): sales and purchases are kept from a window
 * start onward, and the windowed sales are added into 8, 7 or 4 slots by age.
 */
module Trend {
  import opened Base
  import opened Schema
  import Seqs
  import Dashboard

  datatype TimeFilter = Daily | Weekly | Monthly

  /** The start of the window: a day, seven days or one calendar month before now. */
  function WindowStart(f: TimeFilter, clock: Clock): (start: Instant)
  {
    match f
    case Daily => clock.now - DAY
    case Weekly => clock.now - 7 * DAY
    case Monthly => clock.oneMonthAgo
  }

  predicate InWindow(f: TimeFilter, clock: Clock, t: Instant)
  {
    t >= WindowStart(f, clock)
  }

  function SaleInWindow(f: TimeFilter, clock: Clock): (p: Sale -> bool)
  {
    (s: Sale) => InWindow(f, clock, s.createdAt)
  }

  function PurchaseInWindow(f: TimeFilter, clock: Clock): (p: Purchase -> bool)
  {
    (s: Purchase) => InWindow(f, clock, s.createdAt)
  }

  /** `getFilteredData` */
  function FilteredSales(f: TimeFilter, clock: Clock, sales: seq<Sale>): (r: seq<Sale>)
  {
    Seqs.Filter(sales, SaleInWindow(f, clock))
  }

  function FilteredPurchases(f: TimeFilter, clock: Clock, purchases: seq<Purchase>): (r: seq<Purchase>)
  {
    Seqs.Filter(purchases, PurchaseInWindow(f, clock))
  }

  /**
   * The window keeps, in order, exactly the rows created at or after its start; and each
   * window holds the narrower ones: the last day lies within the last week, which lies within
   * the last month.
   */
  lemma WindowSpec(f: TimeFilter, clock: Clock, sales: seq<Sale>, purchases: seq<Purchase>)
    requires ClockValid(clock)
    ensures forall s :: s in FilteredSales(f, clock, sales) <==> s in sales && s.createdAt >= WindowStart(f, clock)
    ensures forall p :: p in FilteredPurchases(f, clock, purchases) <==> p in purchases && p.createdAt >= WindowStart(f, clock)
    ensures Seqs.IsSubsequence(FilteredSales(f, clock, sales), sales)
    ensures Seqs.IsSubsequence(FilteredPurchases(f, clock, purchases), purchases)
    ensures Seqs.IsSubsequence(FilteredSales(Daily, clock, sales), FilteredSales(Weekly, clock, sales))
    ensures Seqs.IsSubsequence(FilteredSales(Weekly, clock, sales), FilteredSales(Monthly, clock, sales))
  {
    forall s ensures s in FilteredSales(f, clock, sales) <==> s in sales && s.createdAt >= WindowStart(f, clock) {
      Seqs.FilterMembership(sales, SaleInWindow(f, clock), s);
    }
    forall p ensures p in FilteredPurchases(f, clock, purchases) <==> p in purchases && p.createdAt >= WindowStart(f, clock) {
      Seqs.FilterMembership(purchases, PurchaseInWindow(f, clock), p);
    }
    Seqs.FilterIsSubsequence(sales, SaleInWindow(f, clock));
    Seqs.FilterIsSubsequence(purchases, PurchaseInWindow(f, clock));
    Seqs.FilterNarrowing(sales, SaleInWindow(Daily, clock), SaleInWindow(Weekly, clock));
    Seqs.FilterNarrowing(sales, SaleInWindow(Weekly, clock), SaleInWindow(Monthly, clock));
  }

  /** The sales-versus-purchases bars: the totals of the windowed rows. */
  function ChartAmounts(f: TimeFilter, clock: Clock, sales: seq<Sale>, purchases: seq<Purchase>): (r: (real, real))
  {
    (Dashboard.SalesTotal(FilteredSales(f, clock, sales)), Dashboard.PurchasesTotal(FilteredPurchases(f, clock, purchases)))
  }

  /** When every row lies in the window, the bars show the same figures as the revenue and purchases cards. */
  lemma ChartAmountsAllInWindow(f: TimeFilter, clock: Clock, sales: seq<Sale>, purchases: seq<Purchase>)
    requires forall i :: 0 <= i < |sales| ==> sales[i].createdAt >= WindowStart(f, clock)
    requires forall i :: 0 <= i < |purchases| ==> purchases[i].createdAt >= WindowStart(f, clock)
    ensures ChartAmounts(f, clock, sales, purchases) == (Dashboard.SalesTotal(sales), Dashboard.PurchasesTotal(purchases))
  {
    Seqs.FilterAll(sales, SaleInWindow(f, clock));
    Seqs.FilterAll(purchases, PurchaseInWindow(f, clock));
  }

  // ---------------------------------------------------------------- trend slots

  function SlotCount(f: TimeFilter): (n: nat)
  {
    match f
    case Daily => 8
    case Weekly => 7
    case Monthly => 4
  }

  /** The age span one slot covers: three hours, a day, or a week. */
  function SlotWidth(f: TimeFilter): (w: int)
  {
    match f
    case Daily => 3 * HOUR
    case Weekly => DAY
    case Monthly => 7 * DAY
  }

  /**
   * The slot a sale created at `t` lands in, counted from the oldest slot: ages are floored
   * to whole hours then grouped by three, to whole days, or to whole days then grouped by
   * seven. Ages outside the slots, future dates included, land nowhere.
   */
  function Slot(f: TimeFilter, now: Instant, t: Instant): (k: Option<nat>)
  {
    var age := now - t;
    match f
    case Daily =>
      var index := (age / HOUR) / 3;
      if 0 <= index < 8 then Some(7 - index) else None
    case Weekly =>
      var days := age / DAY;
      if 0 <= days < 7 then Some(6 - days) else None
    case Monthly =>
      var weeks := (age / DAY) / 7;
      if 0 <= weeks < 4 then Some(3 - weeks) else None
  }

  /**
   * Slot k holds exactly the ages from (n − 1 − k) widths up to, not including, (n − k)
   * widths; a sale lands nowhere exactly when it is in the future or at least n widths old.
   */
  lemma SlotAges(f: TimeFilter, now: Instant, t: Instant, k: int)
    requires 0 <= k < SlotCount(f)
    ensures Slot(f, now, t) == Some(k) <==>
      (SlotCount(f) - 1 - k) * SlotWidth(f) <= now - t < (SlotCount(f) - k) * SlotWidth(f)
    ensures Slot(f, now, t).None? <==> now - t < 0 || now - t >= SlotCount(f) * SlotWidth(f)
  {
    var age := now - t;
    var n, w := SlotCount(f), SlotWidth(f);
    var index := if f.Weekly? then age / DAY else if f.Daily? then (age / HOUR) / 3 else (age / DAY) / 7;
    assert index == age / w by {
      if f.Daily? {
        NestedFloor(age, HOUR, 3);
      } else if f.Monthly? {
        NestedFloor(age, DAY, 7);
      }
    }
    assert Slot(f, now, t) == if 0 <= index < n then Some(n - 1 - index) else None;
    FloorRange(age, w, n - 1 - k);
    FloorAtLeast(age, w, n);
  }

  /** x floors to at least q by d exactly when x is at least q × d. */
  lemma FloorAtLeast(x: int, d: int, q: int)
    requires d > 0
    ensures x / d >= q <==> x >= q * d
  {
    if x >= q * d {
      var r := x - q * d;
      assert x == d * (q + r / d) + r % d;
      FloorUnique(x, d, q + r / d, r % d);
    } else {
      var r := q * d - x;
      assert x == d * (q - 1 - (r - 1) / d) + (d - 1 - (r - 1) % d);
      FloorUnique(x, d, q - 1 - (r - 1) / d, d - 1 - (r - 1) % d);
    }
  }

  /** x floors to q by d exactly when x lies in [q × d, (q + 1) × d). */
  lemma FloorRange(x: int, d: int, q: int)
    requires d > 0
    ensures x / d == q <==> q * d <= x < (q + 1) * d
    ensures x / d < 0 <==> x < 0
  {
    if q * d <= x < (q + 1) * d {
      FloorUnique(x, d, q, x - q * d);
    }
  }

  /** Flooring by a, then by b, floors by a × b. */
  lemma NestedFloor(x: int, a: int, b: int)
    requires a > 0 && b > 0
    ensures (x / a) / b == x / (a * b)
  {
    var q, r := x / a, x % a;
    var q2, r2 := q / b, q % b;
    assert x == a * q + r;
    assert q == b * q2 + r2;
    assert a * q == (a * b) * q2 + a * r2 by {
      Distribute(a, b * q2, r2);
      assert a * (b * q2) == (a * b) * q2;
    }
    assert a * r2 <= a * (b - 1) by {
      MulMonotone(a, r2, b - 1);
    }
    assert a * (b - 1) == a * b - a by {
      Distribute(a, b, -1);
    }
    FloorUnique(x, a * b, q2, a * r2 + r);
  }

  lemma Distribute(a: int, u: int, v: int)
    ensures a * (u + v) == a * u + a * v
  {
  }

  lemma MulMonotone(a: int, u: int, v: int)
    requires a > 0 && u <= v
    ensures a * u <= a * v
  {
  }

  lemma FloorUnique(x: int, d: int, q: int, r: int)
    requires d > 0 && x == d * q + r && 0 <= r < d
    ensures x / d == q
  {
    var m := x / d - q;
    assert d * m == r - x % d;
    if m >= 1 {
      MulAtLeast(d, m);
    } else if m <= -1 {
      MulAtLeast(d, -m);
    }
  }

  lemma MulAtLeast(d: int, m: int)
    requires d > 0 && m >= 1
    ensures d * m >= d
  {
  }

  /** One sale added into the slots, as the `forEach` body does. */
  function AddToTrend(slots: seq<real>, f: TimeFilter, now: Instant, sale: Sale): (r: seq<real>)
    requires |slots| == SlotCount(f)
  {
    match Slot(f, now, sale.createdAt)
    case Some(k) => slots[k := slots[k] + sale.total]
    case None => slots
  }

  /** The trend of a list of sales: zero slots, then each sale in turn. */
  function TrendOf(f: TimeFilter, now: Instant, sales: seq<Sale>): (r: seq<real>)
    ensures |r| == SlotCount(f)
  {
    if sales == [] then seq(SlotCount(f), _ => 0.0)
    else AddToTrend(TrendOf(f, now, sales[..|sales| - 1]), f, now, sales[|sales| - 1])
  }

  /** The total of the sales landing in slot k. */
  function SlotTotal(f: TimeFilter, now: Instant, sales: seq<Sale>, k: nat): (r: real)
  {
    if sales == [] then 0.0
    else SlotTotal(f, now, sales[..|sales| - 1], k) +
         (if Slot(f, now, sales[|sales| - 1].createdAt) == Some(k) then sales[|sales| - 1].total else 0.0)
  }

  /** The total of the sales landing in some slot. */
  function InRangeTotal(f: TimeFilter, now: Instant, sales: seq<Sale>): (r: real)
  {
    if sales == [] then 0.0
    else InRangeTotal(f, now, sales[..|sales| - 1]) +
         (if Slot(f, now, sales[|sales| - 1].createdAt).Some? then sales[|sales| - 1].total else 0.0)
  }

  function Sum(s: seq<real>): (r: real)
  {
    if s == [] then 0.0 else s[0] + Sum(s[1..])
  }

  lemma {:induction false} SumUpdate(s: seq<real>, k: int, v: real)
    requires 0 <= k < |s|
    ensures Sum(s[k := s[k] + v]) == Sum(s) + v
  {
    if k > 0 {
      SumUpdate(s[1..], k - 1, v);
      assert s[k := s[k] + v][1..] == s[1..][k - 1 := s[1..][k - 1] + v];
    }
  }

  lemma {:induction false} SumZeros(n: nat)
    ensures Sum(seq(n, _ => 0.0)) == 0.0
  {
    if n > 0 {
      assert seq(n, _ => 0.0)[1..] == seq(n - 1, _ => 0.0);
      SumZeros(n - 1);
    }
  }

  /**
   * Every slot starts at zero and ends holding exactly the total of the sales whose age falls
   * in it; each sale lands in at most one slot, so the slots add up to the total of the sales
   * that fell in range.
   */
  lemma {:induction false} TrendSpec(f: TimeFilter, now: Instant, sales: seq<Sale>)
    ensures forall k :: 0 <= k < SlotCount(f) ==> TrendOf(f, now, sales)[k] == SlotTotal(f, now, sales, k)
    ensures Sum(TrendOf(f, now, sales)) == InRangeTotal(f, now, sales)
  {
    if sales == [] {
      SumZeros(SlotCount(f));
    } else {
      var init := sales[..|sales| - 1];
      var last := sales[|sales| - 1];
      TrendSpec(f, now, init);
      match Slot(f, now, last.createdAt)
      case Some(k) => SumUpdate(TrendOf(f, now, init), k, last.total);
      case None =>
    }
  }

  lemma TrendOfStep(f: TimeFilter, now: Instant, sales: seq<Sale>, i: int)
    requires 0 <= i < |sales|
    ensures TrendOf(f, now, sales[..i + 1]) == AddToTrend(TrendOf(f, now, sales[..i]), f, now, sales[i])
  {
    assert sales[..i + 1][..i] == sales[..i];
  }

  /** One sale added, stated as the page's branches compute it: a slot index, and the slot it raises. */
  lemma TrendStep(before: seq<real>, f: TimeFilter, now: Instant, sale: Sale)
    requires |before| == SlotCount(f)
    ensures var age := now - sale.createdAt;
      var index := match f
        case Daily => (age / HOUR) / 3
        case Weekly => age / DAY
        case Monthly => (age / DAY) / 7;
      var slot := SlotCount(f) - 1 - index;
      AddToTrend(before, f, now, sale) ==
        if 0 <= index < SlotCount(f) then before[slot := before[slot] + sale.total] else before
  {
  }

  /** `data[index] += amount` */
  method AddAt(slots: array<real>, index: int, amount: real)
    requires 0 <= index < slots.Length
    modifies slots
    ensures slots[..] == old(slots[..])[index := old(slots[index]) + amount]
  {
    slots[index] := slots[index] + amount;
  }

  /**
   * `prepareTrendData`: a zero-filled array of 8, 7 or 4 slots, then each windowed sale's
   * total added into the slot its age selects.
   */
  method PrepareTrendData(f: TimeFilter, now: Instant, filtered: seq<Sale>) returns (data: seq<real>)
    ensures data == TrendOf(f, now, filtered)
  {
    var slots := new real[SlotCount(f)](_ => 0.0);
    for i := 0 to |filtered|
      invariant slots.Length == SlotCount(f)
      invariant slots[..] == TrendOf(f, now, filtered[..i])
    {
      TrendOfStep(f, now, filtered, i);
      ghost var before := slots[..];
      var sale := filtered[i];
      var age := now - sale.createdAt;
      match f {
        case Daily =>
          var index := (age / HOUR) / 3;
          TrendStep(before, f, now, sale);
          if 0 <= index < 8 {
            AddAt(slots, 7 - index, sale.total);
          }
        case Weekly =>
          var days := age / DAY;
          TrendStep(before, f, now, sale);
          if 0 <= days < 7 {
            AddAt(slots, 6 - days, sale.total);
          }
        case Monthly =>
          var weeks := (age / DAY) / 7;
          TrendStep(before, f, now, sale);
          if 0 <= weeks < 4 {
            AddAt(slots, 3 - weeks, sale.total);
          }
      }
    }
    assert filtered[..|filtered|] == filtered;
    data := slots[..];
  }

  /**
   * Window and slots disagree at the edges: a future sale, a sale exactly one day old under
   * the daily filter, and a sale between four weeks and a month old under the monthly filter
   * are all kept by the window yet land in no slot; within the slots' span every sale lands.
   */
  lemma WindowVersusSlots(clock: Clock, t: Instant)
    requires ClockValid(clock)
    ensures 0 <= clock.now - t < DAY ==> InWindow(Daily, clock, t) && Slot(Daily, clock.now, t).Some?
    ensures 0 <= clock.now - t < 7 * DAY ==> InWindow(Weekly, clock, t) && Slot(Weekly, clock.now, t).Some?
    ensures 0 <= clock.now - t < 28 * DAY ==> InWindow(Monthly, clock, t) && Slot(Monthly, clock.now, t).Some?
    ensures t > clock.now ==> forall f :: InWindow(f, clock, t) && Slot(f, clock.now, t).None?
    ensures clock.now - t == DAY ==> InWindow(Daily, clock, t) && Slot(Daily, clock.now, t).None?
    ensures 28 * DAY <= clock.now - t && t >= clock.oneMonthAgo ==>
      InWindow(Monthly, clock, t) && Slot(Monthly, clock.now, t).None?
  {
  }

  /** Weekly trend: a sale two days old lands in slot 4 of 7; one ten days old lands nowhere. */
  lemma WeeklyScenario(now: Instant)
    ensures Slot(Weekly, now, now - 2 * DAY) == Some(4)
    ensures Slot(Weekly, now, now - 10 * DAY) == None
  {
  }
}
