/**
  What the replay of an asset's transactions guarantees: how one BUY and one
  SELL change the holding, the shape the lot list keeps over a validated,
  date-ordered history, the cash identity behind the realized result, and how
  far the quantity held can drift from what the lots hold.
 */
module ValuationProperties {
  import opened Wrappers
  import opened Models
  import opened Validation
  import opened Lots
  import opened Valuation

  /**
    A history as the store holds it: every transaction passed validation and
    the transactions come in date order.
   */
  predicate ValidHistory(transactions: seq<Transaction>) {
    (forall i :: 0 <= i < |transactions| ==>
       Acceptable(transactions[i].quantity, transactions[i].pricePerUnit, FeesOf(transactions[i])))
    && (forall i, j :: 0 <= i < j < |transactions| ==>
          transactions[i].transactionDate <= transactions[j].transactionDate)
  }

  /** Every prefix of a valid history is a valid history. */
  lemma ValidHistoryPrefix(transactions: seq<Transaction>, n: nat)
    requires ValidHistory(transactions) && n <= |transactions|
    ensures ValidHistory(transactions[..n])
  {
  }

  /**
    The holding as a validated history leaves it: settled lots, lots costing no
    more than the investment left, and a quantity held not below minus the
    tolerance.
   */
  predicate Consistent(h: Holding, latest: Date) {
    Settled(h.lots, latest) && CostSum(h.lots) <= h.investment && h.quantity >= -ZERO_TOLERANCE
  }

  // ---------------------------------------------------------------------------
  // One BUY, one SELL

  /**
    A BUY appends exactly one lot and leaves the others as they were; it holds
    the bought quantity at a unit cost that, times the quantity, gives what was
    paid including fees.
   */
  lemma BuyAppendsLot(h: Holding, t: Transaction)
    requires t.transactionType == Buy
    ensures var r := Step(h, t);
      |r.lots| == |h.lots| + 1 && r.lots[..|h.lots|] == h.lots
      && r.lots[|h.lots|].date == t.transactionDate && r.lots[|h.lots|].quantity == t.quantity
      && (t.quantity > ZERO_TOLERANCE ==>
            Cost(t.quantity, r.lots[|h.lots|].unitCost) == Cost(t.quantity, t.pricePerUnit) + FeesOf(t))
      && r.quantity == h.quantity + t.quantity
      && r.investment == h.investment + Cost(t.quantity, t.pricePerUnit) + FeesOf(t)
      && r.realizedPnl == h.realizedPnl
  {
    var r := Step(h, t);
    assert r.lots == h.lots + [r.lots[|h.lots|]];
  }

  /**
    A SELL: the quantity held falls by the sell quantity
    (the request, cut down to what is held) and never below minus the
    tolerance, and the realized result grows by the proceeds less the
    investment removed.
   */
  lemma SellReducesHolding(h: Holding, t: Transaction)
    ensures var r := Sold(h, t); var q := SellQuantity(h.quantity, t.quantity);
      r.quantity == h.quantity - q && r.quantity >= -ZERO_TOLERANCE
      && r.realizedPnl - h.realizedPnl == Cost(t.quantity, t.pricePerUnit) - FeesOf(t) - (h.investment - r.investment)
  {
  }

  /**
    A SELL on lots in date order keeps the newest lots: all kept lots but the
    first are exactly the lots after the last one consumed, and the first is
    that lot itself, or that lot less exactly what was taken from it, in which
    case no remainder was dropped.
   */
  lemma SellKeepsNewestLots(h: Holding, t: Transaction)
    requires SortedByDate(h.lots)
    ensures KeptNewest(Sold(h, t).lots, h.lots)
    ensures ReducedExactly(Sold(h, t).lots, h.lots, 0, Taken(h.lots, 0, SellQuantity(h.quantity, t.quantity)))
  {
    var q := SellQuantity(h.quantity, t.quantity);
    assert Sold(h, t).lots == ConsumeFifo(h.lots, q).lots by {
      SortByDateOfSorted(h.lots);
      SoldFromSorted(h, t);
    }
    ConsumeFifoKeepsSuffix(h.lots, 0, q);
  }

  /**
    A SELL on lots in date order takes from the lots what it sells, except
    that one remainder within the tolerance may be dropped with its lot.
   */
  lemma SellConservesQuantity(h: Holding, t: Transaction)
    requires SortedByDate(h.lots)
    ensures var r := Sold(h, t); var q := SellQuantity(h.quantity, t.quantity);
      var sold := q - ConsumeFifo(h.lots, q).unsold;
      QtySum(r.lots) + sold <= QtySum(h.lots) <= QtySum(r.lots) + sold + ZERO_TOLERANCE
  {
    var q := SellQuantity(h.quantity, t.quantity);
    assert Sold(h, t).lots == ConsumeFifo(h.lots, q).lots by {
      SortByDateOfSorted(h.lots);
      SoldFromSorted(h, t);
    }
    assert h.lots[0..] == h.lots;
    ConsumeFifoConservesQuantity(h.lots, 0, q);
  }

  /**
    A SELL on lots in date order at non-negative unit costs lowers the
    investment by no more than the cost of the lots it gives up.
   */
  lemma SellConservesCost(h: Holding, t: Transaction)
    requires SortedByDate(h.lots)
    requires forall j :: 0 <= j < |h.lots| ==> h.lots[j].unitCost >= 0.0
    ensures var r := Sold(h, t); CostSum(r.lots) + (h.investment - r.investment) <= CostSum(h.lots)
  {
    var q := SellQuantity(h.quantity, t.quantity);
    var s := ConsumeFifo(h.lots, q);
    assert Sold(h, t).lots == s.lots && Sold(h, t).investment == h.investment - s.costBasis by {
      SortByDateOfSorted(h.lots);
      SoldFromSorted(h, t);
    }
    assert h.lots[0..] == h.lots;
    ConsumeFifoConservesCost(h.lots, 0, q);
  }

  /**
    A SELL on lots in date order takes from the lots oldest first, and the
    investment falls by the sum, over the lots, of the quantity taken from
    each lot times its unit cost.
   */
  lemma SellCostBasis(h: Holding, t: Transaction)
    requires SortedByDate(h.lots)
    ensures var r := Sold(h, t); var taken := Taken(h.lots, 0, SellQuantity(h.quantity, t.quantity));
      h.investment - r.investment == TakenCost(h.lots, 0, taken) && OldestFirst(taken, h.lots, 0)
  {
    var q := SellQuantity(h.quantity, t.quantity);
    assert Sold(h, t).investment == h.investment - ConsumeFifo(h.lots, q).costBasis by {
      SortByDateOfSorted(h.lots);
      SoldFromSorted(h, t);
    }
    ConsumeFifoTaken(h.lots, 0, q);
    TakenOldestFirst(h.lots, 0, q);
  }

  /** One validated transaction dated no earlier than the lots keeps the holding consistent. */
  lemma {:induction false} StepConsistent(h: Holding, t: Transaction)
    requires Consistent(h, t.transactionDate)
    requires Acceptable(t.quantity, t.pricePerUnit, FeesOf(t))
    ensures Consistent(Step(h, t), t.transactionDate)
  {
    match t.transactionType
    case Buy =>
      var lot := Lot(t.transactionDate, t.quantity, UnitCost(t.quantity, t.pricePerUnit, FeesOf(t)));
      SettledAppend(h.lots, lot);
      CostSumAppend(h.lots, lot);
    case Sell =>
      var q := SellQuantity(h.quantity, t.quantity);
      SortByDateOfSorted(h.lots);
      ConsumeFifoKeepsSettled(h.lots, q, t.transactionDate);
      ConsumeFifoConservesCost(h.lots, 0, q);
      assert h.lots[0..] == h.lots;
  }

  // ---------------------------------------------------------------------------
  // Whole histories

  /** Since sorting leaves settled lots as they are, every sale of a valid history consumes the lots in purchase order. */
  lemma ReplaySortIsIdentity(transactions: seq<Transaction>, latest: Date)
    requires ValidHistory(transactions)
    requires forall i :: 0 <= i < |transactions| ==> transactions[i].transactionDate <= latest
    ensures SortByDate(Replay(transactions).lots) == Replay(transactions).lots
  {
    ReplayTracked(transactions, latest);
    SortByDateOfSorted(Replay(transactions).lots);
  }

  /**
    Money paid into the asset, net: what BUYs cost including fees, less what
    SELLs brought in after fees.
   */
  function NetPaid(transactions: seq<Transaction>): real {
    if transactions == [] then 0.0
    else
      var t := transactions[|transactions| - 1];
      NetPaid(transactions[..|transactions| - 1])
      + match t.transactionType
        case Buy => Cost(t.quantity, t.pricePerUnit) + FeesOf(t)
        case Sell => -(Cost(t.quantity, t.pricePerUnit) - FeesOf(t))
  }

  /**
    The investment left minus the realized result is the net money paid in,
    whatever the history: every unit of cost basis a sale removes from the
    investment it also charges against the realized result.
   */
  lemma {:induction false} ReplayCashFlow(transactions: seq<Transaction>)
    ensures Replay(transactions).investment - Replay(transactions).realizedPnl == NetPaid(transactions)
  {
    if transactions != [] {
      ReplayCashFlow(transactions[..|transactions| - 1]);
    }
  }

  /**
    A history of BUYs only: one lot per transaction, in order, and the lots hold
    exactly the quantity held and cost exactly the investment; nothing is
    realized.
   */
  lemma {:induction false} BuysOnlyExact(transactions: seq<Transaction>)
    requires forall i :: 0 <= i < |transactions| ==>
      transactions[i].transactionType == Buy && transactions[i].quantity > ZERO_TOLERANCE
    ensures var h := Replay(transactions);
      |h.lots| == |transactions|
      && (forall i :: 0 <= i < |transactions| ==>
            h.lots[i].date == transactions[i].transactionDate && h.lots[i].quantity == transactions[i].quantity)
      && QtySum(h.lots) == h.quantity && CostSum(h.lots) == h.investment && h.realizedPnl == 0.0
  {
    if transactions != [] {
      var n := |transactions| - 1;
      var t := transactions[n];
      var before := Replay(transactions[..n]);
      BuysOnlyExact(transactions[..n]);
      var lot := Lot(t.transactionDate, t.quantity, UnitCost(t.quantity, t.pricePerUnit, FeesOf(t)));
      assert Replay(transactions) == Bought(before, t);
      QtySumAppend(before.lots, lot);
      CostSumAppend(before.lots, lot);
      forall i | 0 <= i < n
        ensures Replay(transactions).lots[i] == before.lots[i]
      {
      }
    }
  }

  /** The number of SELLs in a history. */
  function Sells(transactions: seq<Transaction>): nat {
    if transactions == [] then 0
    else Sells(transactions[..|transactions| - 1]) + (if transactions[|transactions| - 1].transactionType == Sell then 1 else 0)
  }

  function Abs(x: real): real {
    if x < 0.0 then -x else x
  }

  /** A consistent holding whose quantity differs from what its lots hold by at most the tolerance per SELL so far. */
  predicate Tracked(h: Holding, latest: Date, sells: nat) {
    Consistent(h, latest) && Abs(h.quantity - QtySum(h.lots)) <= ZERO_TOLERANCE * (sells as real)
  }

  /** One validated transaction keeps the holding tracked, counting one more SELL if it is one. */
  lemma StepTracked(h: Holding, t: Transaction, sells: nat)
    requires Tracked(h, t.transactionDate, sells)
    requires Acceptable(t.quantity, t.pricePerUnit, FeesOf(t))
    ensures Tracked(Step(h, t), t.transactionDate, sells + if t.transactionType == Sell then 1 else 0)
  {
    var r := Step(h, t);
    assert Consistent(r, t.transactionDate) by {
      StepConsistent(h, t);
    }
    match t.transactionType
    case Buy =>
      assert Abs(r.quantity - QtySum(r.lots)) <= ZERO_TOLERANCE * (sells as real) by {
        BuyDrift(h, t);
      }
    case Sell =>
      assert Abs(r.quantity - QtySum(r.lots)) <= ZERO_TOLERANCE * (sells as real) + ZERO_TOLERANCE by {
        SortByDateOfSorted(h.lots);
        SoldDrift(h, t);
      }
  }

  /**
    Replaying a validated, date-ordered history keeps the holding consistent
    (lots in date order, each above the tolerance at a non-negative unit cost,
    costing no more than the investment left), and the quantity held and the
    quantity in the lots part only through the remainders within the
    tolerance that sales drop: at most the tolerance per SELL.
   */
  lemma {:induction false} ReplayTracked(transactions: seq<Transaction>, latest: Date)
    requires ValidHistory(transactions)
    requires forall i :: 0 <= i < |transactions| ==> transactions[i].transactionDate <= latest
    ensures Tracked(Replay(transactions), latest, Sells(transactions))
  {
    if transactions != [] {
      var n := |transactions| - 1;
      var t := transactions[n];
      var before := transactions[..n];
      ValidHistoryPrefix(transactions, n);
      ReplayTracked(before, t.transactionDate);
      StepTracked(Replay(before), t, Sells(before));
      SettledLater(Replay(transactions).lots, t.transactionDate, latest);
    }
  }

  /** A SELL from date-ordered lots moves the gap between the quantity held and the quantity in the lots by at most the tolerance. */
  lemma SoldDrift(h: Holding, t: Transaction)
    requires SortByDate(h.lots) == h.lots
    requires forall i :: 0 <= i < |h.lots| ==> h.lots[i].quantity > ZERO_TOLERANCE
    requires t.quantity > ZERO_TOLERANCE
    ensures Abs(Sold(h, t).quantity - QtySum(Sold(h, t).lots)) <= Abs(h.quantity - QtySum(h.lots)) + ZERO_TOLERANCE
  {
    SoldFromSorted(h, t);
    SellDrift(h.lots, h.quantity, t.quantity);
  }

  /** A SELL from lots already in date order consumes them as they are. */
  lemma SoldFromSorted(h: Holding, t: Transaction)
    requires SortByDate(h.lots) == h.lots
    ensures var q := SellQuantity(h.quantity, t.quantity); var s := ConsumeFifo(h.lots, q);
      Sold(h, t) == Holding(s.lots, h.quantity - q, h.investment - s.costBasis,
                            h.realizedPnl + (Cost(t.quantity, t.pricePerUnit) - FeesOf(t) - s.costBasis))
  {
  }

  /** A BUY adds the same quantity to the holding and to the lots. */
  lemma BuyDrift(h: Holding, t: Transaction)
    ensures Bought(h, t).quantity - QtySum(Bought(h, t).lots) == h.quantity - QtySum(h.lots)
  {
    var lot := Lot(t.transactionDate, t.quantity, UnitCost(t.quantity, t.pricePerUnit, FeesOf(t)));
    QtySumAppend(h.lots, lot);
  }

  /**
    A SELL of `requested` from lots in date order, with `held` recorded as held,
    moves the gap between the quantity held and the quantity in the lots by
    at most the tolerance.
   */
  lemma SellDrift(lots: seq<Lot>, held: real, requested: real)
    requires forall i :: 0 <= i < |lots| ==> lots[i].quantity > ZERO_TOLERANCE
    requires requested > ZERO_TOLERANCE
    ensures var q := SellQuantity(held, requested); var s := ConsumeFifo(lots, q);
      Abs(held - q - QtySum(s.lots)) <= Abs(held - QtySum(lots)) + ZERO_TOLERANCE
  {
    var q := SellQuantity(held, requested);
    var s := ConsumeFifo(lots, q);
    var before, after, unsold, usedUp := QtySum(lots), QtySum(s.lots), s.unsold, s.lots == [];
    assert before >= 0.0 && (usedUp ==> after == 0.0)
      && (q <= ZERO_TOLERANCE ==> after == before && unsold == q)
      && (q > ZERO_TOLERANCE ==>
            after + (q - unsold) <= before <= after + (q - unsold) + ZERO_TOLERANCE
            && unsold >= 0.0 && (unsold <= ZERO_TOLERANCE || usedUp)) by {
      SaleQuantities(lots, q);
    }
    SaleGap(held, before, after, requested, q, unsold, usedUp);
  }

  /** What a sale of `q` from lots of non-negative quantity leaves in them and how much of it stays unsold. */
  lemma SaleQuantities(lots: seq<Lot>, q: real)
    requires forall i :: 0 <= i < |lots| ==> lots[i].quantity > ZERO_TOLERANCE
    ensures var s := ConsumeFifo(lots, q);
      QtySum(lots) >= 0.0 && (s.lots == [] ==> QtySum(s.lots) == 0.0)
      && (q <= ZERO_TOLERANCE ==> s.lots == lots && s.unsold == q)
      && (q > ZERO_TOLERANCE ==>
            QtySum(s.lots) + (q - s.unsold) <= QtySum(lots) <= QtySum(s.lots) + (q - s.unsold) + ZERO_TOLERANCE
            && s.unsold >= 0.0 && (s.unsold <= ZERO_TOLERANCE || s.lots == []))
  {
    assert lots[0..] == lots;
    QtySumNonNegative(lots);
    if q > ZERO_TOLERANCE {
      ConsumeFifoConservesQuantity(lots, 0, q);
      ConsumeFifoSettles(lots, 0, q);
    }
  }

  /**
    The arithmetic of one sale's effect on the gap: held `held`, the lots hold
    `before` and afterwards `after`; `sellQuantity` is the request cut down to
    what is held and `unsold` what the lots did not cover.
   */
  lemma SaleGap(held: real, before: real, after: real, requested: real, sellQuantity: real, unsold: real, usedUp: bool)
    requires requested > ZERO_TOLERANCE && before >= 0.0
    requires sellQuantity == SellQuantity(held, requested)
    requires usedUp ==> after == 0.0
    requires sellQuantity <= ZERO_TOLERANCE ==> after == before && unsold == sellQuantity
    requires sellQuantity > ZERO_TOLERANCE ==>
      after + (sellQuantity - unsold) <= before <= after + (sellQuantity - unsold) + ZERO_TOLERANCE
      && unsold >= 0.0 && (unsold <= ZERO_TOLERANCE || usedUp)
    ensures Abs(held - sellQuantity - after) <= Abs(held - before) + ZERO_TOLERANCE
  {
  }

  /** Over a validated, date-ordered history the reported cost figures are never negative. */
  lemma ReportedCostNotNegative(transactions: seq<Transaction>, currentPrice: Option<real>, latest: Date)
    requires ValidHistory(transactions)
    requires forall i :: 0 <= i < |transactions| ==> transactions[i].transactionDate <= latest
    requires Report(Replay(transactions), currentPrice).Some?
    ensures var p := Report(Replay(transactions), currentPrice).value;
      p.totalCostBasis >= 0.0 && p.averageCostBasis >= 0.0
  {
    var h := Replay(transactions);
    ReplayTracked(transactions, latest);
    CostSumNonNegative(h.lots);
    QuotientNotNegative(h.investment, h.quantity);
  }

  lemma QuotientNotNegative(dividend: real, divisor: real)
    requires dividend >= 0.0 && divisor > 0.0
    ensures dividend / divisor >= 0.0
  {
  }
}
