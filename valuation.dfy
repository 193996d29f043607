/**
  The valuation of one asset's open position (src/crud.py,
  `get_portfolio_performance`): the transactions of the asset are replayed in
  order, BUYs adding purchase lots and SELLs consuming them first in, first
  out, and the final quantity, investment and an optional market price give
  the reported position.
 */
module Valuation {
  import opened Wrappers
  import opened Models
  import opened Validation
  import opened Lots

  /** The running totals of the replay: purchase lots, quantity held, money still invested, realized profit and loss. */
  datatype Holding = Holding(lots: seq<Lot>, quantity: real, investment: real, realizedPnl: real)

  /** Before the first transaction nothing is held. */
  const NoHolding := Holding([], 0.0, 0.0, 0.0)

  /** Fees of a transaction; a missing value counts as zero. */
  function FeesOf(t: Transaction): real {
    match t.fees
    case None => 0.0
    case Some(fees) => fees
  }

  /**
    Cost per unit of a purchase, fees included: spread over the quantity when
    the quantity is above the tolerance, zero otherwise.
   */
  function UnitCost(quantity: real, pricePerUnit: real, fees: real): (u: real)
    ensures quantity > ZERO_TOLERANCE ==> Cost(quantity, u) == Cost(quantity, pricePerUnit) + fees
    ensures quantity <= ZERO_TOLERANCE ==> u == 0.0
    ensures quantity > ZERO_TOLERANCE && pricePerUnit >= 0.0 && fees >= 0.0 ==> u >= pricePerUnit
  {
    if quantity > ZERO_TOLERANCE then (Cost(quantity, pricePerUnit) + fees) / quantity else 0.0
  }

  /** A BUY: one more lot at the end, the quantity held and the investment grow by what was bought and paid. */
  function Bought(h: Holding, t: Transaction): Holding {
    var costOfLot := Cost(t.quantity, t.pricePerUnit) + FeesOf(t);
    Holding(
      h.lots + [Lot(t.transactionDate, t.quantity, UnitCost(t.quantity, t.pricePerUnit, FeesOf(t)))],
      h.quantity + t.quantity,
      h.investment + costOfLot,
      h.realizedPnl)
  }

  /**
    The quantity a SELL actually removes: a request above what is held by more
    than the tolerance is cut down to what is held.
   */
  function SellQuantity(held: real, requested: real): (q: real)
    ensures q == requested || q == held
    ensures q == held <== requested > held + ZERO_TOLERANCE
    ensures q == requested <== requested <= held + ZERO_TOLERANCE
    ensures held - q >= -ZERO_TOLERANCE
  {
    if requested > held + ZERO_TOLERANCE then held else requested
  }

  /**
    A SELL: the lots are put in date order and consumed oldest first; the
    investment falls by the cost of the units sold and the realized result
    grows by the proceeds (price times the requested quantity, less fees)
    minus that cost.
   */
  function Sold(h: Holding, t: Transaction): Holding {
    var sellQuantity := SellQuantity(h.quantity, t.quantity);
    var proceeds := Cost(t.quantity, t.pricePerUnit) - FeesOf(t);
    var sale := ConsumeFifo(SortByDate(h.lots), sellQuantity);
    Holding(sale.lots, h.quantity - sellQuantity, h.investment - sale.costBasis, h.realizedPnl + (proceeds - sale.costBasis))
  }

  /** One transaction of the replay. */
  function Step(h: Holding, t: Transaction): Holding {
    match t.transactionType
    case Buy => Bought(h, t)
    case Sell => Sold(h, t)
  }

  /** The holding after the transactions, taken in the order given. */
  function Replay(transactions: seq<Transaction>): Holding {
    if transactions == [] then NoHolding
    else Step(Replay(transactions[..|transactions| - 1]), transactions[|transactions| - 1])
  }

  // ---------------------------------------------------------------------------
  // The reported position

  /** An unrealized profit-and-loss percentage: a number, or infinity when nothing was paid for something worth more than the tolerance. */
  datatype Percent = Finite(value: real) | Infinite

  /**
    An open position as reported: quantity, average and total cost basis, and,
    when a current price is known, market value, unrealized profit and loss and
    its percentage.
   */
  datatype Position = Position(
    quantity: real,
    averageCostBasis: real,
    totalCostBasis: real,
    currentPrice: Option<real>,
    marketValue: Option<real>,
    unrealizedPnl: Option<real>,
    unrealizedPnlPercent: Option<Percent>)

  /**
    Unrealized profit and loss as a percentage of the cost basis; infinite when
    the cost basis is within the tolerance but the market value is not; zero
    when both are.
   */
  function PnlPercent(unrealizedPnl: real, costBasis: real, marketValue: real): (p: Percent)
    ensures costBasis > ZERO_TOLERANCE ==> p.Finite? && p.value * costBasis == unrealizedPnl * 100.0
    ensures costBasis > ZERO_TOLERANCE ==> (p.value > 0.0 <==> unrealizedPnl > 0.0) && (p.value < 0.0 <==> unrealizedPnl < 0.0)
    ensures p == Infinite <==> costBasis <= ZERO_TOLERANCE && marketValue > ZERO_TOLERANCE
    ensures p == Finite(0.0) <== costBasis <= ZERO_TOLERANCE && marketValue <= ZERO_TOLERANCE
  {
    if costBasis > ZERO_TOLERANCE then Finite(unrealizedPnl / costBasis * 100.0)
    else if marketValue > ZERO_TOLERANCE then Infinite
    else Finite(0.0)
  }

  /**
    The position reported for a holding: present exactly when more than the
    tolerance is held. Its total cost basis is the investment left, its
    average cost basis spreads that over the quantity, and the market figures
    are present exactly when a price is.
   */
  function Report(h: Holding, currentPrice: Option<real>): (r: Option<Position>)
    ensures r.Some? <==> h.quantity > ZERO_TOLERANCE
    ensures r.Some? ==>
      var p := r.value;
      p.quantity == h.quantity && p.totalCostBasis == h.investment
      && p.averageCostBasis * p.quantity == p.totalCostBasis
      && p.currentPrice == currentPrice
      && (p.marketValue.Some? <==> currentPrice.Some?)
      && (p.unrealizedPnl.Some? <==> currentPrice.Some?)
      && (p.unrealizedPnlPercent.Some? <==> currentPrice.Some?)
    ensures r.Some? && currentPrice.Some? ==>
      var p := r.value;
      p.marketValue.value == Cost(p.quantity, currentPrice.value)
      && p.unrealizedPnl.value == p.marketValue.value - p.totalCostBasis
      && p.unrealizedPnlPercent.value == PnlPercent(p.unrealizedPnl.value, p.totalCostBasis, p.marketValue.value)
  {
    if h.quantity <= ZERO_TOLERANCE then None
    else
      var marketValue := if currentPrice.Some? then Some(Cost(h.quantity, currentPrice.value)) else None;
      var unrealizedPnl := if currentPrice.Some? then Some(marketValue.value - h.investment) else None;
      Some(Position(
        h.quantity,
        h.investment / h.quantity,
        h.investment,
        currentPrice,
        marketValue,
        unrealizedPnl,
        if currentPrice.Some? then Some(PnlPercent(unrealizedPnl.value, h.investment, marketValue.value)) else None))
  }

  // ---------------------------------------------------------------------------
  // The valuator

  /**
    Replays the transactions of one asset, in the order given, and values the
    position left: the loop of `get_portfolio_performance` for one asset.
   */
  method AssetPosition(transactions: seq<Transaction>, currentPrice: Option<real>) returns (position: Option<Position>)
    ensures position == Report(Replay(transactions), currentPrice)
  {
    var purchaseLots: seq<Lot> := [];
    var realizedPnl, currentQuantity, totalInvestment := 0.0, 0.0, 0.0;
    for i := 0 to |transactions|
      invariant Holding(purchaseLots, currentQuantity, totalInvestment, realizedPnl) == Replay(transactions[..i])
    {
      var t := transactions[i];
      ghost var before := Replay(transactions[..i]);
      ReplayNext(transactions, i);
      var quantity, price := t.quantity, t.pricePerUnit;
      var fees := if t.fees.Some? then t.fees.value else 0.0;
      assert fees == FeesOf(t) by {
        if t.fees.Some? {
        }
      }
      match t.transactionType
      case Buy =>
        var costOfLot := Cost(quantity, price) + fees;
        var unitCost := if quantity > ZERO_TOLERANCE then costOfLot / quantity else 0.0;
        assert unitCost == UnitCost(quantity, price, fees);
        purchaseLots := purchaseLots + [Lot(t.transactionDate, quantity, unitCost)];
        currentQuantity := currentQuantity + quantity;
        totalInvestment := totalInvestment + costOfLot;
        BoughtStep(before, t, purchaseLots, currentQuantity, totalInvestment);
      case Sell =>
        var sellQuantity := quantity;
        var proceeds := Cost(sellQuantity, price) - fees;
        if sellQuantity > currentQuantity + ZERO_TOLERANCE {
          sellQuantity := currentQuantity;
        }
        assert sellQuantity == SellQuantity(before.quantity, t.quantity);
        purchaseLots := SortByDate(purchaseLots);
        var kept, costBasis := SellFromLots(purchaseLots, sellQuantity);
        purchaseLots := kept;
        currentQuantity := currentQuantity - sellQuantity;
        totalInvestment := totalInvestment - costBasis;
        realizedPnl := realizedPnl + (proceeds - costBasis);
        SoldStep(before, t, sellQuantity, kept, costBasis, currentQuantity, totalInvestment, realizedPnl);
    }
    assert transactions[..|transactions|] == transactions;
    position := Report(Holding(purchaseLots, currentQuantity, totalInvestment, realizedPnl), currentPrice);
  }

  /** The BUY branch of the valuator's loop computes one step of the replay. */
  lemma BoughtStep(h: Holding, t: Transaction, lots: seq<Lot>, quantity: real, investment: real)
    requires t.transactionType == Buy
    requires lots == h.lots + [Lot(t.transactionDate, t.quantity, UnitCost(t.quantity, t.pricePerUnit, FeesOf(t)))]
    requires quantity == h.quantity + t.quantity
    requires investment == h.investment + (Cost(t.quantity, t.pricePerUnit) + FeesOf(t))
    ensures Holding(lots, quantity, investment, h.realizedPnl) == Step(h, t)
  {
  }

  /** The SELL branch of the valuator's loop computes one step of the replay. */
  lemma SoldStep(h: Holding, t: Transaction, sellQuantity: real, kept: seq<Lot>, costBasis: real,
                 quantity: real, investment: real, realizedPnl: real)
    requires t.transactionType == Sell && sellQuantity == SellQuantity(h.quantity, t.quantity)
    requires kept == ConsumeFifo(SortByDate(h.lots), sellQuantity).lots
    requires costBasis == ConsumeFifo(SortByDate(h.lots), sellQuantity).costBasis
    requires quantity == h.quantity - sellQuantity && investment == h.investment - costBasis
    requires realizedPnl == h.realizedPnl + ((Cost(t.quantity, t.pricePerUnit) - FeesOf(t)) - costBasis)
    ensures Holding(kept, quantity, investment, realizedPnl) == Step(h, t)
  {
  }

  /** A transaction whose fees are NULL is valued as one with zero fees. */
  lemma MissingFeesCountAsZero(h: Holding, t: Transaction)
    ensures Step(h, t.(fees := None)) == Step(h, t.(fees := Some(0.0)))
  {
    assert FeesOf(t.(fees := None)) == FeesOf(t.(fees := Some(0.0)));
  }

  /** Replaying one more transaction is one more step. */
  lemma ReplayNext(transactions: seq<Transaction>, i: nat)
    requires i < |transactions|
    ensures Replay(transactions[..i + 1]) == Step(Replay(transactions[..i]), transactions[i])
  {
    assert transactions[..i + 1][..i] == transactions[..i];
  }
}
