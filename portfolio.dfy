/**
  The portfolio summary (src/crud.py, `get_portfolio_performance`): every asset
  of the user is valued from its transactions, and the assets with an open
  position are collected under their symbols.
 */
module Portfolio {
  import opened Wrappers
  import opened Models
  import opened Validation
  import opened Valuation

  /**
    One asset of the user as the summary sees it: its symbol, its
    transactions in date order, and the market price the price source gave
    for it, if any.
   */
  datatype AssetHistory = AssetHistory(symbol: string, transactions: seq<Transaction>, currentPrice: Option<real>)

  /** The open positions of the assets, keyed by symbol; an asset with no open position adds nothing. */
  function Positions(assets: seq<AssetHistory>): map<string, Position> {
    if assets == [] then map[]
    else
      var before := Positions(assets[..|assets| - 1]);
      var a := assets[|assets| - 1];
      match Report(Replay(a.transactions), a.currentPrice)
      case None => before
      case Some(position) => before[a.symbol := position]
  }

  /** The user's assets carry pairwise different symbols, as the store keeps them. */
  predicate DistinctSymbols(assets: seq<AssetHistory>) {
    forall i, j :: 0 <= i < j < |assets| ==> assets[i].symbol != assets[j].symbol
  }

  /** Values each asset in turn, skipping those without transactions, and collects the open positions. */
  method PortfolioPerformance(assets: seq<AssetHistory>) returns (portfolio: map<string, Position>)
    ensures portfolio == Positions(assets)
  {
    portfolio := map[];
    for i := 0 to |assets|
      invariant portfolio == Positions(assets[..i])
    {
      var asset := assets[i];
      assert assets[..i + 1][..i] == assets[..i];
      if asset.transactions == [] {
        assert Report(Replay(asset.transactions), asset.currentPrice) == None;
        continue;
      }
      var position := AssetPosition(asset.transactions, asset.currentPrice);
      if position.Some? {
        portfolio := portfolio[asset.symbol := position.value];
      }
    }
    assert assets[..|assets|] == assets;
  }

  /** The assets before the last one keep their symbols distinct. */
  lemma DistinctFront(assets: seq<AssetHistory>, n: nat)
    requires DistinctSymbols(assets) && n <= |assets|
    ensures DistinctSymbols(assets[..n])
  {
  }

  /**
    With distinct symbols, the summary holds an asset's symbol exactly when
    more than the tolerance of it is held, and under it the position its own
    transactions and price give.
   */
  lemma {:induction false} PositionOfAsset(assets: seq<AssetHistory>, i: nat)
    requires DistinctSymbols(assets) && i < |assets|
    ensures var a := assets[i]; var v := Report(Replay(a.transactions), a.currentPrice);
      (a.symbol in Positions(assets) <==> Replay(a.transactions).quantity > ZERO_TOLERANCE)
      && (a.symbol in Positions(assets) ==> Positions(assets)[a.symbol] == v.value)
  {
    var n := |assets| - 1;
    var front := assets[..n];
    if i < n {
      DistinctFront(assets, n);
      PositionOfAsset(front, i);
      assert front[i] == assets[i];
      PositionsOtherSymbol(assets, assets[i].symbol);
    } else {
      if assets[n].symbol in Positions(front) {
        PositionsOnlyOfAssets(front, assets[n].symbol);
        assert false;
      }
      PositionsLastSymbol(assets);
    }
  }

  /** The last asset decides what the summary holds under its symbol when no earlier asset put it there. */
  lemma PositionsLastSymbol(assets: seq<AssetHistory>)
    requires assets != []
    requires assets[|assets| - 1].symbol !in Positions(assets[..|assets| - 1])
    ensures var a := assets[|assets| - 1]; var v := Report(Replay(a.transactions), a.currentPrice);
      (a.symbol in Positions(assets) <==> v.Some?) && (v.Some? ==> Positions(assets)[a.symbol] == v.value)
  {
  }

  /** The last asset leaves the summary under any other symbol as the earlier assets made it. */
  lemma PositionsOtherSymbol(assets: seq<AssetHistory>, symbol: string)
    requires assets != [] && symbol != assets[|assets| - 1].symbol
    ensures var front := Positions(assets[..|assets| - 1]);
      (symbol in Positions(assets) <==> symbol in front)
      && (symbol in front ==> Positions(assets)[symbol] == front[symbol])
  {
  }

  /** Every symbol in the summary is the symbol of one of the assets. */
  lemma {:induction false} PositionsOnlyOfAssets(assets: seq<AssetHistory>, symbol: string)
    requires symbol in Positions(assets)
    ensures exists i :: 0 <= i < |assets| && assets[i].symbol == symbol
  {
    var n := |assets| - 1;
    if symbol != assets[n].symbol {
      var front := assets[..n];
      PositionsOnlyOfAssets(front, symbol);
      var i :| 0 <= i < |front| && front[i].symbol == symbol;
      assert assets[i].symbol == symbol;
    }
  }

  /** An asset without transactions has no open position, so skipping it changes nothing. */
  lemma NoTransactionsNoPosition(currentPrice: Option<real>)
    ensures Report(Replay([]), currentPrice) == None
  {
  }
}
