/** The market rules of trade_purchased and trade_sold (bgstally/activity.py
    lines 448-505): which bracket a trade counts in, and what it adds there. */
module TradeRules {
  import opened Ledger
  import opened Journal

  /** The bracket a purchase counts in: the commodity's stock bracket when the
      market data is available and carries one, else bracket 0. */
  function PurchaseBracket(mk: Market): (b: Bracket)
    ensures !mk.available ==> b == 0
    ensures mk.available && mk.stockBracket.Some? ==> b == mk.stockBracket.value
  {
    if mk.available then mk.stockBracket.GetOr(0) else 0
  }

  /** The bracket a sale counts in, by the commodity's demand bracket. */
  function SaleBracket(mk: Market): (b: Bracket)
    ensures !mk.available ==> b == 0
    ensures mk.available && mk.demandBracket.Some? ==> b == mk.demandBracket.value
  {
    if mk.available then mk.demandBracket.GetOr(0) else 0
  }

  /** A purchase adds its cost and its item count to the bracket's entry and
      changes nothing else. */
  function RecordPurchase(f: Faction, b: Bracket, ev: MarketBuyEvent): (g: Faction)
    ensures g == f.(tradeBuy := g.tradeBuy)
    ensures g.tradeBuy.At(b) == TradeBuy(f.tradeBuy.At(b).items + ev.count, f.tradeBuy.At(b).value + ev.totalCost)
    ensures forall j: Bracket | j != b :: g.tradeBuy.At(j) == f.tradeBuy.At(j)
    ensures BuyValueTotal(g.tradeBuy) == BuyValueTotal(f.tradeBuy) + ev.totalCost
  {
    var e := f.tradeBuy.At(b);
    f.(tradeBuy := f.tradeBuy.With(b, TradeBuy(e.items + ev.count, e.value + ev.totalCost)))
  }

  /** The profit of a sale: what it fetched less what the goods cost. */
  function SaleProfit(ev: MarketSellEvent): int {
    ev.totalSale - ev.count * ev.avgPricePaid
  }

  /** A sale on the black market adds its profit to the black-market profit
      only; any other sale adds profit, value and items to the bracket's entry
      only. */
  function RecordSale(f: Faction, b: Bracket, ev: MarketSellEvent): (g: Faction)
    ensures ev.blackMarket ==> g == f.(blackMarketProfit := f.blackMarketProfit + SaleProfit(ev))
    ensures !ev.blackMarket ==> g == f.(tradeSell := g.tradeSell)
    ensures !ev.blackMarket ==>
              g.tradeSell.At(b) == TradeSell(f.tradeSell.At(b).items + ev.count,
                                             f.tradeSell.At(b).value + ev.totalSale,
                                             f.tradeSell.At(b).profit + SaleProfit(ev))
    ensures forall j: Bracket | j != b :: g.tradeSell.At(j) == f.tradeSell.At(j)
    ensures !ev.blackMarket ==> SellValueTotal(g.tradeSell) == SellValueTotal(f.tradeSell) + ev.totalSale
  {
    if ev.blackMarket then f.(blackMarketProfit := f.blackMarketProfit + SaleProfit(ev))
    else
      var e := f.tradeSell.At(b);
      f.(tradeSell := f.tradeSell.With(b, TradeSell(e.items + ev.count, e.value + ev.totalSale, e.profit + SaleProfit(ev))))
  }
}
