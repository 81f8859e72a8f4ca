/** A buy order. Executing it is gated on the stock: the symbol must match and
    enough shares must be available. Whether the user can pay is not part of
    the gate. */
module BuyOrders {
  import opened Ledger
  import opened Stocks
  import opened Orders

  /** `BuyOrder::execute` on values. */
  function Apply(o: Order, a: Account, s: Listing): (r: Outcome)
    ensures r.ok <==> s.symbol == o.symbol && s.available >= o.quantity
    ensures !r.ok ==> r.account == a && r.listing == s
    ensures r.ok ==> r.listing == s.(available := s.available - o.quantity)
    ensures r.ok ==> r.account == Buy(a, o.symbol, o.quantity, o.price).account
  {
    if s.symbol == o.symbol && s.available >= o.quantity then
      Outcome(Buy(a, o.symbol, o.quantity, o.price).account,
              s.(available := s.available - o.quantity), true)
    else
      Outcome(a, s, false)
  }

  class BuyOrder {
    const order: Order
    var buyOrderCount: int

    constructor (sym: string, q: int, p: real)
      ensures order == Order(sym, q, p)
      ensures buyOrderCount == 0
    {
      order := Order(sym, q, p);
      buyOrderCount := 0;
    }

    /** Runs the order against `user` and `stock`; counts it when it went through. */
    method Execute(user: User, stock: Stock) returns (ok: bool)
      modifies this, user, stock
      ensures Outcome(user.State(), stock.Snapshot(), ok) == Apply(order, old(user.State()), old(stock.Snapshot()))
      ensures buyOrderCount == old(buyOrderCount) + (if ok then 1 else 0)
    {
      if stock.symbol == order.symbol && stock.available >= order.quantity {
        var _ := user.BuyStock(order.symbol, order.quantity, order.price);
        stock.available := stock.available - order.quantity;
        buyOrderCount := buyOrderCount + 1;
        return true;
      }
      return false;
    }
  }

  /** An executed buy order never drives a non-negative supply below zero,
      whatever the sign of its quantity. */
  lemma SupplyStaysNonNegative(o: Order, a: Account, s: Listing)
    requires s.available >= 0
    ensures Apply(o, a, s).listing.available >= 0
  {
  }

  /** The order reports success and takes the shares off the market even when
      the user cannot pay: then the user is left exactly as before. */
  lemma SupplyTakenWithoutPayment(o: Order, a: Account, s: Listing)
    requires s.symbol == o.symbol && s.available >= o.quantity
    requires a.balance < o.Value()
    ensures Apply(o, a, s).ok
    ensures Apply(o, a, s).account == a
    ensures Apply(o, a, s).listing.available == s.available - o.quantity
  {
  }

  /** The same, on one concrete case: a user with no money and a stock with
      ten shares of "AAPL"; buying five at 100 succeeds and leaves five shares. */
  lemma UnpaidPurchaseExample()
    ensures var r := Apply(Order("AAPL", 5, 100.0), Account("Ann", 0.0, []), Listing("AAPL", 100.0, 10));
            r.ok && r.account == Account("Ann", 0.0, []) && r.listing.available == 5
  {
  }

  /** When the order executes, the market capitalisation falls by the order's
      quantity valued at the stock's own price. */
  lemma BuyLowersMarketCap(o: Order, a: Account, s: Listing)
    requires Apply(o, a, s).ok
    ensures Apply(o, a, s).listing.MarketCap() == s.MarketCap() - s.price * o.quantity as real
  {
    MarketCapShift(s, -o.quantity);
  }
}
