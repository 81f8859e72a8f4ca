/** A stock of the catalogue: a ticker symbol, a unit price and the number of
    shares still available. Orders change `available` in place, so the stock is
    a class; `Listing` is its value. */
module Stocks {

  /** The value of a stock at one moment. */
  datatype Listing = Listing(symbol: string, price: real, available: int)
  {
    /** Market capitalisation: the price of every share still available. */
    function MarketCap(): (cap: real)
      ensures price >= 0.0 && available >= 0 ==> cap >= 0.0
      ensures available == 0 || price == 0.0 <==> cap == 0.0
    {
      price * available as real
    }
  }

  class Stock {
    var symbol: string
    var price: real
    var available: int

    /** The current value of this stock. */
    function Snapshot(): Listing
      reads this
    {
      Listing(symbol, price, available)
    }

    /** The default stock: no symbol, free, nothing available. */
    constructor Default()
      ensures Snapshot() == Listing("", 0.0, 0)
    {
      symbol, price, available := "", 0.0, 0;
    }

    /** Stores its arguments as they are; neither price nor supply is checked. */
    constructor (s: string, p: real, a: int)
      ensures Snapshot() == Listing(s, p, a)
    {
      symbol, price, available := s, p, a;
    }
  }

  /** Selling `q` shares back raises the market capitalisation by `q` times the
      stock's own price, whatever the sign of `q`. */
  lemma MarketCapShift(s: Listing, q: int)
    ensures s.(available := s.available + q).MarketCap() == s.MarketCap() + s.price * q as real
  {
  }
}
