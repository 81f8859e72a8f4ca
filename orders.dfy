/** The fields every order carries, and the result of executing one. */
module Orders {
  import opened Ledger
  import opened Stocks

  /** An order: the symbol to trade, how many shares and at what unit price.
      Nothing checks the signs of `quantity` and `price`. */
  datatype Order = Order(symbol: string, quantity: int, price: real)
  {
    function GetSymbol(): string { symbol }
    function GetQuantity(): int { quantity }
    function GetPrice(): real { price }

    /** What the order moves in cash: quantity times price. */
    function Value(): real { Cost(quantity, price) }
  }

  /** The new account and stock after one `execute`, and what it returned. */
  datatype Outcome = Outcome(account: Account, listing: Listing, ok: bool)

  /** The getters give back exactly what the constructor was given. */
  lemma GettersReturnFields(sym: string, q: int, p: real)
    ensures Order(sym, q, p).GetSymbol() == sym
    ensures Order(sym, q, p).GetQuantity() == q
    ensures Order(sym, q, p).GetPrice() == p
  {
  }
}
