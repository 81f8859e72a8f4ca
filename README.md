# Trading ledger model

A Dafny model of the trading core of a small C++ console trading application.
A user has a name, a cash balance and a list of the symbols it has bought. A
stock has a symbol, a unit price and a count of available shares. A buy order
and a sell order each check the stock they are given and then move value
between the user and the stock. The menu loop only reads input and calls these.

Layout, one module per source file:

- `stocks.dfy` — module `Stocks`: the stock as a class (`Stock`) updated in
  place by orders, its value `Listing`, and the market capitalisation.
- `orders.dfy` — module `Orders`: the immutable order record (symbol,
  quantity, price) with its getters, and `Outcome`, the user, stock and
  return value after one execution. The getters `GetSymbol`, `GetQuantity`
  and `GetPrice` are member functions of `Orders.Order`;
  `Orders.GettersReturnFields` states what they return.
- `ledger.dfy` — module `Ledger`: the user of `src/User.cpp` as a class
  (`User`) with its value `Account`, the functions `Deposit`, `Buy` and
  `Sell` that specify its methods, and the shared user counter
  (`UserRegistry`).
- `accounts.dfy` — module `Accounts`: the separate, smaller user of the
  top-level `User.cpp` (name and balance, `createAccount`, `addBalance`).
  It shares nothing with `Ledger`.
- `buy_orders.dfy`, `sell_orders.dfy` — modules `BuyOrders` and `SellOrders`:
  each order's `execute` as a function on values (`Apply`) and as a method on
  the objects, with the per-order execution counter.
- `trading.dfy` — module `Trading`: the virtual `execute` dispatched on the
  direction, and `Run`, which executes a sequence of orders against one user
  and one stock, as the menu loop does.

Every class method is proved against a function of the old state: the new
value of the object (`State()`, `Snapshot()`) equals that function of its old
value. The properties are proved about those functions.

The model keeps what the code does, including:

- `buyStock` is gated on funds only. It appends the symbol once, however many
  shares are bought. Holdings are this list of symbols, one entry per
  purchase, and no entry is ever removed (src/User.cpp:32).
- `sellStock` always succeeds. It does not check holdings and never changes the
  list of symbols.
- A buy order is gated on the symbol and on `available >= quantity`. It
  decrements the supply and returns true even when the user could not pay.
- A sell order is gated on the symbol only and increments the supply.
- No quantity, price or amount is ever sign-checked, so neither deposits
  nor sales are validated (src/User.cpp:22-25, 41-46).

The static counter `User::totalUsers` is a `UserRegistry` object. Each `User`
holds it in a `const` field and updates it from its constructors and from
`Destroy`, which stands for the destructor. An order's fields are `const`,
because nothing changes them after construction.

## Model

| member | source | states |
|---|---|---|
| `Stocks.Listing.MarketCap` | include/Stock.h:19-21 | the market capitalisation is non-negative for a non-negative price and supply, and is zero exactly when the price or the supply is zero |
| `Stocks.MarketCapShift` | include/Stock.h:19-21 | changing the supply by q changes the market capitalisation by q times the price |
| `Stocks.Stock.Default` | src/Stock.cpp:3 | the default stock has an empty symbol, price 0 and no shares available |
| `Stocks.Stock.constructor` | src/Stock.cpp:5 | the stock stores symbol, price and supply exactly as given |
| `Orders.GettersReturnFields` | include/Order.h:23-25 | the getters of an order return what its constructor stored |
| `Ledger.Deposit` | src/User.cpp:22-25 | adding to the balance raises it by exactly the amount, of either sign, and leaves the name and the list of symbols alone |
| `Ledger.Buy` | src/User.cpp:27-39 | a purchase succeeds exactly when the balance covers quantity times price; on success it pays exactly that cost and appends the symbol once; on failure nothing changes |
| `Ledger.Sell` | src/User.cpp:41-46 | a sale credits quantity times price and never touches the list of symbols |
| `Ledger.UserRegistry.constructor` | src/User.cpp:3 | the user count starts at zero |
| `Ledger.UserRegistry.GetTotalUsers` | src/User.cpp:66-68 | reports the current user count |
| `Ledger.User.Default` | src/User.cpp:5-9 | the default user is "Unknown" with balance 0 and no symbols, and the user count rises by one |
| `Ledger.User.constructor` | src/User.cpp:11-15 | the user stores the given name and opening balance, has no symbols, and the user count rises by one |
| `Ledger.User.Destroy` | src/User.cpp:17-20 | destroying a user lowers the user count by one |
| `Ledger.User.AddBalance` | src/User.cpp:22-25 | the user's new value is `Deposit` of the old one |
| `Ledger.User.BuyStock` | src/User.cpp:27-39 | the user's new value and the result are `Buy` of the old value |
| `Ledger.User.SellStock` | src/User.cpp:41-46 | always returns true, and the user's new value is `Sell` of the old one |
| `Ledger.User.GetName` | src/User.cpp:58-60 | returns the user's name |
| `Ledger.User.GetBalance` | src/User.cpp:62-64 | returns the user's balance |
| `Ledger.CreateThenDestroy` | src/User.cpp:11-18 | creating a user and destroying it leaves the user count unchanged |
| `Ledger.BuyKeepsSolvency` | src/User.cpp:30-31 | a purchase never takes a non-negative balance below zero |
| `Ledger.NegativeBuyCredits` | src/User.cpp:28-31 | for a solvent user, a purchase of a negative quantity at a positive price succeeds and raises the balance |
| `Ledger.BuyThenSellRestoresBalance` | src/User.cpp:27-46 | a successful purchase followed by a sale of the same quantity at the same price restores the balance, and the symbol stays listed |
| `Ledger.FailedBuyIsStable` | src/User.cpp:30-38 | repeating a failed purchase gives the same failure and changes nothing |
| `Accounts.Open` | User.cpp:6-9 | opening an account sets the given name and resets the balance to 0 |
| `Accounts.Deposit` | User.cpp:11-13 | adding to the balance raises it by exactly the amount and keeps the name |
| `Accounts.User.constructor` | User.cpp:4 | the default user has an empty name and balance 0 |
| `Accounts.User.CreateAccount` | User.cpp:6-9 | the user's new value is `Open` of the old one |
| `Accounts.User.AddBalance` | User.cpp:11-13 | the user's new value is `Deposit` of the old one |
| `Accounts.OpenIdempotent` | User.cpp:6-9 | opening the same account twice equals opening it once |
| `Accounts.OpenForgetsHistory` | User.cpp:6-9 | the opened account does not depend on the previous state, deposits included |
| `Accounts.DepositsAdd` | User.cpp:11-13 | two deposits equal one deposit of their sum |
| `BuyOrders.Apply` | src/BuyOrder.cpp:11-19 | a buy order executes exactly when the symbols match and the supply covers the quantity; it then lowers the supply by the quantity and changes the user only through one purchase with the order's own symbol, quantity and price; otherwise nothing changes |
| `BuyOrders.BuyOrder.constructor` | src/BuyOrder.cpp:3-5 | the order stores symbol, quantity and price as given, and its counter starts at 0 |
| `BuyOrders.BuyOrder.Execute` | src/BuyOrder.cpp:11-19 | the new user, the new stock and the result are `Apply` of the old ones; the counter rises by one exactly when the result is true |
| `BuyOrders.SupplyStaysNonNegative` | src/BuyOrder.cpp:12-14 | an executed buy order never takes a non-negative supply below zero, whatever the sign of the quantity |
| `BuyOrders.SupplyTakenWithoutPayment` | src/BuyOrder.cpp:12-16 | when the gate passes but the user cannot pay, the order still returns true and lowers the supply, and the user is unchanged |
| `BuyOrders.UnpaidPurchaseExample` | src/BuyOrder.cpp:12-16 | a user with no money buying 5 of 10 available shares at 100 gets true, keeps its state, and leaves 5 shares |
| `BuyOrders.BuyLowersMarketCap` | src/BuyOrder.cpp:14 | an executed buy order lowers the market capitalisation by the quantity at the stock's price |
| `SellOrders.Apply` | src/SellOrder.cpp:11-19 | a sell order executes exactly when the symbols match; it then raises the supply by the quantity and credits the user through one sale; otherwise nothing changes |
| `SellOrders.SellOrder.constructor` | src/SellOrder.cpp:3-5 | the order stores symbol, quantity and price as given, and its counter starts at 0 |
| `SellOrders.SellOrder.Execute` | src/SellOrder.cpp:11-19 | the new user, the new stock and the result are `Apply` of the old ones; the counter rises by one exactly when the result is true |
| `SellOrders.SellWithoutHoldings` | src/SellOrder.cpp:12-16 | a matching sell order succeeds and credits the proceeds for a user who never bought the symbol |
| `SellOrders.NegativeSellDrainsSupply` | src/SellOrder.cpp:14 | a sell order with a negative quantity can drive the supply below zero |
| `SellOrders.SellRaisesMarketCap` | src/SellOrder.cpp:14 | an executed sell order raises the market capitalisation by the quantity at the stock's price |
| `Trading.Execute` | include/Order.h:20 | for either direction, execution needs matching symbols, a refused order changes nothing, the stock keeps its symbol and price, and the user keeps its name and only gains the stock's symbol |
| `Trading.Run` | main.cpp:50-67 | over any sequence of orders against one user and one stock, at most one success per order, the user keeps its name, its symbols only grow by the stock's symbol, and the stock keeps its symbol and price |
| `Trading.SupplyStaysNonNegative` | src/SellOrder.cpp:11-19 | over any sequence of orders, the supply stays non-negative as long as no sell order has a negative quantity; the buy side needs no such condition, because of its gate at src/BuyOrder.cpp:12-14 |
| `Trading.BalanceStaysNonNegative` | src/User.cpp:27-46 | over any sequence of orders, a solvent user stays solvent as long as no sell order has negative proceeds |
| `Trading.ForeignOrdersChangeNothing` | include/Order.h:20 | any sequence of orders for another symbol is refused entirely and changes nothing |
| `Trading.RepeatedRefusalChangesNothing` | include/Order.h:20 | repeating a refused order any number of times changes nothing |

## Left out

- The menu loop, input parsing and screen clearing of `main.cpp`: input and
  output only. `Trading.Run` stands for its trade cases. Note that the loop
  passes a default stock, whose symbol is empty, so every order it builds from
  a non-empty symbol is refused (`Trading.ForeignOrdersChangeNothing`).
- All console output: `viewPortfolio`, `displayStats`, `recordTransaction`,
  `operator<<`, `displayDetails` and the messages printed by `addBalance`,
  `buyStock`, `sellStock` and the destructors. These print and change nothing.
- Floating-point rounding: money is `real`, so `quantity * price` is exact.
- 32-bit integer overflow of `quantity` and `available`: overflow of a signed
  `int` is undefined behaviour in C++, and the model uses unbounded integers.
- Deallocation: `Ledger.User.Destroy` stands for the destructor; Dafny objects
  are not freed.
- `Stock::updatePrice`, `Stock::display`, `Stock::showTotalStocks` and
  `Stock::totalStocks`: declared but never defined or used.
- The `Transaction` record and `TransactionType`: declared but never used.
- The order destructors: they only print.
- The headers disagree with the sources: they take `const string&` where the
  sources take `string`, and they do not declare the order counters. The
  model follows the sources.
- `Ledger.UserRegistry`: the model does not force a single registry. Each
  `User` is given the registry it counts itself in, so two registries can
  exist side by side, where the source has one static counter.
