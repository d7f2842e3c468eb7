# Order execution for a toy equities-trading backend

This project models the order-placement transaction of a small stock-trading web
backend, and proves properties of that model. The account of one user has three parts:

- a cash balance (the `portfolios.cash` row);
- a table of positions keyed by symbol, each with a quantity and an average purchase price
  (the `positions` rows);
- an append-only log of filled orders (the `orders` rows).

`placeOrder` first validates the request. It then draws a fill price and runs one database
transaction. A BUY is refused when the cash does not cover the cost. Otherwise it opens the
position, or grows it with a quantity-weighted average price, and debits the cost. A SELL is
refused when the position is missing or too small. Otherwise it shrinks the position, or
deletes it when it reaches exactly zero, and credits the proceeds. Every fill appends one
`FILLED` order. Every failure rolls the transaction back.

Two reads project the same state. The portfolio read returns the cash and the positions
ordered by symbol. The order-history read returns the newest 100 orders, newest first.

Files:

- `symbol_order.dfy` (module `SymbolOrder`): the symbol order behind `ORDER BY symbol`. It is
  a strict total order, proved irreflexive, asymmetric, transitive and total. Every finite set
  of symbols has a unique least element, and `SortedSymbols` lists a set in ascending order.
- `trading.dfy` (module `Trading`): the request, order, position and error types; validation;
  the weighted-average update; the net cash flow and net quantity of an order log; and the
  class `Account`. That class has the fields `accountExists`, `cash`, `positions` and
  `orders`; the method `PlaceOrder` with its two branches `FillBuy` and `FillSell`; and the
  read functions `GetPortfolio` and `GetOrders`. The position updates are the functions
  `AfterBuy` and `AfterSell`, and the lemmas `BuyKeeps…` and `SellKeeps…` show that each update
  keeps both invariants below.
- `scenarios.dfy` (module `TradingScenarios`): worked examples whose exact results are proved. They
  cover the average-price recompute (10@100 plus 10@200 gives 20@150), a sell that clears the
  row, an atomic insufficient-funds refusal, two 600 buys against 1000 of cash, and the order of
  the validation checks.

`Account` keeps two invariants:

- `Valid()`: cash is never negative, and every stored position has a positive quantity and an
  average price inside the fill-price range [100, 250).
- `Ledger()`: cash equals the starting 100000 plus the net cash flow of the order log, and each
  symbol's position holds exactly the net quantity bought minus sold in the log. A symbol with
  no position has a net quantity of zero. `Register` establishes `Ledger()` and `PlaceOrder`
  preserves it. This is the bookkeeping conservation rule: money and shares move only through
  logged fills.

Inputs from outside the model are parameters:

- the random fill price is `price`, with `100 <= price < 250`;
- a failing store query is the flag `storeFault`;
- `Number(quantity)` is already applied, giving `JsNumber`: NaN or a finite number;
- a missing or falsy symbol, side or type is the empty string.

Arithmetic is exact `real`.

Three facts about the code that the model follows:

- Validation has three errors, checked in this order: missing fields (a zero or NaN quantity
  falls here), quantity not positive, invalid side.
- The fill price is drawn uniformly from [100, 250), whatever the symbol is.
- The BUY refusal carries the required and available amounts, modelled as
  `InsufficientCash(required, available)`.

## Model

| member | source | states |
|---|---|---|
| `SymbolOrder.Less` | backend/src/backend/src/trading.js:13 | the comparison behind `ORDER BY symbol`: character by character in code-point order; a proper prefix sorts first |
| `SymbolOrder.LessIrreflexive` | backend/src/backend/src/trading.js:13 | no symbol sorts before itself |
| `SymbolOrder.LessAsymmetric` | backend/src/backend/src/trading.js:13 | two symbols never sort before each other both ways |
| `SymbolOrder.LessTransitive` | backend/src/backend/src/trading.js:13 | the symbol order is transitive |
| `SymbolOrder.LessTotal` | backend/src/backend/src/trading.js:13 | any two distinct symbols are ordered one way or the other |
| `SymbolOrder.LeastExists` | backend/src/backend/src/trading.js:13 | every non-empty set of symbols has a first element |
| `SymbolOrder.LeastUnique` | backend/src/backend/src/trading.js:13 | that first element is unique |
| `SymbolOrder.LeastInFront` | backend/src/backend/src/trading.js:13 | the least symbol followed by an ascending listing of the rest is an ascending listing of the whole set |
| `SymbolOrder.SortedSymbols` | backend/src/backend/src/trading.js:12-15 | lists exactly the given symbols, each once, strictly ascending |
| `Trading.Truthy` | backend/src/backend/src/trading.js:40-41 | `!qty` on the converted quantity: NaN and zero are falsy, every other number is truthy |
| `Trading.FieldsPresent` | backend/src/backend/src/trading.js:41 | the missing-fields test: symbol, side and type non-empty and the quantity truthy |
| `Trading.Validate` | backend/src/backend/src/trading.js:40-51 | missing (falsy) symbol, side, quantity or type, including quantity 0 or NaN, gives MissingFields; otherwise a negative quantity gives QuantityNotPositive; otherwise a side other than BUY/SELL gives InvalidSide; exactly the remaining requests pass, with a positive quantity and the side decoded |
| `Trading.Cost` | backend/src/backend/src/trading.js:68 | the cost of a fill with positive price and quantity is positive |
| `Trading.Fill` | backend/src/backend/src/trading.js:131-133 | the row the INSERT writes: the request's symbol, side, quantity and type, the fill price, status FILLED |
| `Trading.AverageBetween` | backend/src/backend/src/trading.js:93 | a quantity-weighted average of two prices lies between them |
| `Trading.AddToPosition` | backend/src/backend/src/trading.js:91-93 | a buy into a held position adds the quantities and adds the total cost (new avg × new qty = old avg × old qty + price × qty); the new average lies between the old average and the fill price |
| `Trading.AfterBuy` | backend/src/backend/src/trading.js:80-99 | after a buy the symbol is held: a new position at the fill price, or the held quantity plus the bought one with the total cost preserved; every other symbol keeps its position or stays absent |
| `Trading.AfterSell` | backend/src/backend/src/trading.js:116-123 | after a sell the row remains exactly when the held quantity differs from the sold one, then with the quantity reduced and the average price unchanged; every other symbol is untouched |
| `Trading.BuyKeepsSolvent` | backend/src/backend/src/trading.js:71-104 | a buy whose cost is covered leaves cash non-negative and every position positive with an average price in the fill range |
| `Trading.SellKeepsSolvent` | backend/src/backend/src/trading.js:111-128 | a sell of at most the held quantity leaves cash non-negative and every remaining position positive |
| `Trading.BuyKeepsBalanced` | backend/src/backend/src/trading.js:80-134 | a buy that debits the cost, updates the position and logs the order keeps cash and holdings equal to what the log accounts for |
| `Trading.SellKeepsBalanced` | backend/src/backend/src/trading.js:116-134 | the same for a sell that credits the cost |
| `Trading.NetCashFlowAppend` | backend/src/backend/src/trading.js:101-134 | appending one fill changes the log's net cash flow by exactly that fill's debit (BUY) or credit (SELL) |
| `Trading.NetQuantityAppend` | backend/src/backend/src/trading.js:85-134 | appending one fill changes the net quantity of its own symbol by ± its quantity and of every other symbol by nothing |
| `Trading.NewestFirst` | backend/src/backend/src/trading.js:152 | the last n entries of the log (all, if fewer), newest first |
| `Trading.PositionRows` | backend/src/backend/src/trading.js:12-27 | the portfolio rows list every position exactly once with its quantity and average price, strictly ascending by symbol |
| `Trading.RowsFor` | backend/src/backend/src/trading.js:23-27 | the `.map` over the listed symbols: one row per symbol, in order, with that symbol's quantity and average price |
| `Trading.RowsForSorted` | backend/src/backend/src/trading.js:23-27 | mapping a sorted, complete list of held symbols to rows gives such a listing |
| `Trading.Account.Register` | backend/src/auth.js:30 | a new account has 100000 cash, no positions, no orders, and satisfies both invariants |
| `Trading.Account.Unregistered` | backend/src/backend/src/trading.js:62-65 | a user without a portfolio row |
| `Trading.Account.Load` | backend/src/backend/src/trading.js:57-67 | an existing account row with non-negative cash and valid positions |
| `Trading.Account.PlaceOrder` | backend/src/backend/src/trading.js:35-145 | validation failures, store failure, missing portfolio, insufficient cash (reporting cost and cash) and not enough quantity each give their error and change nothing; a BUY with cost ≤ cash opens a position at the fill price or weight-averages the held one, and debits the cost; a SELL of at most the held quantity deletes the position when it reaches exactly zero, otherwise lowers the quantity at an unchanged average, and credits the cost; each fill appends exactly one FILLED order with the request's symbol, side, quantity, type and the fill price; other symbols' positions are untouched; `Valid()` and `Ledger()` are preserved |
| `Trading.Account.FillBuy` | backend/src/backend/src/trading.js:70-104 | refuses with InsufficientCash(cost, cash) and changes nothing when cash < cost; otherwise debits the cost, applies `AfterBuy` and appends the filled order; keeps `Valid()` and `Ledger()` |
| `Trading.Account.FillSell` | backend/src/backend/src/trading.js:105-128 | refuses with NotEnoughQuantity and changes nothing when the symbol is not held or too few shares are; otherwise credits the cost, applies `AfterSell` and appends the filled order; keeps `Valid()` and `Ledger()` |
| `Trading.Account.GetPortfolio` | backend/src/backend/src/trading.js:3-33 | fails with PortfolioNotFound exactly when there is no portfolio row; otherwise returns the cash and every position once, ascending by symbol |
| `Trading.Account.GetOrders` | backend/src/backend/src/trading.js:147-161 | returns min(100, log length) orders, the i-th being the i-th newest |
| `TradingScenarios.AveragePriceRecompute` | backend/src/backend/src/trading.js:90-104 | on a new account, BUY 10 @ 100 then BUY 10 @ 200 gives position 20 @ 150, cash 97000, two orders |
| `TradingScenarios.SellClearsRow` | backend/src/backend/src/trading.js:106-128 | holding 5, SELL 6 is refused with the position unchanged; SELL 5 deletes the row and credits 600 |
| `TradingScenarios.InsufficientFundsRejects` | backend/src/backend/src/trading.js:70-78 | with cash 1000, a BUY costing 1500 is refused reporting 1500 and 1000; cash, positions and log unchanged |
| `TradingScenarios.SecondBuyRefusedAfterFirst` | backend/src/backend/src/trading.js:57-78 | two BUYs of cost 600 against cash 1000, one after the other: the first fills, the second is refused (600 required, 400 available), cash ends at 400 |
| `TradingScenarios.ValidationOrder` | backend/src/backend/src/trading.js:40-51 | quantity 0 gives MissingFields, quantity -3 gives QuantityNotPositive, side HOLD gives InvalidSide |

## Left out

- HTTP routing, status codes, JSON shapes and messages are left out. Each failure is an `OrderError` constructor.
- The `toFixed(2)` formatting of the required and available amounts is left out; they are exact reals.
- IEEE-754 floating point is replaced by exact `real` arithmetic. The weighted average and the `newQty === 0` test are therefore exact. Rounding residue from floats is not modelled.
- `Number(quantity)` itself is not modelled. `JsNumber` covers NaN and finite values, but not ±Infinity.
- Request fields that are not strings (numbers, booleans, null) are not modelled. A missing or falsy symbol, side or type is the empty string.
- The fill price comes from `Math.random`. It is a parameter with `100 <= price < 250`.
- A store failure at any query of the transaction is the single flag `storeFault`. The whole transaction is rolled back, so the outcome (`StoreUnavailable`, nothing changed) does not depend on which query failed.
- Row locks (`FOR UPDATE`) and concurrent requests are not modelled. Each `PlaceOrder` call is one atomic step, and two requests are two sequential calls.
- There are no user ids: one `Account` object is one user's account. Database ids and `created_at` are not modelled either; position in the order log is creation order.
- `ORDER BY symbol` is modelled as code-point lexicographic order (the "C" collation). The database's configured collation is not modelled.
- `GetPortfolio` does not model the `cash || 0` fallback for a null cash column (cash is always a number here). It also ignores that the positions query runs before the existence check, which does not affect the result.
- `Trading.Account.Load`: does not establish `Ledger()`, because an account read back from the store has an unknown history.
- Registration, login and token handling in `backend/src/auth.js` are not part of this model; only its starting cash of 100000 is.
- A store failure during either read (the `Error loading portfolio` and `Error loading orders` paths) is not modelled: `GetPortfolio` and `GetOrders` always return.
- The quote generator in `backend/src/market.js`, the route wiring in `backend/backend/backend/src/server.js` and the React frontend are not part of this model: they hold no order-execution logic.
