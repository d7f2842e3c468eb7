/**
 One user's trading account: a cash balance, the positions it holds (one per
 symbol, with quantity and average purchase price) and the append-only log of
 filled orders. `PlaceOrder` is the order-placement transaction: it validates
 the request, then either fills it at the given price (debiting or crediting
 cash, opening, growing, shrinking or closing the position, and logging one
 order) or rejects it and leaves the account exactly as it was.
 `GetPortfolio` and `GetOrders` are the two read projections.
 */
module Trading {
  import opened SymbolOrder

  /** Cash credited to every account when it is registered. */
  const StartingCash: real := 100000.0

  /** Fill prices lie in [PriceFloor, PriceCeiling). */
  const PriceFloor: real := 100.0
  const PriceCeiling: real := 250.0

  /** The order history read returns at most this many orders. */
  const OrderHistoryLimit: nat := 100

  /** Every logged order is instantly and completely filled. */
  const FilledStatus: string := "FILLED"

  datatype Side = Buy | Sell

  /** The request's quantity after `Number(...)`: NaN or a finite number. */
  datatype JsNumber = NaN | Num(value: real)

  /** JavaScript truthiness of a number: NaN and zero are falsy. */
  predicate Truthy(n: JsNumber) {
    n.Num? && n.value != 0.0
  }

  datatype Position = Position(quantity: real, avgPrice: real)

  datatype Order = Order(
    symbol: string,
    side: Side,
    quantity: real,
    price: real,
    orderType: string,
    status: string)

  /** Every way a call can fail; each failure leaves the account untouched. */
  datatype OrderError =
    | MissingFields
    | QuantityNotPositive
    | InvalidSide
    | PortfolioNotFound
    | InsufficientCash(required: real, available: real)
    | NotEnoughQuantity
    | StoreUnavailable

  datatype Result<T> = Ok(value: T) | Err(error: OrderError)

  /** A request that passed validation. */
  datatype Request = Request(symbol: string, side: Side, qty: real, orderType: string)

  datatype Outcome = Placed(order: Order) | Rejected(error: OrderError)

  /** One row of the portfolio read. */
  datatype PositionRow = PositionRow(symbol: string, quantity: real, avgPrice: real)

  datatype PortfolioView = PortfolioView(cash: real, positions: seq<PositionRow>)

  // ---------------------------------------------------------------------------
  // Validation

  /** Symbol, side, quantity and type are all present (truthy); an empty
      string stands for a missing or falsy field. */
  predicate FieldsPresent(symbol: string, side: string, quantity: JsNumber, orderType: string) {
    symbol != "" && side != "" && Truthy(quantity) && orderType != ""
  }

  /** The checks made before the store is touched, in the order they are made. */
  function Validate(symbol: string, side: string, quantity: JsNumber, orderType: string): (r: Result<Request>)
    ensures r == Err(MissingFields) <==> !FieldsPresent(symbol, side, quantity, orderType)
    ensures r == Err(QuantityNotPositive) <==>
              FieldsPresent(symbol, side, quantity, orderType) && quantity.value < 0.0
    ensures r == Err(InvalidSide) <==>
              FieldsPresent(symbol, side, quantity, orderType) && quantity.value > 0.0 &&
              side != "BUY" && side != "SELL"
    ensures r.Ok? <==>
              FieldsPresent(symbol, side, quantity, orderType) && quantity.value > 0.0 &&
              (side == "BUY" || side == "SELL")
    ensures r.Ok? ==>
              r.value.qty > 0.0 && r.value.symbol != "" &&
              r.value == Request(symbol, if side == "BUY" then Buy else Sell, quantity.value, orderType)
  {
    if !FieldsPresent(symbol, side, quantity, orderType) then Err(MissingFields)
    else if quantity.value <= 0.0 then Err(QuantityNotPositive)
    else if side != "BUY" && side != "SELL" then Err(InvalidSide)
    else Ok(Request(symbol, if side == "BUY" then Buy else Sell, quantity.value, orderType))
  }

  /** What a fill of `qty` shares at `price` costs. */
  function Cost(price: real, qty: real): (c: real)
    ensures price > 0.0 && qty > 0.0 ==> c > 0.0
  {
    price * qty
  }

  /** The order logged when `req` is filled at `price`. */
  function Fill(req: Request, price: real): Order {
    Order(req.symbol, req.side, req.qty, price, req.orderType, FilledStatus)
  }

  // ---------------------------------------------------------------------------
  // Average purchase price

  function Min(x: real, y: real): real { if x <= y then x else y }
  function Max(x: real, y: real): real { if x <= y then y else x }

  /** Dividing by a positive weight keeps bounds that hold after scaling. */
  lemma QuotientBetween(x: real, w: real, lo: real, hi: real)
    requires w > 0.0 && lo * w <= x <= hi * w
    ensures lo <= x / w <= hi
  {
  }

  /** A quantity-weighted average of two prices lies between them. */
  lemma AverageBetween(q1: real, a1: real, q2: real, a2: real)
    requires q1 > 0.0 && q2 > 0.0
    ensures Min(a1, a2) <= (a1 * q1 + a2 * q2) / (q1 + q2) <= Max(a1, a2)
  {
    var lo, hi := Min(a1, a2), Max(a1, a2);
    assert lo * q1 <= a1 * q1 <= hi * q1;
    assert lo * q2 <= a2 * q2 <= hi * q2;
    assert lo * (q1 + q2) == lo * q1 + lo * q2 && hi * (q1 + q2) == hi * q1 + hi * q2;
    QuotientBetween(a1 * q1 + a2 * q2, q1 + q2, lo, hi);
  }

  /** The position after buying `qty` more shares at `price`: the quantities
      add up, so does the total cost, and the new average price lies between
      the old one and the fill price. */
  function AddToPosition(p: Position, qty: real, price: real): (r: Position)
    requires p.quantity > 0.0 && qty > 0.0
    ensures r.quantity == p.quantity + qty
    ensures r.avgPrice * r.quantity == p.avgPrice * p.quantity + price * qty
    ensures Min(p.avgPrice, price) <= r.avgPrice <= Max(p.avgPrice, price)
  {
    var newQty := p.quantity + qty;
    var newAvg := (p.avgPrice * p.quantity + price * qty) / newQty;
    AverageBetween(p.quantity, p.avgPrice, qty, price);
    assert Min(p.avgPrice, price) <= newAvg <= Max(p.avgPrice, price);
    Position(newQty, newAvg)
  }

  // ---------------------------------------------------------------------------
  // What the order log implies about cash and holdings

  /** Cash moved by one fill: a buy pays the cost, a sell receives it. */
  function CashEffect(o: Order): real {
    if o.side == Buy then -Cost(o.price, o.quantity) else Cost(o.price, o.quantity)
  }

  function NetCashFlow(log: seq<Order>): real
    decreases |log|
  {
    if log == [] then 0.0 else NetCashFlow(log[..|log| - 1]) + CashEffect(log[|log| - 1])
  }

  /** Shares of `s` gained (buy) or given up (sell) by one fill. */
  function QuantityEffect(o: Order, s: string): real {
    if o.symbol != s then 0.0 else if o.side == Buy then o.quantity else -o.quantity
  }

  function NetQuantity(log: seq<Order>, s: string): real
    decreases |log|
  {
    if log == [] then 0.0 else NetQuantity(log[..|log| - 1], s) + QuantityEffect(log[|log| - 1], s)
  }

  lemma NetCashFlowAppend(log: seq<Order>, o: Order)
    ensures NetCashFlow(log + [o]) == NetCashFlow(log) + CashEffect(o)
  {
  }

  lemma NetQuantityAppend(log: seq<Order>, o: Order, s: string)
    ensures NetQuantity(log + [o], s) == NetQuantity(log, s) + QuantityEffect(o, s)
  {
  }

  // ---------------------------------------------------------------------------
  // Order history

  /** The last `n` entries of `log` (or all of it, if shorter), newest first. */
  function NewestFirst(log: seq<Order>, n: nat): (r: seq<Order>)
    ensures |r| == if |log| < n then |log| else n
    ensures forall i :: 0 <= i < |r| ==> r[i] == log[|log| - 1 - i]
    decreases n
  {
    if n == 0 || log == [] then []
    else [log[|log| - 1]] + NewestFirst(log[..|log| - 1], n - 1)
  }

  // ---------------------------------------------------------------------------
  // Account invariants and the position updates that keep them

  /** No negative cash, and every stored position holds a positive quantity
      bought at an average price inside the fill-price range. */
  predicate Solvent(cash: real, held: map<string, Position>) {
    cash >= 0.0 &&
    forall s :: s in held ==>
      held[s].quantity > 0.0 &&
      PriceFloor <= held[s].avgPrice < PriceCeiling
  }

  /** The balance and the holdings are exactly what the order log accounts
      for, starting from a freshly registered account. */
  ghost predicate Balanced(cash: real, held: map<string, Position>, log: seq<Order>) {
    cash == StartingCash + NetCashFlow(log) &&
    forall s ::
      (s in held ==> held[s].quantity == NetQuantity(log, s)) &&
      (s !in held ==> NetQuantity(log, s) == 0.0)
  }

  /** The positions after buying `qty` shares of `symbol` at `price`: a new
      position at the fill price, or the held one grown at a weighted average. */
  function AfterBuy(held: map<string, Position>, symbol: string, qty: real, price: real): (r: map<string, Position>)
    requires qty > 0.0 && (symbol in held ==> held[symbol].quantity > 0.0)
    ensures symbol in r
    ensures symbol !in held ==> r[symbol] == Position(qty, price)
    ensures symbol in held ==>
              r[symbol].quantity == held[symbol].quantity + qty &&
              r[symbol].avgPrice * r[symbol].quantity ==
                held[symbol].avgPrice * held[symbol].quantity + price * qty
    ensures forall s :: s != symbol ==> (s in r <==> s in held) && (s in r ==> r[s] == held[s])
  {
    if symbol in held then held[symbol := AddToPosition(held[symbol], qty, price)]
    else held[symbol := Position(qty, price)]
  }

  /** The positions after selling `qty` of the `symbol` shares held: the row
      goes when nothing is left, otherwise its quantity drops and its average
      price stays. */
  function AfterSell(held: map<string, Position>, symbol: string, qty: real): (r: map<string, Position>)
    requires symbol in held && held[symbol].quantity >= qty
    ensures symbol in r <==> held[symbol].quantity != qty
    ensures symbol in r ==> r[symbol] == Position(held[symbol].quantity - qty, held[symbol].avgPrice)
    ensures forall s :: s != symbol ==> (s in r <==> s in held) && (s in r ==> r[s] == held[s])
  {
    var p := held[symbol];
    if p.quantity - qty == 0.0 then held - {symbol}
    else held[symbol := Position(p.quantity - qty, p.avgPrice)]
  }

  lemma BuyKeepsSolvent(cash: real, held: map<string, Position>, symbol: string, qty: real, price: real)
    requires Solvent(cash, held)
    requires qty > 0.0 && PriceFloor <= price < PriceCeiling && Cost(price, qty) <= cash
    ensures Solvent(cash - Cost(price, qty), AfterBuy(held, symbol, qty, price))
  {
  }

  lemma SellKeepsSolvent(cash: real, held: map<string, Position>, symbol: string, qty: real, price: real)
    requires Solvent(cash, held)
    requires qty > 0.0 && PriceFloor <= price < PriceCeiling
    requires symbol in held && held[symbol].quantity >= qty
    ensures Solvent(cash + Cost(price, qty), AfterSell(held, symbol, qty))
  {
  }

  lemma BuyKeepsBalanced(cash: real, held: map<string, Position>, log: seq<Order>, o: Order)
    requires Balanced(cash, held, log)
    requires o.side == Buy && o.quantity > 0.0
    requires o.symbol in held ==> held[o.symbol].quantity > 0.0
    ensures Balanced(cash - Cost(o.price, o.quantity), AfterBuy(held, o.symbol, o.quantity, o.price), log + [o])
  {
    NetCashFlowAppend(log, o);
    forall s
      ensures NetQuantity(log + [o], s) == NetQuantity(log, s) + QuantityEffect(o, s)
    {
      NetQuantityAppend(log, o, s);
    }
  }

  lemma SellKeepsBalanced(cash: real, held: map<string, Position>, log: seq<Order>, o: Order)
    requires Balanced(cash, held, log)
    requires o.side == Sell && o.symbol in held && held[o.symbol].quantity >= o.quantity
    ensures Balanced(cash + Cost(o.price, o.quantity), AfterSell(held, o.symbol, o.quantity), log + [o])
  {
    NetCashFlowAppend(log, o);
    forall s
      ensures NetQuantity(log + [o], s) == NetQuantity(log, s) + QuantityEffect(o, s)
    {
      NetQuantityAppend(log, o, s);
    }
  }

  // ---------------------------------------------------------------------------
  // The portfolio read

  /** `rows` lists every position of `held` exactly once, with its quantity
      and average price, in ascending symbol order. */
  ghost predicate ListsAscending(rows: seq<PositionRow>, held: map<string, Position>) {
    (forall i, j :: 0 <= i < j < |rows| ==> Less(rows[i].symbol, rows[j].symbol)) &&
    (forall i :: 0 <= i < |rows| ==>
      rows[i].symbol in held &&
      rows[i].quantity == held[rows[i].symbol].quantity &&
      rows[i].avgPrice == held[rows[i].symbol].avgPrice) &&
    (forall s :: s in held ==> exists i :: 0 <= i < |rows| && rows[i].symbol == s)
  }

  /** One row per symbol of `symbols`, in that order. */
  function RowsFor(symbols: seq<string>, held: map<string, Position>): seq<PositionRow>
    requires forall k :: 0 <= k < |symbols| ==> symbols[k] in held
  {
    seq(|symbols|, i requires 0 <= i < |symbols| =>
      PositionRow(symbols[i], held[symbols[i]].quantity, held[symbols[i]].avgPrice))
  }

  /** The rows of the portfolio read: `ORDER BY symbol`, one row per position. */
  function PositionRows(held: map<string, Position>): (rows: seq<PositionRow>)
    ensures ListsAscending(rows, held)
  {
    var symbols := SortedSymbols(held.Keys);
    RowsForSorted(symbols, held);
    RowsFor(symbols, held)
  }

  lemma RowsForSorted(symbols: seq<string>, held: map<string, Position>)
    requires forall x :: x in symbols <==> x in held
    requires Ascending(symbols)
    ensures forall k :: 0 <= k < |symbols| ==> symbols[k] in held
    ensures ListsAscending(RowsFor(symbols, held), held)
  {
    assert forall k :: 0 <= k < |symbols| ==> symbols[k] in held by {
      forall k | 0 <= k < |symbols| ensures symbols[k] in held {
        assert symbols[k] in symbols;
      }
    }
    var rows := RowsFor(symbols, held);
    assert |rows| == |symbols|;
    forall s | s in held
      ensures exists i :: 0 <= i < |rows| && rows[i].symbol == s
    {
      var i :| 0 <= i < |symbols| && symbols[i] == s;
      assert rows[i].symbol == s;
    }
  }

  // ---------------------------------------------------------------------------
  // The account

  class Account {
    /** Whether the user has a portfolio row at all. */
    var accountExists: bool
    var cash: real
    var positions: map<string, Position>
    /** Oldest first; position in the log is creation order. */
    var orders: seq<Order>

    ghost predicate Valid()
      reads this
    {
      Solvent(cash, positions)
    }

    ghost predicate Ledger()
      reads this
    {
      Balanced(cash, positions, orders)
    }

    /** The account created at registration. */
    constructor Register()
      ensures accountExists && cash == StartingCash && positions == map[] && orders == []
      ensures Valid() && Ledger()
    {
      accountExists := true;
      cash := StartingCash;
      positions := map[];
      orders := [];
    }

    /** A user without a portfolio row. */
    constructor Unregistered()
      ensures !accountExists && cash == 0.0 && positions == map[] && orders == []
      ensures Valid()
    {
      accountExists := false;
      cash := 0.0;
      positions := map[];
      orders := [];
    }

    /** An existing account as read back from the store. */
    constructor Load(cash0: real, positions0: map<string, Position>, orders0: seq<Order>)
      requires Solvent(cash0, positions0)
      ensures accountExists && cash == cash0 && positions == positions0 && orders == orders0
      ensures Valid()
    {
      accountExists := true;
      cash := cash0;
      positions := positions0;
      orders := orders0;
    }

    /** Place a market order for `quantity` shares of `symbol`, filled at
        `price`; `storeFault` says whether a store query fails during the
        transaction. */
    method PlaceOrder(symbol: string, side: string, quantity: JsNumber, orderType: string,
                      price: real, storeFault: bool)
      returns (r: Outcome)
      requires Valid()
      requires PriceFloor <= price < PriceCeiling
      modifies this
      ensures Valid()
      ensures old(Ledger()) ==> Ledger()
      ensures accountExists == old(accountExists)
      // all or nothing
      ensures r.Rejected? ==>
                cash == old(cash) && positions == old(positions) && orders == old(orders)
      // validation failures, before the store is reached
      ensures var v := Validate(symbol, side, quantity, orderType);
              v.Err? ==> r == Rejected(v.error)
      ensures var v := Validate(symbol, side, quantity, orderType);
              v.Ok? && storeFault ==> r == Rejected(StoreUnavailable)
      ensures var v := Validate(symbol, side, quantity, orderType);
              v.Ok? && !storeFault && !old(accountExists) ==> r == Rejected(PortfolioNotFound)
      // business-rule failures, and when the order fills
      ensures var v := Validate(symbol, side, quantity, orderType);
              v.Ok? && !storeFault && old(accountExists) && v.value.side == Buy ==>
                var cost := Cost(price, v.value.qty);
                if old(cash) < cost then r == Rejected(InsufficientCash(cost, old(cash)))
                else r == Placed(Fill(v.value, price))
      ensures var v := Validate(symbol, side, quantity, orderType);
              v.Ok? && !storeFault && old(accountExists) && v.value.side == Sell ==>
                if symbol !in old(positions) || old(positions)[symbol].quantity < v.value.qty
                then r == Rejected(NotEnoughQuantity)
                else r == Placed(Fill(v.value, price))
      // effect of a fill: exactly one order logged
      ensures r.Placed? ==> r.order.symbol == symbol && r.order.quantity > 0.0
      ensures r.Placed? ==> orders == old(orders) + [r.order]
      // a buy pays the cost and opens or averages up the position
      ensures r.Placed? && r.order.side == Buy ==>
                cash == old(cash) - Cost(price, r.order.quantity) &&
                positions == AfterBuy(old(positions), symbol, r.order.quantity, price)
      // a sell receives the cost and shrinks or closes the position
      ensures r.Placed? && r.order.side == Sell ==>
                symbol in old(positions) && old(positions)[symbol].quantity >= r.order.quantity &&
                cash == old(cash) + Cost(price, r.order.quantity) &&
                positions == AfterSell(old(positions), symbol, r.order.quantity)
    {
      var checked := Validate(symbol, side, quantity, orderType);
      if checked.Err? {
        return Rejected(checked.error);
      }
      var req := checked.value;
      var qty := req.qty;

      // BEGIN: from here on any store failure rolls everything back
      if storeFault {
        return Rejected(StoreUnavailable);
      }
      if !accountExists {
        return Rejected(PortfolioNotFound);
      }

      if req.side == Buy {
        r := FillBuy(req, price);
      } else {
        r := FillSell(req, price);
      }
    }

    /** The BUY branch, once the portfolio row is locked: refuse when cash does
        not cover the cost, otherwise open or average up the position, debit
        the cost and log the fill. */
    method FillBuy(req: Request, price: real) returns (r: Outcome)
      requires Valid() && accountExists
      requires req.side == Buy && req.qty > 0.0 && PriceFloor <= price < PriceCeiling
      modifies this
      ensures Valid() && accountExists
      ensures old(Ledger()) ==> Ledger()
      ensures var cost := Cost(price, req.qty);
              if old(cash) < cost then
                r == Rejected(InsufficientCash(cost, old(cash))) &&
                cash == old(cash) && positions == old(positions) && orders == old(orders)
              else
                r == Placed(Fill(req, price)) &&
                cash == old(cash) - cost &&
                positions == AfterBuy(old(positions), req.symbol, req.qty, price) &&
                orders == old(orders) + [r.order]
    {
      var symbol, qty := req.symbol, req.qty;
      var cost := Cost(price, qty);
      if cash < cost {
        return Rejected(InsufficientCash(cost, cash));
      }
      var order := Fill(req, price);
      BuyKeepsSolvent(cash, positions, symbol, qty, price);
      if Ledger() {
        BuyKeepsBalanced(cash, positions, orders, order);
      }
      if symbol !in positions {
        positions := positions[symbol := Position(qty, price)];
      } else {
        positions := positions[symbol := AddToPosition(positions[symbol], qty, price)];
      }
      cash := cash - cost;
      orders := orders + [order];
      r := Placed(order);
    }

    /** The SELL branch, once the portfolio row is locked: refuse when the
        position is missing or too small, otherwise shrink or delete it,
        credit the proceeds and log the fill. */
    method FillSell(req: Request, price: real) returns (r: Outcome)
      requires Valid() && accountExists
      requires req.side == Sell && req.qty > 0.0 && PriceFloor <= price < PriceCeiling
      modifies this
      ensures Valid() && accountExists
      ensures old(Ledger()) ==> Ledger()
      ensures if req.symbol !in old(positions) || old(positions)[req.symbol].quantity < req.qty then
                r == Rejected(NotEnoughQuantity) &&
                cash == old(cash) && positions == old(positions) && orders == old(orders)
              else
                r == Placed(Fill(req, price)) &&
                cash == old(cash) + Cost(price, req.qty) &&
                positions == AfterSell(old(positions), req.symbol, req.qty) &&
                orders == old(orders) + [r.order]
    {
      var symbol, qty := req.symbol, req.qty;
      var cost := Cost(price, qty);
      if symbol !in positions || positions[symbol].quantity < qty {
        return Rejected(NotEnoughQuantity);
      }
      var order := Fill(req, price);
      SellKeepsSolvent(cash, positions, symbol, qty, price);
      if Ledger() {
        SellKeepsBalanced(cash, positions, orders, order);
      }
      var pos := positions[symbol];
      var newQty := pos.quantity - qty;
      if newQty == 0.0 {
        positions := positions - {symbol};
      } else {
        positions := positions[symbol := Position(newQty, pos.avgPrice)];
      }
      cash := cash + cost;
      orders := orders + [order];
      r := Placed(order);
    }

    /** Cash and positions, ordered by symbol; fails without a portfolio row. */
    function GetPortfolio(): (r: Result<PortfolioView>)
      reads this
      ensures r.Err? <==> !accountExists
      ensures r.Err? ==> r.error == PortfolioNotFound
      ensures r.Ok? ==> r.value.cash == cash && ListsAscending(r.value.positions, positions)
    {
      if !accountExists then Err(PortfolioNotFound)
      else Ok(PortfolioView(cash, PositionRows(positions)))
    }

    /** The most recent orders, newest first, at most `OrderHistoryLimit` of them. */
    function GetOrders(): (r: seq<Order>)
      reads this
      ensures |r| == if |orders| < OrderHistoryLimit then |orders| else OrderHistoryLimit
      ensures forall i :: 0 <= i < |r| ==> r[i] == orders[|orders| - 1 - i]
    {
      NewestFirst(orders, OrderHistoryLimit)
    }
  }
}
