/**
 Worked examples of the order transaction: each method builds an account,
 places a few orders at fixed fill prices, and its contract states exactly
 what comes out.
 */
module TradingScenarios {
  import opened Trading

  /** 10 shares at 100, then 10 more at 200, average out at 20 shares at 150. */
  method AveragePriceRecompute() returns (p: Position, cashLeft: real, logged: nat)
    ensures p == Position(20.0, 150.0)
    ensures cashLeft == 97000.0
    ensures logged == 2
  {
    var a := new Account.Register();
    var r1 := a.PlaceOrder("ACME", "BUY", Num(10.0), "MARKET", 100.0, false);
    var r2 := a.PlaceOrder("ACME", "BUY", Num(10.0), "MARKET", 200.0, false);
    assert Cost(100.0, 10.0) == 1000.0 && Cost(200.0, 10.0) == 2000.0;
    p, cashLeft, logged := a.positions["ACME"], a.cash, |a.orders|;
  }

  /** Holding 5 shares, selling 6 is refused and changes nothing; selling 5
      then removes the position. */
  method SellClearsRow() returns (tooMany: Outcome, afterRefusal: Position, stillHeld: bool, cashAfter: real)
    ensures tooMany == Rejected(NotEnoughQuantity)
    ensures afterRefusal == Position(5.0, 100.0)
    ensures !stillHeld
    ensures cashAfter == 600.0
  {
    var a := new Account.Load(0.0, map["ACME" := Position(5.0, 100.0)], []);
    tooMany := a.PlaceOrder("ACME", "SELL", Num(6.0), "MARKET", 120.0, false);
    afterRefusal := a.positions["ACME"];
    var r := a.PlaceOrder("ACME", "SELL", Num(5.0), "MARKET", 120.0, false);
    assert Cost(120.0, 5.0) == 600.0;
    stillHeld, cashAfter := "ACME" in a.positions, a.cash;
  }

  /** With 1000 in cash, a buy costing 1500 is refused, reports both amounts
      and logs nothing. */
  method InsufficientFundsRejects() returns (r: Outcome, cashAfter: real, logged: nat, holdings: nat)
    ensures r == Rejected(InsufficientCash(1500.0, 1000.0))
    ensures cashAfter == 1000.0 && logged == 0 && holdings == 0
  {
    var a := new Account.Load(1000.0, map[], []);
    r := a.PlaceOrder("ACME", "BUY", Num(10.0), "MARKET", 150.0, false);
    assert Cost(150.0, 10.0) == 1500.0;
    cashAfter, logged, holdings := a.cash, |a.orders|, |a.positions|;
  }

  /** Two buys of 600 each against 1000 in cash, made one after the other: the
      first fills, the second is refused, and cash is debited exactly once. */
  method SecondBuyRefusedAfterFirst() returns (first: Outcome, second: Outcome, cashAfter: real)
    ensures first.Placed? && first.order.quantity == 4.0 && first.order.price == 150.0
    ensures second == Rejected(InsufficientCash(600.0, 400.0))
    ensures cashAfter == 400.0
  {
    var a := new Account.Load(1000.0, map[], []);
    assert Cost(150.0, 4.0) == 600.0;
    first := a.PlaceOrder("ACME", "BUY", Num(4.0), "MARKET", 150.0, false);
    second := a.PlaceOrder("ACME", "BUY", Num(4.0), "MARKET", 150.0, false);
    cashAfter := a.cash;
  }

  /** A quantity of zero is caught by the missing-fields check, a negative one
      by the positivity check, and an unknown side by the side check. */
  method ValidationOrder() returns (zero: Outcome, negative: Outcome, badSide: Outcome)
    ensures zero == Rejected(MissingFields)
    ensures negative == Rejected(QuantityNotPositive)
    ensures badSide == Rejected(InvalidSide)
  {
    var a := new Account.Register();
    zero := a.PlaceOrder("ACME", "BUY", Num(0.0), "MARKET", 100.0, false);
    negative := a.PlaceOrder("ACME", "BUY", Num(-3.0), "MARKET", 100.0, false);
    badSide := a.PlaceOrder("ACME", "HOLD", Num(3.0), "MARKET", 100.0, false);
  }
}
