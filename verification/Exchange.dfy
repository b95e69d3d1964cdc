/**
  * The two-connector Bancor exchange behind the RAM market: deposits that issue exchange tokens,
  * redemptions that burn them, and the conversion that chains the two.
  */
module Exchange {
  import opened Bancor
  import opened Wrappers

  // ---------------------------------------------------------------------------
  // The exchange
  // ---------------------------------------------------------------------------

  datatype Asset = Asset(amount: int, symbol: nat)

  /** A reserve of one currency; its weight is 1000/root. */
  datatype Connector = Connector(balance: Asset, root: nat)

  datatype State = State(supply: Asset, base: Connector, quote: Connector)

  datatype Side = Base | Quote

  datatype ExchangeError = InvalidSell | InvalidConversion | UnexpectedSymbol

  function ConnectorOf(s: State, side: Side): Connector {
    if side == Base then s.base else s.quote
  }

  function Other(x: Side): Side { if x == Base then Quote else Base }

  function Balance(s: State, side: Side): int { ConnectorOf(s, side).balance.amount }

  function Symbol(s: State, side: Side): nat { ConnectorOf(s, side).balance.symbol }

  function WithBalance(s: State, side: Side, amount: int): State {
    var c := ConnectorOf(s, side);
    var c' := c.(balance := c.balance.(amount := amount));
    if side == Base then s.(base := c') else s.(quote := c')
  }

  predicate Live(s: State) {
    && s.supply.amount > 0
    && Balance(s, Base) > 0 && Balance(s, Quote) > 0
    && s.base.root >= 1 && s.quote.root >= 1
  }

  /** Tokens issued for a deposit; the formula takes the balance after the deposit. */
  function IssuedFor(s: State, side: Side, amount: int): nat
    requires Live(s) && amount >= 0
  {
    Issued(s.supply.amount, Balance(s, side) + amount, amount, ConnectorOf(s, side).root)
  }

  function Deposit(s: State, side: Side, amount: int): State
    requires Live(s) && amount >= 0
  {
    WithBalance(s, side, Balance(s, side) + amount).(
      supply := s.supply.(amount := s.supply.amount + IssuedFor(s, side, amount)))
  }

  function PaidFor(s: State, side: Side, amount: int): int
    requires Live(s) && 0 <= amount < s.supply.amount
  {
    Payout(Balance(s, side), s.supply.amount - amount, amount, ConnectorOf(s, side).root)
  }

  function Redeem(s: State, side: Side, amount: int): State
    requires Live(s) && 0 <= amount < s.supply.amount
  {
    WithBalance(s, side, Balance(s, side) - PaidFor(s, side, amount)).(
      supply := s.supply.(amount := s.supply.amount - amount))
  }

  /** The connector an asset belongs to, base first. */
  function SideOf(s: State, symbol: nat): Option<Side> {
    if symbol == Symbol(s, Base) then Some(Base) else if symbol == Symbol(s, Quote) then Some(Quote) else None
  }

  datatype Outcome = Outcome(state: State, result: Result<Asset, ExchangeError>)

  predicate Convertible(s: State, from: Asset) {
    Live(s) && from.amount >= 0 && (from.symbol == s.supply.symbol ==> from.amount < s.supply.amount)
  }

  /** Exchange tokens into a connector's currency. */
  function ConvertTokens(s: State, amount: int, to: nat): Outcome
    requires Live(s) && 0 <= amount < s.supply.amount
  {
    match SideOf(s, to)
    case None => Outcome(s, Failure(InvalidConversion))
    case Some(side) => Outcome(Redeem(s, side, amount), Success(Asset(PaidFor(s, side, amount), Symbol(s, side))))
  }

  /** Any conversion: a deposit, a redemption, or a deposit whose tokens are redeemed at once. */
  function ConvertAll(s: State, from: Asset, to: nat): Outcome
    requires Convertible(s, from)
  {
    if from.symbol == s.supply.symbol then ConvertTokens(s, from.amount, to)
    else
      match SideOf(s, from.symbol)
      case None => Outcome(s, Failure(InvalidSell))
      case Some(side) =>
        var issued := IssuedFor(s, side, from.amount);
        var s' := Deposit(s, side, from.amount);
        if to == s.supply.symbol then Outcome(s', Success(Asset(issued, s.supply.symbol)))
        else ConvertTokens(s', issued, to)
  }

  class ExchangeState {
    var supply: Asset
    var base: Connector
    var quote: Connector

    function View(): State
      reads this
    {
      State(supply, base, quote)
    }

    constructor (supply: Asset, base: Connector, quote: Connector)
      ensures View() == State(supply, base, quote)
    {
      this.supply, this.base, this.quote := supply, base, quote;
    }

    method ConvertToExchange(side: Side, input: Asset) returns (r: Asset)
      requires Live(View()) && input.amount >= 0
      modifies this
      ensures View() == Deposit(old(View()), side, input.amount)
      ensures r == Asset(IssuedFor(old(View()), side, input.amount), supply.symbol)
    {
      var c := if side == Base then base else quote;
      var issued := Issued(supply.amount, c.balance.amount + input.amount, input.amount, c.root);
      supply := supply.(amount := supply.amount + issued);
      c := c.(balance := c.balance.(amount := c.balance.amount + input.amount));
      if side == Base { base := c; } else { quote := c; }
      r := Asset(issued, supply.symbol);
    }

    method ConvertFromExchange(side: Side, input: Asset) returns (r: Result<Asset, ExchangeError>)
      requires Live(View()) && 0 <= input.amount < supply.amount
      modifies this
      ensures input.symbol != old(supply.symbol) ==> r == Failure(UnexpectedSymbol) && View() == old(View())
      ensures input.symbol == old(supply.symbol) ==>
                && View() == Redeem(old(View()), side, input.amount)
                && r == Success(Asset(PaidFor(old(View()), side, input.amount), Symbol(old(View()), side)))
    {
      if input.symbol != supply.symbol { return Failure(UnexpectedSymbol); }
      var c := if side == Base then base else quote;
      var out := Payout(c.balance.amount, supply.amount - input.amount, input.amount, c.root);
      supply := supply.(amount := supply.amount - input.amount);
      c := c.(balance := c.balance.(amount := c.balance.amount - out));
      if side == Base { base := c; } else { quote := c; }
      r := Success(Asset(out, c.balance.symbol));
    }

    /** Convert one hop, and again until the requested currency is reached. */
    method Convert(from: Asset, to: nat) returns (r: Result<Asset, ExchangeError>)
      requires Convertible(View(), from)
      modifies this
      ensures ConvertAll(old(View()), from, to) == Outcome(View(), r)
      decreases if from.symbol != supply.symbol then 1 else 0
    {
      var next: Asset;
      if from.symbol != supply.symbol {
        if from.symbol == base.balance.symbol {
          next := ConvertToExchange(Base, from);
        } else if from.symbol == quote.balance.symbol {
          next := ConvertToExchange(Quote, from);
        } else {
          return Failure(InvalidSell);
        }
      } else {
        if to == base.balance.symbol {
          var paid := ConvertFromExchange(Base, from);
          next := paid.value;
        } else if to == quote.balance.symbol {
          var paid := ConvertFromExchange(Quote, from);
          next := paid.value;
        } else {
          return Failure(InvalidConversion);
        }
      }
      if to != next.symbol {
        r := Convert(next, to);
      } else {
        r := Success(next);
      }
    }
  }

  // ---------------------------------------------------------------------------
  // What a caller can rely on
  // ---------------------------------------------------------------------------

  predicate DistinctSymbols(s: State) {
    Symbol(s, Base) != Symbol(s, Quote) && Symbol(s, Base) != s.supply.symbol && Symbol(s, Quote) != s.supply.symbol
  }

  predicate IsConnectorSymbol(s: State, symbol: nat) {
    symbol == Symbol(s, Base) || symbol == Symbol(s, Quote)
  }

  /** Conversion succeeds exactly for currencies of the exchange, tokens into tokens excepted, and
      then returns the requested currency; otherwise it tells which currency is the foreign one. */
  lemma ConvertSucceedsIff(s: State, from: Asset, to: nat)
    requires Convertible(s, from)
    ensures var r := ConvertAll(s, from, to).result;
            && (r.Success? <==>
                  || (from.symbol == s.supply.symbol && IsConnectorSymbol(s, to))
                  || (from.symbol != s.supply.symbol && IsConnectorSymbol(s, from.symbol)
                      && (to == s.supply.symbol || IsConnectorSymbol(s, to))))
            && (r.Success? ==> r.value.symbol == to)
            && (r.Failure? ==>
                  r.error == if from.symbol == s.supply.symbol || IsConnectorSymbol(s, from.symbol)
                             then InvalidConversion else InvalidSell)
  {
  }

  /** The side a connector's currency is on, base first. */
  function SideFor(s: State, symbol: nat): Side { if symbol == Symbol(s, Base) then Base else Quote }

  /** Everything but the supply and one balance is as before. */
  predicate OnlyMoves(s: State, s': State, x: Side) {
    && s'.supply.symbol == s.supply.symbol
    && (forall z :: Symbol(s', z) == Symbol(s, z) && ConnectorOf(s', z).root == ConnectorOf(s, z).root)
    && Balance(s', Other(x)) == Balance(s, Other(x))
  }

  /** Buying exchange tokens: the buyer gets what the supply grows by, the connector gets what is paid,
      and the number of tokens k is the greatest with (R+k)^m * C <= R^m * (C+T), C the new balance. */
  lemma BuyingLaw(s: State, from: Asset)
    requires Convertible(s, from) && from.symbol != s.supply.symbol && IsConnectorSymbol(s, from.symbol)
    ensures var (o, x) := (ConvertAll(s, from, s.supply.symbol), SideFor(s, from.symbol));
            var (k, m, c) := (o.state.supply.amount - s.supply.amount, ConnectorOf(s, x).root, Balance(o.state, x));
            && o.result == Success(Asset(k, s.supply.symbol))
            && OnlyMoves(s, o.state, x) && c == Balance(s, x) + from.amount && k >= 0
            && Pow(s.supply.amount + k, m) * c <= Pow(s.supply.amount, m) * (c + from.amount)
            && Pow(s.supply.amount + k + 1, m) * c > Pow(s.supply.amount, m) * (c + from.amount)
  {
    var x := SideFor(s, from.symbol);
    var k := IssuedFor(s, x, from.amount);
    IssuedIsGreatest(s.supply.amount, Balance(s, x) + from.amount, from.amount, ConnectorOf(s, x).root, k + 1);
    assert s.supply.amount + (k + 1) == s.supply.amount + k + 1;
  }

  /** Selling exchange tokens: the supply falls by what is sold, the connector by what is paid out, and
      that is the whole part of C * (R^m - r^m) / r^m, r the supply that is left. */
  lemma SellingLaw(s: State, amount: nat, to: nat)
    requires Live(s) && amount < s.supply.amount && IsConnectorSymbol(s, to)
    ensures var (o, x) := (ConvertAll(s, Asset(amount, s.supply.symbol), to), SideFor(s, to));
            var (out, m, c) := (Balance(s, x) - Balance(o.state, x), ConnectorOf(s, x).root, Balance(s, x));
            var all: int, rest: int := Pow(s.supply.amount, m), Pow(s.supply.amount - amount, m);
            && o.result == Success(Asset(out, to))
            && OnlyMoves(s, o.state, x) && o.state.supply.amount == s.supply.amount - amount
            && 0 <= out && out * rest <= c * (all - rest) < (out + 1) * rest
  {
    var x := SideFor(s, to);
    PayoutBound(Balance(s, x), s.supply.amount - amount, amount, ConnectorOf(s, x).root);
  }

  /** Between connectors a conversion is a purchase of tokens and the sale of just these. */
  lemma TwoHops(s: State, from: Asset, to: nat)
    requires Convertible(s, from) && from.symbol != s.supply.symbol && IsConnectorSymbol(s, from.symbol)
    requires to != s.supply.symbol
    ensures var bought := ConvertAll(s, from, s.supply.symbol);
            && bought.result.Success? && Convertible(bought.state, bought.result.value)
            && ConvertAll(s, from, to) == ConvertAll(bought.state, bought.result.value, to)
  {
    BuyingLaw(s, from);
  }

  /** Redeeming tokens overdraws a connector exactly when the m-th power of the supply exceeds twice
      that of the rest by more than one unit's worth. */
  lemma OverdrawsIff(s: State, side: Side, amount: int)
    requires Live(s) && 0 <= amount < s.supply.amount
    ensures var (c, m) := (Balance(s, side), ConnectorOf(s, side).root);
            var (all, rest) := (Pow(s.supply.amount, m), Pow(s.supply.amount - amount, m));
            Balance(Redeem(s, side, amount), side) < 0 <==> c * (all - rest) >= (c + 1) * rest
  {
    RedeemExceeds(s, side, amount, Balance(s, side));
  }

  /** Redeeming tokens pays more than t exactly when the formula reaches the next unit. */
  lemma RedeemExceeds(s: State, side: Side, amount: int, t: nat)
    requires Live(s) && 0 <= amount < s.supply.amount
    ensures var (c, m) := (Balance(s, side), ConnectorOf(s, side).root);
            var (all, rest) := (Pow(s.supply.amount, m), Pow(s.supply.amount - amount, m));
            PaidFor(s, side, amount) > t <==> c * (all - rest) >= (t + 1) * rest
  {
    PayoutExceeds(Balance(s, side), s.supply.amount - amount, amount, ConnectorOf(s, side).root, t);
  }

  /** Tokens that made the m-th power of the supply grow by no more than t made the balance grow. */
  lemma RedeemWithin(s: State, side: Side, amount: int, c: nat, t: nat)
    requires Live(s) && 0 <= amount < s.supply.amount && Balance(s, side) == c + t
    requires var m := ConnectorOf(s, side).root;
             Pow(s.supply.amount, m) * c <= Pow(s.supply.amount - amount, m) * Balance(s, side)
    ensures 0 <= PaidFor(s, side, amount) && PaidFor(s, side, amount) * c <= (c + t) * t
  {
    RedeemGrown(c + t, s.supply.amount - amount, amount, ConnectorOf(s, side).root, c, t);
  }

  // ---------------------------------------------------------------------------
  // Trades between the connectors
  // ---------------------------------------------------------------------------

  predicate Market(s: State) {
    Live(s) && DistinctSymbols(s) && s.base.root == s.quote.root
  }

  function Traded(s: State, x: Side, amount: nat, y: Side): State
    requires Market(s)
  {
    ConvertAll(s, Asset(amount, Symbol(s, x)), Symbol(s, y)).state
  }

  function Received(s: State, x: Side, amount: nat, y: Side): int
    requires Market(s)
  {
    PaidFor(Deposit(s, x, amount), y, IssuedFor(s, x, amount))
  }

  /** A trade moves exactly what is paid in and out, and returns the supply to what it was. */
  lemma TradeMoves(s: State, x: Side, amount: nat, y: Side)
    requires Market(s)
    ensures ConvertAll(s, Asset(amount, Symbol(s, x)), Symbol(s, y)).result
         == Success(Asset(Received(s, x, amount, y), Symbol(s, y)))
    ensures Traded(s, x, amount, y).supply == s.supply
    ensures forall z ::
              && Symbol(Traded(s, x, amount, y), z) == Symbol(s, z)
              && ConnectorOf(Traded(s, x, amount, y), z).root == ConnectorOf(s, z).root
              && Balance(Traded(s, x, amount, y), z)
                 == Balance(s, z) + (if z == x then amount else 0) - (if z == y then Received(s, x, amount, y) else 0)
  {
  }

  /** What comes out of one connector for a deposit into another of the same weight. */
  lemma PaidBound(s: State, x: Side, amount: nat, y: Side)
    requires Live(s) && ConnectorOf(s, x).root == ConnectorOf(s, y).root
    ensures var paid := PaidFor(Deposit(s, x, amount), y, IssuedFor(s, x, amount));
            0 <= paid && paid * (Balance(s, x) + amount) <= Balance(Deposit(s, x, amount), y) * amount
  {
    RedeemIssued(s.supply.amount, Balance(s, x) + amount, amount, ConnectorOf(s, x).root,
                 Balance(Deposit(s, x, amount), y));
  }

  /** Depositing and redeeming the tokens at once returns at most the deposit, restores the supply,
      and leaves the connector no lower, whatever the supply, the balances and the weights. */
  lemma RoundTrip(s: State, x: Side, amount: nat)
    requires Live(s)
    ensures var issued := IssuedFor(s, x, amount);
            var s' := Redeem(Deposit(s, x, amount), x, issued);
            && PaidFor(Deposit(s, x, amount), x, issued) <= amount
            && s'.supply == s.supply
            && Balance(s', x) >= Balance(s, x) && Balance(s', Other(x)) == Balance(s, Other(x))
  {
    PaidBound(s, x, amount, x);
    var c, paid := Balance(s, x) + amount, PaidFor(Deposit(s, x, amount), x, IssuedFor(s, x, amount));
    assert Balance(Deposit(s, x, amount), x) == c;
    assert c * amount == amount * c;
    Cancel(paid, amount, c);
  }

  // ---------------------------------------------------------------------------
  // Several deposits before one redemption
  // ---------------------------------------------------------------------------

  function Total(amounts: seq<nat>): nat {
    if amounts == [] then 0 else amounts[0] + Total(amounts[1..])
  }

  /** One deposit after the other into the same connector. */
  function Deposits(s: State, x: Side, amounts: seq<nat>): (r: State)
    requires Live(s)
    ensures Live(r)
    decreases |amounts|
  {
    if amounts == [] then s else Deposits(Deposit(s, x, amounts[0]), x, amounts[1..])
  }

  /** Over any run of deposits the m-th power of the supply grows by no larger a factor than the balance. */
  lemma {:induction false} DepositsGrow(s: State, x: Side, amounts: seq<nat>)
    requires Live(s)
    ensures var r, m := Deposits(s, x, amounts), ConnectorOf(s, x).root;
            && ConnectorOf(r, x).root == m && Balance(r, Other(x)) == Balance(s, Other(x))
            && Balance(r, x) == Balance(s, x) + Total(amounts) && r.supply.amount >= s.supply.amount
            && Pow(r.supply.amount, m) * Balance(s, x) <= Pow(s.supply.amount, m) * Balance(r, x)
    decreases |amounts|
  {
    if amounts != [] {
      var s', m := Deposit(s, x, amounts[0]), ConnectorOf(s, x).root;
      DepositsGrow(s', x, amounts[1..]);
      var r := Deposits(s', x, amounts[1..]);
      IssuedGrowth(s.supply.amount, Balance(s, x), amounts[0], m);
      GrowthChains(Pow(s.supply.amount, m), Pow(s'.supply.amount, m), Pow(r.supply.amount, m),
                   Balance(s, x), Balance(s', x), Balance(r, x));
    }
  }

  /** Redeeming at once all that a run of deposits issued pays at most T + T * T / c for T deposited
      into a balance of c. */
  lemma DepositsRedeemed(s: State, x: Side, amounts: seq<nat>)
    requires Live(s)
    ensures var r := Deposits(s, x, amounts);
            && s.supply.amount <= r.supply.amount
            && 0 <= PaidFor(r, x, r.supply.amount - s.supply.amount)
            && PaidFor(r, x, r.supply.amount - s.supply.amount) * Balance(s, x)
               <= (Balance(s, x) + Total(amounts)) * Total(amounts)
  {
    DepositsGrow(s, x, amounts);
    var r := Deposits(s, x, amounts);
    RedeemWithin(r, x, r.supply.amount - s.supply.amount, Balance(s, x), Total(amounts));
  }

  /** Redeeming at once all that a run of deposits issued pays more than was deposited exactly when the
      m-th power of the supply has grown by a unit's worth more than the balance lets it. */
  lemma DepositsPayMoreIff(s: State, x: Side, amounts: seq<nat>)
    requires Live(s)
    ensures var r, m := Deposits(s, x, amounts), ConnectorOf(s, x).root;
            var before: int, after: int := Pow(s.supply.amount, m), Pow(r.supply.amount, m);
            && s.supply.amount <= r.supply.amount
            && (PaidFor(r, x, r.supply.amount - s.supply.amount) > Total(amounts) <==>
                  (Balance(s, x) + Total(amounts)) * (after - before) >= (Total(amounts) + 1) * before)
  {
    DepositsGrow(s, x, amounts);
    var r := Deposits(s, x, amounts);
    RedeemExceeds(r, x, r.supply.amount - s.supply.amount, Total(amounts));
  }

  /** A market of weight 500 on both sides with 10 in the quote connector. */
  function Even(supply: nat, balance: nat): State {
    State(Asset(supply, 0), Connector(Asset(balance, 1), 2), Connector(Asset(10, 2), 2))
  }

  lemma EvenDeposit(supply: nat, balance: nat, amount: nat, k: nat)
    requires supply > 0 && balance > 0
    requires (supply + k) * (supply + k) * (balance + amount) <= supply * supply * (balance + amount + amount)
    requires (supply + k + 1) * (supply + k + 1) * (balance + amount) > supply * supply * (balance + amount + amount)
    ensures Live(Even(supply, balance)) && IssuedFor(Even(supply, balance), Base, amount) == k
    ensures Deposit(Even(supply, balance), Base, amount) == Even(supply + k, balance + amount)
  {
    SecondPower(supply);
    SecondPower(supply + k);
    SecondPower(supply + (k + 1));
    IssuedIs(supply, balance + amount, amount, 2, k);
  }

  lemma EvenRedeem(supply: nat, balance: nat, amount: nat)
    requires amount < supply && balance > 0
    ensures var rest := supply - amount;
            PaidFor(Even(supply, balance), Base, amount) == balance * (supply * supply - rest * rest) / (rest * rest)
  {
    SecondPower(supply);
    SecondPower(supply - amount);
  }

  /** More than was deposited can come back: two deposits of 5 into a balance of 10 with a supply of
      20 issue 3 and 2 tokens, and the 5 tokens pay 11. */
  lemma TwoDepositsPayMore()
    ensures var s := Even(20, 10);
            var r := Deposits(s, Base, [5, 5]);
            && Market(s) && r == Even(25, 20) && PaidFor(r, Base, 5) == 11 > Total([5, 5])
            && Redeem(r, Base, 5) == Even(20, 9)
  {
    EvenDeposit(20, 10, 5, 3);
    EvenDeposit(23, 15, 5, 2);
    assert [5, 5][1..] == [5] && [5][1..] == [];
    assert Deposits(Even(25, 20), Base, []) == Even(25, 20);
    assert Deposits(Even(23, 15), Base, [5]) == Even(25, 20);
    EvenRedeem(25, 20, 5);
  }

  lemma SecondPower(a: nat)
    ensures Pow(a, 2) == a * a
  {
    assert Pow(a, 1) == a;
  }

  /** Converting a connector's currency into itself is this round trip. */
  lemma SelfConversion(s: State, x: Side, amount: nat)
    requires Live(s) && DistinctSymbols(s)
    ensures ConvertAll(s, Asset(amount, Symbol(s, x)), Symbol(s, x))
         == var s1, issued := Deposit(s, x, amount), IssuedFor(s, x, amount);
            Outcome(Redeem(s1, x, issued), Success(Asset(PaidFor(s1, x, issued), Symbol(s, x))))
  {
  }

  lemma ProductBound(b: nat, t: nat, q: nat, out: int)
    requires b > 0 && q > 0 && 0 <= out && out * (b + t) <= q * t
    ensures out < q
    ensures (b + t) * (q - out) >= b * q
  {
    assert q * (b + t) == q * b + q * t;
    assert q * b > 0;
    if out >= q {
      MulMono(q, out, b + t, b + t);
    }
    assert (b + t) * (q - out) == q * (b + t) - out * (b + t);
    assert b * q == q * b;
  }

  /** The product of the two balances. */
  function Product(s: State): int { Balance(s, Base) * Balance(s, Quote) }

  /** A trade never overdraws the other connector and never lowers the product of the balances. */
  lemma TradeKeeps(s: State, x: Side, amount: nat, y: Side)
    requires Market(s)
    ensures Market(Traded(s, x, amount, y))
    ensures Product(Traded(s, x, amount, y)) >= Product(s)
  {
    TradeMoves(s, x, amount, y);
    if x == y {
      RoundTrip(s, x, amount);
      SelfConversion(s, x, amount);
      var s', z := Traded(s, x, amount, y), Other(x);
      assert Balance(s', z) == Balance(s, z);
      MulMono(Balance(s, x), Balance(s', x), Balance(s, z), Balance(s, z));
      SidesProduct(s, x);
      SidesProduct(s', x);
    } else {
      PaidBound(s, x, amount, y);
      assert Balance(Deposit(s, x, amount), y) == Balance(s, y);
      ProductBound(Balance(s, x), amount, Balance(s, y), Received(s, x, amount, y));
      SidesProduct(s, x);
      SidesProduct(Traded(s, x, amount, y), x);
    }
  }

  lemma SidesProduct(s: State, x: Side)
    ensures Product(s) == Balance(s, x) * Balance(s, Other(x))
  {
  }

  datatype Trade = Trade(from: Side, amount: nat, to: Side)

  ghost function Run(s: State, trades: seq<Trade>): (r: State)
    requires Market(s)
    ensures Market(r)
    decreases |trades|
  {
    if trades == [] then s
    else
      TradeKeeps(s, trades[0].from, trades[0].amount, trades[0].to);
      Run(Traded(s, trades[0].from, trades[0].amount, trades[0].to), trades[1..])
  }

  /** Over any run of trades the supply is unchanged and the product of the balances never falls. */
  lemma {:induction false} RunKeeps(s: State, trades: seq<Trade>)
    requires Market(s)
    ensures Run(s, trades).supply == s.supply
    ensures Product(Run(s, trades)) >= Product(s)
    decreases |trades|
  {
    if trades != [] {
      var t := trades[0];
      TradeKeeps(s, t.from, t.amount, t.to);
      TradeMoves(s, t.from, t.amount, t.to);
      RunKeeps(Traded(s, t.from, t.amount, t.to), trades[1..]);
    }
  }

  /** No run of trades takes from one connector without leaving more in the other. */
  lemma NoFreeTrade(s: State, trades: seq<Trade>, x: Side)
    requires Market(s) && Balance(Run(s, trades), x) <= Balance(s, x)
    ensures Balance(Run(s, trades), Other(x)) >= Balance(s, Other(x))
    ensures Balance(Run(s, trades), x) < Balance(s, x) ==> Balance(Run(s, trades), Other(x)) > Balance(s, Other(x))
  {
    var r, y := Run(s, trades), Other(x);
    RunKeeps(s, trades);
    SidesProduct(s, x);
    SidesProduct(r, x);
    if Balance(r, y) < Balance(s, y) {
      MulMono(Balance(r, x), Balance(s, x), Balance(r, y), Balance(s, y) - 1);
      SmallerFactor(Balance(s, x), Balance(s, y));
    }
    if Balance(r, x) < Balance(s, x) && Balance(r, y) == Balance(s, y) {
      MulMono(Balance(r, x), Balance(s, x) - 1, Balance(r, y), Balance(s, y));
      SmallerFactor(Balance(s, y), Balance(s, x));
    }
  }

  lemma SmallerFactor(a: nat, b: nat)
    requires a > 0
    ensures a * (b - 1) == (b - 1) * a < a * b == b * a
  {
  }
}
