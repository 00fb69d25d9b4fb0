/**
 * The decision and mutation logic of three handlers of routes/api.js:
 * `/trade` (buy and sell with a weighted-average cost basis), `/shop/buy`
 * (premium plans paid in shards, and shop items) and `/inventory/use`
 * (opening lootboxes and kits, equipping profile accents, activating
 * consumables). Each handler is a method on the profile, proved equal to a
 * function on the part of the profile it may change; the laws are lemmas
 * about those functions.
 *
 * The request body, the profile lookup and the collaborators' answers are
 * parameters: the stock's `currentPrice` (`None` when there is no such
 * stock), the shop list `getShopItems()`, the definition
 * `getItemDefinition(itemId)`, `getItemDefinition('profile_frame_shimmering')`,
 * the random rolls and the current time.
 */
module Api {

  import opened Util
  import Stacks
  import opened Profile
  import opened ItemDefinitions
  import InventoryPart
  import Rewards

  // ===== /trade ==============================================================

  /** The request's `action`. */
  datatype TradeAction = Buy | Sell | OtherAction

  /** How the handler answers; `NoResponse` is an action that is neither 'BUY' nor 'SELL'. */
  datatype TradeOutcome = Traded | BadAmount | StockNotFound | InsufficientStars | InsufficientShares | NoResponse

  /** The part of the profile a trade changes. */
  datatype Holdings = Holdings(stars: real, portfolio: seq<Position>)

  datatype TradeResult = TradeResult(outcome: TradeOutcome, after: Holdings)

  function HoldingsOf(p: UserProfile): Holdings
    reads p
  {
    Holdings(p.stars, p.portfolio)
  }

  /** A product of two prices or quantities. */
  function Cost(price: real, amount: real): real { price * amount }

  /** The schema's `min: 0` on a position's quantity. */
  predicate NonNegativeQuantities(portfolio: seq<Position>) {
    forall k :: 0 <= k < |portfolio| ==> portfolio[k].quantity >= 0.0
  }

  /** The cost-basis invariant: `totalInvested = quantity * avgBuyPrice` for every position. */
  predicate CostBasisHolds(portfolio: seq<Position>) {
    forall k :: 0 <= k < |portfolio| ==> portfolio[k].totalInvested == Cost(portfolio[k].quantity, portfolio[k].avgBuyPrice)
  }

  /** `portfolio.find(p => p.ticker === ticker)` as an index, or -1. */
  function FindPosition(portfolio: seq<Position>, ticker: string): (i: int)
    ensures -1 <= i < |portfolio|
    ensures i >= 0 ==> portfolio[i].ticker == ticker
    ensures forall k :: 0 <= k < |portfolio| && (i < 0 || k < i) ==> portfolio[k].ticker != ticker
  {
    if portfolio == [] then -1
    else if portfolio[0].ticker == ticker then 0
    else
      var j := FindPosition(portfolio[1..], ticker);
      assert forall k :: 1 <= k < |portfolio| ==> portfolio[1..][k - 1] == portfolio[k];
      if j < 0 then -1 else j + 1
  }

  /** The position a find by ticker sees. */
  function PositionOf(portfolio: seq<Position>, ticker: string): Option<Position> {
    var i := FindPosition(portfolio, ticker);
    if i >= 0 then Some(portfolio[i]) else None
  }

  /** The quantity held of a ticker, 0 when no position is found. */
  function Held(portfolio: seq<Position>, ticker: string): real {
    var pos := PositionOf(portfolio, ticker);
    if pos.Some? then pos.value.quantity else 0.0
  }

  /** `portfolio.filter(p => p.ticker !== ticker)`. */
  function WithoutTicker(portfolio: seq<Position>, ticker: string): (r: seq<Position>)
    ensures forall pos :: pos in r <==> pos in portfolio && pos.ticker != ticker
  {
    if portfolio == [] then []
    else (if portfolio[0].ticker != ticker then [portfolio[0]] else []) + WithoutTicker(portfolio[1..], ticker)
  }

  /** A buy of `amount` for `cost` into an existing position. */
  function BuyInto(pos: Position, amount: real, cost: real): Position
    requires pos.quantity + amount != 0.0
  {
    pos.(quantity := pos.quantity + amount,
         totalInvested := pos.totalInvested + cost,
         avgBuyPrice := (Cost(pos.quantity, pos.avgBuyPrice) + cost) / (pos.quantity + amount))
  }

  /**
   * A partial sale of `amount` from a position: `totalInvested` loses the
   * share `amount / (remaining + amount)`, the average price stays.
   */
  function SellFrom(pos: Position, amount: real): Position
    requires pos.quantity != 0.0
  {
    pos.(quantity := pos.quantity - amount,
         totalInvested := pos.totalInvested - Cost(pos.totalInvested, amount / pos.quantity))
  }

  /**
   * `/trade` with the stock's price `price` (`None`: no such stock): the
   * amount is checked first, then the stock; a buy needs the stars and a
   * sell needs the shares; a sale down to nothing drops the position.
   */
  function TradeSpec(h: Holdings, ticker: string, amount: real, action: TradeAction, price: Option<real>): TradeResult
    requires NonNegativeQuantities(h.portfolio)
  {
    if amount <= 0.0 then TradeResult(BadAmount, h)
    else if price.None? then TradeResult(StockNotFound, h)
    else
      var total := Cost(price.value, amount);
      var i := FindPosition(h.portfolio, ticker);
      match action
      case Buy =>
        if h.stars < total then TradeResult(InsufficientStars, h)
        else if i >= 0 then
          TradeResult(Traded, Holdings(h.stars - total, h.portfolio[i := BuyInto(h.portfolio[i], amount, total)]))
        else
          TradeResult(Traded, Holdings(h.stars - total, h.portfolio + [Position(ticker, amount, price.value, total)]))
      case Sell =>
        if i < 0 || h.portfolio[i].quantity < amount then TradeResult(InsufficientShares, h)
        else if h.portfolio[i].quantity - amount <= 0.0 then
          TradeResult(Traded, Holdings(h.stars + total, WithoutTicker(h.portfolio, ticker)))
        else
          TradeResult(Traded, Holdings(h.stars + total, h.portfolio[i := SellFrom(h.portfolio[i], amount)]))
      case OtherAction => TradeResult(NoResponse, h)
  }

  /** The `/trade` handler on a found profile; saving and the transaction log are left out. */
  method Trade(p: UserProfile, ticker: string, amount: real, action: TradeAction, price: Option<real>)
    returns (outcome: TradeOutcome)
    requires NonNegativeQuantities(p.portfolio)
    modifies p`stars, p`portfolio
    ensures TradeResult(outcome, HoldingsOf(p)) == TradeSpec(old(HoldingsOf(p)), ticker, amount, action, price)
  {
    if amount <= 0.0 {
      return BadAmount;
    }
    if price.None? {
      return StockNotFound;
    }
    var totalPrice := Cost(price.value, amount);
    if action == Buy {
      if p.stars < totalPrice {
        return InsufficientStars;
      }
      p.stars := p.stars - totalPrice;
      var i := FindPosition(p.portfolio, ticker);
      if i >= 0 {
        var item := p.portfolio[i];
        var oldTotal := Cost(item.quantity, item.avgBuyPrice);
        var quantity := item.quantity + amount;
        p.portfolio := p.portfolio[i := item.(quantity := quantity,
                                               totalInvested := item.totalInvested + totalPrice,
                                               avgBuyPrice := (oldTotal + totalPrice) / quantity)];
      } else {
        p.portfolio := p.portfolio + [Position(ticker, amount, price.value, totalPrice)];
      }
      return Traded;
    } else if action == Sell {
      var i := FindPosition(p.portfolio, ticker);
      if i < 0 || p.portfolio[i].quantity < amount {
        return InsufficientShares;
      }
      p.stars := p.stars + totalPrice;
      var item := p.portfolio[i];
      var quantity := item.quantity - amount;
      if quantity <= 0.0 {
        p.portfolio := WithoutTicker(p.portfolio, ticker);
      } else {
        var ratio := amount / (quantity + amount);
        p.portfolio := p.portfolio[i := item.(quantity := quantity,
                                               totalInvested := item.totalInvested - Cost(item.totalInvested, ratio))];
      }
      return Traded;
    }
    return NoResponse;
  }

  /**
   * Exactly which requests are refused, and that a refusal or an unknown
   * action changes nothing: a non-positive amount, then a missing stock, then
   * a buy costing more than the stars or a sale of more than is held.
   */
  lemma TradeRefusals(h: Holdings, ticker: string, amount: real, action: TradeAction, price: Option<real>)
    requires NonNegativeQuantities(h.portfolio)
    ensures var r := TradeSpec(h, ticker, amount, action, price);
      && (r.outcome != Traded ==> r.after == h)
      && (r.outcome == BadAmount <==> amount <= 0.0)
      && (r.outcome == StockNotFound <==> amount > 0.0 && price.None?)
      && (r.outcome == InsufficientStars <==>
            amount > 0.0 && price.Some? && action == Buy && h.stars < Cost(price.value, amount))
      && (r.outcome == InsufficientShares <==>
            amount > 0.0 && price.Some? && action == Sell && Held(h.portfolio, ticker) < amount)
      && (r.outcome == NoResponse <==> amount > 0.0 && price.Some? && action == OtherAction)
  {
  }

  /** Replacing the found position leaves every other ticker's position as it was. */
  lemma PositionAfterUpdate(portfolio: seq<Position>, i: nat, pos: Position, other: string)
    requires i < |portfolio| && portfolio[i].ticker == pos.ticker
    requires FindPosition(portfolio, pos.ticker) == i
    ensures FindPosition(portfolio[i := pos], pos.ticker) == i
    ensures other != pos.ticker ==> PositionOf(portfolio[i := pos], other) == PositionOf(portfolio, other)
  {
    var q := portfolio[i := pos];
    assert q[i].ticker == pos.ticker;
    assert forall k :: 0 <= k < |q| && k != i ==> q[k] == portfolio[k];
  }

  /** Appending a position for a ticker not yet held makes it found, and changes no other ticker's position. */
  lemma PositionAfterAppend(portfolio: seq<Position>, pos: Position, other: string)
    requires FindPosition(portfolio, pos.ticker) < 0
    ensures PositionOf(portfolio + [pos], pos.ticker) == Some(pos)
    ensures other != pos.ticker ==> PositionOf(portfolio + [pos], other) == PositionOf(portfolio, other)
  {
    var q := portfolio + [pos];
    assert q[|portfolio|] == pos;
    assert forall k :: 0 <= k < |portfolio| ==> q[k] == portfolio[k];
  }

  /** A find on a non-empty portfolio: its head, or the find in the tail. */
  lemma PositionOfCons(portfolio: seq<Position>, ticker: string)
    requires portfolio != []
    ensures PositionOf(portfolio, ticker) ==
            if portfolio[0].ticker == ticker then Some(portfolio[0]) else PositionOf(portfolio[1..], ticker)
  {
  }

  /** After the filter the ticker is gone. */
  lemma PositionFiltered(portfolio: seq<Position>, ticker: string)
    ensures PositionOf(WithoutTicker(portfolio, ticker), ticker) == None
  {
  }

  /** After the filter every other ticker still finds the same position. */
  lemma {:induction false} PositionAfterFilter(portfolio: seq<Position>, ticker: string, other: string)
    requires other != ticker
    ensures PositionOf(WithoutTicker(portfolio, ticker), other) == PositionOf(portfolio, other)
  {
    if portfolio != [] {
      var rest := WithoutTicker(portfolio[1..], ticker);
      PositionAfterFilter(portfolio[1..], ticker, other);
      PositionOfCons(portfolio, other);
      if portfolio[0].ticker != ticker {
        var r := [portfolio[0]] + rest;
        assert WithoutTicker(portfolio, ticker) == r;
        assert r[0] == portfolio[0] && r[1..] == rest;
        PositionOfCons(r, other);
      } else {
        assert WithoutTicker(portfolio, ticker) == rest;
      }
    }
  }

  /**
   * A buy debits exactly `price * amount`, adds `amount` to the shares held
   * and `price * amount` to the amount invested, opens a new position at
   * `price` when none was held, and leaves every other ticker alone; a
   * non-negative balance stays non-negative.
   */
  lemma BuyLaws(h: Holdings, ticker: string, amount: real, price: real, other: string)
    requires NonNegativeQuantities(h.portfolio)
    requires amount > 0.0 && h.stars >= Cost(price, amount)
    ensures var r := TradeSpec(h, ticker, amount, Buy, Some(price));
      && r.outcome == Traded
      && r.after.stars == h.stars - Cost(price, amount) >= 0.0
      && Held(r.after.portfolio, ticker) == Held(h.portfolio, ticker) + amount
      && PositionOf(r.after.portfolio, ticker).Some?
      && PositionOf(r.after.portfolio, ticker).value.totalInvested ==
           (if PositionOf(h.portfolio, ticker).Some? then PositionOf(h.portfolio, ticker).value.totalInvested else 0.0)
           + Cost(price, amount)
      && (PositionOf(h.portfolio, ticker).None? ==>
            PositionOf(r.after.portfolio, ticker) == Some(Position(ticker, amount, price, Cost(price, amount))))
      && (other != ticker ==> PositionOf(r.after.portfolio, other) == PositionOf(h.portfolio, other))
  {
    var i := FindPosition(h.portfolio, ticker);
    var total := Cost(price, amount);
    if i >= 0 {
      PositionAfterUpdate(h.portfolio, i, BuyInto(h.portfolio[i], amount, total), other);
    } else {
      PositionAfterAppend(h.portfolio, Position(ticker, amount, price, total), other);
    }
  }

  /**
   * A sale credits exactly `price * amount` and removes `amount` from the
   * shares held; a sale of everything drops the position, a partial one keeps
   * the average price and scales the amount invested by remaining over
   * previous quantity; every other ticker is left alone.
   */
  lemma SellLaws(h: Holdings, ticker: string, amount: real, price: real, other: string)
    requires NonNegativeQuantities(h.portfolio)
    requires amount > 0.0 && Held(h.portfolio, ticker) >= amount
    ensures var r := TradeSpec(h, ticker, amount, Sell, Some(price));
      var before := PositionOf(h.portfolio, ticker).value;
      && r.outcome == Traded
      && r.after.stars == h.stars + Cost(price, amount)
      && Held(r.after.portfolio, ticker) == Held(h.portfolio, ticker) - amount
      && (before.quantity == amount <==> PositionOf(r.after.portfolio, ticker).None?)
      && (before.quantity > amount ==>
            && PositionOf(r.after.portfolio, ticker).value.avgBuyPrice == before.avgBuyPrice
            && Cost(PositionOf(r.after.portfolio, ticker).value.totalInvested, before.quantity)
               == Cost(before.totalInvested, before.quantity - amount))
      && (other != ticker ==> PositionOf(r.after.portfolio, other) == PositionOf(h.portfolio, other))
  {
    if PositionOf(h.portfolio, ticker).value.quantity - amount <= 0.0 {
      SellAllLaws(h, ticker, amount, price, other);
    } else {
      SellPartLaws(h, ticker, amount, price, other);
    }
  }

  /** A sale of the whole position drops it. */
  lemma SellAllLaws(h: Holdings, ticker: string, amount: real, price: real, other: string)
    requires NonNegativeQuantities(h.portfolio)
    requires amount > 0.0 && Held(h.portfolio, ticker) >= amount
    requires PositionOf(h.portfolio, ticker).value.quantity - amount <= 0.0
    ensures var r := TradeSpec(h, ticker, amount, Sell, Some(price));
      && r.outcome == Traded
      && r.after.stars == h.stars + Cost(price, amount)
      && r.after.portfolio == WithoutTicker(h.portfolio, ticker)
      && Held(r.after.portfolio, ticker) == Held(h.portfolio, ticker) - amount
      && PositionOf(r.after.portfolio, ticker).None?
      && (other != ticker ==> PositionOf(r.after.portfolio, other) == PositionOf(h.portfolio, other))
  {
    PositionFiltered(h.portfolio, ticker);
    if other != ticker {
      PositionAfterFilter(h.portfolio, ticker, other);
    }
  }

  /** A partial sale keeps the position with fewer shares. */
  lemma SellPartLaws(h: Holdings, ticker: string, amount: real, price: real, other: string)
    requires NonNegativeQuantities(h.portfolio)
    requires amount > 0.0 && Held(h.portfolio, ticker) >= amount
    requires PositionOf(h.portfolio, ticker).value.quantity - amount > 0.0
    ensures var r := TradeSpec(h, ticker, amount, Sell, Some(price));
      var before := PositionOf(h.portfolio, ticker).value;
      && r.outcome == Traded
      && r.after.stars == h.stars + Cost(price, amount)
      && PositionOf(r.after.portfolio, ticker) == Some(SellFrom(before, amount))
      && Held(r.after.portfolio, ticker) == Held(h.portfolio, ticker) - amount
      && PositionOf(r.after.portfolio, ticker).value.avgBuyPrice == before.avgBuyPrice
      && Cost(PositionOf(r.after.portfolio, ticker).value.totalInvested, before.quantity)
         == Cost(before.totalInvested, before.quantity - amount)
      && (other != ticker ==> PositionOf(r.after.portfolio, other) == PositionOf(h.portfolio, other))
  {
    var i := FindPosition(h.portfolio, ticker);
    var pos := h.portfolio[i];
    var sold := SellFrom(pos, amount);
    assert TradeSpec(h, ticker, amount, Sell, Some(price)).after.portfolio == h.portfolio[i := sold];
    PositionAfterUpdate(h.portfolio, i, sold, other);
    ScaledShare(pos.totalInvested, amount, pos.quantity);
  }

  /** `(t - t * (a / q)) * q == t * (q - a)` for `q` non-zero. */
  lemma ScaledShare(t: real, a: real, q: real)
    requires q != 0.0
    ensures Cost(t - Cost(t, a / q), q) == Cost(t, q - a)
  {
    assert (a / q) * q == a;
    calc {
      Cost(t - Cost(t, a / q), q);
      (t - t * (a / q)) * q;
      t * q - t * ((a / q) * q);
      t * q - t * a;
    }
  }

  /** The new average after a buy: `(q * avg + c) / (q + a) * (q + a) == q * avg + c`. */
  lemma AverageTimesQuantity(q: real, avg: real, a: real, c: real)
    requires q + a != 0.0
    ensures Cost(q + a, (Cost(q, avg) + c) / (q + a)) == Cost(q, avg) + c
  {
  }

  /** A partial sale keeps `totalInvested = quantity * avgBuyPrice` once it held before. */
  lemma SaleKeepsBasis(pos: Position, amount: real)
    requires pos.quantity != 0.0 && pos.totalInvested == Cost(pos.quantity, pos.avgBuyPrice)
    ensures SellFrom(pos, amount).totalInvested == Cost(pos.quantity - amount, pos.avgBuyPrice)
  {
    var q := pos.quantity;
    var avg := pos.avgBuyPrice;
    var share := Cost(pos.totalInvested, amount / q);
    assert share == q * avg * (amount / q);
    assert q * (amount / q) == amount;
    assert share == avg * amount;
  }

  /**
   * Both kinds of trade keep every quantity non-negative and keep the
   * invariant `totalInvested = quantity * avgBuyPrice` of every position.
   */
  lemma TradeKeepsCostBasis(h: Holdings, ticker: string, amount: real, action: TradeAction, price: Option<real>)
    requires NonNegativeQuantities(h.portfolio) && CostBasisHolds(h.portfolio)
    ensures var r := TradeSpec(h, ticker, amount, action, price);
      NonNegativeQuantities(r.after.portfolio) && CostBasisHolds(r.after.portfolio)
  {
    var r := TradeSpec(h, ticker, amount, action, price);
    if r.outcome == Traded {
      var total := Cost(price.value, amount);
      var i := FindPosition(h.portfolio, ticker);
      if action == Buy && i >= 0 {
        var pos := h.portfolio[i];
        AverageTimesQuantity(pos.quantity, pos.avgBuyPrice, amount, total);
        assert r.after.portfolio[i] == BuyInto(pos, amount, total);
      } else if action == Buy {
        var last := Position(ticker, amount, price.value, total);
        assert r.after.portfolio == h.portfolio + [last];
        assert total == Cost(amount, price.value);
      } else if action == Sell && h.portfolio[i].quantity - amount > 0.0 {
        SaleKeepsBasis(h.portfolio[i], amount);
      } else {
        var f := WithoutTicker(h.portfolio, ticker);
        forall k | 0 <= k < |f| ensures f[k].quantity >= 0.0 && f[k].totalInvested == Cost(f[k].quantity, f[k].avgBuyPrice) {
          assert f[k] in f;
          var j :| 0 <= j < |h.portfolio| && h.portfolio[j] == f[k];
        }
      }
    }
  }

  /**
   * Buying a ticker not held and selling the same amount at the same price
   * restores the balance and the portfolio exactly.
   */
  lemma BuyThenSellRestores(h: Holdings, ticker: string, amount: real, price: real)
    requires NonNegativeQuantities(h.portfolio)
    requires FindPosition(h.portfolio, ticker) < 0
    requires amount > 0.0 && h.stars >= Cost(price, amount)
    ensures var bought := TradeSpec(h, ticker, amount, Buy, Some(price));
      NonNegativeQuantities(bought.after.portfolio)
      && TradeSpec(bought.after, ticker, amount, Sell, Some(price)) == TradeResult(Traded, h)
  {
    var total := Cost(price, amount);
    var pos := Position(ticker, amount, price, total);
    var b := Holdings(h.stars - total, h.portfolio + [pos]);
    assert TradeSpec(h, ticker, amount, Buy, Some(price)) == TradeResult(Traded, b);
    PositionAfterAppend(h.portfolio, pos, ticker);
    assert FindPosition(b.portfolio, ticker) == |h.portfolio|;
    WithoutAbsentTicker(h.portfolio, ticker);
    assert WithoutTicker(b.portfolio, ticker) == h.portfolio by {
      WithoutTickerAppend(h.portfolio, [pos], ticker);
    }
  }

  lemma {:induction false} WithoutAbsentTicker(portfolio: seq<Position>, ticker: string)
    requires FindPosition(portfolio, ticker) < 0
    ensures WithoutTicker(portfolio, ticker) == portfolio
  {
    if portfolio != [] {
      assert FindPosition(portfolio[1..], ticker) < 0;
      WithoutAbsentTicker(portfolio[1..], ticker);
    }
  }

  lemma {:induction false} WithoutTickerAppend(a: seq<Position>, b: seq<Position>, ticker: string)
    ensures WithoutTicker(a + b, ticker) == WithoutTicker(a, ticker) + WithoutTicker(b, ticker)
  {
    if a != [] {
      assert (a + b)[1..] == a[1..] + b;
      WithoutTickerAppend(a[1..], b, ticker);
    } else {
      assert a + b == b;
    }
  }

  /**
   * From 1000 stars: buy 10 at 20, buy 10 at 30, sell 5 at 40 leaves 700
   * stars and the position `{15, 25, 375}`.
   */
  lemma WorkedTrade()
    ensures var h0 := Holdings(1000.0, []);
      var h1 := TradeSpec(h0, "ZYN", 10.0, Buy, Some(20.0));
      && h1 == TradeResult(Traded, Holdings(800.0, [Position("ZYN", 10.0, 20.0, 200.0)]))
      && var h2 := TradeSpec(h1.after, "ZYN", 10.0, Buy, Some(30.0));
      && h2 == TradeResult(Traded, Holdings(500.0, [Position("ZYN", 20.0, 25.0, 500.0)]))
      && TradeSpec(h2.after, "ZYN", 5.0, Sell, Some(40.0))
         == TradeResult(Traded, Holdings(700.0, [Position("ZYN", 15.0, 25.0, 375.0)]))
  {
    var p1 := [Position("ZYN", 10.0, 20.0, 200.0)];
    assert FindPosition(p1, "ZYN") == 0;
    var p2 := [Position("ZYN", 20.0, 25.0, 500.0)];
    assert FindPosition(p2, "ZYN") == 0;
    assert Cost(20.0, 10.0) == 200.0 && Cost(10.0, 20.0) == 200.0 && Cost(30.0, 10.0) == 300.0;
    assert Cost(40.0, 5.0) == 200.0 && Cost(500.0, 5.0 / 20.0) == 125.0;
  }

  // ===== /shop/buy ===========================================================

  /** A premium plan: its price in shards and its length in days. */
  datatype PremiumPlan = PremiumPlan(cost: int, days: int)

  /** The length that marks the permanent plan. */
  const PERMANENT_DAYS := 99999

  const DAY_MS := 24 * 60 * 60 * 1000

  /** `premiumPlans[itemId]`. */
  function PremiumPlanOf(itemId: string): Option<PremiumPlan> {
    match itemId
    case "premium_14d" => Some(PremiumPlan(6, 14))
    case "premium_30d" => Some(PremiumPlan(10, 30))
    case "premium_perm" => Some(PremiumPlan(70, PERMANENT_DAYS))
    case _ => None
  }

  /** `parseInt(quantity) || 1`; `parsed` is what `parseInt` returned, `None` for NaN. */
  function RequestQuantity(parsed: Option<int>): (qty: int)
    ensures qty != 0
    ensures parsed.Some? && parsed.value != 0 ==> qty == parsed.value
  {
    if parsed.None? || parsed.value == 0 then 1 else parsed.value
  }

  datatype ShopOutcome = Bought | BadQuantity | NotEnoughShards | NotEnoughStars | ItemNotFound | ServerError

  /** The part of the profile a purchase changes. */
  datatype ShopState = ShopState(
    stars: real, shards: real, inventory: seq<Stacks.Stack>,
    premiumType: Option<PremiumType>, premiumRoleExpiresAt: Option<int>)

  datatype ShopResult = ShopResult(outcome: ShopOutcome, after: ShopState)

  function ShopStateOf(p: UserProfile): ShopState
    reads p
  {
    ShopState(p.stars, p.shards, p.inventory, p.premiumType, p.premiumRoleExpiresAt)
  }

  /** The new expiry of a temporary plan: `days` after the current expiry if it lies ahead, else after now. */
  function ExtendPremium(expiry: Option<int>, now: int, days: int): int {
    (if expiry.Some? && expiry.value > now then expiry.value else now) + days * DAY_MS
  }

  /**
   * `/shop/buy` of `itemId` at `now`, with the shop list `shopItems`: the
   * quantity is checked first; a premium plan is paid in shards and sets the
   * premium status; anything else must be in the shop list and costs its
   * unit price times the quantity in both currencies. An item without a
   * price makes the handler fail (`item.price.stars` throws).
   */
  function ShopBuySpec(s: ShopState, itemId: string, parsed: Option<int>, now: int, shopItems: seq<ItemDef>): ShopResult {
    var qty := RequestQuantity(parsed);
    if qty < 1 then ShopResult(BadQuantity, s)
    else match PremiumPlanOf(itemId)
      case Some(plan) =>
        if s.shards < plan.cost as real then ShopResult(NotEnoughShards, s)
        else
          var paid := s.(shards := s.shards - plan.cost as real);
          if plan.days == PERMANENT_DAYS then
            ShopResult(Bought, paid.(premiumType := Some(Permanent), premiumRoleExpiresAt := None))
          else
            ShopResult(Bought, paid.(premiumType := Some(Temporary),
                                     premiumRoleExpiresAt := Some(ExtendPremium(s.premiumRoleExpiresAt, now, plan.days))))
      case None =>
        var item := FindItem(shopItems, itemId);
        if item.None? then ShopResult(ItemNotFound, s)
        else if item.value.price.None? then ShopResult(ServerError, s)
        else
          var costStars := (item.value.price.value.stars * qty) as real;
          var costShards := (item.value.price.value.shards * qty) as real;
          if s.stars < costStars then ShopResult(NotEnoughStars, s)
          else if s.shards < costShards then ShopResult(NotEnoughShards, s)
          else ShopResult(Bought, s.(stars := s.stars - costStars, shards := s.shards - costShards,
                                     inventory := Stacks.Deposit(s.inventory, itemId, qty)))
  }

  /** The `/shop/buy` handler on a found profile; saving is left out. */
  method ShopBuy(p: UserProfile, itemId: string, parsed: Option<int>, now: int, shopItems: seq<ItemDef>)
    returns (outcome: ShopOutcome)
    modifies p`stars, p`shards, p`inventory, p`premiumType, p`premiumRoleExpiresAt
    ensures ShopResult(outcome, ShopStateOf(p)) == ShopBuySpec(old(ShopStateOf(p)), itemId, parsed, now, shopItems)
  {
    var qty := RequestQuantity(parsed);
    if qty < 1 {
      return BadQuantity;
    }
    var plan := PremiumPlanOf(itemId);
    if plan.Some? {
      if p.shards < plan.value.cost as real {
        return NotEnoughShards;
      }
      p.shards := p.shards - plan.value.cost as real;
      if plan.value.days == PERMANENT_DAYS {
        p.premiumType := Some(Permanent);
        p.premiumRoleExpiresAt := None;
      } else {
        var currentExpiry := if p.premiumRoleExpiresAt.Some? && p.premiumRoleExpiresAt.value > now
                             then p.premiumRoleExpiresAt.value else now;
        p.premiumType := Some(Temporary);
        p.premiumRoleExpiresAt := Some(currentExpiry + plan.value.days * DAY_MS);
      }
      return Bought;
    }
    var item := FindItem(shopItems, itemId);
    if item.None? {
      return ItemNotFound;
    }
    if item.value.price.None? {
      return ServerError;
    }
    var costStars := (item.value.price.value.stars * qty) as real;
    var costShards := (item.value.price.value.shards * qty) as real;
    if p.stars < costStars {
      return NotEnoughStars;
    }
    if p.shards < costShards {
      return NotEnoughShards;
    }
    p.stars := p.stars - costStars;
    p.shards := p.shards - costShards;
    var index := Stacks.IndexOf(p.inventory, itemId);
    if index >= 0 {
      p.inventory := p.inventory[index := p.inventory[index].(quantity := p.inventory[index].quantity + qty)];
    } else {
      p.inventory := p.inventory + [Stacks.Stack(itemId, qty, 0)];
    }
    return Bought;
  }

  /** A refused purchase changes nothing; a quantity parsed as negative is the only bad quantity. */
  lemma ShopRefusals(s: ShopState, itemId: string, parsed: Option<int>, now: int, shopItems: seq<ItemDef>)
    ensures var r := ShopBuySpec(s, itemId, parsed, now, shopItems);
      && (r.outcome != Bought ==> r.after == s)
      && (r.outcome == BadQuantity <==> parsed.Some? && parsed.value < 0)
  {
  }

  /**
   * A premium plan with enough shards costs exactly its price in shards and
   * touches neither stars nor items. The permanent plan sets 'permanent'
   * with no expiry; a temporary plan sets 'temporary', expiring its length
   * after the later of now and the current expiry — so buying again extends
   * rather than restarts, and a permanent holder becomes temporary.
   */
  lemma PremiumPlanLaws(s: ShopState, itemId: string, parsed: Option<int>, now: int, shopItems: seq<ItemDef>)
    requires PremiumPlanOf(itemId).Some? && RequestQuantity(parsed) >= 1
    ensures var plan := PremiumPlanOf(itemId).value;
      var r := ShopBuySpec(s, itemId, parsed, now, shopItems);
      && (r.outcome == Bought <==> s.shards >= plan.cost as real)
      && (r.outcome == Bought ==>
            && r.after.shards == s.shards - plan.cost as real
            && r.after.stars == s.stars && r.after.inventory == s.inventory
            && (plan.days == PERMANENT_DAYS ==> r.after.premiumType == Some(Permanent) && r.after.premiumRoleExpiresAt == None)
            && (plan.days != PERMANENT_DAYS ==>
                  && r.after.premiumType == Some(Temporary)
                  && r.after.premiumRoleExpiresAt ==
                       Some((if s.premiumRoleExpiresAt.Some? && s.premiumRoleExpiresAt.value > now
                             then s.premiumRoleExpiresAt.value else now) + plan.days * DAY_MS)
                  && r.after.premiumRoleExpiresAt.value >= now + plan.days * DAY_MS
                  && (s.premiumRoleExpiresAt.Some? ==>
                        r.after.premiumRoleExpiresAt.value >= s.premiumRoleExpiresAt.value + plan.days * DAY_MS)))
  {
  }

  /**
   * A shop item with enough of both currencies costs exactly its unit prices
   * times the quantity, adds that quantity to its stack and leaves every
   * other item as it was; a shortfall in either currency refuses it.
   */
  lemma ItemPurchaseLaws(s: ShopState, itemId: string, parsed: Option<int>, now: int, shopItems: seq<ItemDef>,
                         def: ItemDef, other: string)
    requires PremiumPlanOf(itemId).None? && RequestQuantity(parsed) >= 1
    requires FindItem(shopItems, itemId) == Some(def) && def.price.Some?
    ensures var qty := RequestQuantity(parsed);
      var costStars := (def.price.value.stars * qty) as real;
      var costShards := (def.price.value.shards * qty) as real;
      var r := ShopBuySpec(s, itemId, parsed, now, shopItems);
      && (r.outcome == Bought <==> s.stars >= costStars && s.shards >= costShards)
      && (r.outcome == Bought ==>
            && r.after.stars == s.stars - costStars && r.after.shards == s.shards - costShards
            && Stacks.Count(r.after.inventory, itemId) == Stacks.Count(s.inventory, itemId) + qty
            && (other != itemId ==> Stacks.Lookup(r.after.inventory, other) == Stacks.Lookup(s.inventory, other))
            && r.after.premiumType == s.premiumType && r.after.premiumRoleExpiresAt == s.premiumRoleExpiresAt)
  {
    var qty := RequestQuantity(parsed);
    Stacks.CountAfterDeposit(s.inventory, itemId, qty);
    if other != itemId {
      Stacks.OtherItemsUnchanged(s.inventory, itemId, qty, other);
    }
  }

  /**
   * Whatever is bought that is not a plan was found in the shop list, and the
   * handler fails on a missing price only for an item found without one.
   */
  lemma PurchasesComeFromTheList(s: ShopState, itemId: string, parsed: Option<int>, now: int, shopItems: seq<ItemDef>)
    ensures var r := ShopBuySpec(s, itemId, parsed, now, shopItems);
      var found := FindItem(shopItems, itemId);
      && (r.outcome == ServerError ==> found.Some? && found.value.price.None?)
      && (r.outcome == Bought && PremiumPlanOf(itemId).None? ==> found.Some?)
  {
  }

  /**
   * With the real shop list, whatever is bought that is not a plan is a
   * buyable catalogue item with that id, and the handler never fails on a
   * missing price.
   */
  lemma ShopSellsCatalogueItems(s: ShopState, itemId: string, parsed: Option<int>, now: int)
    ensures var r := ShopBuySpec(s, itemId, parsed, now, GetShopItems());
      && r.outcome != ServerError
      && (r.outcome == Bought && PremiumPlanOf(itemId).None? ==>
            exists def :: def in Catalogue && def.buyable && def.itemId == itemId)
  {
    ShopItemsAreBuyable(itemId);
    PurchasesComeFromTheList(s, itemId, parsed, now, GetShopItems());
  }

  // ===== /inventory/use ======================================================

  datatype UseOutcome =
    | Opened(rewards: seq<Rewards.Reward>)  // a lootbox or kit opened, with what it gave
    | OpenFailed                            // `open` reported failure; the items were added back
    | Equipped                              // a frame or background put on or taken off
    | Activated                             // a consumable's `use` succeeded
    | Refused                               // a consumable's `use` refused
    | NoSuchItem | UnknownItem | CannotOpen | UnknownDecoration | CannotUse | NotUsable

  /** The part of the profile using an item changes. */
  datatype UseState = UseState(
    wallet: Rewards.Wallet, effects: Rewards.Effects,
    activeAvatarFrameId: Option<string>, activeCardBgId: Option<string>)

  datatype UseResult = UseResult(outcome: UseOutcome, after: UseState)

  function UseStateOf(p: UserProfile): UseState
    reads p
  {
    UseState(Rewards.WalletOf(p), Rewards.EffectsOf(p), p.activeAvatarFrameId, p.activeCardBgId)
  }

  /** Equipping an accent that is already on takes it off. */
  function Toggle(current: Option<string>, itemId: string): (r: Option<string>)
    ensures r == Some(itemId) <==> current != Some(itemId)
    ensures r != Some(itemId) ==> r == None
  {
    if current == Some(itemId) then None else Some(itemId)
  }

  /** `removeItemFromInventory(itemId, qty)` with its result ignored. */
  function RemoveIgnored(inv: seq<Stacks.Stack>, itemId: string, qty: int): seq<Stacks.Stack> {
    if Stacks.AvailableAtLeast(inv, itemId, qty) then Stacks.Withdraw(inv, itemId, qty) else inv
  }

  /** `addItemToInventory(itemId, qty)` with its result ignored. */
  function AddIgnored(inv: seq<Stacks.Stack>, itemId: string, qty: int): seq<Stacks.Stack> {
    if qty > 0 then Stacks.Deposit(inv, itemId, qty) else inv
  }

  /** The lootbox and resource-pack categories. */
  predicate Opens(def: ItemDef) {
    def.category == Lootbox || def.category == ResourcePack
  }

  /** The consumable category, or anything marked usable. */
  predicate Usable(def: ItemDef) {
    def.category == Consumable || def.isUsable
  }

  /**
   * `/inventory/use` as written, with `def` = `getItemDefinition(itemId)`:
   * the item must be held at least once and be defined. A lootbox or pack
   * has `qty` removed — whether or not that succeeds — and is opened with the
   * active clover; if the opening fails `qty` is added back. A frame or
   * background is toggled. A consumable's `use` runs first and, only when it
   * succeeds, `qty` is removed, again ignoring whether that succeeds.
   */
  function InventoryUseSpec(s: UseState, itemId: string, parsed: Option<int>, def: Option<ItemDef>,
                            shimmering: Option<ItemDef>, rolls: seq<real>, now: int): UseResult
    requires |rolls| >= 5
  {
    var qty := RequestQuantity(parsed);
    var inv := s.wallet.inventory;
    if !Stacks.Has(inv, itemId, 1) then UseResult(NoSuchItem, s)
    else if def.None? then UseResult(UnknownItem, s)
    else
      var d := def.value;
      if Opens(d) then
        if d.open.None? then UseResult(CannotOpen, s)
        else OpenSpec(s, itemId, qty, d.itemId, d.open.value, shimmering, rolls)
      else if d.category == ProfileAccent then
        if d.decorationType == Some(AvatarFrame) then
          UseResult(Equipped, s.(activeAvatarFrameId := Toggle(s.activeAvatarFrameId, itemId)))
        else if d.decorationType == Some(CardBackground) then
          UseResult(Equipped, s.(activeCardBgId := Toggle(s.activeCardBgId, itemId)))
        else UseResult(UnknownDecoration, s)
      else if Usable(d) then
        if d.use.None? then UseResult(CannotUse, s)
        else ActivateSpec(s, itemId, qty, d.use.value, now)
      else UseResult(NotUsable, s)
  }

  /**
   * Opening: `qty` of the item is removed (the result ignored) and the box
   * is opened once; a failed opening gives `qty` back.
   */
  function OpenSpec(s: UseState, itemId: string, qty: int, boxId: string, opener: Opener,
                    shimmering: Option<ItemDef>, rolls: seq<real>): UseResult
    requires |rolls| >= 5
  {
    var removed := s.wallet.(inventory := RemoveIgnored(s.wallet.inventory, itemId, qty));
    var rewards := Rewards.OpenRewards(opener, boxId, s.effects.luckClover, shimmering, rolls);
    if rewards.None? then
      UseResult(OpenFailed, s.(wallet := removed.(inventory := AddIgnored(removed.inventory, itemId, qty))))
    else UseResult(Opened(rewards.value), s.(wallet := Rewards.CreditAll(removed, rewards.value)))
  }

  /** Activation: the effect's `use` runs, and only when it succeeds is `qty` removed. */
  function ActivateSpec(s: UseState, itemId: string, qty: int, effect: UseEffect, now: int): UseResult {
    var effects := Rewards.ApplyUse(s.effects, itemId, effect, now);
    if effects.None? then UseResult(Refused, s)
    else UseResult(Activated, s.(effects := effects.value,
                                 wallet := s.wallet.(inventory := RemoveIgnored(s.wallet.inventory, itemId, qty))))
  }

  /** The opening branch of `/inventory/use`. */
  method OpenItem(p: UserProfile, itemId: string, qty: int, boxId: string, opener: Opener,
                  shimmering: Option<ItemDef>, rolls: seq<real>)
    returns (outcome: UseOutcome)
    requires |rolls| >= 5
    modifies p`inventory, p`stars, p`shards
    ensures UseResult(outcome, UseStateOf(p)) == OpenSpec(old(UseStateOf(p)), itemId, qty, boxId, opener, shimmering, rolls)
  {
    ghost var s0 := UseStateOf(p);
    var _ := InventoryPart.RemoveItemFromInventory(p, itemId, qty);
    ghost var removed := Rewards.WalletOf(p);
    var success, rewards := Rewards.Open(p, boxId, opener, p.activeLuckClover, shimmering, rolls);
    assert UseStateOf(p) == s0.(wallet := Rewards.CreditAll(removed, rewards));
    if !success {
      var _ := InventoryPart.AddItemToInventory(p, itemId, qty);
      return OpenFailed;
    }
    return Opened(rewards);
  }

  /** The consumable branch of `/inventory/use`. */
  method UseConsumable(p: UserProfile, itemId: string, qty: int, effect: UseEffect, now: int)
    returns (outcome: UseOutcome)
    modifies p`inventory, p`activeStarBoost, p`activeLuckClover
    ensures UseResult(outcome, UseStateOf(p)) == ActivateSpec(old(UseStateOf(p)), itemId, qty, effect, now)
  {
    var success := Rewards.Use(p, itemId, effect, now);
    if success {
      var _ := InventoryPart.RemoveItemFromInventory(p, itemId, qty);
      return Activated;
    }
    return Refused;
  }

  /** The `/inventory/use` handler on a found profile; saving and the replies are left out. */
  method InventoryUse(p: UserProfile, itemId: string, parsed: Option<int>, def: Option<ItemDef>,
                      shimmering: Option<ItemDef>, rolls: seq<real>, now: int)
    returns (outcome: UseOutcome)
    requires |rolls| >= 5
    modifies p`inventory, p`stars, p`shards, p`activeStarBoost, p`activeLuckClover,
             p`activeAvatarFrameId, p`activeCardBgId
    ensures UseResult(outcome, UseStateOf(p)) ==
            InventoryUseSpec(old(UseStateOf(p)), itemId, parsed, def, shimmering, rolls, now)
  {
    var qty := RequestQuantity(parsed);
    if !InventoryPart.HasItem(p, itemId, 1) {
      return NoSuchItem;
    }
    if def.None? {
      return UnknownItem;
    }
    var d := def.value;
    if Opens(d) {
      if d.open.None? {
        return CannotOpen;
      }
      outcome := OpenItem(p, itemId, qty, d.itemId, d.open.value, shimmering, rolls);
    } else if d.category == ProfileAccent {
      if d.decorationType == Some(AvatarFrame) {
        if p.activeAvatarFrameId == Some(itemId) {
          p.activeAvatarFrameId := None;
        } else {
          p.activeAvatarFrameId := Some(itemId);
        }
        return Equipped;
      } else if d.decorationType == Some(CardBackground) {
        if p.activeCardBgId == Some(itemId) {
          p.activeCardBgId := None;
        } else {
          p.activeCardBgId := Some(itemId);
        }
        return Equipped;
      }
      return UnknownDecoration;
    } else if Usable(d) {
      if d.use.None? {
        return CannotUse;
      }
      outcome := UseConsumable(p, itemId, qty, d.use.value, now);
    } else {
      return NotUsable;
    }
  }

  /**
   * What each outcome changes: a refusal nothing; equipping one accent slot;
   * an opening the wallet only — the active clover is left in place, so it
   * keeps boosting later openings; an activation the effects and the item's
   * stack only.
   */
  lemma UseOutcomes(s: UseState, itemId: string, parsed: Option<int>, def: Option<ItemDef>,
                    shimmering: Option<ItemDef>, rolls: seq<real>, now: int)
    requires |rolls| >= 5
    ensures var r := InventoryUseSpec(s, itemId, parsed, def, shimmering, rolls, now);
      && (r.outcome !in {OpenFailed, Equipped, Activated} && !r.outcome.Opened? ==> r.after == s)
      && (r.outcome.Opened? || r.outcome == OpenFailed ==>
            r.after.effects == s.effects && r.after.activeAvatarFrameId == s.activeAvatarFrameId
            && r.after.activeCardBgId == s.activeCardBgId)
      && (r.outcome == Equipped ==>
            r.after.wallet == s.wallet && r.after.effects == s.effects
            && ((r.after.activeAvatarFrameId == Toggle(s.activeAvatarFrameId, itemId) && r.after.activeCardBgId == s.activeCardBgId)
                || (r.after.activeCardBgId == Toggle(s.activeCardBgId, itemId) && r.after.activeAvatarFrameId == s.activeAvatarFrameId)))
      && (r.outcome == Activated ==>
            r.after.wallet.stars == s.wallet.stars && r.after.wallet.shards == s.wallet.shards
            && r.after.activeAvatarFrameId == s.activeAvatarFrameId && r.after.activeCardBgId == s.activeCardBgId)
  {
  }

  /**
   * Using a frame or background twice puts back the one it found when that
   * was this accent, and otherwise leaves the slot empty.
   */
  lemma EquipTwice(s: UseState, itemId: string, parsed: Option<int>, def: ItemDef,
                   shimmering: Option<ItemDef>, rolls: seq<real>, now: int)
    requires |rolls| >= 5
    requires Stacks.Has(s.wallet.inventory, itemId, 1) && def.category == ProfileAccent
    requires def.decorationType in {Some(AvatarFrame), Some(CardBackground)}
    ensures var once := InventoryUseSpec(s, itemId, parsed, Some(def), shimmering, rolls, now);
      var twice := InventoryUseSpec(once.after, itemId, parsed, Some(def), shimmering, rolls, now);
      && once.outcome == Equipped && twice.outcome == Equipped
      && (def.decorationType == Some(AvatarFrame) ==>
            twice.after == s.(activeAvatarFrameId := if s.activeAvatarFrameId == Some(itemId) then Some(itemId) else None))
      && (def.decorationType == Some(CardBackground) ==>
            twice.after == s.(activeCardBgId := if s.activeCardBgId == Some(itemId) then Some(itemId) else None))
  {
  }

  /**
   * When the quantity is held, an opening takes exactly `qty` of the item
   * and credits one opening's rewards, whatever `qty` is; an activation takes
   * `qty` of the item and starts one effect.
   */
  lemma UseTakesTheQuantity(s: UseState, itemId: string, parsed: Option<int>, def: ItemDef,
                            shimmering: Option<ItemDef>, rolls: seq<real>, now: int)
    requires |rolls| >= 5
    requires Stacks.Tidy(s.wallet.inventory)
    requires Stacks.AvailableAtLeast(s.wallet.inventory, itemId, RequestQuantity(parsed))
    ensures var qty := RequestQuantity(parsed);
      var r := InventoryUseSpec(s, itemId, parsed, Some(def), shimmering, rolls, now);
      var taken := s.wallet.(inventory := Stacks.Withdraw(s.wallet.inventory, itemId, qty));
      && (r.outcome.Opened? ==>
            r.outcome.rewards == Rewards.OpenRewards(def.open.value, def.itemId, s.effects.luckClover, shimmering, rolls).value
            && r.after.wallet == Rewards.CreditAll(taken, r.outcome.rewards))
      && (r.outcome == Activated ==>
            && r.after.wallet == taken
            && Stacks.Count(r.after.wallet.inventory, itemId) == Stacks.Count(s.wallet.inventory, itemId) - qty)
  {
    var qty := RequestQuantity(parsed);
    Stacks.CountAfterWithdraw(s.wallet.inventory, itemId, qty);
  }

  /**
   * As written, when fewer than `qty` are held the removal fails silently and
   * the box is opened anyway: holding one bronze lootbox and asking to use
   * five opens it and leaves the lootbox in the inventory.
   */
  lemma OpenWithoutRemoving()
    ensures var s := UseState(Rewards.Wallet([Stacks.Stack(BRONZE, 1, 0)], 0.0, 0.0), Rewards.Effects(None, None), None, None);
      var bronze := Lootboxes[0];
      var r := InventoryUseSpec(s, BRONZE, Some(5), Some(bronze), None, [0.0, 0.0, 0.0, 0.0, 0.0], 0);
      && r.outcome == Opened([Rewards.Item(FRAGMENT, 3)])
      && r.after.wallet.inventory == [Stacks.Stack(BRONZE, 1, 0), Stacks.Stack(FRAGMENT, 3, 0)]
  {
    var t := BronzeTable;
    var rolls := [0.0, 0.0, 0.0, 0.0, 0.0];
    var inv := [Stacks.Stack(BRONZE, 1, 0)];
    assert Stacks.Has(inv, BRONZE, 1) && !Stacks.AvailableAtLeast(inv, BRONZE, 5) by {
      assert Stacks.IndexOf(inv, BRONZE) == 0;
    }
    assert Rewards.AdjustForClover(t, Rewards.StandardBoost, None, BRONZE) == t;
    assert Rewards.Scale(0.0, Rewards.TotalWeight(t)) == 0.0;
    assert Rewards.Pick(t, 0.0) == Some(t[0].value);
    assert Rewards.GetRandomInt(3, 6, 0.0) == 3 by {
      assert Rewards.Scale(0.0, 4.0) == 0.0;
    }
    var reward := Rewards.Item(FRAGMENT, 3);
    assert Rewards.Resolve(t[0].value, 0.0) == reward;
    assert Rewards.DrawOne(t, rolls, false) == Some([reward]);
    var w := Rewards.Wallet(inv, 0.0, 0.0);
    assert Stacks.IndexOf(inv, FRAGMENT) == -1;
    assert Rewards.CreditAll(w, [reward]) == Rewards.Credit(w, reward);
  }

  /**
   * The evident intent: an opening or an activation needs `qty` of the item
   * available and is refused, changing nothing, otherwise. Where the
   * quantity is available it behaves exactly as the handler as written.
   */
  function CheckedInventoryUse(s: UseState, itemId: string, parsed: Option<int>, def: Option<ItemDef>,
                               shimmering: Option<ItemDef>, rolls: seq<real>, now: int): UseResult
    requires |rolls| >= 5
  {
    var qty := RequestQuantity(parsed);
    if Stacks.Has(s.wallet.inventory, itemId, 1) && def.Some? && (Opens(def.value) || (def.value.category != ProfileAccent && Usable(def.value)))
       && !Stacks.AvailableAtLeast(s.wallet.inventory, itemId, qty)
    then UseResult(NoSuchItem, s)
    else InventoryUseSpec(s, itemId, parsed, def, shimmering, rolls, now)
  }

  /**
   * In the corrected handler every opening and every activation removes
   * exactly `qty >= 1` of the item, so nothing is opened or used for free.
   */
  lemma CheckedUseConsumesItems(s: UseState, itemId: string, parsed: Option<int>, def: Option<ItemDef>,
                                shimmering: Option<ItemDef>, rolls: seq<real>, now: int)
    requires |rolls| >= 5
    requires Stacks.Tidy(s.wallet.inventory)
    ensures var qty := RequestQuantity(parsed);
      var r := CheckedInventoryUse(s, itemId, parsed, def, shimmering, rolls, now);
      && (r.outcome.Opened? || r.outcome == Activated ==>
            && qty >= 1 && Stacks.AvailableAtLeast(s.wallet.inventory, itemId, qty)
            && (r.outcome == Activated ==>
                  Stacks.Count(r.after.wallet.inventory, itemId) == Stacks.Count(s.wallet.inventory, itemId) - qty)
            && (r.outcome.Opened? ==>
                  r.after.wallet == Rewards.CreditAll(s.wallet.(inventory := Stacks.Withdraw(s.wallet.inventory, itemId, qty)),
                                                      r.outcome.rewards)))
      && (Stacks.AvailableAtLeast(s.wallet.inventory, itemId, qty) ==>
            r == InventoryUseSpec(s, itemId, parsed, def, shimmering, rolls, now))
  {
    var qty := RequestQuantity(parsed);
    UseBranches(s, itemId, parsed, def, shimmering, rolls, now);
    if Stacks.AvailableAtLeast(s.wallet.inventory, itemId, qty) && def.Some? {
      UseTakesTheQuantity(s, itemId, parsed, def.value, shimmering, rolls, now);
    }
  }

  /** Which branch of the handler each outcome comes from. */
  lemma UseBranches(s: UseState, itemId: string, parsed: Option<int>, def: Option<ItemDef>,
                    shimmering: Option<ItemDef>, rolls: seq<real>, now: int)
    requires |rolls| >= 5
    ensures var r := InventoryUseSpec(s, itemId, parsed, def, shimmering, rolls, now);
      && (r.outcome.Opened? ==> Stacks.Has(s.wallet.inventory, itemId, 1) && def.Some? && Opens(def.value))
      && (r.outcome == Activated ==>
            Stacks.Has(s.wallet.inventory, itemId, 1) && def.Some? && !Opens(def.value)
            && def.value.category != ProfileAccent && Usable(def.value))
  {
  }
}
