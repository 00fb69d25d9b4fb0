/**
 * The arithmetic of two pages of routes/pages.js: the leaderboard (which
 * profile field it ranks by, its pages, and the viewer's own rank) and the
 * profile pages' portfolio valuation and net worth. The database queries
 * are parameters: the scores of the guild's profiles, and the map from
 * ticker to current price.
 */
module Pages {

  import opened Util
  import opened Profile
  import Api

  // ===== field selection =====================================================

  /** The `period` query: '1d', '7d', '30d', or anything else (all time). */
  datatype Period = Today | Last7Days | Last30Days | AllTime

  function PeriodOf(period: string): Period {
    match period
    case "1d" => Today
    case "7d" => Last7Days
    case "30d" => Last30Days
    case _ => AllTime
  }

  /** The message counter kept for each period. */
  function MessageField(p: Period): string {
    match p
    case Today => "messagesToday"
    case Last7Days => "messagesLast7Days"
    case Last30Days => "messagesLast30Days"
    case AllTime => "totalMessages"
  }

  /** The voice-time counter kept for each period. */
  function VoiceField(p: Period): string {
    match p
    case Today => "voiceTimeToday"
    case Last7Days => "voiceLast7Days"
    case Last30Days => "voiceLast30Days"
    case AllTime => "totalVoiceTime"
  }

  /** The fixed field of each sort key, as the handler's `map` lists it. */
  const SortMap: map<string, string> :=
    map["stars" := "stars", "rep" := "reputation", "messages" := "totalMessages", "voice" := "totalVoiceTime"]

  /** A query value, or its default when missing or empty (`req.query.x || default`). */
  function QueryOr(q: Option<string>, default: string): string {
    if Truthy(q) then q.value else default
  }

  /**
   * The field a sort key and period rank by: messages and voice by their
   * counter for the period, any other key of the map by its field, and
   * anything else by stars.
   */
  function SelectedField(sortType: string, period: string): string {
    if sortType == "messages" then MessageField(PeriodOf(period))
    else if sortType == "voice" then VoiceField(PeriodOf(period))
    else if sortType in SortMap then SortMap[sortType]
    else "stars"
  }

  /** The handler's `dbField`, assigned step by step from the `sort` and `period` queries. */
  method LeaderboardField(sort: Option<string>, period: Option<string>) returns (dbField: string)
    ensures dbField == SelectedField(QueryOr(sort, "stars"), QueryOr(period, "all"))
  {
    var sortType := if Truthy(sort) then sort.value else "stars";
    var p := if Truthy(period) then period.value else "all";
    dbField := "stars";
    if sortType == "messages" {
      if p == "1d" {
        dbField := "messagesToday";
      } else if p == "7d" {
        dbField := "messagesLast7Days";
      } else if p == "30d" {
        dbField := "messagesLast30Days";
      } else {
        dbField := "totalMessages";
      }
    } else if sortType == "voice" {
      if p == "1d" {
        dbField := "voiceTimeToday";
      } else if p == "7d" {
        dbField := "voiceLast7Days";
      } else if p == "30d" {
        dbField := "voiceLast30Days";
      } else {
        dbField := "totalVoiceTime";
      }
    } else if sortType in SortMap {
      dbField := SortMap[sortType];
    }
  }

  /** Every field the leaderboard can rank by. */
  const RankedFields: set<string> := {
    "stars", "reputation",
    "messagesToday", "messagesLast7Days", "messagesLast30Days", "totalMessages",
    "voiceTimeToday", "voiceLast7Days", "voiceLast30Days", "totalVoiceTime"}

  /**
   * The selection: messages and voice follow the period, falling back to the
   * all-time counter that the map also lists; 'rep' ranks by reputation;
   * 'stars' and every unknown key rank by stars. Different periods of one
   * metric give different counters, and no counter serves both metrics.
   */
  lemma FieldSelection(sortType: string, period: string, period2: string)
    ensures SelectedField(sortType, period) in RankedFields
    ensures sortType == "messages" ==> SelectedField(sortType, period) == MessageField(PeriodOf(period))
    ensures sortType == "voice" ==> SelectedField(sortType, period) == VoiceField(PeriodOf(period))
    ensures sortType == "rep" ==> SelectedField(sortType, period) == "reputation"
    ensures sortType !in {"messages", "voice", "rep"} ==> SelectedField(sortType, period) == "stars"
    ensures SelectedField("messages", "all") == SortMap["messages"] && SelectedField("voice", "all") == SortMap["voice"]
    ensures PeriodOf(period) != PeriodOf(period2) ==>
      MessageField(PeriodOf(period)) != MessageField(PeriodOf(period2))
      && VoiceField(PeriodOf(period)) != VoiceField(PeriodOf(period2))
    ensures MessageField(PeriodOf(period)) != VoiceField(PeriodOf(period2))
  {
  }

  // ===== pagination ==========================================================

  const LIMIT := 50

  /** `parseInt(req.query.page) || 1`; `parsed` is `None` for NaN. */
  function PageNumber(parsed: Option<int>): (page: int)
    ensures page != 0
    ensures parsed.Some? && parsed.value != 0 ==> page == parsed.value
    ensures parsed.None? ==> page == 1
  {
    if parsed.None? || parsed.value == 0 then 1 else parsed.value
  }

  /** `(page - 1) * limit`: the ranks before the page. */
  function Skip(page: int): int { (page - 1) * LIMIT }

  /** `skip + 1`: the rank of the page's first row. */
  function StartRank(page: int): int { Skip(page) + 1 }

  /** `Math.ceil(totalPlayers / limit)`. */
  function TotalPages(total: nat): nat { (total + LIMIT - 1) / LIMIT }

  /** The page that shows rank `rank`. */
  function PageOfRank(rank: int): int { (rank - 1) / LIMIT + 1 }

  /**
   * The page count is the ceiling of players over page size: the pages hold
   * every player and the last one is not empty. Each rank from 1 to the
   * number of players lies on exactly one page, among the first `TotalPages`,
   * between that page's start rank and the start rank of the next.
   */
  lemma Paging(total: nat, rank: int)
    ensures TotalPages(total) * LIMIT >= total
    ensures total > 0 ==> (TotalPages(total) - 1) * LIMIT < total
    ensures total == 0 ==> TotalPages(total) == 0
    ensures 1 <= rank <= total ==>
      && 1 <= PageOfRank(rank) <= TotalPages(total)
      && StartRank(PageOfRank(rank)) <= rank < StartRank(PageOfRank(rank) + 1)
  {
  }

  /** A page from 1 to `TotalPages` starts at a rank some player holds. */
  lemma PagesAreNotEmpty(total: nat, page: int)
    requires 1 <= page <= TotalPages(total)
    ensures 1 <= StartRank(page) <= total
  {
  }

  // ===== rank ================================================================

  /** `countDocuments({ [dbField]: { $gt: x } })` over the guild's scores. */
  function CountGreater(scores: seq<real>, x: real): nat {
    if scores == [] then 0
    else (if scores[0] > x then 1 else 0) + CountGreater(scores[1..], x)
  }

  /** `myProfile[dbField] || 0`. */
  function ScoreOf(field: Option<real>): real {
    if field.Some? then field.value else 0.0
  }

  /** `countBetter + 1`. */
  function MyRank(scores: seq<real>, myScore: real): int {
    CountGreater(scores, myScore) + 1
  }

  /** `countDocuments({ [dbField]: { $gt: 0 } })`: the players on the board. */
  function TotalPlayers(scores: seq<real>): nat {
    CountGreater(scores, 0.0)
  }

  /** The count is at most the number of profiles, and 0 exactly when nobody is above. */
  lemma {:induction false} CountGreaterBounds(scores: seq<real>, x: real)
    ensures CountGreater(scores, x) <= |scores|
    ensures CountGreater(scores, x) == 0 <==> forall k :: 0 <= k < |scores| ==> scores[k] <= x
  {
    if scores != [] {
      CountGreaterBounds(scores[1..], x);
      assert forall k :: 1 <= k < |scores| ==> scores[1..][k - 1] == scores[k];
    }
  }

  /** A higher score never has more players above it. */
  lemma {:induction false} CountGreaterMonotone(scores: seq<real>, x: real, y: real)
    requires x <= y
    ensures CountGreater(scores, y) <= CountGreater(scores, x)
  {
    if scores != [] {
      CountGreaterMonotone(scores[1..], x, y);
    }
  }

  /**
   * The rank is at least 1, is 1 exactly when nobody scores more, never
   * passes the number of profiles when the viewer is one of them, and never
   * gets worse with a higher score.
   */
  lemma RankLaws(scores: seq<real>, myScore: real, better: real)
    requires myScore <= better
    ensures 1 <= MyRank(scores, myScore) <= |scores| + 1
    ensures MyRank(scores, myScore) == 1 <==> forall k :: 0 <= k < |scores| ==> scores[k] <= myScore
    ensures myScore in scores ==> MyRank(scores, myScore) <= |scores|
    ensures MyRank(scores, better) <= MyRank(scores, myScore)
  {
    CountGreaterBounds(scores, myScore);
    CountGreaterMonotone(scores, myScore, better);
    if myScore in scores {
      NotAboveItself(scores, myScore);
    }
  }

  lemma {:induction false} NotAboveItself(scores: seq<real>, x: real)
    requires x in scores
    ensures CountGreater(scores, x) < |scores|
  {
    if scores[0] != x {
      NotAboveItself(scores[1..], x);
    } else {
      CountGreaterBounds(scores[1..], x);
    }
  }

  predicate SortedDescending(scores: seq<real>) {
    forall j, k :: 0 <= j < k < |scores| ==> scores[j] >= scores[k]
  }

  /**
   * On the board sorted by score, the viewer's rank is one more than the
   * position of the first row whose score is not above theirs, so it agrees
   * with `startRank` plus the row's place on its page.
   */
  lemma {:induction false} RankOnSortedBoard(scores: seq<real>, myScore: real, k: nat)
    requires SortedDescending(scores) && k <= |scores|
    requires forall j :: 0 <= j < k ==> scores[j] > myScore
    requires k < |scores| ==> scores[k] <= myScore
    ensures MyRank(scores, myScore) == k + 1
  {
    if scores != [] {
      var rest := scores[1..];
      assert SortedDescending(rest) by {
        forall j, m | 0 <= j < m < |rest| ensures rest[j] >= rest[m] {
          assert rest[j] == scores[j + 1] && rest[m] == scores[m + 1];
        }
      }
      if k == 0 {
        assert forall j :: 0 <= j < |scores| ==> scores[j] <= myScore by {
          forall j | 0 <= j < |scores| ensures scores[j] <= myScore {
            assert scores[j] <= scores[0];
          }
        }
        CountGreaterBounds(scores, myScore);
      } else {
        forall j | 0 <= j < k - 1 ensures rest[j] > myScore {
          assert rest[j] == scores[j + 1];
        }
        if k - 1 < |rest| {
          assert rest[k - 1] == scores[k];
        }
        RankOnSortedBoard(rest, myScore, k - 1);
      }
    }
  }

  // ===== portfolio value and net worth =======================================

  /** `stockMap.get(ticker) || 0`: an unknown ticker is priced at 0. */
  function PriceOf(prices: map<string, real>, ticker: string): real {
    if ticker in prices then prices[ticker] else 0.0
  }

  /** `p.quantity * currentPrice`. */
  function PositionValue(pos: Position, prices: map<string, real>): real {
    Api.Cost(pos.quantity, PriceOf(prices, pos.ticker))
  }

  /** The sum of the positions' values. */
  function Value(portfolio: seq<Position>, prices: map<string, real>): real {
    if portfolio == [] then 0.0
    else Value(portfolio[..|portfolio| - 1], prices) + PositionValue(portfolio[|portfolio| - 1], prices)
  }

  /** `{ ...p, currentPrice, value }`. */
  datatype PositionDetail = PositionDetail(position: Position, currentPrice: real, value: real)

  /** `netWorth`: stars plus the portfolio's value. */
  function NetWorth(stars: real, portfolio: seq<Position>, prices: map<string, real>): real {
    stars + Value(portfolio, prices)
  }

  /** The `portfolio.map` that prices each position and adds its value to `portfolioValue`. */
  method PortfolioValue(portfolio: seq<Position>, prices: map<string, real>)
    returns (portfolioValue: real, details: seq<PositionDetail>)
    ensures portfolioValue == Value(portfolio, prices)
    ensures |details| == |portfolio|
    ensures forall k :: 0 <= k < |portfolio| ==>
      details[k] == PositionDetail(portfolio[k], PriceOf(prices, portfolio[k].ticker), PositionValue(portfolio[k], prices))
  {
    portfolioValue := 0.0;
    details := [];
    var i := 0;
    while i < |portfolio|
      invariant 0 <= i <= |portfolio|
      invariant portfolioValue == Value(portfolio[..i], prices)
      invariant |details| == i
      invariant forall k :: 0 <= k < i ==>
        details[k] == PositionDetail(portfolio[k], PriceOf(prices, portfolio[k].ticker), PositionValue(portfolio[k], prices))
    {
      var p := portfolio[i];
      var currentPrice := if p.ticker in prices then prices[p.ticker] else 0.0;
      var value := Api.Cost(p.quantity, currentPrice);
      portfolioValue := portfolioValue + value;
      details := details + [PositionDetail(p, currentPrice, value)];
      assert portfolio[..i + 1][..i] == portfolio[..i];
      i := i + 1;
    }
    assert portfolio[..i] == portfolio;
  }

  /** The value of two portfolios side by side is the sum of their values. */
  lemma {:induction false} ValueAppend(a: seq<Position>, b: seq<Position>, prices: map<string, real>)
    ensures Value(a + b, prices) == Value(a, prices) + Value(b, prices)
    decreases |b|
  {
    if b != [] {
      var c := a + b;
      assert c[..|c| - 1] == a + b[..|b| - 1];
      assert c[|c| - 1] == b[|b| - 1];
      ValueAppend(a, b[..|b| - 1], prices);
    } else {
      assert a + b == a;
    }
  }

  /** Held shares at non-negative prices have a non-negative value. */
  lemma {:induction false} ValueNonNegative(portfolio: seq<Position>, prices: map<string, real>)
    requires Api.NonNegativeQuantities(portfolio)
    requires forall t :: t in prices ==> prices[t] >= 0.0
    ensures Value(portfolio, prices) >= 0.0
  {
    if portfolio != [] {
      var init := portfolio[..|portfolio| - 1];
      assert Api.NonNegativeQuantities(init) by {
        forall k | 0 <= k < |init| ensures init[k].quantity >= 0.0 {
          assert init[k] == portfolio[k];
        }
      }
      ValueNonNegative(init, prices);
      var last := portfolio[|portfolio| - 1];
      assert last.quantity >= 0.0 && PriceOf(prices, last.ticker) >= 0.0;
    }
  }

  /** Replacing one position changes the value by the difference of the two positions' values. */
  lemma ValueAfterReplace(portfolio: seq<Position>, i: nat, pos: Position, prices: map<string, real>)
    requires i < |portfolio|
    ensures Value(portfolio[i := pos], prices)
            == Value(portfolio, prices) - PositionValue(portfolio[i], prices) + PositionValue(pos, prices)
  {
    var before := portfolio[..i];
    var after := portfolio[i + 1..];
    assert portfolio == before + [portfolio[i]] + after;
    assert portfolio[i := pos] == before + [pos] + after;
    ValueAppend(before + [portfolio[i]], after, prices);
    ValueAppend(before + [pos], after, prices);
    ValueAppend(before, [portfolio[i]], prices);
    ValueAppend(before, [pos], prices);
    assert Value([pos], prices) == PositionValue(pos, prices) by {
      assert [pos][..0] == [];
    }
    assert Value([portfolio[i]], prices) == PositionValue(portfolio[i], prices) by {
      assert [portfolio[i]][..0] == [];
    }
  }

  /** No ticker has two positions. */
  predicate UniqueTickers(portfolio: seq<Position>) {
    forall j, k :: 0 <= j < k < |portfolio| ==> portfolio[j].ticker != portfolio[k].ticker
  }

  /** A portfolio without the ticker has no position the find sees. */
  lemma NoTickerNoFind(portfolio: seq<Position>, ticker: string)
    requires forall k :: 0 <= k < |portfolio| ==> portfolio[k].ticker != ticker
    ensures Api.FindPosition(portfolio, ticker) < 0
  {
  }

  /** The filter drops a position with the ticker between two runs without it. */
  lemma FilterAroundOne(before: seq<Position>, x: Position, after: seq<Position>, ticker: string)
    requires Api.FindPosition(before, ticker) < 0 && Api.FindPosition(after, ticker) < 0
    requires x.ticker == ticker
    ensures Api.WithoutTicker(before + [x] + after, ticker) == before + after
  {
    assert Api.WithoutTicker([x], ticker) == [] by {
      assert [x][1..] == [];
    }
    calc {
      Api.WithoutTicker(before + [x] + after, ticker);
      { Api.WithoutTickerAppend(before + [x], after, ticker); }
      Api.WithoutTicker(before + [x], ticker) + Api.WithoutTicker(after, ticker);
      { Api.WithoutTickerAppend(before, [x], ticker); }
      Api.WithoutTicker(before, ticker) + [] + Api.WithoutTicker(after, ticker);
      { Api.WithoutAbsentTicker(before, ticker); Api.WithoutAbsentTicker(after, ticker); }
      before + [] + after;
      { assert before + [] == before; }
      before + after;
    }
  }

  /** After a position, a portfolio with unique tickers holds no other position with its ticker. */
  lemma UniqueAfter(portfolio: seq<Position>, i: nat)
    requires UniqueTickers(portfolio) && i < |portfolio|
    ensures Api.FindPosition(portfolio[i + 1..], portfolio[i].ticker) < 0
  {
    var after := portfolio[i + 1..];
    forall k | 0 <= k < |after| ensures after[k].ticker != portfolio[i].ticker {
      assert after[k] == portfolio[i + 1 + k];
    }
    NoTickerNoFind(after, portfolio[i].ticker);
  }

  /** Before the found position, no position has the ticker. */
  lemma NoneBeforeFound(portfolio: seq<Position>, ticker: string)
    requires Api.FindPosition(portfolio, ticker) >= 0
    ensures Api.FindPosition(portfolio[..Api.FindPosition(portfolio, ticker)], ticker) < 0
  {
    var i := Api.FindPosition(portfolio, ticker);
    assert forall k :: 0 <= k < |portfolio[..i]| ==> portfolio[..i][k] == portfolio[k];
    NoTickerNoFind(portfolio[..i], ticker);
  }

  /** A sequence is its prefix, the element at `i` and its suffix. */
  lemma SplitAround<T>(s: seq<T>, i: nat)
    requires i < |s|
    ensures s == s[..i] + [s[i]] + s[i + 1..]
  {
  }

  /** With unique tickers, the filter drops exactly the position the find sees. */
  lemma FilterDropsOne(portfolio: seq<Position>, ticker: string)
    requires UniqueTickers(portfolio)
    requires Api.FindPosition(portfolio, ticker) >= 0
    ensures var i := Api.FindPosition(portfolio, ticker);
      Api.WithoutTicker(portfolio, ticker) == portfolio[..i] + portfolio[i + 1..]
  {
    var i := Api.FindPosition(portfolio, ticker);
    NoneBeforeFound(portfolio, ticker);
    UniqueAfter(portfolio, i);
    SplitAround(portfolio, i);
    FilterAroundOne(portfolio[..i], portfolio[i], portfolio[i + 1..], ticker);
  }

  /** Distribution of a product over a sum and a difference. */
  lemma CostSplits(q: real, a: real, p: real)
    ensures Api.Cost(q + a, p) == Api.Cost(q, p) + Api.Cost(p, a)
    ensures Api.Cost(q - a, p) == Api.Cost(q, p) - Api.Cost(p, a)
  {
  }

  /** Paying `delta` stars for a position worth `delta` more keeps the net worth. */
  lemma ReplaceKeepsNetWorth(stars: real, portfolio: seq<Position>, i: nat, pos: Position, delta: real,
                             prices: map<string, real>)
    requires i < |portfolio|
    requires PositionValue(pos, prices) == PositionValue(portfolio[i], prices) + delta
    ensures NetWorth(stars - delta, portfolio[i := pos], prices) == NetWorth(stars, portfolio, prices)
  {
    ValueAfterReplace(portfolio, i, pos, prices);
  }

  /** Paying a new position's value in stars keeps the net worth. */
  lemma AppendKeepsNetWorth(stars: real, portfolio: seq<Position>, pos: Position, prices: map<string, real>)
    ensures NetWorth(stars - PositionValue(pos, prices), portfolio + [pos], prices) == NetWorth(stars, portfolio, prices)
  {
    ValueAppend(portfolio, [pos], prices);
    assert [pos][..0] == [];
  }

  /** Receiving a position's value in stars for it keeps the net worth. */
  lemma RemoveKeepsNetWorth(stars: real, portfolio: seq<Position>, i: nat, prices: map<string, real>)
    requires i < |portfolio|
    ensures NetWorth(stars + PositionValue(portfolio[i], prices), portfolio[..i] + portfolio[i + 1..], prices)
            == NetWorth(stars, portfolio, prices)
  {
    var before := portfolio[..i];
    var after := portfolio[i + 1..];
    assert portfolio == before + [portfolio[i]] + after;
    ValueAppend(before + [portfolio[i]], after, prices);
    ValueAppend(before, [portfolio[i]], prices);
    ValueAppend(before, after, prices);
    assert [portfolio[i]][..0] == [];
  }

  /** A buy into a held position at the current price keeps the net worth. */
  lemma BuyIntoKeepsNetWorth(h: Api.Holdings, ticker: string, amount: real, price: real, prices: map<string, real>)
    requires Api.NonNegativeQuantities(h.portfolio)
    requires ticker in prices && prices[ticker] == price
    requires amount > 0.0 && h.stars >= Api.Cost(price, amount) && Api.FindPosition(h.portfolio, ticker) >= 0
    ensures var r := Api.TradeSpec(h, ticker, amount, Api.Buy, Some(price));
      NetWorth(r.after.stars, r.after.portfolio, prices) == NetWorth(h.stars, h.portfolio, prices)
  {
    var pf := h.portfolio;
    var total := Api.Cost(price, amount);
    var i := Api.FindPosition(pf, ticker);
    var pos := Api.BuyInto(pf[i], amount, total);
    assert Api.TradeSpec(h, ticker, amount, Api.Buy, Some(price)).after == Api.Holdings(h.stars - total, pf[i := pos]);
    CostSplits(pf[i].quantity, amount, price);
    ReplaceKeepsNetWorth(h.stars, pf, i, pos, total, prices);
  }

  /** A buy of a new position at the current price keeps the net worth. */
  lemma BuyNewKeepsNetWorth(h: Api.Holdings, ticker: string, amount: real, price: real, prices: map<string, real>)
    requires Api.NonNegativeQuantities(h.portfolio)
    requires ticker in prices && prices[ticker] == price
    requires amount > 0.0 && h.stars >= Api.Cost(price, amount) && Api.FindPosition(h.portfolio, ticker) < 0
    ensures var r := Api.TradeSpec(h, ticker, amount, Api.Buy, Some(price));
      NetWorth(r.after.stars, r.after.portfolio, prices) == NetWorth(h.stars, h.portfolio, prices)
  {
    var total := Api.Cost(price, amount);
    var pos := Position(ticker, amount, price, total);
    assert Api.TradeSpec(h, ticker, amount, Api.Buy, Some(price)).after == Api.Holdings(h.stars - total, h.portfolio + [pos]);
    CostSplits(0.0, amount, price);
    AppendKeepsNetWorth(h.stars, h.portfolio, pos, prices);
  }

  /** A sale of part of a position at the current price keeps the net worth. */
  lemma PartialSaleKeepsNetWorth(h: Api.Holdings, ticker: string, amount: real, price: real, prices: map<string, real>)
    requires Api.NonNegativeQuantities(h.portfolio)
    requires ticker in prices && prices[ticker] == price
    requires amount > 0.0 && Api.FindPosition(h.portfolio, ticker) >= 0
    requires h.portfolio[Api.FindPosition(h.portfolio, ticker)].quantity > amount
    ensures var r := Api.TradeSpec(h, ticker, amount, Api.Sell, Some(price));
      NetWorth(r.after.stars, r.after.portfolio, prices) == NetWorth(h.stars, h.portfolio, prices)
  {
    var pf := h.portfolio;
    var total := Api.Cost(price, amount);
    var i := Api.FindPosition(pf, ticker);
    var pos := Api.SellFrom(pf[i], amount);
    assert Api.TradeSpec(h, ticker, amount, Api.Sell, Some(price)).after == Api.Holdings(h.stars + total, pf[i := pos]);
    CostSplits(pf[i].quantity, amount, price);
    ReplaceKeepsNetWorth(h.stars, pf, i, pos, -total, prices);
  }

  /** A sale of a whole position at the current price keeps the net worth. */
  lemma FullSaleKeepsNetWorth(h: Api.Holdings, ticker: string, amount: real, price: real, prices: map<string, real>)
    requires Api.NonNegativeQuantities(h.portfolio) && UniqueTickers(h.portfolio)
    requires ticker in prices && prices[ticker] == price
    requires amount > 0.0 && Api.FindPosition(h.portfolio, ticker) >= 0
    requires h.portfolio[Api.FindPosition(h.portfolio, ticker)].quantity == amount
    ensures var r := Api.TradeSpec(h, ticker, amount, Api.Sell, Some(price));
      NetWorth(r.after.stars, r.after.portfolio, prices) == NetWorth(h.stars, h.portfolio, prices)
  {
    var pf := h.portfolio;
    var total := Api.Cost(price, amount);
    var i := Api.FindPosition(pf, ticker);
    FilterDropsOne(pf, ticker);
    assert Api.TradeSpec(h, ticker, amount, Api.Sell, Some(price)).after
      == Api.Holdings(h.stars + total, pf[..i] + pf[i + 1..]);
    CostSplits(amount, 0.0, price);
    RemoveKeepsNetWorth(h.stars, pf, i, prices);
  }

  /**
   * A trade at the current price leaves the net worth unchanged: the stars
   * paid or received equal the value of the shares bought or sold.
   */
  lemma TradeKeepsNetWorth(h: Api.Holdings, ticker: string, amount: real, action: Api.TradeAction,
                           price: real, prices: map<string, real>)
    requires Api.NonNegativeQuantities(h.portfolio) && UniqueTickers(h.portfolio)
    requires ticker in prices && prices[ticker] == price
    ensures var r := Api.TradeSpec(h, ticker, amount, action, Some(price));
      NetWorth(r.after.stars, r.after.portfolio, prices) == NetWorth(h.stars, h.portfolio, prices)
  {
    var pf := h.portfolio;
    var i := Api.FindPosition(pf, ticker);
    Api.TradeRefusals(h, ticker, amount, action, Some(price));
    if amount > 0.0 && action == Api.Buy && h.stars >= Api.Cost(price, amount) {
      if i >= 0 {
        BuyIntoKeepsNetWorth(h, ticker, amount, price, prices);
      } else {
        BuyNewKeepsNetWorth(h, ticker, amount, price, prices);
      }
    } else if amount > 0.0 && action == Api.Sell && i >= 0 && pf[i].quantity >= amount {
      if pf[i].quantity > amount {
        PartialSaleKeepsNetWorth(h, ticker, amount, price, prices);
      } else {
        FullSaleKeepsNetWorth(h, ticker, amount, price, prices);
      }
    }
  }

  /** Replacing a position by one with the same ticker keeps the tickers unique. */
  lemma UpdateKeepsUnique(portfolio: seq<Position>, i: nat, pos: Position)
    requires UniqueTickers(portfolio) && i < |portfolio| && pos.ticker == portfolio[i].ticker
    ensures UniqueTickers(portfolio[i := pos])
  {
    var q := portfolio[i := pos];
    forall j, k | 0 <= j < k < |q| ensures q[j].ticker != q[k].ticker {
      assert q[j].ticker == portfolio[j].ticker && q[k].ticker == portfolio[k].ticker;
    }
  }

  /** Appending a position whose ticker is not held keeps the tickers unique. */
  lemma AppendKeepsUnique(portfolio: seq<Position>, pos: Position)
    requires UniqueTickers(portfolio) && Api.FindPosition(portfolio, pos.ticker) < 0
    ensures UniqueTickers(portfolio + [pos])
  {
    var q := portfolio + [pos];
    forall j, k | 0 <= j < k < |q| ensures q[j].ticker != q[k].ticker {
      assert q[j] == portfolio[j];
    }
  }

  /** Dropping one position keeps the tickers unique. */
  lemma RemoveKeepsUnique(portfolio: seq<Position>, i: nat)
    requires UniqueTickers(portfolio) && i < |portfolio|
    ensures UniqueTickers(portfolio[..i] + portfolio[i + 1..])
  {
    var d := portfolio[..i] + portfolio[i + 1..];
    forall j, k | 0 <= j < k < |d| ensures d[j].ticker != d[k].ticker {
      var j' := if j < i then j else j + 1;
      var k' := if k < i then k else k + 1;
      assert d[j] == portfolio[j'] && d[k] == portfolio[k'];
    }
  }

  /** Trades keep the tickers of a portfolio unique. */
  lemma TradeKeepsUniqueTickers(h: Api.Holdings, ticker: string, amount: real, action: Api.TradeAction,
                                price: Option<real>)
    requires Api.NonNegativeQuantities(h.portfolio) && UniqueTickers(h.portfolio)
    ensures UniqueTickers(Api.TradeSpec(h, ticker, amount, action, price).after.portfolio)
  {
    var r := Api.TradeSpec(h, ticker, amount, action, price);
    var pf := h.portfolio;
    if amount > 0.0 && price.Some? {
      var total := Api.Cost(price.value, amount);
      var i := Api.FindPosition(pf, ticker);
      if action == Api.Buy && h.stars >= total {
        if i >= 0 {
          assert r.after.portfolio == pf[i := Api.BuyInto(pf[i], amount, total)];
          UpdateKeepsUnique(pf, i, Api.BuyInto(pf[i], amount, total));
        } else {
          assert r.after.portfolio == pf + [Position(ticker, amount, price.value, total)];
          AppendKeepsUnique(pf, Position(ticker, amount, price.value, total));
        }
      } else if action == Api.Sell && i >= 0 && pf[i].quantity >= amount {
        if pf[i].quantity - amount <= 0.0 {
          FilterDropsOne(pf, ticker);
          assert r.after.portfolio == pf[..i] + pf[i + 1..];
          RemoveKeepsUnique(pf, i);
        } else {
          assert r.after.portfolio == pf[i := Api.SellFrom(pf[i], amount)];
          UpdateKeepsUnique(pf, i, Api.SellFrom(pf[i], amount));
        }
      }
    }
  }
}
