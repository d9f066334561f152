/** The investment advisor: a cash amount and a risk tier select a fixed stock basket
    and crypto basket, split the amount between the two markets by a fixed fraction,
    and give every instrument of a market the same whole-rupee share, each shown with
    its live price or "N/A". Network fetches are parameters: one outcome per stock
    symbol, and one body (or a failure) for the crypto request. */
module InvestmentSimulator {
  import opened Common
  import opened Text

  datatype Tier = Low | Medium | High

  /** A price as displayed: a number, or the string "N/A". */
  datatype Price = Known(value: real) | NA

  /** One row of the suggestion: `{ name, symbol, invest, price }`. */
  datatype Suggestion = Suggestion(name: string, symbol: string, invest: int, price: Price)

  datatype InvestmentData = InvestmentData(stockSuggestions: seq<Suggestion>, cryptoSuggestions: seq<Suggestion>)

  /** What one proxied Yahoo request produced: the `regularMarketPrice` found in the
      parsed body (possibly absent), or an exception in fetch, `res.json()` or `JSON.parse`. */
  datatype StockFetch = Fetched(regularMarketPrice: Option<real>) | FetchFailed

  /** One entry of the list `getStockPrices` returns. */
  datatype StockQuote = StockQuote(symbol: string, price: Price)

  /** What the CoinGecko request produced: the `inr` figure per coin id that carries one,
      or an exception (a rejected fetch, a body that is not JSON, or a null body that
      makes `cryptoData[id]` throw). */
  datatype CryptoFetch = CryptoBody(inr: map<string, real>) | CryptoFailed

  const InvalidAmountMessage: string := "Please enter a valid investment amount."
  const FetchErrorMessage: string := "An error occurred while fetching live prices."

  // ---------------------------------------------------------------------------
  // Fixed tables

  /** The Yahoo symbol of a company listed on the National Stock Exchange of India:
      `NSE("TCS")` is "TCS.NS". */
  function NSE(code: string): string
  {
    code + ".NS"
  }

  function StockBasket(t: Tier): (basket: seq<string>)
    ensures |basket| == 3
  {
    match t
    case Low => [NSE("RELIANCE"), NSE("HDFCBANK"), NSE("TCS")]
    case Medium => [NSE("INFY"), NSE("ICICIBANK"), NSE("TCS")]
    case High => [NSE("ADANIENT"), NSE("TATAMOTORS"), NSE("ZOMATO")]
  }

  function CryptoBasket(t: Tier): (basket: seq<string>)
    ensures |basket| == if t == Low then 2 else 3
    ensures basket[..2] == ["bitcoin", "ethereum"]
  {
    match t
    case Low => ["bitcoin", "ethereum"]
    case Medium => ["bitcoin", "ethereum", "binancecoin"]
    case High => ["bitcoin", "ethereum", "solana"]
  }

  /** The fraction of the amount that goes to stocks. */
  function StockShare(t: Tier): (f: real)
    ensures 0.0 < f < 1.0
  {
    match t
    case Low => 0.7
    case Medium => 0.6
    case High => 0.5
  }

  /** The fraction of the amount that goes to crypto; with the stock share it covers the
      whole amount. */
  function CryptoShare(t: Tier): (f: real)
    ensures 0.0 < f < 1.0
    ensures StockShare(t) + f == 1.0
  {
    match t
    case Low => 0.3
    case Medium => 0.4
    case High => 0.5
  }

  // ---------------------------------------------------------------------------
  // Prices

  /** `price || "N/A"` for a figure read from a response: missing and zero become "N/A". */
  function OrNA(p: Option<real>): (r: Price)
    ensures r == NA <==> p == None || p == Some(0.0)
    ensures r.Known? ==> p == Some(r.value) && r.value != 0.0
  {
    if p.Some? && p.value != 0.0 then Known(p.value) else NA
  }

  /** `p || "N/A"` applied again to a displayed price: "N/A" is a non-empty string and stays. */
  function ShownPrice(p: Price): (r: Price)
    ensures p != Known(0.0) ==> r == p
    ensures p == Known(0.0) ==> r == NA
    ensures r != Known(0.0)
  {
    if p == Known(0.0) then NA else p
  }

  /** The body of one iteration of `getStockPrices`. */
  function QuoteOf(symbol: string, fetch: StockFetch): (q: StockQuote)
    ensures q.symbol == symbol
    ensures q.price == NA <==> fetch in {FetchFailed, Fetched(None), Fetched(Some(0.0))}
    ensures q.price.Known? ==> fetch == Fetched(Some(q.price.value))
  {
    match fetch
    case Fetched(p) => StockQuote(symbol, OrNA(p))
    case FetchFailed => StockQuote(symbol, NA)
  }

  /** What `getStockPrices` returns, defined symbol by symbol. */
  function StockQuotes(symbols: seq<string>, fetches: seq<StockFetch>): (r: seq<StockQuote>)
    requires |fetches| == |symbols|
    ensures |r| == |symbols|
    ensures forall i :: 0 <= i < |r| ==> r[i].symbol == symbols[i]
  {
    if symbols == [] then []
    else [QuoteOf(symbols[0], fetches[0])] + StockQuotes(symbols[1..], fetches[1..])
  }

  /** Every symbol gets exactly one quote, in input order, and its price depends on its
      own fetch only. */
  lemma {:induction false} StockQuotesPointwise(symbols: seq<string>, fetches: seq<StockFetch>)
    requires |fetches| == |symbols|
    ensures |StockQuotes(symbols, fetches)| == |symbols|
    ensures forall i :: 0 <= i < |symbols| ==> StockQuotes(symbols, fetches)[i] == QuoteOf(symbols[i], fetches[i])
  {
    if symbols != [] {
      StockQuotesPointwise(symbols[1..], fetches[1..]);
    }
  }

  /** `getStockPrices`: one fetch per symbol, each failure absorbed as "N/A" for that
      symbol alone, results pushed in order. */
  method GetStockPrices(symbols: seq<string>, fetches: seq<StockFetch>) returns (results: seq<StockQuote>)
    requires |fetches| == |symbols|
    ensures results == StockQuotes(symbols, fetches)
    ensures |results| == |symbols|
    ensures forall i :: 0 <= i < |symbols| ==> results[i].symbol == symbols[i]
    ensures forall i :: 0 <= i < |symbols| ==>
              (results[i].price == NA <==> fetches[i] in {FetchFailed, Fetched(None), Fetched(Some(0.0))})
    ensures forall i :: 0 <= i < |symbols| && results[i].price.Known? ==>
              fetches[i] == Fetched(Some(results[i].price.value))
  {
    results := [];
    var i := 0;
    while i < |symbols|
      invariant 0 <= i <= |symbols|
      invariant |results| == i
      invariant forall k :: 0 <= k < i ==> results[k] == QuoteOf(symbols[k], fetches[k])
    {
      var quote: StockQuote;
      match fetches[i] {
        case Fetched(p) => quote := StockQuote(symbols[i], OrNA(p));
        case FetchFailed => quote := StockQuote(symbols[i], NA);
      }
      results := results + [quote];
      i := i + 1;
    }
    StockQuotesPointwise(symbols, fetches);
  }

  /** `cryptoData[id]?.inr || "N/A"`. */
  function CryptoPrice(inr: map<string, real>, id: string): (r: Price)
    ensures r == NA <==> id !in inr || inr[id] == 0.0
    ensures r.Known? ==> id in inr && r.value == inr[id]
  {
    OrNA(if id in inr then Some(inr[id]) else None)
  }

  // ---------------------------------------------------------------------------
  // Building the plan

  /** `Math.floor(amount * share / count)`: one instrument's whole-rupee share. */
  function PerInstrument(amount: real, share: real, count: nat): (invest: int)
    requires count > 0
    ensures invest as real <= amount * share / count as real < invest as real + 1.0
  {
    (amount * share / count as real).Floor
  }

  /** `xs.slice(0, 3)`. */
  function TakeThree<T>(xs: seq<T>): (r: seq<T>)
    ensures |r| == if |xs| < 3 then |xs| else 3
    ensures r == xs[..|r|]
  {
    if |xs| <= 3 then xs else xs[..3]
  }

  /** The name a stock is shown under: the symbol with its first ".NS" removed. */
  function StockName(symbol: string): (r: string)
    ensures IndexFrom(symbol, ".NS", 0).None? ==> r == symbol
    ensures IndexFrom(symbol, ".NS", 0).Some? ==> |r| == |symbol| - 3
  {
    ReplaceFirst(symbol, ".NS", "")
  }

  function CryptoSuggestion(id: string, invest: int, inr: map<string, real>): Suggestion
  {
    Suggestion(Capitalize(id), Upper(id), invest, CryptoPrice(inr, id))
  }

  function StockSuggestion(quote: StockQuote, invest: int): Suggestion
  {
    Suggestion(StockName(quote.symbol), quote.symbol, invest, ShownPrice(quote.price))
  }

  /** `ids.slice(0, 3).map(...)`: one crypto row per shown coin id, all with the same amount. */
  function CryptoRows(ids: seq<string>, invest: int, inr: map<string, real>): seq<Suggestion>
  {
    var shown := TakeThree(ids);
    seq(|shown|, i requires 0 <= i < |shown| => CryptoSuggestion(shown[i], invest, inr))
  }

  lemma {:induction false} CryptoRowsInvest(ids: seq<string>, invest: int, inr: map<string, real>)
    requires |ids| <= 3
    ensures |CryptoRows(ids, invest, inr)| == |ids|
    ensures forall i :: 0 <= i < |ids| ==> CryptoRows(ids, invest, inr)[i].invest == invest
  {
  }

  /** `stockData.slice(0, 3).map(...)`: one stock row per shown quote, all with the same amount. */
  function StockRows(stockData: seq<StockQuote>, invest: int): seq<Suggestion>
  {
    var shown := TakeThree(stockData);
    seq(|shown|, i requires 0 <= i < |shown| => StockSuggestion(shown[i], invest))
  }

  /** The crypto half of the plan: the first three coin ids of the basket, each given the
      crypto sub-budget divided by the whole basket size. */
  function CryptoSuggestions(amount: real, t: Tier, inr: map<string, real>): (r: seq<Suggestion>)
    ensures |r| == |CryptoBasket(t)|
    ensures forall i :: 0 <= i < |r| ==>
              r[i].symbol == Upper(CryptoBasket(t)[i]) && r[i].invest == PerInstrument(amount, CryptoShare(t), |r|)
  {
    var ids := CryptoBasket(t);
    CryptoRows(ids, PerInstrument(amount, CryptoShare(t), |ids|), inr)
  }

  /** The stock half of the plan: the first three fetched quotes, each given the stock
      sub-budget divided by the basket size. */
  function StockSuggestions(amount: real, t: Tier, stockData: seq<StockQuote>): (r: seq<Suggestion>)
    ensures |r| == |TakeThree(stockData)|
    ensures forall i :: 0 <= i < |r| ==>
              && r[i].symbol == stockData[i].symbol
              && r[i].price == ShownPrice(stockData[i].price)
              && r[i].invest == PerInstrument(amount, StockShare(t), 3)
  {
    StockRows(stockData, PerInstrument(amount, StockShare(t), |StockBasket(t)|))
  }

  /** The part of `handleSuggest` after validation: an exception from the crypto fetch
      aborts the whole plan; otherwise both halves are built. */
  function Suggest(amount: real, t: Tier, crypto: CryptoFetch, stockData: seq<StockQuote>): (r: Result<InvestmentData>)
    ensures r.Err? <==> crypto.CryptoFailed?
    ensures r.Err? ==> r.message == FetchErrorMessage
    ensures r.Ok? ==> r.value == InvestmentData(StockSuggestions(amount, t, stockData), CryptoSuggestions(amount, t, crypto.inr))
  {
    match crypto
    case CryptoFailed => Err(FetchErrorMessage)
    case CryptoBody(inr) => Ok(InvestmentData(StockSuggestions(amount, t, stockData), CryptoSuggestions(amount, t, inr)))
  }

  /** The guard at the head of `handleSuggest`: `parsed` is `parseFloat(input)`, None for NaN. */
  function ValidateAmount(input: string, parsed: Option<real>): (r: Result<real>)
    ensures r.Ok? <==> input != [] && parsed.Some? && parsed.value > 0.0
    ensures r.Ok? ==> r.value == parsed.value
    ensures r.Err? ==> r.message == InvalidAmountMessage
  {
    if input == [] || parsed.None? || parsed.value <= 0.0 then Err(InvalidAmountMessage)
    else Ok(parsed.value)
  }

  // ---------------------------------------------------------------------------
  // Properties of the plan

  /** Sum of the `invest` fields. */
  function TotalInvested(s: seq<Suggestion>): int
  {
    if s == [] then 0 else s[0].invest + TotalInvested(s[1..])
  }

  lemma {:induction false} TotalOfEqualShares(s: seq<Suggestion>, v: int)
    requires forall i :: 0 <= i < |s| ==> s[i].invest == v
    ensures TotalInvested(s) == |s| * v
  {
    if s != [] {
      TotalOfEqualShares(s[1..], v);
    }
  }

  /** The stock half keeps the basket order: entry `i` is basket symbol `i`, carries that
      symbol's own quote, and invests the same floored share as every other entry. */
  lemma StockPlanShape(amount: real, t: Tier, fetches: seq<StockFetch>)
    requires |fetches| == 3
    ensures var s := StockSuggestions(amount, t, StockQuotes(StockBasket(t), fetches));
            && |s| == 3
            && forall i :: 0 <= i < 3 ==>
                 && s[i].symbol == StockBasket(t)[i]
                 && s[i].name == StockName(StockBasket(t)[i])
                 && s[i].invest == PerInstrument(amount, StockShare(t), 3)
                 && s[i].price == QuoteOf(StockBasket(t)[i], fetches[i]).price
  {
    StockQuotesPointwise(StockBasket(t), fetches);
  }

  /** The crypto half covers the whole coin basket in order, names each coin by its
      capitalised id and its upper-cased id, and invests the same floored share in each. */
  lemma CryptoPlanShape(amount: real, t: Tier, inr: map<string, real>)
    ensures var s, coins := CryptoSuggestions(amount, t, inr), CryptoBasket(t);
            && |s| == |coins|
            && forall i :: 0 <= i < |coins| ==>
                 && s[i].name == Capitalize(coins[i])
                 && s[i].symbol == Upper(coins[i])
                 && s[i].invest == PerInstrument(amount, CryptoShare(t), |coins|)
                 && s[i].price == CryptoPrice(inr, coins[i])
  {
    var coins := CryptoBasket(t);
    assert TakeThree(coins) == coins;
  }

  /** The stock sub-budget is never exceeded, and falls short by less than one rupee per
      stock of the basket. */
  lemma StockBudgetBound(amount: real, t: Tier, fetches: seq<StockFetch>)
    requires |fetches| == 3
    ensures var invested := TotalInvested(StockSuggestions(amount, t, StockQuotes(StockBasket(t), fetches))) as real;
            invested <= amount * StockShare(t) < invested + 3.0
  {
    var s := StockSuggestions(amount, t, StockQuotes(StockBasket(t), fetches));
    StockPlanShape(amount, t, fetches);
    var each := PerInstrument(amount, StockShare(t), 3);
    TotalOfEqualShares(s, each);
    match t
    case Low => assert each as real <= amount * 0.7 / 3.0 < each as real + 1.0;
    case Medium => assert each as real <= amount * 0.6 / 3.0 < each as real + 1.0;
    case High => assert each as real <= amount * 0.5 / 3.0 < each as real + 1.0;
  }

  /** The crypto sub-budget is never exceeded, and falls short by less than one rupee per
      coin of the basket. */
  lemma CryptoBudgetBound(amount: real, t: Tier, inr: map<string, real>)
    ensures var invested := TotalInvested(CryptoSuggestions(amount, t, inr)) as real;
            invested <= amount * CryptoShare(t) < invested + |CryptoBasket(t)| as real
  {
    var s := CryptoSuggestions(amount, t, inr);
    var n := |CryptoBasket(t)|;
    var each := PerInstrument(amount, CryptoShare(t), n);
    CryptoRowsInvest(CryptoBasket(t), each, inr);
    TotalOfEqualShares(s, each);
    match t
    case Low => assert each as real <= amount * 0.3 / 2.0 < each as real + 1.0;
    case Medium => assert each as real <= amount * 0.4 / 3.0 < each as real + 1.0;
    case High => assert each as real <= amount * 0.5 / 3.0 < each as real + 1.0;
  }

  /** A listed company is shown under its bare code. */
  lemma NSEName(code: string)
    requires '.' !in code
    ensures StockName(NSE(code)) == code
  {
    RemoveSuffix(code, ".NS");
  }

  /** Every stock of every basket is shown under its bare company code: the name carries
      no '.', and putting the exchange suffix back gives the symbol. */
  lemma StockNamesDropExchangeSuffix(t: Tier, i: nat)
    requires i < 3
    ensures var name := StockName(StockBasket(t)[i]);
            '.' !in name && NSE(name) == StockBasket(t)[i]
  {
    var code :=
      match t
      case Low => ["RELIANCE", "HDFCBANK", "TCS"][i]
      case Medium => ["INFY", "ICICIBANK", "TCS"][i]
      case High => ["ADANIENT", "TATAMOTORS", "ZOMATO"][i];
    assert StockBasket(t)[i] == NSE(code);
    assert '.' !in code;
    NSEName(code);
  }

  /** The per-instrument shares of 10000 rupees at medium risk. */
  lemma MediumShares()
    ensures PerInstrument(10000.0, StockShare(Medium), 3) == 2000
    ensures PerInstrument(10000.0, CryptoShare(Medium), 3) == 1333
  {
    assert StockShare(Medium) == 0.6 && CryptoShare(Medium) == 0.4;
  }

  /** 10000 rupees at medium risk: three stocks at 2000 and three coins at 1333 each
      (one rupee of the crypto budget is not invested). */
  lemma MediumTenThousand(inr: map<string, real>, fetches: seq<StockFetch>)
    requires |fetches| == 3
    ensures var d := Suggest(10000.0, Medium, CryptoBody(inr), StockQuotes(StockBasket(Medium), fetches)).value;
            && |d.stockSuggestions| == 3 && |d.cryptoSuggestions| == 3
            && (forall i :: 0 <= i < 3 ==> d.stockSuggestions[i].invest == 2000)
            && (forall i :: 0 <= i < 3 ==> d.cryptoSuggestions[i].invest == 1333)
            && TotalInvested(d.cryptoSuggestions) == 3999
  {
    var stocks := StockSuggestions(10000.0, Medium, StockQuotes(StockBasket(Medium), fetches));
    var coins := CryptoSuggestions(10000.0, Medium, inr);
    assert Suggest(10000.0, Medium, CryptoBody(inr), StockQuotes(StockBasket(Medium), fetches)).value
        == InvestmentData(stocks, coins);
    assert |coins| == 3;
    MediumShares();
    TotalOfEqualShares(coins, 1333);
  }

  // ---------------------------------------------------------------------------
  // The component's state

  /** The advisor component's state fields `error`, `loading` and `investmentData`. */
  class Advisor {
    var error: Option<string>
    var loading: bool
    var investmentData: Option<InvestmentData>

    constructor ()
      ensures error == None && !loading && investmentData == None
    {
      error := None;
      loading := false;
      investmentData := None;
    }

    /** `handleSuggest`. An invalid amount only sets the error: the previous plan stays.
        Otherwise the error and the old plan are cleared, prices are fetched, and the
        request ends with a new plan or with the fetch error and no plan at all. */
    method HandleSuggest(input: string, parsed: Option<real>, t: Tier, crypto: CryptoFetch, stockFetches: seq<StockFetch>)
      requires |stockFetches| == |StockBasket(t)|
      modifies this
      ensures ValidateAmount(input, parsed).Err? ==>
                && error == Some(InvalidAmountMessage)
                && loading == old(loading) && investmentData == old(investmentData)
      ensures ValidateAmount(input, parsed).Ok? ==>
                var amount := ValidateAmount(input, parsed).value;
                match Suggest(amount, t, crypto, StockQuotes(StockBasket(t), stockFetches))
                case Ok(d) => error == None && !loading && investmentData == Some(d)
                case Err(m) => error == Some(m) && !loading && investmentData == None
    {
      var checked := ValidateAmount(input, parsed);
      if checked.Err? {
        error := Some(checked.message);
        return;
      }
      var amount := checked.value;
      error := None;
      loading := true;
      investmentData := None;
      var stockSymbols := StockBasket(t);
      var stockData := GetStockPrices(stockSymbols, stockFetches);
      var plan := Suggest(amount, t, crypto, stockData);
      match plan {
        case Ok(d) => investmentData := Some(d);
        case Err(m) => error := Some(m);
      }
      loading := false;
    }
  }
}
