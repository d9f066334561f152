/** Portfolio tracking: named portfolios, the holdings recorded in them, a price map
    refreshed by a mock feed, and the valuation of the selected portfolio's holdings.
    Storage calls are parameters that say whether the write succeeded (and what the
    database assigned); state changes only on success, as in the component. */
module PortfolioTracking {
  import opened Common
  import opened Text

  datatype Portfolio = Portfolio(id: string, name: string, description: Option<string>)

  /** One recorded holding (a row of the `investments` table). */
  datatype Investment = Investment(
    id: string, portfolioId: string, symbol: string, name: string, assetType: string,
    quantity: real, purchasePrice: real, purchaseDate: string, notes: Option<string>)

  /** The `prices` state: a price per symbol. */
  type Prices = map<string, real>

  /** What an insert returned: the generated id and creation date, or an error. */
  datatype Stored = Stored(id: string, createdOn: string) | StoreFailed

  /** The add-holding form, with `parseFloat` of the two number fields already applied
      (None for NaN). */
  datatype InvestmentForm = InvestmentForm(
    symbol: string, name: string, assetType: string, quantity: Option<real>, purchasePrice: Option<real>)

  /** JavaScript truthiness of `selectedPortfolio`, a string or null. */
  predicate IsSelected(selected: Option<string>)
  {
    selected.Some? && selected.value != ""
  }

  // ---------------------------------------------------------------------------
  // Valuation

  /** `prices[symbol] || purchase_price`: a missing or zero quote falls back to the
      purchase price. */
  function CurrentPrice(prices: Prices, inv: Investment): (p: real)
    ensures p == inv.purchasePrice || (inv.symbol in prices && p == prices[inv.symbol])
    ensures p == 0.0 ==> inv.purchasePrice == 0.0
    ensures inv.symbol in prices && prices[inv.symbol] != 0.0 ==> p == prices[inv.symbol]
  {
    if inv.symbol in prices && prices[inv.symbol] != 0.0 then prices[inv.symbol] else inv.purchasePrice
  }

  /** `quantity * currentPrice`: what a holding is worth at the price the list shows. */
  function MarketValue(prices: Prices, inv: Investment): (r: real)
    ensures CurrentPrice(prices, inv) == inv.purchasePrice ==> r == CostBasis(inv)
    ensures inv.quantity == 0.0 ==> r == 0.0
  {
    inv.quantity * CurrentPrice(prices, inv)
  }

  /** `quantity * purchasePrice`: what a holding cost. */
  function CostBasis(inv: Investment): (c: real)
    ensures inv.quantity == 0.0 || inv.purchasePrice == 0.0 ==> c == 0.0
  {
    inv.quantity * inv.purchasePrice
  }

  /** `cost > 0 ? (gain / cost) * 100 : 0`. */
  function GainPercent(gain: real, cost: real): (pct: real)
    ensures cost <= 0.0 ==> pct == 0.0
    ensures cost > 0.0 ==> pct / 100.0 == gain / cost
    ensures cost > 0.0 ==> (pct > 0.0 <==> gain > 0.0) && (pct == 0.0 <==> gain == 0.0)
  {
    if cost > 0.0 then (gain / cost) * 100.0 else 0.0
  }

  /** One line of the holdings list. */
  datatype HoldingLine = HoldingLine(currentPrice: real, value: real, cost: real, gain: real, gainPercent: real)

  function LineOf(prices: Prices, inv: Investment): (line: HoldingLine)
    ensures line.currentPrice == CurrentPrice(prices, inv)
    ensures line.value == inv.quantity * line.currentPrice && line.cost == CostBasis(inv)
    ensures line.gain == line.value - line.cost
    ensures line.gainPercent == GainPercent(line.gain, line.cost)
  {
    var value := MarketValue(prices, inv);
    var cost := CostBasis(inv);
    HoldingLine(CurrentPrice(prices, inv), value, cost, value - cost, GainPercent(value - cost, cost))
  }

  /** A holding without a usable quote is valued at its purchase price: no gain, no loss. */
  lemma UnquotedHoldingHasNoGain(prices: Prices, inv: Investment)
    requires inv.symbol !in prices || prices[inv.symbol] == 0.0
    ensures LineOf(prices, inv).currentPrice == inv.purchasePrice
    ensures LineOf(prices, inv).value == LineOf(prices, inv).cost
    ensures LineOf(prices, inv).gain == 0.0 && LineOf(prices, inv).gainPercent == 0.0
  {
  }

  /** `s.reduce((sum, inv) => sum + f(inv), 0)`, a left fold: 0 for no holdings, the
      holding's own term for one. */
  function SumOf(s: seq<Investment>, f: Investment -> real): (r: real)
    ensures s == [] ==> r == 0.0
    ensures |s| == 1 ==> r == f(s[0])
  {
    if s == [] then 0.0 else SumOf(s[..|s| - 1], f) + f(s[|s| - 1])
  }

  /** A sum of terms none of which is negative is not negative. */
  lemma {:induction false} SumOfNonNegative(s: seq<Investment>, f: Investment -> real)
    requires forall i :: 0 <= i < |s| ==> f(s[i]) >= 0.0
    ensures SumOf(s, f) >= 0.0
  {
    if s != [] {
      SumOfNonNegative(s[..|s| - 1], f);
    }
  }

  lemma {:induction false} SumOfAppend(a: seq<Investment>, b: seq<Investment>, f: Investment -> real)
    ensures SumOf(a + b, f) == SumOf(a, f) + SumOf(b, f)
  {
    if b != [] {
      SumOfAppend(a, b[..|b| - 1], f);
      assert (a + b)[..|a + b| - 1] == a + b[..|b| - 1];
    } else {
      assert a + b == a;
    }
  }

  /** The sum does not depend on the order of the holdings. */
  lemma {:induction false} SumOfPermutation(a: seq<Investment>, b: seq<Investment>, f: Investment -> real)
    requires multiset(a) == multiset(b)
    ensures SumOf(a, f) == SumOf(b, f)
    decreases |a|
  {
    if a != [] {
      var x := a[|a| - 1];
      assert x in multiset(b);
      var j :| 0 <= j < |b| && b[j] == x;
      var rest := b[..j] + b[j + 1..];
      RemoveOne(b, j);
      assert a == a[..|a| - 1] + [x];
      assert multiset(a[..|a| - 1]) == multiset(a) - multiset{x};
      SumOfPermutation(a[..|a| - 1], rest, f);
      SumOfRemove(b, j, f);
    }
  }

  /** Taking out the element at `j` takes one copy of it out of the multiset. */
  lemma RemoveOne(b: seq<Investment>, j: nat)
    requires j < |b|
    ensures multiset(b[..j] + b[j + 1..]) == multiset(b) - multiset{b[j]}
  {
    assert b == b[..j] + [b[j]] + b[j + 1..];
  }

  /** The sum is the sum without the element at `j`, plus that element's term. */
  lemma SumOfRemove(b: seq<Investment>, j: nat, f: Investment -> real)
    requires j < |b|
    ensures SumOf(b, f) == SumOf(b[..j] + b[j + 1..], f) + f(b[j])
  {
    var front, back := b[..j], b[j + 1..];
    SplitAt(b, j);
    SumOfAppend(front + [b[j]], back, f);
    SumOfSnoc(front, b[j], f);
    SumOfAppend(front, back, f);
  }

  lemma SplitAt(b: seq<Investment>, j: nat)
    requires j < |b|
    ensures b == (b[..j] + [b[j]]) + b[j + 1..]
  {
  }

  /** Appending one holding adds its term. */
  lemma SumOfSnoc(a: seq<Investment>, x: Investment, f: Investment -> real)
    ensures SumOf(a + [x], f) == SumOf(a, f) + f(x)
  {
    assert (a + [x])[..|a|] == a;
  }

  /** The term summed into `totalValue`. */
  function ValueTerm(prices: Prices): Investment -> real
  {
    (inv: Investment) => MarketValue(prices, inv)
  }

  /** The term summed into `totalCost`. */
  function CostTerm(): Investment -> real
  {
    (inv: Investment) => CostBasis(inv)
  }

  function HeldIn(selected: Option<string>): Investment -> bool
  {
    (inv: Investment) => selected == Some(inv.portfolioId)
  }

  /** `investments.filter(inv => inv.portfolio_id === selectedPortfolio)`. */
  function PortfolioInvestments(investments: seq<Investment>, selected: Option<string>): (held: seq<Investment>)
    ensures |held| <= |investments|
    ensures forall inv :: inv in held ==> inv in investments && selected == Some(inv.portfolioId)
  {
    Filter(investments, HeldIn(selected))
  }

  /** The four summary figures of the selected portfolio. */
  datatype Valuation = Valuation(totalValue: real, totalCost: real, totalGain: real, totalGainPercent: real)

  const ZeroValuation := Valuation(0.0, 0.0, 0.0, 0.0)

  function Valuate(investments: seq<Investment>, selected: Option<string>, prices: Prices): (v: Valuation)
    ensures v.totalGain == v.totalValue - v.totalCost
    ensures v.totalGainPercent == GainPercent(v.totalGain, v.totalCost)
    ensures v.totalCost <= 0.0 ==> v.totalGainPercent == 0.0
  {
    var held := PortfolioInvestments(investments, selected);
    var value := SumOf(held, ValueTerm(prices));
    var cost := SumOf(held, CostTerm());
    Valuation(value, cost, value - cost, GainPercent(value - cost, cost))
  }

  /** With nothing selected, no holding matches and every figure is zero. */
  lemma NoSelectionValuesZero(investments: seq<Investment>, prices: Prices)
    ensures Valuate(investments, None, prices) == ZeroValuation
  {
    FilterKeepNone(investments, HeldIn(None));
  }

  /** With a selection that no holding belongs to, every figure is zero too. */
  lemma NoMatchingHoldingsValuesZero(investments: seq<Investment>, selected: Option<string>, prices: Prices)
    requires forall inv :: inv in investments ==> selected != Some(inv.portfolioId)
    ensures Valuate(investments, selected, prices) == ZeroValuation
  {
    FilterKeepNone(investments, HeldIn(selected));
  }

  /** Reordering the holdings changes no figure. */
  lemma ValuationIgnoresOrder(a: seq<Investment>, b: seq<Investment>, selected: Option<string>, prices: Prices)
    requires multiset(a) == multiset(b)
    ensures Valuate(a, selected, prices) == Valuate(b, selected, prices)
  {
    var heldA, heldB := PortfolioInvestments(a, selected), PortfolioInvestments(b, selected);
    HeldIsPermuted(a, b, selected);
    SumOfPermutation(heldA, heldB, ValueTerm(prices));
    SumOfPermutation(heldA, heldB, CostTerm());
  }

  /** Reordering the holdings reorders the selected portfolio's holdings. */
  lemma HeldIsPermuted(a: seq<Investment>, b: seq<Investment>, selected: Option<string>)
    requires multiset(a) == multiset(b)
    ensures multiset(PortfolioInvestments(a, selected)) == multiset(PortfolioInvestments(b, selected))
  {
    var keep := HeldIn(selected);
    forall x
      ensures multiset(Filter(a, keep))[x] == multiset(Filter(b, keep))[x]
    {
      FilterCount(a, keep, x);
      FilterCount(b, keep, x);
    }
  }

  /** Value and cost add up over a split of the holdings, holding by holding: two holdings
      of one symbol are counted separately, never merged. */
  lemma ValuationAdds(a: seq<Investment>, b: seq<Investment>, selected: Option<string>, prices: Prices)
    ensures Valuate(a + b, selected, prices).totalValue
         == Valuate(a, selected, prices).totalValue + Valuate(b, selected, prices).totalValue
    ensures Valuate(a + b, selected, prices).totalCost
         == Valuate(a, selected, prices).totalCost + Valuate(b, selected, prices).totalCost
  {
    var keep := HeldIn(selected);
    FilterAppend(a, b, keep);
    SumOfAppend(Filter(a, keep), Filter(b, keep), ValueTerm(prices));
    SumOfAppend(Filter(a, keep), Filter(b, keep), CostTerm());
  }

  /** A holding of the selected portfolio adds its own value and cost, whatever other
      holdings of the same symbol are already there. */
  lemma HoldingAddsItsOwnValue(inv: Investment, others: seq<Investment>, prices: Prices)
    ensures var sel := Some(inv.portfolioId);
            && Valuate([inv] + others, sel, prices).totalValue
               == inv.quantity * CurrentPrice(prices, inv) + Valuate(others, sel, prices).totalValue
            && Valuate([inv] + others, sel, prices).totalCost
               == inv.quantity * inv.purchasePrice + Valuate(others, sel, prices).totalCost
  {
    var sel := Some(inv.portfolioId);
    ValuationAdds([inv], others, sel, prices);
    assert PortfolioInvestments([inv], sel) == [inv];
    assert [inv][..0] == [];
    assert SumOf([inv], ValueTerm(prices)) == MarketValue(prices, inv);
    assert SumOf([inv], CostTerm()) == CostBasis(inv);
  }

  /** A holding of another portfolio changes nothing, wherever it sits in the list. */
  lemma ValuationIgnoresOtherPortfolios(a: seq<Investment>, inv: Investment, b: seq<Investment>, selected: Option<string>, prices: Prices)
    requires selected != Some(inv.portfolioId)
    ensures Valuate(a + [inv] + b, selected, prices) == Valuate(a + b, selected, prices)
  {
    var keep := HeldIn(selected);
    FilterAppend(a + [inv], b, keep);
    FilterAppend(a, [inv], keep);
    FilterAppend(a, b, keep);
    assert Filter([inv], keep) == [];
    assert Filter(a + [inv], keep) == Filter(a, keep);
  }

  // ---------------------------------------------------------------------------
  // Mock price refresh

  /** `Math.random() * 0.2 - 0.1` for one draw `random` of `Math.random()`. */
  function Volatility(random: real): (v: real)
    ensures 0.0 <= random < 1.0 ==> -0.1 <= v < 0.1
    ensures random == 0.5 ==> v == 0.0
  {
    random * 0.2 - 0.1
  }

  /** `investments.find(inv => inv.symbol === symbol)`, as the index of the holding found. */
  function FindBySymbol(investments: seq<Investment>, symbol: string, from: nat := 0): (r: Option<nat>)
    requires from <= |investments|
    ensures r.Some? ==> from <= r.value < |investments| && investments[r.value].symbol == symbol
    ensures r.Some? ==> forall j :: from <= j < r.value ==> investments[j].symbol != symbol
    ensures r.None? ==> forall j :: from <= j < |investments| ==> investments[j].symbol != symbol
    decreases |investments| - from
  {
    if from == |investments| then None
    else if investments[from].symbol == symbol then Some(from)
    else FindBySymbol(investments, symbol, from + 1)
  }

  /** The first holding with the symbol of holding `k`: the one whose purchase price the
      mock feed perturbs for that symbol. */
  function FirstOfSymbol(investments: seq<Investment>, k: nat): (inv: Investment)
    requires k < |investments|
    ensures inv.symbol == investments[k].symbol
    ensures exists j :: 0 <= j <= k && inv == investments[j] && FirstHeld(investments, j)
  {
    var j := FindBySymbol(investments, investments[k].symbol).value;
    assert j <= k && FirstHeld(investments, j);
    investments[j]
  }

  /** No holding before holding `j` has its symbol. */
  predicate FirstHeld(investments: seq<Investment>, j: nat)
    requires j < |investments|
  {
    forall i :: 0 <= i < j ==> investments[i].symbol != investments[j].symbol
  }

  /** The search for the symbol of a holding always finds one. */
  lemma HeldSymbolIsFound(investments: seq<Investment>, k: nat)
    requires k < |investments|
    ensures FindBySymbol(investments, investments[k].symbol).Some?
  {
  }

  /** The price the mock feed writes in iteration `k`: the purchase price of the first
      holding of that symbol, moved by at most ten per cent. */
  function MockPrice(investments: seq<Investment>, randoms: seq<real>, k: nat): (r: real)
    requires k < |investments| && |randoms| == |investments|
    ensures var base := FirstOfSymbol(investments, k).purchasePrice;
            0.0 <= randoms[k] < 1.0 && base >= 0.0 ==> 0.9 * base <= r <= 1.1 * base
    ensures var base := FirstOfSymbol(investments, k).purchasePrice;
            0.0 <= randoms[k] < 1.0 && base < 0.0 ==> 1.1 * base < r <= 0.9 * base
  {
    var base := FirstOfSymbol(investments, k).purchasePrice;
    if 0.0 <= randoms[k] < 1.0 then MockPriceWithinTenPercent(base, randoms[k]); Perturbed(base, Volatility(randoms[k]))
    else Perturbed(base, Volatility(randoms[k]))
  }

  /** `basePrice * (1 + volatility)`. */
  function Perturbed(basePrice: real, volatility: real): (r: real)
    ensures volatility == 0.0 ==> r == basePrice
    ensures basePrice == 0.0 ==> r == 0.0
  {
    basePrice * (1.0 + volatility)
  }

  /** `investments.map(inv => inv.symbol)`. */
  function Tickers(investments: seq<Investment>): (r: seq<string>)
    ensures |r| == |investments|
    ensures forall k :: 0 <= k < |r| ==> r[k] == investments[k].symbol
  {
    seq(|investments|, k requires 0 <= k < |investments| => investments[k].symbol)
  }

  /** The price written in each iteration, in order. */
  function Draws(investments: seq<Investment>, randoms: seq<real>): (r: seq<real>)
    requires |randoms| == |investments|
    ensures |r| == |investments|
    ensures forall k :: 0 <= k < |r| ==> r[k] == MockPrice(investments, randoms, k)
  {
    seq(|investments|, k requires 0 <= k < |investments| => MockPrice(investments, randoms, k))
  }

  /** The map after writing `values[k]` under `keys[k]` for k = 0 .. n - 1 in turn. */
  function Written(keys: seq<string>, values: seq<real>, n: nat): map<string, real>
    requires n <= |keys| == |values|
  {
    if n == 0 then map[] else Written(keys, values, n - 1)[keys[n - 1] := values[n - 1]]
  }

  /** The keys among the first `n`. */
  function KeysBefore(keys: seq<string>, n: nat): set<string>
    requires n <= |keys|
  {
    if n == 0 then {} else KeysBefore(keys, n - 1) + {keys[n - 1]}
  }

  /** A key is among the first `n` exactly when one of them is it. */
  lemma {:induction false} KeysBeforeMembers(keys: seq<string>, n: nat, key: string)
    requires n <= |keys|
    ensures key in KeysBefore(keys, n) <==> exists k :: 0 <= k < n && keys[k] == key
  {
    if n > 0 {
      KeysBeforeMembers(keys, n - 1, key);
    }
  }

  /** Exactly the keys written have an entry. */
  lemma {:induction false} WrittenKeys(keys: seq<string>, values: seq<real>, n: nat)
    requires n <= |keys| == |values|
    ensures Written(keys, values, n).Keys == KeysBefore(keys, n)
  {
    if n > 0 {
      WrittenKeys(keys, values, n - 1);
    }
  }

  /** No later key among the first `n` repeats key `k`. */
  predicate LastOccurrence(keys: seq<string>, k: nat, n: nat)
    requires k < n <= |keys|
  {
    forall j :: k < j < n ==> keys[j] != keys[k]
  }

  /** The last write to a key wins. */
  lemma {:induction false} LastWriteWins(keys: seq<string>, values: seq<real>, n: nat, k: nat)
    requires k < n <= |keys| == |values|
    requires LastOccurrence(keys, k, n)
    ensures keys[k] in Written(keys, values, n) && Written(keys, values, n)[keys[k]] == values[k]
  {
    if k < n - 1 {
      assert keys[n - 1] != keys[k];
      assert LastOccurrence(keys, k, n - 1);
      LastWriteWins(keys, values, n - 1, k);
    }
  }

  /** The symbols of all holdings. */
  function Symbols(investments: seq<Investment>): set<string>
  {
    KeysBefore(Tickers(investments), |investments|)
  }

  /** Iteration `k` of the loop writes the k-th draw under the k-th symbol. */
  lemma {:induction false} DrawAt(investments: seq<Investment>, randoms: seq<real>, k: nat, mock: Prices, basePrice: real, volatility: real)
    requires k < |investments| && |randoms| == |investments|
    requires mock == Written(Tickers(investments), Draws(investments, randoms), k)
    requires FindBySymbol(investments, investments[k].symbol).Some?
    requires basePrice == investments[FindBySymbol(investments, investments[k].symbol).value].purchasePrice
    requires volatility == randoms[k] * 0.2 - 0.1
    ensures mock[investments[k].symbol := Perturbed(basePrice, volatility)]
            == Written(Tickers(investments), Draws(investments, randoms), k + 1)
  {
    assert Tickers(investments)[k] == investments[k].symbol;
    assert Draws(investments, randoms)[k] == Perturbed(basePrice, volatility);
  }

  /** `fetchPrices`: for each holding in turn, a fresh random draw perturbs the purchase
      price of the first holding with that symbol. Every symbol gets a price; a repeated
      symbol keeps the draw of its last occurrence. */
  method FetchPrices(investments: seq<Investment>, randoms: seq<real>) returns (mock: Prices)
    requires |randoms| == |investments|
    ensures mock == Written(Tickers(investments), Draws(investments, randoms), |investments|)
    ensures mock.Keys == Symbols(investments)
    ensures forall k :: 0 <= k < |investments| && LastOccurrence(Tickers(investments), k, |investments|) ==>
              investments[k].symbol in mock && mock[investments[k].symbol] == MockPrice(investments, randoms, k)
  {
    ghost var keys, values := Tickers(investments), Draws(investments, randoms);
    mock := map[];
    var i := 0;
    while i < |investments|
      invariant 0 <= i <= |investments|
      invariant mock == Written(keys, values, i)
    {
      var symbol := investments[i].symbol;
      var found := FindBySymbol(investments, symbol);
      HeldSymbolIsFound(investments, i);
      if found.Some? {
        var basePrice := investments[found.value].purchasePrice;
        var volatility := randoms[i] * 0.2 - 0.1;
        DrawAt(investments, randoms, i, mock, basePrice, volatility);
        mock := mock[symbol := Perturbed(basePrice, volatility)];
      }
      i := i + 1;
    }
    AllWritten(investments, randoms, mock);
  }

  /** What the finished loop has written: an entry per symbol, the last draw for each. */
  lemma {:induction false} AllWritten(investments: seq<Investment>, randoms: seq<real>, mock: Prices)
    requires |randoms| == |investments|
    requires mock == Written(Tickers(investments), Draws(investments, randoms), |investments|)
    ensures mock.Keys == Symbols(investments)
    ensures forall k :: 0 <= k < |investments| && LastOccurrence(Tickers(investments), k, |investments|) ==>
              investments[k].symbol in mock && mock[investments[k].symbol] == MockPrice(investments, randoms, k)
  {
    var keys, values := Tickers(investments), Draws(investments, randoms);
    WrittenKeys(keys, values, |investments|);
    forall k | 0 <= k < |investments| && LastOccurrence(keys, k, |investments|)
      ensures investments[k].symbol in mock && mock[investments[k].symbol] == MockPrice(investments, randoms, k)
    {
      LastWriteWins(keys, values, |investments|, k);
    }
  }

  /** With `Math.random()` in [0, 1), a mock price stays within 10% of the purchase price
      it perturbs, whatever the sign of that price. */
  lemma MockPriceWithinTenPercent(base: real, random: real)
    requires 0.0 <= random < 1.0
    ensures base >= 0.0 ==> 0.9 * base <= Perturbed(base, Volatility(random)) <= 1.1 * base
    ensures base > 0.0 ==> Perturbed(base, Volatility(random)) < 1.1 * base
    ensures base < 0.0 ==> 1.1 * base < Perturbed(base, Volatility(random)) <= 0.9 * base
  {
    var factor := 1.0 + Volatility(random);
    ScaledWithinTenPercent(base, factor, Perturbed(base, Volatility(random)));
  }

  /** Scaling by a factor in [0.9, 1.1) moves a number by less than 10% of it. */
  lemma ScaledWithinTenPercent(base: real, factor: real, scaled: real)
    requires 0.9 <= factor < 1.1 && scaled == base * factor
    ensures base >= 0.0 ==> 0.9 * base <= scaled <= 1.1 * base
    ensures base > 0.0 ==> scaled < 1.1 * base
    ensures base < 0.0 ==> 1.1 * base < scaled <= 0.9 * base
  {
    if base >= 0.0 {
      ScaleUp(base, 0.9, factor);
      assert 0.9 * base <= scaled;
      ScaleUp(base, factor, 1.1);
      assert scaled <= 1.1 * base;
      if base > 0.0 {
        ScaleUpStrict(base, factor, 1.1);
        assert scaled < 1.1 * base;
      }
    } else {
      ScaleDown(base, 0.9, factor);
      assert scaled <= 0.9 * base;
      ScaleDownStrict(base, factor, 1.1);
      assert 1.1 * base < scaled;
    }
  }

  lemma ScaleUp(a: real, x: real, y: real)
    requires a >= 0.0 && x <= y
    ensures a * x <= a * y
  {
  }

  lemma ScaleUpStrict(a: real, x: real, y: real)
    requires a > 0.0 && x < y
    ensures a * x < a * y
  {
  }

  lemma ScaleDown(a: real, x: real, y: real)
    requires a < 0.0 && x <= y
    ensures a * y <= a * x
  {
  }

  lemma ScaleDownStrict(a: real, x: real, y: real)
    requires a < 0.0 && x < y
    ensures a * y < a * x
  {
  }

  // ---------------------------------------------------------------------------
  // List updates

  /** `portfolios.filter(p => p.id !== id)`. */
  function WithoutPortfolio(portfolios: seq<Portfolio>, id: string): (r: seq<Portfolio>)
    ensures |r| <= |portfolios|
    ensures forall p :: p in r ==> p in portfolios && p.id != id
  {
    Filter(portfolios, (p: Portfolio) => p.id != id)
  }

  /** `investments.filter(inv => inv.id !== id)`. */
  function WithoutInvestment(investments: seq<Investment>, id: string): (r: seq<Investment>)
    ensures |r| <= |investments|
    ensures forall inv :: inv in r ==> inv in investments && inv.id != id
  {
    Filter(investments, (inv: Investment) => inv.id != id)
  }

  /** Deleting removes exactly the entries with that id and keeps every other one, as
      often as it occurred. */
  lemma DeleteInvestmentRemovesExactlyId(investments: seq<Investment>, id: string, inv: Investment)
    ensures inv in WithoutInvestment(investments, id) <==> inv in investments && inv.id != id
    ensures inv.id != id ==> multiset(WithoutInvestment(investments, id))[inv] == multiset(investments)[inv]
  {
    FilterCount(investments, (x: Investment) => x.id != id, inv);
  }

  lemma DeletePortfolioRemovesExactlyId(portfolios: seq<Portfolio>, id: string, p: Portfolio)
    ensures p in WithoutPortfolio(portfolios, id) <==> p in portfolios && p.id != id
    ensures p.id != id ==> multiset(WithoutPortfolio(portfolios, id))[p] == multiset(portfolios)[p]
  {
    FilterCount(portfolios, (x: Portfolio) => x.id != id, p);
  }

  /** Deleting keeps the remaining entries in their order: it acts on each part of a
      split of the list separately. */
  lemma DeleteInvestmentKeepsOrder(front: seq<Investment>, back: seq<Investment>, id: string)
    ensures WithoutInvestment(front + back, id) == WithoutInvestment(front, id) + WithoutInvestment(back, id)
  {
    FilterAppend(front, back, (x: Investment) => x.id != id);
  }

  lemma DeletePortfolioKeepsOrder(front: seq<Portfolio>, back: seq<Portfolio>, id: string)
    ensures WithoutPortfolio(front + back, id) == WithoutPortfolio(front, id) + WithoutPortfolio(back, id)
  {
    FilterAppend(front, back, (x: Portfolio) => x.id != id);
  }

  /** `parseFloat(text) || 0`. */
  function OrZero(parsed: Option<real>): (r: real)
    ensures r == 0.0 <==> parsed == None || parsed == Some(0.0)
    ensures parsed.Some? ==> r == parsed.value
  {
    if parsed.Some? then parsed.value else 0.0
  }

  /** The row `addInvestment` inserts, as the database returns it. */
  function NewHolding(portfolioId: string, form: InvestmentForm, id: string, createdOn: string): (inv: Investment)
    ensures inv.portfolioId == portfolioId && inv.id == id
    ensures inv.symbol == Upper(form.symbol)
    ensures |inv.symbol| == |form.symbol| && forall i :: 0 <= i < |inv.symbol| ==> !IsLowerAscii(inv.symbol[i])
    ensures inv.name == form.name && inv.assetType == form.assetType
    ensures inv.purchaseDate == createdOn && inv.notes == None
    ensures inv.quantity == OrZero(form.quantity) && inv.purchasePrice == OrZero(form.purchasePrice)
  {
    Investment(id, portfolioId, Upper(form.symbol), form.name, form.assetType,
               OrZero(form.quantity), OrZero(form.purchasePrice), createdOn, None)
  }

  // ---------------------------------------------------------------------------
  // Selection after deleting a portfolio

  /** `portfolios[0]?.id || null`. */
  function FirstIdOrNull(portfolios: seq<Portfolio>): (r: Option<string>)
    ensures r.Some? <==> |portfolios| > 0 && portfolios[0].id != ""
    ensures r.Some? ==> r.value == portfolios[0].id
  {
    if |portfolios| > 0 && portfolios[0].id != "" then Some(portfolios[0].id) else None
  }

  /** The selection after deleting portfolio `id` as the component computes it: from the
      list as it was BEFORE the deletion. */
  function SelectionAfterDeleteAsWritten(before: seq<Portfolio>, selected: Option<string>, id: string): (r: Option<string>)
    ensures selected != Some(id) ==> r == selected
    ensures selected == Some(id) ==> r == FirstIdOrNull(before)
    ensures r.Some? && r != selected ==> |before| > 0 && r.value == before[0].id
  {
    if selected == Some(id) then FirstIdOrNull(before) else selected
  }

  /** No portfolio before index `j` carries the selected id. */
  predicate NoneSelectedBefore(portfolios: seq<Portfolio>, selected: Option<string>, j: nat)
    requires j <= |portfolios|
  {
    forall i :: 0 <= i < j ==> selected != Some(portfolios[i].id)
  }

  /** `portfolios.find(p => p.id === selectedPortfolio)`: the portfolio whose summary and
      holdings are drawn, if any. */
  function CurrentPortfolio(portfolios: seq<Portfolio>, selected: Option<string>): (r: Option<Portfolio>)
    ensures r.Some? ==> r.value in portfolios && selected == Some(r.value.id)
    ensures r.Some? ==> exists j :: 0 <= j < |portfolios| && r.value == portfolios[j] && NoneSelectedBefore(portfolios, selected, j)
    ensures r.None? ==> forall p :: p in portfolios ==> selected != Some(p.id)
  {
    if portfolios == [] then None
    else if selected == Some(portfolios[0].id) then Some(portfolios[0])
    else CurrentPortfolio(portfolios[1..], selected)
  }

  /** Deleting the selected portfolio when it heads the list leaves it selected, although
      no remaining portfolio has its id: no tab is highlighted and no summary is drawn. */
  lemma AsWrittenKeepsDeletedSelection(before: seq<Portfolio>, id: string)
    requires |before| > 0 && before[0].id == id && id != ""
    ensures SelectionAfterDeleteAsWritten(before, Some(id), id) == Some(id)
    ensures forall p :: p in WithoutPortfolio(before, id) ==> p.id != id
    ensures CurrentPortfolio(WithoutPortfolio(before, id), SelectionAfterDeleteAsWritten(before, Some(id), id)) == None
  {
  }

  /** The consequence: with portfolios "a" and "b", deleting the selected "a" still computes
      the totals over the holdings of the deleted "a" (they are not drawn, as no portfolio
      is current). */
  lemma AsWrittenValuesDeletedPortfolio()
    ensures var before := [Portfolio("a", "A", None), Portfolio("b", "B", None)];
            var held := [Investment("h", "a", "TCS", "TCS", "stock", 1.0, 10.0, "", None)];
            var selection := SelectionAfterDeleteAsWritten(before, Some("a"), "a");
            && WithoutPortfolio(before, "a") == [Portfolio("b", "B", None)]
            && Valuate(held, selection, map[]).totalCost == 10.0
  {
    var before := [Portfolio("a", "A", None), Portfolio("b", "B", None)];
    var held := [Investment("h", "a", "TCS", "TCS", "stock", 1.0, 10.0, "", None)];
    assert Filter(before[1..], (p: Portfolio) => p.id != "a") == [Portfolio("b", "B", None)];
    assert PortfolioInvestments(held, Some("a")) == held;
    assert held[..0] == [];
  }

  /** The selection after deleting portfolio `id`, corrected: the first portfolio that
      remains after the deletion. */
  function SelectionAfterDelete(before: seq<Portfolio>, selected: Option<string>, id: string): (r: Option<string>)
    ensures selected != Some(id) ==> r == selected
    ensures selected == Some(id) ==> r == FirstIdOrNull(WithoutPortfolio(before, id))
    ensures r != Some(id)
  {
    if selected == Some(id) then FirstIdOrNull(WithoutPortfolio(before, id)) else selected
  }

  /** The corrected selection never names the deleted portfolio, and a selection it
      changes to names a remaining portfolio, which becomes the current one. */
  lemma SelectionAfterDeleteIsLive(before: seq<Portfolio>, selected: Option<string>, id: string)
    ensures SelectionAfterDelete(before, selected, id) != Some(id)
    ensures var r := SelectionAfterDelete(before, selected, id);
            r.Some? && r != selected ==> exists p :: p in WithoutPortfolio(before, id) && p.id == r.value
    ensures var r := SelectionAfterDelete(before, selected, id);
            r.Some? && r != selected ==> CurrentPortfolio(WithoutPortfolio(before, id), r).Some?
    ensures var rest := WithoutPortfolio(before, id);
            selected == Some(id) && rest != [] && rest[0].id != "" ==>
              CurrentPortfolio(rest, SelectionAfterDelete(before, selected, id)) == Some(rest[0])
  {
    var rest := WithoutPortfolio(before, id);
    if selected == Some(id) && |rest| > 0 {
      assert rest[0] in rest;
    }
  }

  /** Hence the next valuation sees none of the deleted portfolio's holdings. */
  lemma DeletedPortfolioNotValued(before: seq<Portfolio>, selected: Option<string>, id: string,
                                  investments: seq<Investment>, inv: Investment, prices: Prices)
    requires inv.portfolioId == id
    ensures var r := SelectionAfterDelete(before, selected, id);
            Valuate([inv] + investments, r, prices) == Valuate(investments, r, prices)
  {
    var r := SelectionAfterDelete(before, selected, id);
    ValuationIgnoresOtherPortfolios([], inv, investments, r, prices);
    assert [] + [inv] + investments == [inv] + investments;
    assert [] + investments == investments;
  }

  // ---------------------------------------------------------------------------
  // The component's state

  /** The tracker component's state fields `portfolios`, `investments`,
      `selectedPortfolio` and `prices`. */
  class Tracker {
    var portfolios: seq<Portfolio>
    var investments: seq<Investment>
    var selectedPortfolio: Option<string>
    var prices: Prices

    constructor ()
      ensures portfolios == [] && investments == [] && selectedPortfolio == None && prices == map[]
    {
      portfolios := [];
      investments := [];
      selectedPortfolio := None;
      prices := map[];
    }

    /** The figures computed for the selected portfolio. */
    function Summary(): (v: Valuation)
      reads this
      ensures v.totalGain == v.totalValue - v.totalCost
      ensures v.totalGainPercent == GainPercent(v.totalGain, v.totalCost)
      ensures v == Valuate(investments, selectedPortfolio, prices)
      ensures selectedPortfolio.None? ==> v == ZeroValuation
    {
      var v := Valuate(investments, selectedPortfolio, prices);
      assert selectedPortfolio.None? ==> v == ZeroValuation by {
        if selectedPortfolio.None? {
          NoSelectionValuesZero(investments, prices);
        }
      }
      v
    }

    /** `loadPortfolios`: `rows` is the list read from storage, None on error. The first
        portfolio is selected only when nothing is selected yet. */
    method LoadPortfolios(rows: Option<seq<Portfolio>>)
      modifies this
      ensures rows.None? ==> unchanged(this)
      ensures rows.Some? ==> portfolios == rows.value
      ensures investments == old(investments) && prices == old(prices)
      ensures selectedPortfolio ==
                if rows.Some? && |rows.value| > 0 && !IsSelected(old(selectedPortfolio))
                then Some(rows.value[0].id) else old(selectedPortfolio)
    {
      if rows.Some? {
        portfolios := rows.value;
        if |rows.value| > 0 && !IsSelected(selectedPortfolio) {
          selectedPortfolio := Some(rows.value[0].id);
        }
      }
    }

    /** `loadInvestments`: the holdings read from storage replace the list, unless the
        read failed. */
    method LoadInvestments(rows: Option<seq<Investment>>)
      modifies this
      ensures investments == if rows.Some? then rows.value else old(investments)
      ensures portfolios == old(portfolios) && selectedPortfolio == old(selectedPortfolio) && prices == old(prices)
    {
      if rows.Some? {
        investments := rows.value;
      }
    }

    /** Clicking a portfolio tab. */
    method SelectPortfolio(id: string)
      modifies this
      ensures selectedPortfolio == Some(id)
      ensures portfolios == old(portfolios) && investments == old(investments) && prices == old(prices)
    {
      selectedPortfolio := Some(id);
    }

    /** One refresh of the price effect: it runs only while there are holdings, and the
        new map replaces the old one. `randoms` are the `Math.random()` draws. */
    method RefreshPrices(randoms: seq<real>)
      requires |randoms| == |investments|
      modifies this
      ensures portfolios == old(portfolios) && investments == old(investments)
      ensures selectedPortfolio == old(selectedPortfolio)
      ensures |old(investments)| == 0 ==> prices == old(prices)
      ensures |old(investments)| > 0 ==> prices.Keys == Symbols(investments)
      ensures |old(investments)| > 0 ==>
                forall k :: 0 <= k < |investments| && LastOccurrence(Tickers(investments), k, |investments|) ==>
                  investments[k].symbol in prices && prices[investments[k].symbol] == MockPrice(investments, randoms, k)
    {
      if |investments| > 0 {
        prices := FetchPrices(investments, randoms);
      }
    }

    /** `createPortfolio`: a blank name is refused; otherwise the stored portfolio is put
        first and selected. */
    method CreatePortfolio(name: string, description: string, stored: Stored)
      modifies this
      ensures Trim(name) == [] || stored.StoreFailed? ==> unchanged(this)
      ensures Trim(name) != [] && stored.Stored? ==>
                && portfolios == [Portfolio(stored.id, name, Some(description))] + old(portfolios)
                && selectedPortfolio == Some(stored.id)
                && investments == old(investments) && prices == old(prices)
    {
      if Trim(name) == [] {
        return;
      }
      if stored.Stored? {
        portfolios := [Portfolio(stored.id, name, Some(description))] + portfolios;
        selectedPortfolio := Some(stored.id);
      }
    }

    /** `deletePortfolio`: when the deleted portfolio was selected, the head of the list as
        it was before the deletion is selected, or none (see `AsWrittenKeepsDeletedSelection`). */
    method DeletePortfolio(id: string, deleted: bool)
      modifies this
      ensures !deleted ==> unchanged(this)
      ensures deleted ==>
                && portfolios == WithoutPortfolio(old(portfolios), id)
                && selectedPortfolio == SelectionAfterDeleteAsWritten(old(portfolios), old(selectedPortfolio), id)
                && investments == old(investments) && prices == old(prices)
    {
      if deleted {
        var before := portfolios;
        portfolios := WithoutPortfolio(before, id);
        if selectedPortfolio == Some(id) {
          selectedPortfolio := FirstIdOrNull(before);
        }
      }
    }

    /** `addInvestment`: nothing happens without a selected portfolio, a symbol and a
        name; otherwise the stored holding is put first. */
    method AddInvestment(form: InvestmentForm, stored: Stored)
      modifies this
      ensures !IsSelected(old(selectedPortfolio)) || form.symbol == [] || form.name == [] || stored.StoreFailed? ==>
                unchanged(this)
      ensures IsSelected(old(selectedPortfolio)) && form.symbol != [] && form.name != [] && stored.Stored? ==>
                && investments == [NewHolding(old(selectedPortfolio).value, form, stored.id, stored.createdOn)] + old(investments)
                && portfolios == old(portfolios) && selectedPortfolio == old(selectedPortfolio) && prices == old(prices)
    {
      if !IsSelected(selectedPortfolio) || form.symbol == [] || form.name == [] {
        return;
      }
      if stored.Stored? {
        investments := [NewHolding(selectedPortfolio.value, form, stored.id, stored.createdOn)] + investments;
      }
    }

    /** `deleteInvestment`. */
    method DeleteInvestment(id: string, deleted: bool)
      modifies this
      ensures investments == if deleted then WithoutInvestment(old(investments), id) else old(investments)
      ensures portfolios == old(portfolios) && selectedPortfolio == old(selectedPortfolio) && prices == old(prices)
    {
      if deleted {
        investments := WithoutInvestment(investments, id);
      }
    }
  }
}
