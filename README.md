# Allocation and valuation core of a personal-finance dashboard

This project models, in Dafny, the deterministic logic of three React components of a
finance dashboard, and proves properties of it.

- **Investment simulator** (`investment_simulator.dfy`). A cash amount and a risk tier give a plan.
  - The tier selects a fixed basket of NSE-listed stocks and a fixed basket of coins.
  - A fixed per-tier fraction of the amount goes to stocks and the rest to crypto.
  - Each instrument gets the floor of its market's sub-budget divided by the basket size.
  - A missing or zero price is shown as "N/A".
  - `GetStockPrices` is the per-symbol quote loop. `Advisor.HandleSuggest` is the request handler over the `error`, `loading` and `investmentData` fields.
- **Portfolio tracking** (`portfolio_tracking.dfy`).
  - The valuation of the selected portfolio: filter by portfolio id, price each holding from the price map with fallback to its purchase price, sum value and cost, and compute a gain percentage guarded against zero cost.
  - `FetchPrices` is the mock price-refresh loop.
  - `Tracker` is the class holding `portfolios`, `investments`, `selectedPortfolio` and `prices`. Its methods are the create, delete, add, load and refresh operations.
- **News feed** (`news_feed.dfy`). The ten mock articles, the category filter with its "all" bypass, and the minutes/hours/days bucketing of `formatTimeAgo`.
- **Shared pieces.** `common.dfy` holds Option/Result and an order-keeping `Filter`. `text.dfy` holds the JavaScript string operations the components use: `toUpperCase` on ASCII, `trim`, `replace` with a string pattern, and the decimal text of an integer.

Everything outside the program is a parameter of the operation that uses it:

- network responses are per-symbol fetch outcomes and a crypto response body;
- storage writes are a success flag or the inserted row's id;
- `parseFloat` results are `Option<real>`, with None for NaN;
- `Math.random()` draws are a sequence of reals;
- the clock appears as elapsed milliseconds or as the fetch time `now`.

Numbers are exact reals and unbounded integers, and `Math.floor` is `.Floor` or integer division by a positive constant.

Where the code behaves otherwise than a user would expect, the model follows the code.

- **Failed fetches.** One might expect a failed market fetch to leave the other market's plan standing. In the code, a crypto fetch failure rejects the `Promise.all` and the whole request ends with the error message and no plan. The stock fetch never fails as a whole, because `getStockPrices` catches each symbol's failure and records "N/A".
- **Invalid amount.** An invalid amount only sets the error message. The previous plan stays on screen, because the handler returns before it clears the plan.
- **Deleting the selected portfolio.** `Tracker.DeletePortfolio` selects the head of the list as it was before the deletion, as the code does (see Findings). The corrected rule is modelled beside it as `SelectionAfterDelete`.

## Model

| member | source | states |
|---|---|---|
| Common.Filter | src/components/PortfolioTracking.tsx:172 | the result is no longer than the input and holds only input elements that pass the test |
| Common.FilterCount | src/components/PortfolioTracking.tsx:172 | filtering keeps every copy of a passing element and none of a failing one |
| Common.FilterAppend | src/components/NewsFeed.tsx:138 | filtering a concatenation is the concatenation of the filtered parts, so order is kept |
| Common.FilterKeepAll | src/components/NewsFeed.tsx:138 | a filter every element passes returns the list unchanged |
| Common.FilterKeepNone | src/components/PortfolioTracking.tsx:172 | a filter no element passes returns the empty list |
| Text.UpperChar | src/components/InvestmentSimulator.tsx:89 | the result is never a lower-case ASCII letter; lower-case letters move down by 32, anything else is unchanged |
| Text.Upper | src/components/PortfolioTracking.tsx:141 | same length, each character upper-cased in place, no lower-case ASCII letter left |
| Text.Capitalize | src/components/InvestmentSimulator.tsx:88 | same length; only the first character is upper-cased, the rest is kept |
| Text.TrimStart | src/components/PortfolioTracking.tsx:106 | the result is a suffix of the input; everything dropped is whitespace; it does not start with whitespace |
| Text.TrimEnd | src/components/PortfolioTracking.tsx:106 | the result is a prefix of the input; everything dropped is whitespace; it does not end with whitespace |
| Text.Trim | src/components/PortfolioTracking.tsx:106 | the result is no longer than the input and neither starts nor ends with whitespace |
| Text.TrimDropsOnlyWhitespace | src/components/PortfolioTracking.tsx:106 | the result is a contiguous part of the input with only whitespace around it |
| Text.TrimEmptyIffBlank | src/components/PortfolioTracking.tsx:106 | a name trims to the empty string exactly when every character of it is whitespace |
| Text.IndexFrom | src/components/InvestmentSimulator.tsx:96 | the index returned is an occurrence of the pattern and no earlier one exists; None means no occurrence at all |
| Text.ReplaceFirst | src/components/InvestmentSimulator.tsx:96 | without an occurrence the string is unchanged; otherwise the text before the first occurrence and after it is kept and the replacement stands in its place |
| Text.FirstOccurrenceAfterStem | src/components/InvestmentSimulator.tsx:96 | a pattern whose first character is absent from the stem is first found right after the stem |
| Text.RemoveSuffix | src/components/InvestmentSimulator.tsx:96 | replacing such a suffix with the empty string gives back the stem |
| Text.DigitChar | src/components/NewsFeed.tsx:148 | a digit value gives a decimal digit character |
| Text.NatToString | src/components/NewsFeed.tsx:148 | the text of a natural number is non-empty, all digits, and without a leading zero |
| Text.NatToStringRoundTrip | src/components/NewsFeed.tsx:148 | reading the digits back gives the number |
| Text.IntToString | src/components/NewsFeed.tsx:148 | the text of an integer is non-empty and holds no space |
| Text.IntToStringRoundTrip | src/components/NewsFeed.tsx:148 | parsing the text of any integer gives the integer back |
| InvestmentSimulator.StockBasket | src/components/InvestmentSimulator.tsx:69-78 | every tier lists three stocks |
| InvestmentSimulator.CryptoBasket | src/components/InvestmentSimulator.tsx:69-78 | low risk lists two coins, medium and high three; every basket starts with bitcoin and ethereum |
| InvestmentSimulator.StockShare | src/components/InvestmentSimulator.tsx:98 | the stock fraction lies strictly between 0 and 1 |
| InvestmentSimulator.CryptoShare | src/components/InvestmentSimulator.tsx:90-98 | the crypto fraction lies strictly between 0 and 1 and with the stock fraction adds up to exactly 1 |
| InvestmentSimulator.OrNA | src/components/InvestmentSimulator.tsx:44 | a price is "N/A" exactly when the figure is missing or zero; a known price is the figure received |
| InvestmentSimulator.ShownPrice | src/components/InvestmentSimulator.tsx:99 | re-applying the fallback never changes a price already decided, turns a zero into "N/A", and so never shows a zero |
| InvestmentSimulator.QuoteOf | src/components/InvestmentSimulator.tsx:39-46 | a quote keeps its symbol; its price is "N/A" exactly when the fetch failed or gave a missing or zero price, and a known price is the fetched one |
| InvestmentSimulator.StockQuotes | src/components/InvestmentSimulator.tsx:37-48 | one quote per symbol, each carrying its own symbol in input order |
| InvestmentSimulator.StockQuotesPointwise | src/components/InvestmentSimulator.tsx:37-48 | one quote per symbol, in input order, each determined by that symbol's own fetch |
| InvestmentSimulator.GetStockPrices | src/components/InvestmentSimulator.tsx:33-51 | the loop returns one quote per symbol in order; a quote is "N/A" exactly when its own fetch failed or gave a missing or zero price, and a known price is the fetched one |
| InvestmentSimulator.CryptoPrice | src/components/InvestmentSimulator.tsx:91 | a coin's price is "N/A" exactly when the body has no figure for it or the figure is zero; a known price is the figure received |
| InvestmentSimulator.PerInstrument | src/components/InvestmentSimulator.tsx:90-98 | the whole-rupee share is the largest integer not above amount × fraction / basket size |
| InvestmentSimulator.TakeThree | src/components/InvestmentSimulator.tsx:87-95 | the first min(3, n) elements, in order |
| InvestmentSimulator.StockName | src/components/InvestmentSimulator.tsx:96 | a symbol without ".NS" is shown as it is; with one, the shown name is three characters shorter |
| InvestmentSimulator.CryptoRowsInvest | src/components/InvestmentSimulator.tsx:87-92 | one crypto row per coin id, each with the same amount |
| InvestmentSimulator.CryptoSuggestions | src/components/InvestmentSimulator.tsx:87-92 | one entry per coin of the basket, each with the upper-cased id as symbol and the crypto sub-budget divided by the basket size, floored |
| InvestmentSimulator.StockSuggestions | src/components/InvestmentSimulator.tsx:95-100 | the first three quotes, each with its own symbol and price (a zero price shown as "N/A") and the stock sub-budget divided by 3, floored |
| InvestmentSimulator.Suggest | src/components/InvestmentSimulator.tsx:81-106 | the request fails exactly when the crypto fetch fails, and then only with the fetch error message; on success the plan is the stock suggestions and the crypto suggestions built from the fetched data |
| InvestmentSimulator.ValidateAmount | src/components/InvestmentSimulator.tsx:54-58 | an amount is accepted exactly when the input is non-empty and parses to a positive number; otherwise the validation message |
| InvestmentSimulator.StockPlanShape | src/components/InvestmentSimulator.tsx:95-100 | three stock entries in basket order, each named by its symbol without ".NS", carrying its own quote and the same floored share |
| InvestmentSimulator.CryptoPlanShape | src/components/InvestmentSimulator.tsx:87-92 | one entry per coin of the basket in order, with capitalised name, upper-cased symbol, its own price and the same floored share |
| InvestmentSimulator.StockBudgetBound | src/components/InvestmentSimulator.tsx:95-100 | the stock entries together never exceed the stock sub-budget and fall short of it by less than 3 rupees |
| InvestmentSimulator.CryptoBudgetBound | src/components/InvestmentSimulator.tsx:87-92 | the crypto entries together never exceed the crypto sub-budget and fall short of it by less than the basket size |
| InvestmentSimulator.TotalOfEqualShares | src/components/InvestmentSimulator.tsx:90-98 | entries that all invest v add up to count × v |
| InvestmentSimulator.NSEName | src/components/InvestmentSimulator.tsx:96 | an NSE symbol is shown under its bare company code |
| InvestmentSimulator.StockNamesDropExchangeSuffix | src/components/InvestmentSimulator.tsx:69-96 | every basket stock's shown name holds no '.' and gives back the symbol when ".NS" is appended |
| InvestmentSimulator.MediumShares | src/components/InvestmentSimulator.tsx:90-98 | 10000 at medium risk gives 2000 per stock and 1333 per coin |
| InvestmentSimulator.MediumTenThousand | src/components/InvestmentSimulator.tsx:72-98 | 10000 at medium risk gives three stocks at 2000 and three coins at 1333, 3999 in crypto |
| InvestmentSimulator.Advisor.constructor | src/components/InvestmentSimulator.tsx:19-21 | no error, not loading, no plan |
| InvestmentSimulator.Advisor.HandleSuggest | src/components/InvestmentSimulator.tsx:53-109 | an invalid amount sets the validation message and keeps the old plan; otherwise the request ends not loading, with the plan and no error, or with the fetch error and no plan |
| PortfolioTracking.GainPercent | src/components/PortfolioTracking.tsx:184 | zero when cost is not positive; otherwise gain/cost × 100, positive or zero exactly when the gain is |
| PortfolioTracking.CurrentPrice | src/components/PortfolioTracking.tsx:175 | the price used is the quote when the symbol has a non-zero one, else the purchase price; it is zero only when the purchase price is |
| PortfolioTracking.MarketValue | src/components/PortfolioTracking.tsx:175-176 | a holding priced at its purchase price is worth what it cost; no quantity is worth nothing |
| PortfolioTracking.CostBasis | src/components/PortfolioTracking.tsx:180 | a holding with no quantity or a zero purchase price cost nothing |
| PortfolioTracking.LineOf | src/components/PortfolioTracking.tsx:291-295 | the price shown is the holding's current price (the quote, or the purchase price without one), value is quantity × that price, cost is quantity × purchase price, gain is their difference and the percentage is guarded against zero cost |
| PortfolioTracking.UnquotedHoldingHasNoGain | src/components/PortfolioTracking.tsx:291-295 | a holding with no price or a zero price is valued at its purchase price, with zero gain and zero gain percent |
| PortfolioTracking.SumOf | src/components/PortfolioTracking.tsx:174-181 | the fold gives 0 for no holdings and the holding's own term for one |
| PortfolioTracking.SumOfNonNegative | src/components/PortfolioTracking.tsx:174-181 | a sum of terms none of which is negative is not negative |
| PortfolioTracking.SumOfAppend | src/components/PortfolioTracking.tsx:174-181 | a sum over a concatenation is the sum of the sums |
| PortfolioTracking.SumOfPermutation | src/components/PortfolioTracking.tsx:174-181 | a sum does not depend on the order of the holdings |
| PortfolioTracking.RemoveOne | src/components/PortfolioTracking.tsx:174-181 | taking out one element takes one copy of it out of the multiset |
| PortfolioTracking.SumOfRemove | src/components/PortfolioTracking.tsx:174-181 | a sum is the sum without one element plus that element's term |
| PortfolioTracking.SumOfSnoc | src/components/PortfolioTracking.tsx:174-181 | appending one holding adds its term to the sum |
| PortfolioTracking.PortfolioInvestments | src/components/PortfolioTracking.tsx:172 | only holdings of the selected portfolio are kept, each from the input list |
| PortfolioTracking.Valuate | src/components/PortfolioTracking.tsx:172-184 | total gain is total value minus total cost, and the gain percent is that of the total gain over the total cost: zero when the cost is not positive |
| PortfolioTracking.NoSelectionValuesZero | src/components/PortfolioTracking.tsx:172-184 | with no portfolio selected every figure is zero |
| PortfolioTracking.NoMatchingHoldingsValuesZero | src/components/PortfolioTracking.tsx:172-184 | with a selection that no holding belongs to, every figure is zero |
| PortfolioTracking.HeldIsPermuted | src/components/PortfolioTracking.tsx:172 | reordering the holdings only reorders the selected portfolio's holdings |
| PortfolioTracking.ValuationIgnoresOrder | src/components/PortfolioTracking.tsx:172-184 | reordering the holdings leaves every figure unchanged |
| PortfolioTracking.ValuationAdds | src/components/PortfolioTracking.tsx:174-181 | value and cost of a split list are the sums of the parts' values and costs |
| PortfolioTracking.HoldingAddsItsOwnValue | src/components/PortfolioTracking.tsx:174-181 | a holding of the selected portfolio adds quantity × current price to the value and quantity × purchase price to the cost, even next to holdings of the same symbol |
| PortfolioTracking.ValuationIgnoresOtherPortfolios | src/components/PortfolioTracking.tsx:172 | a holding of another portfolio, anywhere in the list, changes no figure |
| PortfolioTracking.FindBySymbol | src/components/PortfolioTracking.tsx:80 | the index returned is the first holding with the symbol; None means no holding has it |
| PortfolioTracking.FirstOfSymbol | src/components/PortfolioTracking.tsx:80-82 | the holding found has the symbol looked for, sits at or before the holding searched from, and no earlier holding has that symbol |
| PortfolioTracking.HeldSymbolIsFound | src/components/PortfolioTracking.tsx:80-81 | looking up the symbol of a holding always finds a holding |
| PortfolioTracking.Tickers | src/components/PortfolioTracking.tsx:76 | one symbol per holding, in order |
| PortfolioTracking.Draws | src/components/PortfolioTracking.tsx:79-85 | one perturbed price per iteration, in order |
| PortfolioTracking.KeysBeforeMembers | src/components/PortfolioTracking.tsx:76 | a symbol is among those of the first n holdings exactly when one of them has it |
| PortfolioTracking.WrittenKeys | src/components/PortfolioTracking.tsx:79-86 | after n writes, exactly the symbols written have a price |
| PortfolioTracking.LastWriteWins | src/components/PortfolioTracking.tsx:79-86 | a symbol's price is the value written at its last occurrence |
| PortfolioTracking.FetchPrices | src/components/PortfolioTracking.tsx:75-89 | the loop's map is the result of writing each holding's perturbed price in turn; every held symbol and no other gets a price, namely the first holding's purchase price times 1 plus the volatility of the symbol's last draw |
| PortfolioTracking.Volatility | src/components/PortfolioTracking.tsx:83 | a draw in [0, 1) gives a volatility in [-0.1, 0.1); the middle draw 0.5 leaves the price unchanged |
| PortfolioTracking.Perturbed | src/components/PortfolioTracking.tsx:84 | no volatility leaves the price as it is, and a zero price stays zero |
| PortfolioTracking.MockPrice | src/components/PortfolioTracking.tsx:80-84 | with a draw in [0, 1), the price written lies within 10% of the purchase price of the first holding with that symbol, for a purchase price of either sign (for a negative one, the bound 1.1 × base is excluded) |
| PortfolioTracking.MockPriceWithinTenPercent | src/components/PortfolioTracking.tsx:83-84 | for a draw in [0, 1) a mock price lies within 10% of the purchase price, whatever its sign; the end 10% above a positive price (below a negative one) is never reached |
| PortfolioTracking.WithoutPortfolio | src/components/PortfolioTracking.tsx:127 | no portfolio with the deleted id remains, and every remaining one was in the list |
| PortfolioTracking.WithoutInvestment | src/components/PortfolioTracking.tsx:167 | no holding with the deleted id remains, and every remaining one was in the list |
| PortfolioTracking.DeleteInvestmentRemovesExactlyId | src/components/PortfolioTracking.tsx:167 | a holding survives deletion exactly when its id differs, with all its copies |
| PortfolioTracking.DeleteInvestmentKeepsOrder | src/components/PortfolioTracking.tsx:167 | deletion keeps the remaining holdings in order |
| PortfolioTracking.DeletePortfolioRemovesExactlyId | src/components/PortfolioTracking.tsx:127 | a portfolio survives deletion exactly when its id differs, with all its copies |
| PortfolioTracking.DeletePortfolioKeepsOrder | src/components/PortfolioTracking.tsx:127 | deletion keeps the remaining portfolios in order |
| PortfolioTracking.OrZero | src/components/PortfolioTracking.tsx:144-145 | the number is zero exactly when the text did not parse or parsed to zero, else the parsed number |
| PortfolioTracking.NewHolding | src/components/PortfolioTracking.tsx:139-146 | the new holding belongs to the selected portfolio, has the upper-cased symbol (same length, no lower-case letter), the name and asset type entered, the stored id and date and no notes, and falls back to 0 for unparsable numbers |
| PortfolioTracking.FirstIdOrNull | src/components/PortfolioTracking.tsx:129 | the head's id when the list is non-empty and that id is not empty, else null |
| PortfolioTracking.SelectionAfterDeleteAsWritten | src/components/PortfolioTracking.tsx:128-129 | another selection is kept; deleting the selected portfolio selects the id at the head of the list as it was before the deletion, or none when that list is empty or its head has an empty id |
| PortfolioTracking.CurrentPortfolio | src/components/PortfolioTracking.tsx:171 | a portfolio found is the first one in the list with the selected id; none is found only when no portfolio has that id |
| PortfolioTracking.AsWrittenKeepsDeletedSelection | src/components/PortfolioTracking.tsx:127-129 | deleting the selected portfolio at the head of the list leaves its id selected, though no remaining portfolio has that id, so no portfolio is current |
| PortfolioTracking.AsWrittenValuesDeletedPortfolio | src/components/PortfolioTracking.tsx:127-129 | after deleting the selected "a" of ["a", "b"], the totals are still computed over "a"'s holding |
| PortfolioTracking.SelectionAfterDelete | src/components/PortfolioTracking.tsx:128-129 | the corrected rule keeps another selection, selects the head of the remaining list (or none) when the selected portfolio is deleted, and never names the deleted id |
| PortfolioTracking.SelectionAfterDeleteIsLive | src/components/PortfolioTracking.tsx:128-129 | the corrected selection never names the deleted portfolio, and a changed selection names a remaining one, which is then the current portfolio; deleting the selected portfolio makes the first remaining portfolio current |
| PortfolioTracking.DeletedPortfolioNotValued | src/components/PortfolioTracking.tsx:128-129 | after the corrected deletion, holdings of the deleted portfolio change no figure |
| PortfolioTracking.Tracker.constructor | src/components/PortfolioTracking.tsx:28-35 | no portfolios, no holdings, no selection, no prices |
| PortfolioTracking.Tracker.Summary | src/components/PortfolioTracking.tsx:172-184 | the figures are the valuation of the selected portfolio's holdings at the current prices: gain is value minus cost, the percentage is guarded against zero cost, and with no selection all are zero |
| PortfolioTracking.Tracker.LoadPortfolios | src/components/PortfolioTracking.tsx:45-57 | a successful load replaces the list and selects its first portfolio only when none is selected; a failed load changes nothing |
| PortfolioTracking.Tracker.LoadInvestments | src/components/PortfolioTracking.tsx:63-73 | a successful load replaces the holdings; nothing else changes |
| PortfolioTracking.Tracker.SelectPortfolio | src/components/PortfolioTracking.tsx:215 | the clicked portfolio becomes selected; nothing else changes |
| PortfolioTracking.Tracker.RefreshPrices | src/components/PortfolioTracking.tsx:97-99 | with no holdings the prices stay; otherwise the price map is replaced by one holding exactly the held symbols, each at the perturbed price of its last draw |
| PortfolioTracking.Tracker.CreatePortfolio | src/components/PortfolioTracking.tsx:105-121 | a blank name or a failed insert changes nothing; otherwise the new portfolio is put first and selected |
| PortfolioTracking.Tracker.DeletePortfolio | src/components/PortfolioTracking.tsx:123-132 | a successful delete removes the id and, when it was selected, selects the head of the list as it was before the deletion, or none; a failed delete changes nothing |
| PortfolioTracking.Tracker.AddInvestment | src/components/PortfolioTracking.tsx:134-161 | without a selection, symbol or name, or on a failed insert, nothing changes; otherwise the new holding is put first and the others are kept |
| PortfolioTracking.Tracker.DeleteInvestment | src/components/PortfolioTracking.tsx:163-169 | a successful delete removes the holdings with that id; nothing else changes |
| NewsFeed.MockArticles | src/components/NewsFeed.tsx:28-119 | the mock list has ten articles |
| NewsFeed.FilteredArticles | src/components/NewsFeed.tsx:136-138 | "all" gives the list unchanged; any other category gives at most the input's articles, all of that category |
| NewsFeed.AllShowsEverything | src/components/NewsFeed.tsx:136-137 | "all" returns the article list unchanged |
| NewsFeed.CategoryKeepsExactlyMatches | src/components/NewsFeed.tsx:138 | any other category keeps exactly the articles of that category, every copy of each |
| NewsFeed.CategoryKeepsOrder | src/components/NewsFeed.tsx:136-138 | the filtered articles keep their original order |
| NewsFeed.CategoryOfEveryArticle | src/components/NewsFeed.tsx:136-138 | a category every article has shows the whole list |
| NewsFeed.MockCategoriesAreButtons | src/components/NewsFeed.tsx:28-134 | every mock article's category is one of the filter buttons other than "all" |
| NewsFeed.MockArticleFields | src/components/NewsFeed.tsx:28-119 | the k-th mock article carries the k-th id and category and is stamped k + 1 hours before the fetch |
| NewsFeed.MockIdsDistinct | src/components/NewsFeed.tsx:28-119 | the mock article ids are pairwise distinct |
| NewsFeed.ElapsedOf | src/components/NewsFeed.tsx:140-155 | exactly one bucket applies: minutes below one hour, hours from 1 to 23, days from 24 hours; each count is the floor of the elapsed time in its unit, and minutes lie in 0..59 for a non-negative age |
| NewsFeed.FormatTimeAgo | src/components/NewsFeed.tsx:140-155 | the text ends in " minutes ago" below one hour, " hours ago" below one day and " days ago" from one day on |
| NewsFeed.FormatTimeAgoRoundTrip | src/components/NewsFeed.tsx:140-155 | the text shown can be read back to the bucket and the count |
| NewsFeed.WholeHours | src/components/NewsFeed.tsx:144-150 | an age of h whole hours, 1 ≤ h < 24, falls in the hours bucket with count h |
| NewsFeed.MockCardAge | src/components/NewsFeed.tsx:140-155 | an age of k + 1 hours, as the k-th mock card has on a fresh fetch, reads "k + 1 hours ago" |

## Left out

- Network access (CoinGecko, Yahoo Finance through the allorigins proxy), `res.json()` and `JSON.parse`. Their outcomes are parameters: a per-symbol `StockFetch` and one `CryptoFetch`.
- Supabase storage. Each call is replaced by its outcome, and state changes only on success, as in the code.
- `setInterval`, `setTimeout`, `useEffect` scheduling and `Promise.all` concurrency. They are timing, not logic. The 500 ms delay before the mock articles appear and the `loading` flag of the news feed are therefore not modelled.
- `Math.random()` and the clock. They are inputs: the random draws, elapsed milliseconds, and the fetch time.
- `parseFloat`: its result is an input. `Infinity` and IEEE-754 rounding are not modelled, because numbers are exact reals.
- InvestmentSimulator.PerInstrument: computes the exact floor of amount × fraction / size. The code may differ by one rupee where the double-precision product rounds across an integer.
- NewsFeed.MockArticles: `publishedAt` is the millisecond timestamp itself, not its ISO-8601 text. Formatting and parsing that text back is left out.
- Text.UpperChar: maps only ASCII letters; JavaScript's Unicode case mapping is left out.
- Text.Upper: upper-cases ASCII letters only, pointwise; Unicode case mapping, including mappings that change the length, is left out.
- Text.Capitalize: upper-cases the first character through the ASCII-only UpperChar; this is exact for the coin ids it receives.
- The risk level is the three-valued `Tier`. The page only offers "low", "medium" and "high".
- Rendering: JSX, modals, form field resets, `toFixed` and `toLocaleString`.
- The application shell (`src/App.tsx`) and the authentication screen are not part of this model.

## Findings

| source | as written | input that shows it | evidently intended | confidence | as-written member | corrected member |
|---|---|---|---|---|---|---|
| src/components/PortfolioTracking.tsx:127-129 | after deleting the selected portfolio, the new selection is `portfolios[0]` of the list as it was before the deletion | portfolios ["a", "b"] with "a" selected; delete "a": "a" stays selected although it no longer exists, so no tab is highlighted and no summary, holdings list or "Add Investment" button is drawn until another tab is clicked | select the first portfolio that remains after the deletion, or none | not executed | PortfolioTracking.AsWrittenKeepsDeletedSelection | PortfolioTracking.SelectionAfterDeleteIsLive |
