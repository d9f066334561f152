/** The finance news feed: a fixed list of mock articles stamped relative to the fetch
    time, a category filter with an "all" bypass, and the relative age shown on each
    card. Times are milliseconds since the epoch. */
module NewsFeed {
  import opened Common
  import opened Text

  /** One news card. `publishedAt` is the timestamp the ISO date string encodes. */
  datatype Article = Article(
    id: string, title: string, description: string, url: string, source: string,
    publishedAt: int, category: string)

  const MinuteMs: int := 1000 * 60
  const HourMs: int := 1000 * 60 * 60

  /** The fields of the ten mock articles, in list order. */
  const MockIds: seq<string> := ["1", "2", "3", "4", "5", "6", "7", "8", "9", "10"]

  const MockCategories: seq<string> :=
    ["crypto", "stocks", "economy", "crypto", "commodities", "stocks", "crypto", "energy", "stocks", "crypto"]

  /** The text of a mock article: headline, summary and publisher. */
  datatype Story = Story(title: string, description: string, source: string)

  /** The text of the k-th mock article (from 0). */
  function MockStory(k: nat): Story
    requires k < 10
  {
    match k
    case 0 => Story("Bitcoin Surges Past $50,000 as Institutional Investment Grows",
      "Major financial institutions are increasing their cryptocurrency holdings, driving Bitcoin to new highs. Analysts predict continued growth as adoption accelerates.",
      "Crypto Times")
    case 1 => Story("Tech Stocks Rally on Strong Earnings Reports",
      "Major technology companies exceeded quarterly expectations, leading to a broad market rally. The Nasdaq composite reached a new all-time high.",
      "Market Watch")
    case 2 => Story("Federal Reserve Maintains Interest Rates, Signals Patience",
      "The Federal Reserve announced it will maintain current interest rates while monitoring economic indicators. Markets responded positively to the measured approach.",
      "Financial News")
    case 3 => Story("Ethereum 2.0 Upgrade Shows Promising Performance Metrics",
      "The recent Ethereum network upgrade has significantly reduced transaction fees and improved processing speeds, attracting new developers to the platform.",
      "Blockchain Daily")
    case 4 => Story("Gold Prices Rise Amid Market Uncertainty",
      "Investors are turning to traditional safe-haven assets as global economic uncertainty increases. Gold futures reached their highest level in six months.",
      "Commodity Report")
    case 5 => Story("AI Stocks Lead Market Gains as Technology Sector Expands",
      "Companies focused on artificial intelligence saw significant gains today. The sector continues to attract both institutional and retail investors.",
      "Tech Investor")
    case 6 => Story("Decentralized Finance (DeFi) Protocols See Record Trading Volume",
      "DeFi platforms reported unprecedented trading volumes this week, signaling growing mainstream adoption of decentralized financial services.",
      "DeFi News")
    case 7 => Story("Energy Sector Rebounds on Global Demand Increase",
      "Oil and gas companies posted strong quarterly results as global energy demand continues to recover. Analysts remain optimistic about the sector.",
      "Energy Today")
    case 8 => Story("Emerging Markets ETFs Attract Record Investment Flows",
      "Investors are diversifying into emerging market exchange-traded funds, seeking growth opportunities beyond developed economies.",
      "Global Investor")
    case _ => Story("NFT Market Shows Signs of Maturation with Quality Focus",
      "The non-fungible token market is evolving beyond speculation, with collectors focusing on high-quality digital art and utility-driven projects.",
      "Digital Assets Weekly")
  }

  /** The ten articles `fetchNews` installs, the k-th (from 0) published k + 1 hours
      before `now` and linking nowhere. */
  function MockArticles(now: int): (r: seq<Article>)
    ensures |r| == 10
  {
    seq(10, k requires 0 <= k < 10 =>
      Article(MockIds[k], MockStory(k).title, MockStory(k).description, "#", MockStory(k).source,
              now - (k + 1) * HourMs, MockCategories[k]))
  }

  /** The ids of the category buttons. */
  const CategoryIds: seq<string> := ["all", "crypto", "stocks", "economy", "commodities", "energy"]

  // ---------------------------------------------------------------------------
  // Category filter

  function InCategory(category: string): Article -> bool
  {
    (a: Article) => a.category == category
  }

  /** `filteredArticles`: "all" shows the list as it is; any other id keeps the articles
      of that category. */
  function FilteredArticles(articles: seq<Article>, selected: string): (r: seq<Article>)
    ensures selected == "all" ==> r == articles
    ensures |r| <= |articles|
    ensures selected != "all" ==> forall a :: a in r ==> a in articles && a.category == selected
  {
    if selected == "all" then articles else Filter(articles, InCategory(selected))
  }

  /** "all" is a bypass, not a filter: the list comes back unchanged, even articles whose
      category matches no button. */
  lemma AllShowsEverything(articles: seq<Article>)
    ensures FilteredArticles(articles, "all") == articles
  {
  }

  /** Any other category keeps exactly the articles of that category, each as often as
      it occurs ... */
  lemma CategoryKeepsExactlyMatches(articles: seq<Article>, selected: string, a: Article)
    requires selected != "all"
    ensures multiset(FilteredArticles(articles, selected))[a]
         == if a.category == selected then multiset(articles)[a] else 0
  {
    FilterCount(articles, InCategory(selected), a);
  }

  /** ... and in their original order: filtering distributes over concatenation. */
  lemma CategoryKeepsOrder(front: seq<Article>, back: seq<Article>, selected: string)
    ensures FilteredArticles(front + back, selected)
         == FilteredArticles(front, selected) + FilteredArticles(back, selected)
  {
    if selected != "all" {
      FilterAppend(front, back, InCategory(selected));
    }
  }

  /** A category in which every article falls shows the whole list. */
  lemma CategoryOfEveryArticle(articles: seq<Article>, selected: string)
    requires forall a :: a in articles ==> a.category == selected
    ensures FilteredArticles(articles, selected) == articles
  {
    if selected != "all" {
      FilterKeepAll(articles, InCategory(selected));
    }
  }

  /** The id, category and timestamp of the k-th mock article come from the fixed lists,
      whatever its text. */
  lemma MockArticleFields(now: int, k: nat)
    requires k < |MockArticles(now)|
    ensures MockArticles(now)[k].id == MockIds[k]
    ensures MockArticles(now)[k].category == MockCategories[k]
    ensures MockArticles(now)[k].publishedAt == now - (k + 1) * HourMs
  {
  }

  /** Every mock article belongs to one of the category buttons other than "all", so
      each is reachable through a filter. */
  lemma MockCategoriesAreButtons(now: int, k: nat)
    requires k < |MockArticles(now)|
    ensures MockArticles(now)[k].category in CategoryIds[1..]
  {
    MockArticleFields(now, k);
    assert MockCategories[k] in CategoryIds[1..];
  }

  /** The mock ids are pairwise distinct, as the cards' keys must be (the k-th article
      carries the k-th id, by `MockArticleFields`). */
  lemma MockIdsDistinct(i: nat, j: nat)
    requires i < j < |MockIds|
    ensures MockIds[i] != MockIds[j]
  {
  }

  // ---------------------------------------------------------------------------
  // Relative time

  /** The bucket `formatTimeAgo` picks and the count it shows. */
  datatype Elapsed = Minutes(count: int) | Hours(count: int) | Days(count: int)

  /** The bucketing of `formatTimeAgo` for `diffMs` milliseconds since publication:
      whole hours first, whole minutes below one hour, whole days from 24 hours.
      Division by a positive constant floors, as `Math.floor` does. */
  function ElapsedOf(diffMs: int): (e: Elapsed)
    ensures e.Minutes? <==> diffMs < HourMs
    ensures e.Hours? <==> HourMs <= diffMs < 24 * HourMs
    ensures e.Days? <==> 24 * HourMs <= diffMs
    ensures e.Minutes? ==> e.count * MinuteMs <= diffMs < (e.count + 1) * MinuteMs
    ensures e.Minutes? && diffMs >= 0 ==> 0 <= e.count <= 59
    ensures e.Hours? ==> 1 <= e.count <= 23 && e.count * HourMs <= diffMs < (e.count + 1) * HourMs
    ensures e.Days? ==> 1 <= e.count && e.count * 24 * HourMs <= diffMs < (e.count + 1) * 24 * HourMs
  {
    var diffHours := diffMs / (1000 * 60 * 60);
    if diffHours < 1 then Minutes(diffMs / (1000 * 60))
    else if diffHours < 24 then Hours(diffHours)
    else Days(diffHours / 24)
  }

  function UnitText(e: Elapsed): string
  {
    match e
    case Minutes(_) => " minutes ago"
    case Hours(_) => " hours ago"
    case Days(_) => " days ago"
  }

  /** `formatTimeAgo`, given the elapsed milliseconds: the unit named at the end is
      minutes below one hour, hours below one day, and days from there on. */
  function FormatTimeAgo(diffMs: int): (r: string)
    ensures diffMs < HourMs ==> EndsWith(r, " minutes ago")
    ensures HourMs <= diffMs < 24 * HourMs ==> EndsWith(r, " hours ago")
    ensures 24 * HourMs <= diffMs ==> EndsWith(r, " days ago")
  {
    var e := ElapsedOf(diffMs);
    IntToString(e.count) + UnitText(e)
  }

  /** Reads a relative age back: a count, a space, and a unit phrase. */
  function ParseTimeAgo(s: string): Option<Elapsed>
  {
    match IndexFrom(s, " ", 0)
    case None => None
    case Some(i) =>
      match ParseInt(s[..i])
      case None => None
      case Some(n) =>
        if s[i..] == " minutes ago" then Some(Minutes(n))
        else if s[i..] == " hours ago" then Some(Hours(n))
        else if s[i..] == " days ago" then Some(Days(n))
        else None
  }

  /** The text shown loses nothing: it gives back the bucket and the count. */
  lemma FormatTimeAgoRoundTrip(diffMs: int)
    ensures ParseTimeAgo(FormatTimeAgo(diffMs)) == Some(ElapsedOf(diffMs))
  {
    var e := ElapsedOf(diffMs);
    var digits := IntToString(e.count);
    var s := digits + UnitText(e);
    FirstOccurrenceAfterStem(digits, UnitText(e), " ");
    assert s[..|digits|] == digits;
    assert s[|digits|..] == UnitText(e);
    IntToStringRoundTrip(e.count);
  }

  /** On a fresh fetch, the k-th mock card (from 0), published k + 1 hours earlier by
      `MockArticleFields`, reads "k + 1 hours ago". */
  lemma MockCardAge(k: nat)
    requires k < 10
    ensures ElapsedOf((k + 1) * HourMs) == Hours(k + 1)
    ensures FormatTimeAgo((k + 1) * HourMs) == IntToString(k + 1) + " hours ago"
  {
    WholeHours(k + 1);
  }

  /** An age of a whole number of hours below a day shows as that many hours. */
  lemma WholeHours(h: int)
    requires 1 <= h < 24
    ensures ElapsedOf(h * HourMs) == Hours(h)
  {
    assert h * HourMs / HourMs == h;
  }
}
