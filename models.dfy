/** The content models of the blog: authors, articles and stock quotes, their
    choice enumerations and defaults, the byline check of `Author.clean`, and
    which pairs of rows each unique constraint forbids. */
module Models {
  import opened Wrappers
  import opened Errors

  /** UUID primary keys, treated as opaque identifiers. */
  type Uuid = nat

  /** Date-times, treated as instants on an integer time line. */
  type Timestamp = int

  /** A `DecimalField` value: `unscaled` times ten to the minus `places`. */
  datatype Decimal = Decimal(unscaled: int, places: nat)

  // ---------------------------------------------------------------------------
  // Choice enumerations. Each is stored in its field as its database value.

  datatype ContributorType = Individual | Company | Sponsor | Staff {
    function Value(): string {
      match this
      case Individual => "individual"
      case Company => "company"
      case Sponsor => "sponsor"
      case Staff => "staff"
    }
    function Label(): string {
      match this
      case Individual => "Individual"
      case Company => "Company"
      case Sponsor => "Sponsor"
      case Staff => "Staff"
    }
  }

  /** `Regular` is the source's ARTICLE choice. */
  datatype ArticleType = Regular | TenPromiseSeries {
    function Value(): string {
      match this
      case Regular => "article"
      case TenPromiseSeries => "10-promise-series"
    }
    function Label(): string {
      match this
      case Regular => "Article"
      case TenPromiseSeries => "10 Promise Series"
    }
  }

  datatype ExchangeType = Nyse | Nasdaq | NyseMkt | NasdaqOth | Unknown {
    function Value(): string {
      match this
      case Nyse => "NYSE"
      case Nasdaq => "NASDAQ"
      case NyseMkt => "NYSEMKT"
      case NasdaqOth => "NASDAQOTH"
      case Unknown => "UNKNOWN"
    }
    function Label(): string {
      match this
      case Nyse => "NYSE"
      case Nasdaq => "NASDAQ"
      case NyseMkt => "NYSE MKT"
      case NasdaqOth => "NASDAQOTH"
      case Unknown => "Unknown"
    }
  }

  datatype CurrencyType = Usd {
    function Value(): string { "USD" }
    function Label(): string { "USD" }
  }

  /** The choices of each enumeration, in declaration order. */
  const ContributorTypes: seq<ContributorType> := [Individual, Company, Sponsor, Staff]
  const ArticleTypes: seq<ArticleType> := [Regular, TenPromiseSeries]
  const ExchangeTypes: seq<ExchangeType> := [Nyse, Nasdaq, NyseMkt, NasdaqOth, Unknown]
  const CurrencyTypes: seq<CurrencyType> := [Usd]

  /** The choice among `choices` whose stored value is `s`, if there is one. */
  function ParseChoice<T>(choices: seq<T>, value: T -> string, s: string): (r: Option<T>)
    ensures r.Some? ==> r.value in choices && value(r.value) == s
    ensures r.None? ==> forall c :: c in choices ==> value(c) != s
  {
    if choices == [] then None
    else if value(choices[0]) == s then Some(choices[0])
    else ParseChoice(choices[1..], value, s)
  }

  function ParseContributorType(s: string): Option<ContributorType> {
    ParseChoice(ContributorTypes, (c: ContributorType) => c.Value(), s)
  }

  function ParseArticleType(s: string): Option<ArticleType> {
    ParseChoice(ArticleTypes, (t: ArticleType) => t.Value(), s)
  }

  function ParseExchangeType(s: string): Option<ExchangeType> {
    ParseChoice(ExchangeTypes, (e: ExchangeType) => e.Value(), s)
  }

  function ParseCurrencyType(s: string): Option<CurrencyType> {
    ParseChoice(CurrencyTypes, (c: CurrencyType) => c.Value(), s)
  }

  /** Over choices whose stored values are distinct, a stored value reads
      back as the choice it came from. */
  lemma ParseChoiceRoundTrip<T>(choices: seq<T>, value: T -> string, c: T)
    requires c in choices
    requires forall x, y :: x in choices && y in choices && value(x) == value(y) ==> x == y
    ensures ParseChoice(choices, value, value(c)) == Some(c)
  {
  }

  /** A contributor type reads back from its stored value, and a string reads
      as a contributor type exactly when it is one of the listed values. */
  lemma ContributorTypeRoundTrip(c: ContributorType, s: string)
    ensures ParseContributorType(c.Value()) == Some(c)
    ensures ParseContributorType(s).Some? <==> s in {"individual", "company", "sponsor", "staff"}
  {
    ParseChoiceRoundTrip(ContributorTypes, (c: ContributorType) => c.Value(), c);
    var p := ParseContributorType(s);
    if p.Some? { assert p.value in ContributorTypes; }
  }

  /** The same round trip for article types. */
  lemma ArticleTypeRoundTrip(t: ArticleType, s: string)
    ensures ParseArticleType(t.Value()) == Some(t)
    ensures ParseArticleType(s).Some? <==> s in {"article", "10-promise-series"}
  {
    ParseChoiceRoundTrip(ArticleTypes, (t: ArticleType) => t.Value(), t);
    var p := ParseArticleType(s);
    if p.Some? { assert p.value in ArticleTypes; }
  }

  /** The same round trip for exchanges. */
  lemma ExchangeTypeRoundTrip(e: ExchangeType, s: string)
    ensures ParseExchangeType(e.Value()) == Some(e)
    ensures ParseExchangeType(s).Some? <==> s in {"NYSE", "NASDAQ", "NYSEMKT", "NASDAQOTH", "UNKNOWN"}
  {
    ParseChoiceRoundTrip(ExchangeTypes, (e: ExchangeType) => e.Value(), e);
    var p := ParseExchangeType(s);
    if p.Some? { assert p.value in ExchangeTypes; }
  }

  /** The same round trip for currencies: USD is the only one. */
  lemma CurrencyTypeRoundTrip(u: CurrencyType, s: string)
    ensures ParseCurrencyType(u.Value()) == Some(u)
    ensures ParseCurrencyType(s).Some? <==> s == "USD"
  {
    ParseChoiceRoundTrip(CurrencyTypes, (u: CurrencyType) => u.Value(), u);
  }

  // ---------------------------------------------------------------------------
  // Defaults.

  const DefaultContributorType: ContributorType := Individual
  const DefaultArticleType: ArticleType := Regular
  const DefaultExchange: ExchangeType := Unknown
  const DefaultCurrency: CurrencyType := Usd
  const DefaultSmallAvatarUrl: string := "http://g.foolcdn.com/avatar/1593347483/small.ashx"
  const DefaultLargeAvatarUrl: string := "http://g.foolcdn.com/avatar/1593347483/large.ashx"

  // ---------------------------------------------------------------------------
  // Entities. Nullable fields are `Option`s.

  datatype Author = Author(
    uuid: Uuid,
    username: string,
    byline: string,
    contributorType: ContributorType,
    email: string,
    firstName: string,
    lastName: string,
    foolUid: int,
    primary: bool,
    smallAvatarUrl: string,
    largeAvatarUrl: string,
    twitterUsername: Option<string>,
    shortBio: Option<string>,
    longBio: Option<string>)

  datatype Article = Article(
    uuid: Uuid,
    body: string,
    headline: string,
    promo: string,
    byline: string,   // names an author's byline by string only; no foreign key
    articleType: ArticleType,
    featuredImageUrl: string,
    featuredImageName: Option<string>,
    staticPage: bool,
    path: string,
    created: Timestamp,
    publishAt: Timestamp,
    modified: Timestamp,
    disclosure: Option<string>)

  datatype Quote = Quote(
    id: nat,          // the implicit auto-increment primary key
    companyName: string,
    symbol: string,
    exchange: ExchangeType,
    currencyCode: CurrencyType,
    description: string,
    currentPrice: Decimal,
    change: Decimal,
    percentChange: Decimal,
    website: string,
    lastTradeDate: Timestamp)

  /** An Author built from its required fields; every other field takes its default. */
  function NewAuthor(uuid: Uuid, username: string, byline: string, email: string,
                     firstName: string, lastName: string, foolUid: int): Author
  {
    Author(uuid, username, byline, DefaultContributorType, email, firstName, lastName,
           foolUid, false, DefaultSmallAvatarUrl, DefaultLargeAvatarUrl, None, None, None)
  }

  /** An Article built from its required fields; every other field takes its default. */
  function NewArticle(uuid: Uuid, body: string, headline: string, byline: string,
                      featuredImageUrl: string, path: string,
                      created: Timestamp, publishAt: Timestamp, modified: Timestamp): Article
  {
    Article(uuid, body, headline, "", byline, DefaultArticleType, featuredImageUrl, None,
            false, path, created, publishAt, modified, None)
  }

  /** A Quote built from its required fields; every other field takes its default. */
  function NewQuote(companyName: string, symbol: string, description: string,
                    currentPrice: Decimal, change: Decimal, percentChange: Decimal,
                    website: string, lastTradeDate: Timestamp): Quote
  {
    Quote(0, companyName, symbol, DefaultExchange, DefaultCurrency, description,
          currentPrice, change, percentChange, website, lastTradeDate)
  }

  /** A new author is an individual contributor, not primary, with the CMS
      avatar URLs and no Twitter name or biographies. */
  lemma AuthorDefaults(a: Author)
    requires a == NewAuthor(a.uuid, a.username, a.byline, a.email, a.firstName, a.lastName, a.foolUid)
    ensures ParseContributorType("individual") == Some(a.contributorType)
    ensures !a.primary
    ensures a.smallAvatarUrl == DefaultSmallAvatarUrl && a.largeAvatarUrl == DefaultLargeAvatarUrl
    ensures a.twitterUsername.None? && a.shortBio.None? && a.longBio.None?
  {
    ContributorTypeRoundTrip(a.contributorType, "");
  }

  /** A new article is of the ARTICLE type, not a static page, with an empty
      promo and no image name or disclosure. */
  lemma ArticleDefaults(r: Article)
    requires r == NewArticle(r.uuid, r.body, r.headline, r.byline, r.featuredImageUrl, r.path,
                             r.created, r.publishAt, r.modified)
    ensures ParseArticleType("article") == Some(r.articleType)
    ensures !r.staticPage && r.promo == ""
    ensures r.featuredImageName.None? && r.disclosure.None?
  {
    ArticleTypeRoundTrip(r.articleType, "");
  }

  /** A new quote is on the UNKNOWN exchange and priced in USD. */
  lemma QuoteDefaults(q: Quote)
    requires q == NewQuote(q.companyName, q.symbol, q.description, q.currentPrice, q.change,
                           q.percentChange, q.website, q.lastTradeDate)
    ensures ParseExchangeType("UNKNOWN") == Some(q.exchange)
    ensures ParseCurrencyType("USD") == Some(q.currencyCode)
  {
    ExchangeTypeRoundTrip(q.exchange, "");
    CurrencyTypeRoundTrip(q.currencyCode, "");
  }

  // ---------------------------------------------------------------------------
  // Author.clean and the string forms.

  /** The real name as the byline check spells it: first and last name
      separated by exactly one space. */
  function RealName(a: Author): string {
    a.firstName + " " + a.lastName
  }

  /** `Author.clean`: a validation error unless the byline is the real name
      or the username. It only reads the author. */
  function Clean(a: Author): (r: Outcome<Error>)
    ensures r.Fail? <==> a.byline != RealName(a) && a.byline != a.username
    ensures r.Fail? ==> r.error.ValidationError?
  {
    if a.byline in {RealName(a), a.username} then Pass
    else Fail(ValidationError("Byline must match either real name or username."))
  }

  /** The byline equals the real name exactly when it is the first name, one
      space and the last name, with nothing before, between or after. */
  lemma {:induction false} BylineIsRealName(a: Author)
    ensures a.byline == RealName(a) <==>
      |a.byline| == |a.firstName| + 1 + |a.lastName| &&
      a.byline[..|a.firstName|] == a.firstName &&
      a.byline[|a.firstName|] == ' ' &&
      a.byline[|a.firstName| + 1..] == a.lastName
  {
    var b, f, l := a.byline, a.firstName, a.lastName;
    if b == RealName(a) {
      assert b == f + " " + l;
      assert b[..|f|] == f;
      assert b[|f| + 1..] == l;
    }
  }

  /** `Author.__str__`: the byline; for an author that passes `clean` it is
      the real name or the username. */
  function AuthorStr(a: Author): (s: string)
    ensures Clean(a).Pass? ==> s == RealName(a) || s == a.username
  {
    a.byline
  }

  /** `Article.__str__`: the headline. */
  function ArticleStr(r: Article): string {
    r.headline
  }

  /** `Quote.__str__`: the ticker symbol. */
  function QuoteStr(q: Quote): string {
    q.symbol
  }

  // ---------------------------------------------------------------------------
  // Unique constraints: which two rows of one table a constraint forbids.

  const AuthorConstraints: seq<Constraint> := [AuthorPrimaryKey, AuthorUsername, AuthorFoolUid]
  const ArticleConstraints: seq<Constraint> := [ArticlePrimaryKey, ArticlePath]
  const QuoteConstraints: seq<Constraint> := [QuotePrimaryKey, QuoteSymbolExchangeDate]

  predicate AuthorsCollide(c: Constraint, x: Author, y: Author) {
    match c
    case AuthorPrimaryKey => x.uuid == y.uuid
    case AuthorUsername => x.username == y.username
    case AuthorFoolUid => x.foolUid == y.foolUid
    case _ => false
  }

  predicate ArticlesCollide(c: Constraint, x: Article, y: Article) {
    match c
    case ArticlePrimaryKey => x.uuid == y.uuid
    case ArticlePath => x.path == y.path
    case _ => false
  }

  /** Two quotes collide on the triple only when all three components agree. */
  predicate QuotesCollide(c: Constraint, x: Quote, y: Quote) {
    match c
    case QuotePrimaryKey => x.id == y.id
    case QuoteSymbolExchangeDate =>
      x.symbol == y.symbol && x.exchange == y.exchange && x.lastTradeDate == y.lastTradeDate
    case _ => false
  }
}
