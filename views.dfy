/** The selection logic of the blog's views. Each view reads the store and
    never changes it (no view has a `modifies` clause); what it hands to the
    template is a `Page`. Exceptions a view raises are `Failure`s. */
module Views {
  import opened Wrappers
  import opened Errors
  import opened Models
  import opened Queries
  import opened Database

  /** The context of the home page: the newest 10-promise-series article and
      three more articles drawn at random. */
  datatype IndexContext = IndexContext(mainArticle: Article, article1: Article, article2: Article, article3: Article)

  /** The context of an article page: the article and three quotes drawn at random. */
  datatype DetailContext = DetailContext(articleDet: Article, quote1: Quote, quote2: Quote, quote3: Quote)

  /** What a view passes to `render`: a template name and its context. */
  datatype Page<C> = Page(template: string, context: C)

  /** The parts of an HTTP request that `get_three_more_quotes` looks at.
      `isAjax` is what `request.is_ajax()` would answer; the view never calls
      it, and the bound method it tests instead is always true. */
  datatype Request = Request(httpMethod: string, isAjax: bool)

  const HomeTemplate := "blog/home.html"
  const HomeThrowbackTemplate := "throwback/home.html"
  const ArticleTemplate := "blog/article.html"
  const ArticleThrowbackTemplate := "throwback/article.html"

  /** `Article.objects.filter(article_type=TEN_PROMISE_SERIES)`. */
  function PromiseArticles(articles: seq<Article>): seq<Article> {
    Filter(articles, (a: Article) => a.articleType == TenPromiseSeries)
  }

  /** `Article.objects.exclude(uuid=id)`. */
  function Exclude(articles: seq<Article>, id: Uuid): seq<Article> {
    Filter(articles, (a: Article) => a.uuid != id)
  }

  predicate HasPromiseArticle(articles: seq<Article>) {
    exists a :: a in articles && a.articleType == TenPromiseSeries
  }

  /** `main` is a stored 10-promise-series article published no earlier than
      any other 10-promise-series article. */
  ghost predicate IsNewestPromiseArticle(articles: seq<Article>, main: Article) {
    main in articles && main.articleType == TenPromiseSeries &&
    forall a :: a in articles && a.articleType == TenPromiseSeries ==> a.publishAt <= main.publishAt
  }

  /** The three side articles are stored articles other than the main one.
      They are not required to differ from each other. */
  ghost predicate IsIndexContext(articles: seq<Article>, ctx: IndexContext) {
    IsNewestPromiseArticle(articles, ctx.mainArticle) &&
    ctx.article1 in articles && ctx.article1.uuid != ctx.mainArticle.uuid &&
    ctx.article2 in articles && ctx.article2.uuid != ctx.mainArticle.uuid &&
    ctx.article3 in articles && ctx.article3.uuid != ctx.mainArticle.uuid
  }

  /** What the home page may produce from a table of articles: DoesNotExist
      without a 10-promise-series article, IndexError when that article is
      the only one, and otherwise a context as above. */
  ghost predicate IndexOutcome(articles: seq<Article>, r: Result<IndexContext, Error>) {
    if !HasPromiseArticle(articles) then r == Failure(DoesNotExist)
    else if |articles| == 1 then r == Failure(IndexError)
    else r.Success? && IsIndexContext(articles, r.value)
  }

  /** The article page: DoesNotExist when no article has the uuid, IndexError
      when there are no quotes, and otherwise that article with three stored
      quotes, not necessarily distinct. */
  ghost predicate DetailOutcome(articles: seq<Article>, quotes: seq<Quote>, id: Uuid,
                                r: Result<DetailContext, Error>) {
    if forall a :: a in articles ==> a.uuid != id then r == Failure(DoesNotExist)
    else if quotes == [] then r == Failure(IndexError)
    else
      r.Success? && r.value.articleDet in articles && r.value.articleDet.uuid == id &&
      r.value.quote1 in quotes && r.value.quote2 in quotes && r.value.quote3 in quotes
  }

  /** The context of a rendered page, or the exception. */
  function ContextOf<C>(r: Result<Page<C>, Error>): Result<C, Error> {
    match r
    case Success(page) => Success(page.context)
    case Failure(e) => Failure(e)
  }

  /** With unique primary keys, the articles other than a stored one run out
      exactly when it is the only article. */
  lemma ExcludeEmptyIffAlone(articles: seq<Article>, main: Article)
    requires ArticlesUnique(articles)
    requires main in articles
    ensures Exclude(articles, main.uuid) == [] <==> |articles| == 1
  {
    ArticlesUniqueFields(articles);
    var k :| 0 <= k < |articles| && articles[k] == main;
    if |articles| == 1 {
      assert forall a :: a in articles ==> a == main;
      FilterNone(articles, (a: Article) => a.uuid != main.uuid);
    } else {
      var j := if k == 0 then 1 else 0;
      assert articles[j].uuid != main.uuid;
      assert articles[j] in Exclude(articles, main.uuid);
    }
  }

  /** The selection shared by `index` and `index_throwback`. */
  method SelectIndexContext(store: Store) returns (r: Result<IndexContext, Error>)
    requires store.Valid()
    ensures IndexOutcome(store.articles, r)
  {
    var articles := store.articles;
    var newest := Latest(PromiseArticles(articles), (a: Article) => a.publishAt);
    if newest.Failure? {
      return Failure(newest.error);
    }
    var main := newest.value;
    ExcludeEmptyIffAlone(articles, main);
    var others := Exclude(articles, main.uuid);
    var a1 := Choice(others);
    if a1.Failure? {
      return Failure(a1.error);
    }
    var a2 := Choice(others);
    var a3 := Choice(others);
    return Success(IndexContext(main, a1.value, a2.value, a3.value));
  }

  /** `index`: the home page. */
  method Index(store: Store) returns (r: Result<Page<IndexContext>, Error>)
    requires store.Valid()
    ensures IndexOutcome(store.articles, ContextOf(r))
    ensures r.Success? ==> r.value.template == HomeTemplate
  {
    var ctx := SelectIndexContext(store);
    if ctx.Failure? {
      return Failure(ctx.error);
    }
    return Success(Page(HomeTemplate, ctx.value));
  }

  /** `index_throwback`: the same selection as `index`, another template. */
  method IndexThrowback(store: Store) returns (r: Result<Page<IndexContext>, Error>)
    requires store.Valid()
    ensures IndexOutcome(store.articles, ContextOf(r))
    ensures r.Success? ==> r.value.template == HomeThrowbackTemplate
  {
    var ctx := SelectIndexContext(store);
    if ctx.Failure? {
      return Failure(ctx.error);
    }
    return Success(Page(HomeThrowbackTemplate, ctx.value));
  }

  /** The selection shared by `article_detail` and `article_detail_throwback`. */
  method SelectDetailContext(store: Store, id: Uuid) returns (r: Result<DetailContext, Error>)
    requires store.Valid()
    ensures DetailOutcome(store.articles, store.quotes, id, r)
  {
    var article := Get(store.articles, (a: Article) => a.uuid == id);
    ArticleUuidsUnique(store.articles, id);
    GetNeverMultiple(store.articles, (a: Article) => a.uuid == id);
    if article.Failure? {
      return Failure(article.error);
    }
    var quotes := store.quotes;
    var q1 := Choice(quotes);
    if q1.Failure? {
      return Failure(q1.error);
    }
    var q2 := Choice(quotes);
    var q3 := Choice(quotes);
    return Success(DetailContext(article.value, q1.value, q2.value, q3.value));
  }

  /** `article_detail`: the article page for the article with uuid `id`. */
  method ArticleDetail(store: Store, id: Uuid) returns (r: Result<Page<DetailContext>, Error>)
    requires store.Valid()
    ensures DetailOutcome(store.articles, store.quotes, id, ContextOf(r))
    ensures r.Success? ==> r.value.template == ArticleTemplate
  {
    var ctx := SelectDetailContext(store, id);
    if ctx.Failure? {
      return Failure(ctx.error);
    }
    return Success(Page(ArticleTemplate, ctx.value));
  }

  /** `article_detail_throwback`: the same selection as `article_detail`,
      another template. */
  method ArticleDetailThrowback(store: Store, id: Uuid) returns (r: Result<Page<DetailContext>, Error>)
    requires store.Valid()
    ensures DetailOutcome(store.articles, store.quotes, id, ContextOf(r))
    ensures r.Success? ==> r.value.template == ArticleThrowbackTemplate
  {
    var ctx := SelectDetailContext(store, id);
    if ctx.Failure? {
      return Failure(ctx.error);
    }
    return Success(Page(ArticleThrowbackTemplate, ctx.value));
  }

  /** `get_three_more_quotes`: for a GET, three quotes drawn at random (not
      necessarily distinct), IndexError when there are none; for any other
      method the view returns nothing (`None`). `isAjax` plays no part. */
  method GetThreeMoreQuotes(store: Store, request: Request) returns (r: Result<Option<seq<Quote>>, Error>)
    ensures request.httpMethod != "GET" ==> r == Success(None)
    ensures request.httpMethod == "GET" && store.quotes == [] ==> r == Failure(IndexError)
    ensures request.httpMethod == "GET" && store.quotes != [] ==>
      (r.Success? && r.value.Some? && |r.value.value| == 3 &&
       forall q :: q in r.value.value ==> q in store.quotes)
  {
    if request.httpMethod == "GET" {
      var quotes := store.quotes;
      var q1 := Choice(quotes);
      if q1.Failure? {
        return Failure(q1.error);
      }
      var q2 := Choice(quotes);
      var q3 := Choice(quotes);
      return Success(Some([q1.value, q2.value, q3.value]));
    }
    return Success(None);
  }

  /** When the 10-promise-series articles have pairwise distinct publication
      times, the main article of the home page is determined. */
  lemma {:induction false} NewestIsUniqueForDistinctTimes(articles: seq<Article>, m1: Article, m2: Article)
    requires forall i, j ::
      (0 <= i < j < |articles| &&
       articles[i].articleType == TenPromiseSeries && articles[j].articleType == TenPromiseSeries) ==>
      articles[i].publishAt != articles[j].publishAt
    requires IsNewestPromiseArticle(articles, m1) && IsNewestPromiseArticle(articles, m2)
    ensures m1 == m2
  {
    var i :| 0 <= i < |articles| && articles[i] == m1;
    var j :| 0 <= j < |articles| && articles[j] == m2;
    assert m1.publishAt == m2.publishAt;
  }

  /** Drawing the same side article three times is always a possible home
      page: the side articles are never promised to be distinct. */
  lemma RepeatedSideArticlesAllowed(articles: seq<Article>, ctx: IndexContext)
    requires IsIndexContext(articles, ctx)
    ensures IsIndexContext(articles, ctx.(article2 := ctx.article1, article3 := ctx.article1))
  {
  }

  /** With exactly two articles, the three side articles are all the same one. */
  lemma {:induction false} TwoArticlesForceRepeats(articles: seq<Article>, ctx: IndexContext)
    requires |articles| == 2 && articles[0].uuid != articles[1].uuid
    requires IsIndexContext(articles, ctx)
    ensures ctx.article1 == ctx.article2 == ctx.article3
  {
    var main := ctx.mainArticle;
    assert main == articles[0] || main == articles[1];
    var other := if main == articles[0] then articles[1] else articles[0];
    assert forall a :: a in articles && a.uuid != main.uuid ==> a == other;
  }
}
