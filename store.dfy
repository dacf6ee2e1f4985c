/** The relational store behind the models: one table per entity, each a
    sequence of rows in insertion order, with the schema's unique constraints
    enforced on every INSERT. `Author.clean` is not part of an INSERT. */
module Database {
  import opened Wrappers
  import opened Errors
  import opened Models
  import opened Queries

  /** No two rows of a table collide on any of its constraints. */
  predicate Unique<T>(rows: seq<T>, constraints: seq<Constraint>, collide: (Constraint, T, T) -> bool) {
    forall c, i, j :: c in constraints && 0 <= i < j < |rows| ==> !collide(c, rows[i], rows[j])
  }

  /** The first constraint, in schema order, that `row` would break if it
      were added to `rows`; None when it can be added. */
  function Violation<T>(rows: seq<T>, constraints: seq<Constraint>,
                        collide: (Constraint, T, T) -> bool, row: T): (v: Option<Constraint>)
    ensures v.Some? ==>
      (v.value in constraints && exists i :: 0 <= i < |rows| && collide(v.value, rows[i], row))
    ensures v.None? <==> forall c, i :: c in constraints && 0 <= i < |rows| ==> !collide(c, rows[i], row)
  {
    if constraints == [] then None
    else if exists i :: 0 <= i < |rows| && collide(constraints[0], rows[i], row) then Some(constraints[0])
    else
      assert constraints == [constraints[0]] + constraints[1..];
      Violation(rows, constraints[1..], collide, row)
  }

  /** Adding a row that breaks no constraint keeps the table unique. */
  lemma {:induction false} InsertKeepsUnique<T>(rows: seq<T>, constraints: seq<Constraint>,
                                                 collide: (Constraint, T, T) -> bool, row: T)
    requires Unique(rows, constraints, collide)
    requires Violation(rows, constraints, collide, row).None?
    ensures Unique(rows + [row], constraints, collide)
  {
    var rows' := rows + [row];
    forall c, i, j | c in constraints && 0 <= i < j < |rows'|
      ensures !collide(c, rows'[i], rows'[j])
    {
      assert rows'[i] == rows[i];
      if j < |rows| {
        assert rows'[j] == rows[j];
      } else {
        assert rows'[j] == row;
      }
    }
  }

  predicate AuthorsUnique(authors: seq<Author>) {
    Unique(authors, AuthorConstraints, AuthorsCollide)
  }

  predicate ArticlesUnique(articles: seq<Article>) {
    Unique(articles, ArticleConstraints, ArticlesCollide)
  }

  predicate QuotesUnique(quotes: seq<Quote>) {
    Unique(quotes, QuoteConstraints, QuotesCollide)
  }

  /** An author table keeps its constraints exactly when no two authors share
      a uuid, a username or a fool_uid. */
  lemma AuthorsUniqueFields(authors: seq<Author>)
    ensures AuthorsUnique(authors) <==>
      forall i, j :: 0 <= i < j < |authors| ==>
        authors[i].uuid != authors[j].uuid && authors[i].username != authors[j].username &&
        authors[i].foolUid != authors[j].foolUid
  {
    if AuthorsUnique(authors) {
      assert AuthorPrimaryKey in AuthorConstraints && AuthorUsername in AuthorConstraints;
      assert AuthorFoolUid in AuthorConstraints;
      forall i, j | 0 <= i < j < |authors|
        ensures authors[i].uuid != authors[j].uuid && authors[i].username != authors[j].username &&
                authors[i].foolUid != authors[j].foolUid
      {
        assert !AuthorsCollide(AuthorPrimaryKey, authors[i], authors[j]);
        assert !AuthorsCollide(AuthorUsername, authors[i], authors[j]);
        assert !AuthorsCollide(AuthorFoolUid, authors[i], authors[j]);
      }
    }
  }

  /** An article table keeps its constraints exactly when no two articles
      share a uuid or a path. */
  lemma ArticlesUniqueFields(articles: seq<Article>)
    ensures ArticlesUnique(articles) <==>
      forall i, j :: 0 <= i < j < |articles| ==>
        articles[i].uuid != articles[j].uuid && articles[i].path != articles[j].path
  {
    if ArticlesUnique(articles) {
      assert ArticlePrimaryKey in ArticleConstraints && ArticlePath in ArticleConstraints;
      forall i, j | 0 <= i < j < |articles|
        ensures articles[i].uuid != articles[j].uuid && articles[i].path != articles[j].path
      {
        assert !ArticlesCollide(ArticlePrimaryKey, articles[i], articles[j]);
        assert !ArticlesCollide(ArticlePath, articles[i], articles[j]);
      }
    }
  }

  /** A quote table keeps its constraints exactly when no two quotes share an
      id, and no two agree on all of symbol, exchange and last trade date. */
  lemma QuotesUniqueFields(quotes: seq<Quote>)
    ensures QuotesUnique(quotes) <==>
      forall i, j :: 0 <= i < j < |quotes| ==>
        quotes[i].id != quotes[j].id &&
        (quotes[i].symbol != quotes[j].symbol || quotes[i].exchange != quotes[j].exchange ||
         quotes[i].lastTradeDate != quotes[j].lastTradeDate)
  {
    if QuotesUnique(quotes) {
      assert QuotePrimaryKey in QuoteConstraints && QuoteSymbolExchangeDate in QuoteConstraints;
      forall i, j | 0 <= i < j < |quotes|
        ensures quotes[i].id != quotes[j].id &&
          (quotes[i].symbol != quotes[j].symbol || quotes[i].exchange != quotes[j].exchange ||
           quotes[i].lastTradeDate != quotes[j].lastTradeDate)
      {
        assert !QuotesCollide(QuotePrimaryKey, quotes[i], quotes[j]);
        assert !QuotesCollide(QuoteSymbolExchangeDate, quotes[i], quotes[j]);
      }
    }
  }

  /** Article primary keys are unique in a table that keeps its constraints,
      so a lookup by uuid matches at most one row. */
  lemma {:induction false} ArticleUuidsUnique(articles: seq<Article>, id: Uuid)
    requires ArticlesUnique(articles)
    ensures AtMostOne(articles, (a: Article) => a.uuid == id)
  {
    ArticlesUniqueFields(articles);
  }

  /** An article read back by its uuid is the article that was written. */
  lemma WriteThenRead(articles: seq<Article>, a: Article)
    requires ArticlesUnique(articles)
    requires Violation(articles, ArticleConstraints, ArticlesCollide, a).None?
    ensures Get(articles + [a], (x: Article) => x.uuid == a.uuid) == Success(a)
  {
    InsertKeepsUnique(articles, ArticleConstraints, ArticlesCollide, a);
    ArticleUuidsUnique(articles + [a], a.uuid);
    GetFinds(articles + [a], (x: Article) => x.uuid == a.uuid, a);
  }

  /** Quotes that differ in any one of symbol, exchange and last trade date
      may both be stored, for instance one symbol listed on two exchanges. */
  lemma {:induction false} QuotesDifferingInOneComponentCoexist(quotes: seq<Quote>, q1: Quote, q2: Quote)
    requires QuotesUnique(quotes)
    requires Violation(quotes, QuoteConstraints, QuotesCollide, q1).None?
    requires q1.id != q2.id && forall q :: q in quotes ==> q.id != q2.id
    requires forall q :: q in quotes ==> !QuotesCollide(QuoteSymbolExchangeDate, q, q2)
    requires q1.symbol != q2.symbol || q1.exchange != q2.exchange || q1.lastTradeDate != q2.lastTradeDate
    ensures QuotesUnique(quotes + [q1] + [q2])
  {
    InsertKeepsUnique(quotes, QuoteConstraints, QuotesCollide, q1);
    var rows := quotes + [q1];
    forall c, i | c in QuoteConstraints && 0 <= i < |rows|
      ensures !QuotesCollide(c, rows[i], q2)
    {
      if i < |quotes| {
        assert rows[i] in quotes;
      }
    }
    InsertKeepsUnique(rows, QuoteConstraints, QuotesCollide, q2);
  }

  class Store {
    var authors: seq<Author>
    var articles: seq<Article>
    var quotes: seq<Quote>
    /** The next value of the quote table's auto-increment key. */
    var nextQuoteId: nat

    /** Every table keeps its unique constraints, and every quote id was
        handed out already. */
    ghost predicate Valid()
      reads this
    {
      AuthorsUnique(authors) && ArticlesUnique(articles) && QuotesUnique(quotes) &&
      forall q :: q in quotes ==> q.id < nextQuoteId
    }

    constructor ()
      ensures Valid()
      ensures authors == [] && articles == [] && quotes == [] && nextQuoteId == 1
    {
      authors, articles, quotes := [], [], [];
      nextQuoteId := 1;
    }

    /** INSERT INTO author: IntegrityError naming a broken constraint, or the
        stored row. The byline check of `clean` is not applied. */
    method InsertAuthor(a: Author) returns (r: Result<Author, Error>)
      requires Valid()
      modifies this
      ensures Valid()
      ensures r.Success? <==>
        forall c, i :: c in AuthorConstraints && 0 <= i < |old(authors)| ==> !AuthorsCollide(c, old(authors)[i], a)
      ensures r.Success? ==> r.value == a && authors == old(authors) + [a]
      ensures r.Failure? ==>
        (authors == old(authors) && r.error.IntegrityError? && r.error.constraint in AuthorConstraints &&
         exists i :: 0 <= i < |authors| && AuthorsCollide(r.error.constraint, authors[i], a))
      ensures articles == old(articles) && quotes == old(quotes) && nextQuoteId == old(nextQuoteId)
    {
      var v := Violation(authors, AuthorConstraints, AuthorsCollide, a);
      if v.Some? {
        return Failure(IntegrityError(v.value));
      }
      InsertKeepsUnique(authors, AuthorConstraints, AuthorsCollide, a);
      authors := authors + [a];
      return Success(a);
    }

    /** INSERT INTO article: IntegrityError on a duplicate uuid or path, or
        the stored row. */
    method InsertArticle(a: Article) returns (r: Result<Article, Error>)
      requires Valid()
      modifies this
      ensures Valid()
      ensures r.Success? <==>
        forall c, i :: c in ArticleConstraints && 0 <= i < |old(articles)| ==> !ArticlesCollide(c, old(articles)[i], a)
      ensures r.Success? ==> r.value == a && articles == old(articles) + [a]
      ensures r.Failure? ==>
        (articles == old(articles) && r.error.IntegrityError? && r.error.constraint in ArticleConstraints &&
         exists i :: 0 <= i < |articles| && ArticlesCollide(r.error.constraint, articles[i], a))
      ensures authors == old(authors) && quotes == old(quotes) && nextQuoteId == old(nextQuoteId)
    {
      var v := Violation(articles, ArticleConstraints, ArticlesCollide, a);
      if v.Some? {
        return Failure(IntegrityError(v.value));
      }
      InsertKeepsUnique(articles, ArticleConstraints, ArticlesCollide, a);
      articles := articles + [a];
      return Success(a);
    }

    /** INSERT INTO quote: the row gets the next auto-increment id, so only
        the (symbol, exchange, last_trade_date) constraint can reject it. */
    method InsertQuote(q: Quote) returns (r: Result<Quote, Error>)
      requires Valid()
      modifies this
      ensures Valid()
      ensures r.Success? <==>
        forall x :: x in old(quotes) ==> !QuotesCollide(QuoteSymbolExchangeDate, x, q)
      ensures r.Success? ==>
        (r.value == q.(id := old(nextQuoteId)) &&
         quotes == old(quotes) + [r.value] && nextQuoteId == old(nextQuoteId) + 1)
      ensures r.Failure? ==>
        (r == Failure(IntegrityError(QuoteSymbolExchangeDate)) &&
         quotes == old(quotes) && nextQuoteId == old(nextQuoteId))
      ensures authors == old(authors) && articles == old(articles)
    {
      var row := q.(id := nextQuoteId);
      var v := Violation(quotes, QuoteConstraints, QuotesCollide, row);
      assert forall i :: 0 <= i < |quotes| ==> !QuotesCollide(QuotePrimaryKey, quotes[i], row) by {
        forall i | 0 <= i < |quotes| ensures quotes[i].id < nextQuoteId {
          assert quotes[i] in quotes;
        }
      }
      if v.Some? {
        assert v.value == QuoteSymbolExchangeDate;
        return Failure(IntegrityError(v.value));
      }
      InsertKeepsUnique(quotes, QuoteConstraints, QuotesCollide, row);
      quotes := quotes + [row];
      nextQuoteId := nextQuoteId + 1;
      return Success(row);
    }
  }
}
