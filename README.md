# Finance blog content model and view selection, in Dafny

This project models the core of a small Django finance blog: the content
models (`Author`, `Article`, `Quote`) with their choice enumerations, defaults,
`Author.clean` byline check and the unique constraints of their tables, and
the selection logic of the views that build the home page, the article page
and the "three more quotes" AJAX response.

- `wrappers.dfy` (`Wrappers`): `Option`, `Result`, `Outcome`.
- `errors.dfy` (`Errors`): the exceptions the models and views raise
  (`ValidationError`, `IntegrityError` naming a unique constraint,
  `DoesNotExist`, `MultipleObjectsReturned`, `IndexError`).
- `models.dfy` (`Models`): the choice enumerations with their stored values
  and labels, the three entities as datatypes, their defaults, `Clean`, the
  string forms, and which pairs of rows each unique constraint forbids.
- `queries.dfy` (`Queries`): the query-set operations the views use
  (`filter`/`exclude` as `Filter`, `latest`, `get`) and `random.choice`.
- `store.dfy` (`Database`): the `Store` class, one `seq` per table, whose
  insert methods reject a row that breaks a unique constraint and leave every
  table unchanged in that case.
- `views.dfy` (`Views`): `index`, `index_throwback`, `article_detail`,
  `article_detail_throwback` and `get_three_more_quotes`.

Modelling choices:

- UUIDs are opaque naturals and date-times are integer timestamps.
- `random.choice` is a nondeterministic pick (`:|`) from the candidates, or
  `IndexError` when there are none. Each draw is independent, so the three
  draws of a view may repeat an element; no contract says they differ.
- `latest("publish_at")` returns some row of greatest `publish_at`; which of
  several tied rows comes back is left open.
- No view has a `modifies` clause, so Dafny checks that no view changes the
  store.
- `Article.__str__` and `Quote.__str__` are modelled as `ArticleStr` and
  `QuoteStr` (the headline and the symbol); `AuthorStr` is the byline.
- `Quote` has Django's implicit auto-increment `id`; the store assigns it
  from `nextQuoteId` on every successful insert.

Three points where the code behaves differently from what one might expect:

- Inserting an author does not run the byline check: Django's `save()` does not
  call `clean()`. `Clean` is a separate check that returns a `ValidationError`,
  and the store's invariant does not include it.
- A duplicate unique key is rejected by the database with an `IntegrityError`,
  not a validation error.
- Drawing from an empty candidate set raises `IndexError` (from
  `random.choice`), not a not-found error.

## Model

| member | source | states |
|---|---|---|
| `Models.ParseChoice` | finance_blog/models.py:43-47 | A stored string reads as a choice only if that choice is listed and has that stored value; it reads as nothing only if no listed choice has it. |
| `Models.ContributorTypeRoundTrip` | finance_blog/models.py:43-47 | Every contributor type reads back from its stored value, and a string is a contributor type iff it is one of "individual", "company", "sponsor", "staff". |
| `Models.ArticleTypeRoundTrip` | finance_blog/models.py:76-78 | The same for article types: exactly "article" and "10-promise-series". |
| `Models.ExchangeTypeRoundTrip` | finance_blog/models.py:114-120 | The same for exchanges: exactly "NYSE", "NASDAQ", "NYSEMKT", "NASDAQOTH", "UNKNOWN". |
| `Models.CurrencyTypeRoundTrip` | finance_blog/models.py:122-124 | The same for currencies: "USD" is the only one. |
| `Models.AuthorDefaults` | finance_blog/models.py:50-69 | A new author is an "individual" contributor, not primary, with the two default avatar URLs and no Twitter name or biographies. |
| `Models.ArticleDefaults` | finance_blog/models.py:83-96 | A new article has type "article", is not a static page, has an empty promo and no image name or disclosure. |
| `Models.QuoteDefaults` | finance_blog/models.py:128-133 | A new quote is on the "UNKNOWN" exchange and priced in "USD". |
| `Models.Clean` | finance_blog/models.py:38-41 | `clean` fails, with a ValidationError, iff the byline is neither the real name nor the username; it is a function of the author and changes nothing. |
| `Models.BylineIsRealName` | finance_blog/models.py:40 | The byline is the real name iff it is the first name, exactly one space and the last name, with nothing around them. |
| `Models.AuthorStr` | finance_blog/models.py:71-72 | The string form of an author that passes `clean` is its real name or its username. |
| `Models.ArticleStr` | finance_blog/models.py:98-99 | The string form of an article is its headline (a field projection, no contract). |
| `Models.QuoteStr` | finance_blog/models.py:147-148 | The string form of a quote is its symbol (a field projection, no contract). |
| `Database.Violation` | finance_blog/models.py:143-145 | The constraint reported for a new row is one of the table's constraints and some stored row collides with the new row on it; nothing is reported iff no stored row collides on any constraint. |
| `Database.InsertKeepsUnique` | finance_blog/models.py:52-145 | Appending a row that breaks no constraint keeps a table unique. |
| `Database.AuthorsUniqueFields` | finance_blog/models.py:52-63 | An author table is unique iff no two authors share a uuid, a username or a fool_uid. |
| `Database.ArticlesUniqueFields` | finance_blog/models.py:80-91 | An article table is unique iff no two articles share a uuid or a path. |
| `Database.QuotesUniqueFields` | finance_blog/models.py:143-145 | A quote table is unique iff no two quotes share an id and no two agree on all of symbol, exchange and last trade date. |
| `Database.QuotesDifferingInOneComponentCoexist` | finance_blog/models.py:143-145 | Two quotes that differ in any one of symbol, exchange and last trade date can both be stored. |
| `Database.ArticleUuidsUnique` | finance_blog/models.py:80 | In a unique article table at most one article has a given uuid. |
| `Database.WriteThenRead` | finance_blog/models.py:80 | An article read back by its uuid after a successful insert is exactly the article written. |
| `Database.Store.InsertAuthor` | finance_blog/models.py:52-63 | An author is stored iff no stored author has its uuid, username or fool_uid; otherwise IntegrityError names a broken constraint and nothing changes. The byline is not checked. The store stays unique. |
| `Database.Store.InsertArticle` | finance_blog/models.py:80-91 | An article is stored iff no stored article has its uuid or path; otherwise IntegrityError and nothing changes. The store stays unique. |
| `Database.Store.InsertQuote` | finance_blog/models.py:126-145 | A quote gets the next id and is stored iff no stored quote has the same symbol, exchange and last trade date; otherwise IntegrityError on that constraint and nothing changes. |
| `Queries.Filter` | finance_blog/views.py:20-24 | `filter`/`exclude` keep every row that satisfies the condition exactly as often as it occurs, and drop every other row. |
| `Queries.FilterAtMostOne` | finance_blog/views.py:51 | A condition that at most one row satisfies keeps at most one row. |
| `Queries.ArgMax` | finance_blog/views.py:20-22 | The position returned holds a greatest key among the rows considered. |
| `Queries.Latest` | finance_blog/views.py:20-22 | `latest` fails with DoesNotExist iff there are no rows; otherwise it returns a row whose key is at least that of every row. |
| `Queries.Get` | finance_blog/views.py:51 | `get` returns a row that satisfies the condition; DoesNotExist iff no row does; any other failure is MultipleObjectsReturned. |
| `Queries.FilterTwo` | finance_blog/views.py:51 | Two matching positions leave at least two rows after filtering. |
| `Queries.GetMultipleIff` | finance_blog/views.py:51 | `get` raises MultipleObjectsReturned iff two rows match; so it succeeds iff exactly one does. |
| `Queries.GetNeverMultiple` | finance_blog/views.py:51 | A lookup by a unique key never raises MultipleObjectsReturned. |
| `Queries.GetFinds` | finance_blog/views.py:51 | A lookup by a unique key returns the row that has the key. |
| `Queries.Choice` | finance_blog/views.py:27-29 | `random.choice` fails with IndexError iff the candidates are empty, and otherwise returns one of them. |
| `Views.ExcludeEmptyIffAlone` | finance_blog/views.py:24-29 | With unique uuids, excluding a stored article leaves nothing iff it is the only article. |
| `Views.SelectIndexContext` | finance_blog/views.py:20-29 | No 10-promise-series article gives DoesNotExist; a lone article gives IndexError; otherwise the main article is a newest 10-promise-series article and each side article is a stored article with a different uuid. |
| `Views.Index` | finance_blog/views.py:14-31 | The home page has that selection and is rendered with "blog/home.html". |
| `Views.IndexThrowback` | finance_blog/views.py:34-47 | The same selection as `index`, rendered with "throwback/home.html". |
| `Views.SelectDetailContext` | finance_blog/views.py:51-58 | No article with the uuid gives DoesNotExist; no quotes gives IndexError; otherwise the article with that uuid and three stored quotes. |
| `Views.ArticleDetail` | finance_blog/views.py:50-59 | The article page has that selection and is rendered with "blog/article.html". |
| `Views.ArticleDetailThrowback` | finance_blog/views.py:62-71 | The same selection as `article_detail`, rendered with "throwback/article.html". |
| `Views.GetThreeMoreQuotes` | finance_blog/views.py:74-83 | A GET returns three stored quotes, or IndexError when there are none; any other method returns nothing; whether the request is AJAX plays no part. |
| `Views.NewestIsUniqueForDistinctTimes` | finance_blog/views.py:20-22 | When 10-promise-series articles have distinct publication times, the main article is determined: the one published last. |
| `Views.RepeatedSideArticlesAllowed` | finance_blog/views.py:23-29 | Any valid home page with its first side article repeated three times is also valid: distinctness is never promised. |
| `Views.TwoArticlesForceRepeats` | finance_blog/views.py:23-29 | With exactly two articles, the three side articles are necessarily the same article. |

## Left out

- URL routing, `render`, the templates, `HttpResponse` and `model_to_dict`
  serialisation: presentation and transport only. A view's result is the
  template name and its context, or the exception it raises.
- `sanity_check` and its test: it returns a constant string.
- What Django does when `get_three_more_quotes` returns nothing for a non-GET
  request (it rejects a view that returns no response): the model stops at
  the view's own `None`.
- The random distribution: `random.choice` is only a nondeterministic member
  of the candidates; uniformity is not stated.
- Field validation that Django or the database does: `max_length`, URL and
  e-mail formats, the 64-bit range of `fool_uid` and the digit limits of the
  decimal fields. Decimals are kept as unscaled integers with a scale and no
  arithmetic is done on them.
- The relation `change = current_price - close_price`: only a TODO in the source.
- A foreign key from `Article.byline` to `Author.byline`: only a comment in the
  source; the byline is a plain string.
- UUID generation, clocks and date-time semantics: ids are supplied by the
  caller and timestamps are integers. Gaps that a failed insert leaves in the
  quote id sequence are not modelled.
- Stored values outside the listed choices for `contributorType`,
  `articleType`, `exchange` and `currencyCode`: Django's `save()` does not
  validate `choices` (only `full_clean()` does), so the program can store,
  say, the label "10 Promise Series" as an article type, which the home
  page's filter would then never select. The model types these fields by
  their enumerations and cannot represent such a row.
- The translation of choice labels: `Label()` returns the untranslated text.
- The empty `Tag` and `Instruments` models and the unfinished comment form:
  no fields and no logic.
- Database transactions and concurrent requests.
