/** The exceptions that the blog's models and views can raise. */
module Errors {

  /** The table-level uniqueness constraints of the database schema. */
  datatype Constraint =
    | AuthorPrimaryKey          // Author.uuid
    | AuthorUsername            // Author.username, unique=True
    | AuthorFoolUid             // Author.fool_uid, unique=True
    | ArticlePrimaryKey         // Article.uuid
    | ArticlePath               // Article.path, unique=True
    | QuotePrimaryKey           // Quote.id, the implicit auto-increment key
    | QuoteSymbolExchangeDate   // Quote.Meta.unique_together

  datatype Error =
    | ValidationError(message: string)   // raised by Author.clean
    | IntegrityError(constraint: Constraint)   // an INSERT that breaks a unique constraint
    | DoesNotExist             // get() or latest() on an empty result
    | MultipleObjectsReturned  // get() matching more than one row
    | IndexError               // random.choice on an empty sequence
}
