/**
 * The persisted rows of the ledger and the in-memory store that stands for the repositories.
 * Users are identified by their e-mail address, which is how every ownership check compares them.
 */
module Entities {
  import opened Wrappers
  import opened ErrorCodes

  type Email = string
  /** A generated primary key (Java `Long`). */
  type Id = int
  /** A creation timestamp supplied by the persistence layer's clock. */
  type Instant = int

  /** The type shared by categories and transactions. */
  datatype CategoryType = INCOME | EXPENSE

  /** A calendar date (`LocalDate`). */
  datatype Date = Date(year: int, month: int, day: int)

  /** An account row: owner, name and an integer balance in minor currency units. */
  datatype AccountRecord = AccountRecord(owner: Email, name: string, balance: int)

  /** A category row; `kind` is the category's type. */
  datatype CategoryRecord = CategoryRecord(owner: Email, name: string, kind: CategoryType, createdAt: Instant)

  /**
   * A transaction row: owner, optional linked account, category, type, amount, optional description,
   * date and creation time. Every field except `account` and `description` is mandatory.
   */
  datatype TransactionRecord = TransactionRecord(
    owner: Email,
    account: Option<Id>,
    category: Id,
    kind: CategoryType,
    amount: int,
    description: Option<string>,
    date: Date,
    createdAt: Instant)

  /** A row of the default-category table copied to every new user. */
  datatype DefaultCategory = DefaultCategory(name: string, kind: CategoryType)

  /** The whole persisted state; each `next...Id` is the next key the table's identity column hands out. */
  datatype Store = Store(
    users: set<Email>,
    accounts: map<Id, AccountRecord>,
    categories: map<Id, CategoryRecord>,
    transactions: map<Id, TransactionRecord>,
    defaultCategories: seq<DefaultCategory>,
    nextAccountId: Id,
    nextCategoryId: Id,
    nextTransactionId: Id)

  /** Identity columns only hand out keys above every key already in use. */
  ghost predicate WellFormed(s: Store)
  {
    && (forall id :: id in s.accounts ==> id < s.nextAccountId)
    && (forall id :: id in s.categories ==> id < s.nextCategoryId)
    && (forall id :: id in s.transactions ==> id < s.nextTransactionId)
  }

  /** The result of one service call together with the store it leaves behind. */
  datatype Step<+T> = Step(result: Result<T, ErrorCode>, store: Store)
}
