/** The repositories, as one mutable object whose fields are the tables. */
module Persistence {
  import opened Entities

  class Db {
    var users: set<Email>
    var accounts: map<Id, AccountRecord>
    var categories: map<Id, CategoryRecord>
    var transactions: map<Id, TransactionRecord>
    var defaultCategories: seq<DefaultCategory>
    var nextAccountId: Id
    var nextCategoryId: Id
    var nextTransactionId: Id

    constructor (s: Store)
      ensures State() == s
    {
      users, accounts, categories, transactions := s.users, s.accounts, s.categories, s.transactions;
      defaultCategories := s.defaultCategories;
      nextAccountId, nextCategoryId, nextTransactionId := s.nextAccountId, s.nextCategoryId, s.nextTransactionId;
    }

    /** The tables as a value. */
    function State(): Store
      reads this
    {
      Store(users, accounts, categories, transactions, defaultCategories,
            nextAccountId, nextCategoryId, nextTransactionId)
    }
  }
}
