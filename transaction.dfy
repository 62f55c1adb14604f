/**
 * The transaction entity. Its key, owner and creation time have no mutator; `Update` reassigns
 * the editable fields in place and checks nothing about them.
 */
module TransactionEntity {
  import opened Wrappers
  import opened Entities

  class Transaction {
    const id: Id
    const user: Email
    var account: Option<Id>
    var category: Id
    var kind: CategoryType
    var amount: int
    var description: Option<string>
    var transactionDate: Date
    const createdAt: Instant

    /** Materialises a stored row as a managed entity. */
    constructor Load(id: Id, row: TransactionRecord)
      ensures this.id == id && Row() == row
    {
      this.id := id;
      user := row.owner;
      account := row.account;
      category := row.category;
      kind := row.kind;
      amount := row.amount;
      description := row.description;
      transactionDate := row.date;
      createdAt := row.createdAt;
    }

    /** The row the entity is flushed as. */
    function Row(): TransactionRecord
      reads this
    {
      TransactionRecord(user, account, category, kind, amount, description, transactionDate, createdAt)
    }

    /**
     * Sets the account link, category, type, amount, description and date to exactly the arguments.
     * No argument is validated: amount positivity and type/category agreement are the caller's job.
     */
    method Update(account: Option<Id>, category: Id, kind: CategoryType, amount: int,
                  description: Option<string>, transactionDate: Date)
      modifies this
      ensures this.account == account && this.category == category && this.kind == kind
      ensures this.amount == amount && this.description == description
      ensures this.transactionDate == transactionDate
      ensures Row() == old(Row()).(account := account, category := category, kind := kind, amount := amount,
                                   description := description, date := transactionDate)
    {
      this.account := account;
      this.category := category;
      this.kind := kind;
      this.amount := amount;
      this.description := description;
      this.transactionDate := transactionDate;
    }
  }
}
