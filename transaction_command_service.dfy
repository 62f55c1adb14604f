/**
 * The transaction command service over the mutable tables. Each public method performs its checks
 * in the source's order, returns at the first failure without touching the tables, and otherwise
 * writes the row and the balances; its postcondition ties the outcome and the new tables to the
 * corresponding function of module Ledger.
 */
module TransactionCommands {
  import opened Wrappers
  import opened ErrorCodes
  import opened Entities
  import Ledger
  import Persistence
  import TransactionEntity

  class TransactionCommandService {
    const db: Persistence.Db

    constructor (db: Persistence.Db)
      ensures this.db == db
    {
      this.db := db;
    }

    /** Adds the signed amount to the linked account's balance; does nothing without an account. */
    method ApplyBalance(account: Option<Id>, kind: CategoryType, amount: int)
      requires account.Some? ==> account.value in db.accounts
      modifies db
      ensures db.State() == old(db.State()).(accounts := Ledger.ApplyBalance(old(db.accounts), account, kind, amount))
    {
      if account.None? {
        return;
      }
      var row := db.accounts[account.value];
      var delta := if kind == INCOME then amount else -amount;
      db.accounts := db.accounts[account.value := row.(balance := row.balance + delta)];
    }

    /** Subtracts the signed amount from the linked account's balance; does nothing without an account. */
    method ReverseBalance(account: Option<Id>, kind: CategoryType, amount: int)
      requires account.Some? ==> account.value in db.accounts
      modifies db
      ensures db.State() == old(db.State()).(accounts := Ledger.ReverseBalance(old(db.accounts), account, kind, amount))
    {
      if account.None? {
        return;
      }
      var row := db.accounts[account.value];
      var delta := if kind == INCOME then -amount else amount;
      db.accounts := db.accounts[account.value := row.(balance := row.balance + delta)];
    }

    /** No account id gives no account; otherwise the account must exist and belong to `owner`. */
    method ResolveAccount(accountId: Option<Id>, owner: Email) returns (r: Result<Option<Id>, ErrorCode>)
      ensures r.Ok? <==> Ledger.AccountUsable(db.State(), owner, accountId)
      ensures r == Ledger.ResolveAccount(db.State(), accountId, owner)
    {
      if accountId.None? {
        return Ok(None);
      }
      if accountId.value !in db.accounts {
        return Err(ACCOUNT_NOT_FOUND);
      }
      if db.accounts[accountId.value].owner != owner {
        return Err(ACCESS_DENIED);
      }
      return Ok(accountId);
    }

    method CreateTransaction(owner: Email, req: Ledger.TransactionRequest, now: Instant)
      returns (r: Result<Ledger.TransactionView, ErrorCode>)
      modifies db
      ensures Step(r, db.State()) == Ledger.CreateTransaction(old(db.State()), owner, req, now)
    {
      if owner !in db.users {
        return Err(USER_NOT_FOUND);
      }
      if req.categoryId !in db.categories {
        return Err(CATEGORY_NOT_FOUND);
      }
      var category := db.categories[req.categoryId];
      if category.kind != req.kind {
        return Err(CATEGORY_TYPE_MISMATCH);
      }
      if category.owner != owner {
        return Err(ACCESS_DENIED);
      }
      if req.amount <= 0 {
        return Err(NEGATIVE_AMOUNT);
      }
      var resolved := ResolveAccount(req.accountId, owner);
      if resolved.Err? {
        return Err(resolved.error);
      }
      var account := resolved.value;
      if account.Some? && req.kind == EXPENSE && db.accounts[account.value].balance < req.amount {
        return Err(INSUFFICIENT_BALANCE);
      }
      var id := db.nextTransactionId;
      db.transactions := db.transactions[id := Ledger.NewRecord(owner, req, now)];
      db.nextTransactionId := id + 1;
      ApplyBalance(account, req.kind, req.amount);
      r := Ok(Ledger.ViewOf(db.State(), id));
    }

    method UpdateTransaction(owner: Email, id: Id, req: Ledger.TransactionRequest)
      returns (r: Result<Ledger.TransactionView, ErrorCode>)
      modifies db
      ensures Step(r, db.State()) == Ledger.UpdateTransaction(old(db.State()), owner, id, req)
    {
      if id !in db.transactions {
        return Err(TRANSACTION_NOT_FOUND);
      }
      var transaction := new TransactionEntity.Transaction.Load(id, db.transactions[id]);
      if transaction.user != owner {
        return Err(ACCESS_DENIED);
      }
      if req.categoryId !in db.categories {
        return Err(CATEGORY_NOT_FOUND);
      }
      var category := db.categories[req.categoryId];
      if category.owner != owner {
        return Err(ACCESS_DENIED);
      }
      if category.kind != req.kind {
        return Err(CATEGORY_TYPE_MISMATCH);
      }
      var oldAccount, oldType, oldAmount := transaction.account, transaction.kind, transaction.amount;
      var resolved := ResolveAccount(req.accountId, owner);
      if resolved.Err? {
        return Err(resolved.error);
      }
      var account := resolved.value;
      if account.Some? && req.kind == EXPENSE {
        var effectiveBalance := db.accounts[account.value].balance;
        if oldAccount.Some? && oldAccount.value == account.value && oldType == EXPENSE {
          effectiveBalance := effectiveBalance + oldAmount;
        }
        if effectiveBalance < req.amount {
          return Err(INSUFFICIENT_BALANCE);
        }
      }
      if oldAccount.Some? && oldAccount.value !in db.accounts {
        return Err(INTERNAL_ERROR);
      }
      ReverseBalance(oldAccount, oldType, oldAmount);
      transaction.Update(account, req.categoryId, req.kind, req.amount, req.description, req.transactionDate);
      db.transactions := db.transactions[id := transaction.Row()];
      ApplyBalance(account, req.kind, req.amount);
      r := Ok(Ledger.ViewOf(db.State(), id));
    }

    method DeleteTransaction(owner: Email, id: Id) returns (r: Result<(), ErrorCode>)
      modifies db
      ensures Step(r, db.State()) == Ledger.DeleteTransaction(old(db.State()), owner, id)
    {
      if id !in db.transactions {
        return Err(TRANSACTION_NOT_FOUND);
      }
      var transaction := db.transactions[id];
      if transaction.owner != owner {
        return Err(ACCESS_DENIED);
      }
      var txAccount := transaction.account;
      if txAccount.Some? && txAccount.value !in db.accounts {
        return Err(INTERNAL_ERROR);
      }
      if txAccount.Some? && transaction.kind == INCOME && db.accounts[txAccount.value].balance - transaction.amount < 0 {
        return Err(BALANCE_WOULD_BE_NEGATIVE);
      }
      ReverseBalance(txAccount, transaction.kind, transaction.amount);
      db.transactions := db.transactions - {id};
      r := Ok(());
    }
  }
}
