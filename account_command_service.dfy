/**
 * The account command service over the mutable tables; each method's postcondition ties its outcome
 * and the new tables to the corresponding function of module AccountRules.
 */
module AccountCommands {
  import opened Wrappers
  import opened ErrorCodes
  import opened Entities
  import opened AccountRules
  import Persistence

  class AccountCommandService {
    const db: Persistence.Db

    constructor (db: Persistence.Db)
      ensures this.db == db
    {
      this.db := db;
    }

    method CreateAccount(owner: Email, name: string, balance: int) returns (r: Result<AccountView, ErrorCode>)
      modifies db
      ensures Step(r, db.State()) == AccountRules.CreateAccount(old(db.State()), owner, name, balance)
    {
      if owner !in db.users {
        return Err(USER_NOT_FOUND);
      }
      var id := db.nextAccountId;
      db.accounts := db.accounts[id := AccountRecord(owner, name, balance)];
      db.nextAccountId := id + 1;
      r := Ok(AccountView(id, name, balance));
    }

    method UpdateAccount(owner: Email, id: Id, name: string, balance: int) returns (r: Result<AccountView, ErrorCode>)
      modifies db
      ensures Step(r, db.State()) == AccountRules.UpdateAccount(old(db.State()), owner, id, name, balance)
    {
      if id !in db.accounts {
        return Err(ACCOUNT_NOT_FOUND);
      }
      var account := db.accounts[id];
      if account.owner != owner {
        return Err(ACCESS_DENIED);
      }
      account := account.(name := name);
      account := account.(balance := balance);
      db.accounts := db.accounts[id := account];
      r := Ok(AccountView(id, account.name, account.balance));
    }

    method DeleteAccount(owner: Email, id: Id) returns (r: Result<(), ErrorCode>)
      modifies db
      ensures Step(r, db.State()) == AccountRules.DeleteAccount(old(db.State()), owner, id)
    {
      if id !in db.accounts {
        return Err(ACCOUNT_NOT_FOUND);
      }
      if db.accounts[id].owner != owner {
        return Err(ACCESS_DENIED);
      }
      db.accounts := db.accounts - {id};
      r := Ok(());
    }
  }
}
