/**
 * Account commands as functions on the store: open an account with an opening balance, overwrite
 * its name and balance, and delete it. Deleting does not look at the transactions that link to it.
 */
module AccountRules {
  import opened Wrappers
  import opened ErrorCodes
  import opened Entities
  import opened Ledger
  import opened LedgerInvariant

  /** The response after a create or an update. */
  datatype AccountView = AccountView(id: Id, name: string, balance: int)

  /** createAccount: the user must exist; the new row takes the next account key. */
  function CreateAccount(s: Store, owner: Email, name: string, balance: int): (r: Step<AccountView>)
    ensures r.result.Err? ==> r.store == s
    ensures r.result == Err(USER_NOT_FOUND) <==> owner !in s.users
    ensures r.result.Ok? <==> owner in s.users
    ensures r.result.Ok? ==>
      && r.result.value == AccountView(s.nextAccountId, name, balance)
      && r.store == s.(accounts := s.accounts[s.nextAccountId := AccountRecord(owner, name, balance)],
                       nextAccountId := s.nextAccountId + 1)
  {
    if owner !in s.users then Step(Err(USER_NOT_FOUND), s)
    else
      var id := s.nextAccountId;
      Step(Ok(AccountView(id, name, balance)),
           s.(accounts := s.accounts[id := AccountRecord(owner, name, balance)], nextAccountId := id + 1))
  }

  /** updateAccount: the account must exist and be the caller's; name and balance are overwritten. */
  function UpdateAccount(s: Store, owner: Email, id: Id, name: string, balance: int): (r: Step<AccountView>)
    ensures r.result.Err? ==> r.store == s
    ensures r.result == Err(ACCOUNT_NOT_FOUND) <==> id !in s.accounts
    ensures r.result == Err(ACCESS_DENIED) <==> id in s.accounts && s.accounts[id].owner != owner
    ensures r.result.Ok? <==> id in s.accounts && s.accounts[id].owner == owner
    ensures r.result.Ok? ==>
      && r.result.value == AccountView(id, name, balance)
      && r.store == s.(accounts := s.accounts[id := AccountRecord(owner, name, balance)])
  {
    if id !in s.accounts then Step(Err(ACCOUNT_NOT_FOUND), s)
    else if s.accounts[id].owner != owner then Step(Err(ACCESS_DENIED), s)
    else
      Step(Ok(AccountView(id, name, balance)), s.(accounts := s.accounts[id := s.accounts[id].(name := name, balance := balance)]))
  }

  /** deleteAccount: the account must exist and be the caller's; only its row is removed. */
  function DeleteAccount(s: Store, owner: Email, id: Id): (r: Step<()>)
    ensures r.result.Err? ==> r.store == s
    ensures r.result == Err(ACCOUNT_NOT_FOUND) <==> id !in s.accounts
    ensures r.result == Err(ACCESS_DENIED) <==> id in s.accounts && s.accounts[id].owner != owner
    ensures r.result.Ok? <==> id in s.accounts && s.accounts[id].owner == owner
    ensures r.result.Ok? ==> r.store == s.(accounts := s.accounts - {id})
  {
    if id !in s.accounts then Step(Err(ACCOUNT_NOT_FOUND), s)
    else if s.accounts[id].owner != owner then Step(Err(ACCESS_DENIED), s)
    else Step(Ok(()), s.(accounts := s.accounts - {id}))
  }

  /**
   * Overwriting the balance moves that account's net value by exactly the difference, and leaves
   * every other account's net value alone: it is the one command that does not keep the ledger
   * invariant.
   */
  lemma UpdateAccountShiftsNet(s: Store, owner: Email, id: Id, name: string, balance: int)
    requires UpdateAccount(s, owner, id, name, balance).result.Ok?
    ensures var s' := UpdateAccount(s, owner, id, name, balance).store;
            && Net(s', id) == Net(s, id) + balance - s.accounts[id].balance
            && forall a :: a in s.accounts && a != id ==> a in s'.accounts && Net(s', a) == Net(s, a)
  {
  }

  /** Opening an account keeps every existing account's net value. */
  lemma CreateAccountPreservesNet(s: Store, owner: Email, name: string, balance: int)
    requires WellFormed(s)
    ensures NetPreserved(s, CreateAccount(s, owner, name, balance).store)
  {
  }

  /** With a balance of at least zero, create and update keep every balance non-negative. */
  lemma AccountCommandsKeepNonNegative(s: Store, owner: Email, id: Id, name: string, balance: int)
    requires NonNegative(s.accounts) && balance >= 0
    ensures NonNegative(CreateAccount(s, owner, name, balance).store.accounts)
    ensures NonNegative(UpdateAccount(s, owner, id, name, balance).store.accounts)
  {
  }

  /**
   * Deleting an account that a transaction still links leaves that link dangling: the transaction's
   * later update or delete then fails with INTERNAL_ERROR.
   */
  lemma DeleteAccountLeavesDanglingLink(s: Store, owner: Email, id: Id, t: Id)
    requires t in s.transactions && s.transactions[t].account == Some(id)
    requires s.transactions[t].owner == owner
    requires DeleteAccount(s, owner, id).result.Ok?
    ensures var s' := DeleteAccount(s, owner, id).store;
            && Dangling(s', s'.transactions[t])
            && DeleteTransaction(s', owner, t).result == Err(INTERNAL_ERROR)
  {
  }
}
