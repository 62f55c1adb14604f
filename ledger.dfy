/**
 * The ledger engine: creating, updating and deleting income/expense transactions while keeping the
 * balance of each linked account in step with them. Each operation is one atomic unit of work: it
 * either fails with an error code and leaves the store as it was, or commits all of its effects.
 */
module Ledger {
  import opened Wrappers
  import opened ErrorCodes
  import opened Entities

  /** The fields of a create or update request. */
  datatype TransactionRequest = TransactionRequest(
    categoryId: Id,
    kind: CategoryType,
    amount: int,
    accountId: Option<Id>,
    description: Option<string>,
    transactionDate: Date)

  /** The response returned after a create or an update. */
  datatype TransactionView = TransactionView(
    id: Id,
    accountId: Option<Id>,
    accountName: Option<string>,
    kind: CategoryType,
    categoryId: Id,
    categoryName: string,
    amount: int,
    description: Option<string>,
    transactionDate: Date)

  /** The amount with the sign of its type: income counts up, expense counts down. */
  function Signed(kind: CategoryType, amount: int): int
  {
    if kind == INCOME then amount else -amount
  }

  /** What a transaction contributes to the balance of account `a`: its signed amount if linked to `a`. */
  function EffectOn(t: TransactionRecord, a: Id): int
  {
    if t.account == Some(a) then Signed(t.kind, t.amount) else 0
  }

  /** Read-modify-write of one balance: adds `delta` to the linked account, if there is one. */
  function Adjust(accounts: map<Id, AccountRecord>, account: Option<Id>, delta: int): (r: map<Id, AccountRecord>)
    ensures r.Keys == accounts.Keys
    ensures forall a :: a in accounts ==>
      r[a] == accounts[a].(balance := accounts[a].balance + if account == Some(a) then delta else 0)
  {
    if account.Some? && account.value in accounts then
      accounts[account.value := accounts[account.value].(balance := accounts[account.value].balance + delta)]
    else
      accounts
  }

  /** Applies a transaction's effect: `+amount` for income, `-amount` for expense. */
  function ApplyBalance(accounts: map<Id, AccountRecord>, account: Option<Id>, kind: CategoryType, amount: int)
    : map<Id, AccountRecord>
  {
    Adjust(accounts, account, Signed(kind, amount))
  }

  /** Takes a transaction's effect back: `-amount` for income, `+amount` for expense. */
  function ReverseBalance(accounts: map<Id, AccountRecord>, account: Option<Id>, kind: CategoryType, amount: int)
    : map<Id, AccountRecord>
  {
    Adjust(accounts, account, -Signed(kind, amount))
  }

  /** The requested account is absent, or it exists and belongs to the caller. */
  predicate AccountUsable(s: Store, owner: Email, accountId: Option<Id>)
  {
    accountId.Some? ==> accountId.value in s.accounts && s.accounts[accountId.value].owner == owner
  }

  /** No account requested resolves to no account; otherwise it must exist and be the caller's. */
  function ResolveAccount(s: Store, accountId: Option<Id>, owner: Email): (r: Result<Option<Id>, ErrorCode>)
    ensures r.Ok? <==> AccountUsable(s, owner, accountId)
    ensures r.Ok? ==> r.value == accountId
    ensures r.Err? ==> r.error == (if accountId.value in s.accounts then ACCESS_DENIED else ACCOUNT_NOT_FOUND)
  {
    if accountId.None? then Ok(None)
    else if accountId.value !in s.accounts then Err(ACCOUNT_NOT_FOUND)
    else if s.accounts[accountId.value].owner != owner then Err(ACCESS_DENIED)
    else Ok(accountId)
  }

  /** The response for a stored transaction whose category exists. */
  function ViewOf(s: Store, id: Id): (v: TransactionView)
    requires id in s.transactions && s.transactions[id].category in s.categories
    ensures v.id == id && v.accountId == s.transactions[id].account
    ensures v.accountName.Some? <==> v.accountId.Some? && v.accountId.value in s.accounts
    ensures v.accountName.Some? ==> v.accountName.value == s.accounts[v.accountId.value].name
    ensures && v.kind == s.transactions[id].kind
            && v.categoryId == s.transactions[id].category
            && v.categoryName == s.categories[s.transactions[id].category].name
            && v.amount == s.transactions[id].amount
            && v.description == s.transactions[id].description
            && v.transactionDate == s.transactions[id].date
  {
    var t := s.transactions[id];
    TransactionView(
      id, t.account,
      if t.account.Some? && t.account.value in s.accounts then Some(s.accounts[t.account.value].name) else None,
      t.kind, t.category, s.categories[t.category].name, t.amount, t.description, t.date)
  }

  // ---------------------------------------------------------------------------------------------
  // createTransaction

  /** The checks of create that come before the amount check all pass. */
  predicate CreateCategoryOk(s: Store, owner: Email, req: TransactionRequest)
  {
    && owner in s.users
    && req.categoryId in s.categories
    && s.categories[req.categoryId].kind == req.kind
    && s.categories[req.categoryId].owner == owner
  }

  /** A linked expense that is larger than the account's balance. */
  predicate CreateShortOfFunds(s: Store, req: TransactionRequest)
    requires req.accountId.Some? ==> req.accountId.value in s.accounts
  {
    req.accountId.Some? && req.kind == EXPENSE && s.accounts[req.accountId.value].balance < req.amount
  }

  /** The row create stores for a validated request. */
  function NewRecord(owner: Email, req: TransactionRequest, now: Instant): TransactionRecord
  {
    TransactionRecord(owner, req.accountId, req.categoryId, req.kind, req.amount, req.description,
                      req.transactionDate, now)
  }

  /**
   * createTransaction. Checks, in order: user, category existence, category type, category owner,
   * amount > 0, account existence and owner, and for a linked expense a sufficient balance. On success
   * the new row takes the next transaction key and the linked balance moves by the signed amount.
   */
  function CreateTransaction(s: Store, owner: Email, req: TransactionRequest, now: Instant)
    : (r: Step<TransactionView>)
    ensures r.result.Err? ==> r.store == s
    ensures r.result == Err(USER_NOT_FOUND) <==> owner !in s.users
    ensures r.result == Err(CATEGORY_NOT_FOUND) <==> owner in s.users && req.categoryId !in s.categories
    ensures r.result == Err(CATEGORY_TYPE_MISMATCH) <==>
      owner in s.users && req.categoryId in s.categories && s.categories[req.categoryId].kind != req.kind
    ensures r.result == Err(NEGATIVE_AMOUNT) <==> CreateCategoryOk(s, owner, req) && req.amount <= 0
    ensures r.result == Err(ACCOUNT_NOT_FOUND) <==>
      CreateCategoryOk(s, owner, req) && req.amount > 0 && req.accountId.Some? && req.accountId.value !in s.accounts
    ensures r.result == Err(ACCESS_DENIED) <==>
      || (owner in s.users && req.categoryId in s.categories && s.categories[req.categoryId].kind == req.kind
          && s.categories[req.categoryId].owner != owner)
      || (CreateCategoryOk(s, owner, req) && req.amount > 0 && req.accountId.Some?
          && req.accountId.value in s.accounts && s.accounts[req.accountId.value].owner != owner)
    ensures r.result == Err(INSUFFICIENT_BALANCE) <==>
      CreateCategoryOk(s, owner, req) && req.amount > 0 && AccountUsable(s, owner, req.accountId)
      && CreateShortOfFunds(s, req)
    ensures r.result.Ok? <==>
      CreateCategoryOk(s, owner, req) && req.amount > 0 && AccountUsable(s, owner, req.accountId)
      && !CreateShortOfFunds(s, req)
    ensures r.result.Ok? ==>
      && r.store == s.(transactions := s.transactions[s.nextTransactionId := NewRecord(owner, req, now)],
                       nextTransactionId := s.nextTransactionId + 1,
                       accounts := ApplyBalance(s.accounts, req.accountId, req.kind, req.amount))
      && r.result.value == ViewOf(r.store, s.nextTransactionId)
    ensures r.result.Ok? ==> forall a :: a in s.accounts ==>
      r.store.accounts[a].balance == s.accounts[a].balance + (if req.accountId == Some(a) then Signed(req.kind, req.amount) else 0)
    ensures r.result.Ok? && req.accountId.Some? && req.kind == EXPENSE ==>
      r.store.accounts[req.accountId.value].balance >= 0
  {
    if owner !in s.users then Step(Err(USER_NOT_FOUND), s)
    else if req.categoryId !in s.categories then Step(Err(CATEGORY_NOT_FOUND), s)
    else
      var category := s.categories[req.categoryId];
      if category.kind != req.kind then Step(Err(CATEGORY_TYPE_MISMATCH), s)
      else if category.owner != owner then Step(Err(ACCESS_DENIED), s)
      else if req.amount <= 0 then Step(Err(NEGATIVE_AMOUNT), s)
      else match ResolveAccount(s, req.accountId, owner)
        case Err(e) => Step(Err(e), s)
        case Ok(account) =>
          if account.Some? && req.kind == EXPENSE && s.accounts[account.value].balance < req.amount then
            Step(Err(INSUFFICIENT_BALANCE), s)
          else
            var id := s.nextTransactionId;
            var s' := s.(transactions := s.transactions[id := NewRecord(owner, req, now)],
                         nextTransactionId := id + 1,
                         accounts := ApplyBalance(s.accounts, account, req.kind, req.amount));
            Step(Ok(ViewOf(s', id)), s')
  }

  // ---------------------------------------------------------------------------------------------
  // updateTransaction

  /** The transaction exists and belongs to the caller. */
  predicate OwnsTransaction(s: Store, owner: Email, id: Id)
  {
    id in s.transactions && s.transactions[id].owner == owner
  }

  /** The new category exists, belongs to the caller and has the requested type. */
  predicate UpdateCategoryOk(s: Store, owner: Email, req: TransactionRequest)
  {
    && req.categoryId in s.categories
    && s.categories[req.categoryId].owner == owner
    && s.categories[req.categoryId].kind == req.kind
  }

  /**
   * The balance the update's sufficiency check sees on account `a`: the current balance, plus the
   * old amount only when the old transaction was an expense on the same account.
   */
  function EffectiveBalance(s: Store, prior: TransactionRecord, a: Id): int
    requires a in s.accounts
  {
    s.accounts[a].balance + if prior.account == Some(a) && prior.kind == EXPENSE then prior.amount else 0
  }

  /** A new linked expense larger than the effective balance. */
  predicate UpdateShortOfFunds(s: Store, prior: TransactionRecord, req: TransactionRequest)
    requires req.accountId.Some? ==> req.accountId.value in s.accounts
  {
    req.accountId.Some? && req.kind == EXPENSE && EffectiveBalance(s, prior, req.accountId.value) < req.amount
  }

  /** The transaction is linked to an account row that no longer exists. */
  predicate Dangling(s: Store, t: TransactionRecord)
  {
    t.account.Some? && t.account.value !in s.accounts
  }

  /** The row after `Transaction.update` with the request's values. */
  function UpdatedRecord(t: TransactionRecord, req: TransactionRequest): TransactionRecord
  {
    t.(account := req.accountId, category := req.categoryId, kind := req.kind, amount := req.amount,
       description := req.description, date := req.transactionDate)
  }

  /**
   * updateTransaction. Checks, in order: transaction existence and owner, category existence, owner
   * and type, account existence and owner, and for a new linked expense the effective balance. There
   * is no amount check. On success the old effect is reversed on the old account, the row is
   * updated in place, and the new effect is applied to the new account.
   */
  function UpdateTransaction(s: Store, owner: Email, id: Id, req: TransactionRequest): (r: Step<TransactionView>)
    ensures r.result.Err? ==> r.store == s
    ensures r.result != Err(NEGATIVE_AMOUNT)
    ensures r.result == Err(TRANSACTION_NOT_FOUND) <==> id !in s.transactions
    ensures r.result == Err(CATEGORY_NOT_FOUND) <==> OwnsTransaction(s, owner, id) && req.categoryId !in s.categories
    ensures r.result == Err(CATEGORY_TYPE_MISMATCH) <==>
      OwnsTransaction(s, owner, id) && req.categoryId in s.categories
      && s.categories[req.categoryId].owner == owner && s.categories[req.categoryId].kind != req.kind
    ensures r.result == Err(ACCESS_DENIED) <==>
      || (id in s.transactions && s.transactions[id].owner != owner)
      || (OwnsTransaction(s, owner, id) && req.categoryId in s.categories && s.categories[req.categoryId].owner != owner)
      || (OwnsTransaction(s, owner, id) && UpdateCategoryOk(s, owner, req) && req.accountId.Some?
          && req.accountId.value in s.accounts && s.accounts[req.accountId.value].owner != owner)
    ensures r.result == Err(ACCOUNT_NOT_FOUND) <==>
      OwnsTransaction(s, owner, id) && UpdateCategoryOk(s, owner, req)
      && req.accountId.Some? && req.accountId.value !in s.accounts
    ensures r.result == Err(INSUFFICIENT_BALANCE) <==>
      OwnsTransaction(s, owner, id) && UpdateCategoryOk(s, owner, req) && AccountUsable(s, owner, req.accountId)
      && UpdateShortOfFunds(s, s.transactions[id], req)
    ensures r.result == Err(INTERNAL_ERROR) <==>
      OwnsTransaction(s, owner, id) && UpdateCategoryOk(s, owner, req) && AccountUsable(s, owner, req.accountId)
      && !UpdateShortOfFunds(s, s.transactions[id], req) && Dangling(s, s.transactions[id])
    ensures r.result.Ok? <==>
      OwnsTransaction(s, owner, id) && UpdateCategoryOk(s, owner, req) && AccountUsable(s, owner, req.accountId)
      && !UpdateShortOfFunds(s, s.transactions[id], req) && !Dangling(s, s.transactions[id])
    ensures r.result.Ok? ==>
      && OwnsTransaction(s, owner, id)
      && r.store == s.(transactions := s.transactions[id := UpdatedRecord(s.transactions[id], req)],
                       accounts := ApplyBalance(
                         ReverseBalance(s.accounts, s.transactions[id].account, s.transactions[id].kind,
                                        s.transactions[id].amount),
                         req.accountId, req.kind, req.amount))
      && r.result.value == ViewOf(r.store, id)
    ensures r.result.Ok? ==> forall a :: a in s.accounts ==>
      r.store.accounts[a].balance ==
        s.accounts[a].balance - EffectOn(s.transactions[id], a) + EffectOn(UpdatedRecord(s.transactions[id], req), a)
  {
    if id !in s.transactions then Step(Err(TRANSACTION_NOT_FOUND), s)
    else
      var t := s.transactions[id];
      if t.owner != owner then Step(Err(ACCESS_DENIED), s)
      else if req.categoryId !in s.categories then Step(Err(CATEGORY_NOT_FOUND), s)
      else
        var category := s.categories[req.categoryId];
        if category.owner != owner then Step(Err(ACCESS_DENIED), s)
        else if category.kind != req.kind then Step(Err(CATEGORY_TYPE_MISMATCH), s)
        else match ResolveAccount(s, req.accountId, owner)
          case Err(e) => Step(Err(e), s)
          case Ok(account) =>
            if account.Some? && req.kind == EXPENSE && EffectiveBalance(s, t, account.value) < req.amount then
              Step(Err(INSUFFICIENT_BALANCE), s)
            else if Dangling(s, t) then
              Step(Err(INTERNAL_ERROR), s)
            else
              var reversed := ReverseBalance(s.accounts, t.account, t.kind, t.amount);
              var s' := s.(transactions := s.transactions[id := UpdatedRecord(t, req)],
                           accounts := ApplyBalance(reversed, account, req.kind, req.amount));
              Step(Ok(ViewOf(s', id)), s')
  }

  // ---------------------------------------------------------------------------------------------
  // deleteTransaction

  /** Reversing a linked income would take its account below zero. */
  predicate ReversalGoesNegative(s: Store, t: TransactionRecord)
    requires !Dangling(s, t)
  {
    t.account.Some? && t.kind == INCOME && s.accounts[t.account.value].balance - t.amount < 0
  }

  /**
   * deleteTransaction. Checks transaction existence and owner, then refuses to retract a linked income
   * that would take the balance below zero; otherwise reverses the effect and removes the row.
   */
  function DeleteTransaction(s: Store, owner: Email, id: Id): (r: Step<()>)
    ensures r.result.Err? ==> r.store == s
    ensures r.result == Err(TRANSACTION_NOT_FOUND) <==> id !in s.transactions
    ensures r.result == Err(ACCESS_DENIED) <==> id in s.transactions && s.transactions[id].owner != owner
    ensures r.result == Err(INTERNAL_ERROR) <==> OwnsTransaction(s, owner, id) && Dangling(s, s.transactions[id])
    ensures r.result == Err(BALANCE_WOULD_BE_NEGATIVE) <==>
      OwnsTransaction(s, owner, id) && !Dangling(s, s.transactions[id])
      && ReversalGoesNegative(s, s.transactions[id])
    ensures r.result.Ok? <==>
      OwnsTransaction(s, owner, id) && !Dangling(s, s.transactions[id])
      && !ReversalGoesNegative(s, s.transactions[id])
    ensures r.result.Ok? ==>
      && OwnsTransaction(s, owner, id)
      && r.store == s.(transactions := s.transactions - {id},
                       accounts := ReverseBalance(s.accounts, s.transactions[id].account,
                                                  s.transactions[id].kind, s.transactions[id].amount))
    ensures r.result.Ok? ==> id !in r.store.transactions && r.store.transactions.Keys == s.transactions.Keys - {id}
    ensures r.result.Ok? ==> forall a :: a in s.accounts ==>
      r.store.accounts[a].balance == s.accounts[a].balance - EffectOn(s.transactions[id], a)
  {
    if id !in s.transactions then Step(Err(TRANSACTION_NOT_FOUND), s)
    else
      var t := s.transactions[id];
      if t.owner != owner then Step(Err(ACCESS_DENIED), s)
      else if Dangling(s, t) then Step(Err(INTERNAL_ERROR), s)
      else if t.account.Some? && t.kind == INCOME && s.accounts[t.account.value].balance - t.amount < 0 then
        Step(Err(BALANCE_WOULD_BE_NEGATIVE), s)
      else
        Step(Ok(()), s.(transactions := s.transactions - {id},
                        accounts := ReverseBalance(s.accounts, t.account, t.kind, t.amount)))
  }
}
