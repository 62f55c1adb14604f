/**
 * The update guard with the case it misses closed. As written, updateTransaction only checks the
 * account that receives a new expense; retracting an old linked income (changing its type, its
 * amount or its account) is never checked, so the old account can end below zero. The corrected
 * update keeps every check of the original and, like deleteTransaction, refuses with
 * BALANCE_WOULD_BE_NEGATIVE when the old income's account would end below zero.
 */
module LedgerGuard {
  import opened Wrappers
  import opened ErrorCodes
  import opened Entities
  import opened Ledger
  import opened LedgerInvariant

  /** The old transaction is a linked income and its account would end below zero in `accounts`. */
  predicate RetractedIncomeNegative(t: TransactionRecord, accounts: map<Id, AccountRecord>)
  {
    t.account.Some? && t.kind == INCOME && t.account.value in accounts && accounts[t.account.value].balance < 0
  }

  /**
   * updateTransaction with the missing guard: everything the original does, except that an update
   * that would leave the old income's account below zero fails and changes nothing.
   */
  function UpdateTransactionGuarded(s: Store, owner: Email, id: Id, req: TransactionRequest): (r: Step<TransactionView>)
    ensures r.result.Err? ==> r.store == s
    ensures r.result == Err(BALANCE_WOULD_BE_NEGATIVE) <==>
      var w := UpdateTransaction(s, owner, id, req);
      w.result.Ok? && RetractedIncomeNegative(s.transactions[id], w.store.accounts)
    ensures r.result != Err(BALANCE_WOULD_BE_NEGATIVE) ==> r == UpdateTransaction(s, owner, id, req)
  {
    var w := UpdateTransaction(s, owner, id, req);
    if w.result.Ok? && RetractedIncomeNegative(s.transactions[id], w.store.accounts) then
      Step(Err(BALANCE_WOULD_BE_NEGATIVE), s)
    else
      w
  }

  /** The corrected update accepts exactly what the original accepts when the old transaction is not a linked income. */
  lemma GuardedAgreesUnlessOldIncome(s: Store, owner: Email, id: Id, req: TransactionRequest)
    requires id in s.transactions
    requires s.transactions[id].account.None? || s.transactions[id].kind == EXPENSE
    ensures UpdateTransactionGuarded(s, owner, id, req) == UpdateTransaction(s, owner, id, req)
  {
  }

  /**
   * With non-negative balances and positive amounts, a corrected update with a positive amount keeps
   * every balance non-negative, in all same/different account and type cases.
   */
  lemma GuardedUpdateKeepsNonNegative(s: Store, owner: Email, id: Id, req: TransactionRequest)
    requires NonNegative(s.accounts) && PositiveAmounts(s.transactions)
    requires req.amount > 0
    ensures NonNegative(UpdateTransactionGuarded(s, owner, id, req).store.accounts)
  {
    var r := UpdateTransactionGuarded(s, owner, id, req);
    if r.result.Ok? {
      forall a | a in r.store.accounts
        ensures r.store.accounts[a].balance >= 0
      {
        assert a in s.accounts;
      }
    }
  }

  /** The corrected update preserves every account's net value, as the original does. */
  lemma GuardedPreservesNet(s: Store, owner: Email, id: Id, req: TransactionRequest)
    ensures NetPreserved(s, UpdateTransactionGuarded(s, owner, id, req).store)
  {
    UpdatePreservesNet(s, owner, id, req);
  }

  /** The counterexample of the original is refused by the corrected update. */
  lemma GuardedRefusesIncomeToExpense()
    ensures UpdateTransactionGuarded(IncomeExample(), "u", 7,
                                     TransactionRequest(2, EXPENSE, 50, Some(1), None, Date(2024, 5, 2))).result
            == Err(BALANCE_WOULD_BE_NEGATIVE)
  {
    UpdateIncomeToExpenseGoesNegative();
  }
}
