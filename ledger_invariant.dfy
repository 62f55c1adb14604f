/**
 * The ledger invariant: for every account, its balance minus the signed amounts of the transactions
 * linked to it does not change under create, update or delete. Also which operations keep balances
 * non-negative, and which do not.
 */
module LedgerInvariant {
  import opened Wrappers
  import opened Entities
  import opened Ledger

  /** A map with no keys is empty; otherwise some key can be picked. */
  lemma EmptyOrHasKey(txs: map<Id, TransactionRecord>)
    ensures txs.Keys == {} || exists k :: k in txs
  {
    if forall k :: k !in txs {
      assert txs.Keys == {};
    }
  }

  /** Some key of a non-empty transaction table. */
  ghost function PickKey(txs: map<Id, TransactionRecord>): (k: Id)
    requires txs.Keys != {}
    ensures k in txs
  {
    EmptyOrHasKey(txs);
    var k :| k in txs; k
  }

  /** Sum of the effects on account `a` of all transactions in `txs`. */
  ghost function LinkedSum(txs: map<Id, TransactionRecord>, a: Id): int
    decreases |txs.Keys|
  {
    if txs.Keys == {} then 0
    else
      var k := PickKey(txs);
      assert (txs - {k}).Keys == txs.Keys - {k};
      EffectOn(txs[k], a) + LinkedSum(txs - {k}, a)
  }

  /** Balance minus the linked transactions' effects: the account's opening balance. */
  ghost function Net(s: Store, a: Id): int
    requires a in s.accounts
  {
    s.accounts[a].balance - LinkedSum(s.transactions, a)
  }

  /** Every account keeps its key and its net value. */
  ghost predicate NetPreserved(s: Store, s': Store)
  {
    forall a :: a in s.accounts ==> a in s'.accounts && Net(s', a) == Net(s, a)
  }

  /** Any one transaction can be taken out of the sum first. */
  lemma {:induction false} LinkedSumRemove(txs: map<Id, TransactionRecord>, k: Id, a: Id)
    requires k in txs
    ensures LinkedSum(txs, a) == EffectOn(txs[k], a) + LinkedSum(txs - {k}, a)
    decreases |txs.Keys|
  {
    var j := PickKey(txs);
    if j != k {
      assert (txs - {j}).Keys == txs.Keys - {j};
      assert (txs - {k}).Keys == txs.Keys - {k};
      LinkedSumRemove(txs - {j}, k, a);
      LinkedSumRemove(txs - {k}, j, a);
      assert txs - {j} - {k} == txs - {k} - {j};
    }
  }

  /** Inserting a new transaction adds its effect. */
  lemma LinkedSumInsert(txs: map<Id, TransactionRecord>, k: Id, t: TransactionRecord, a: Id)
    requires k !in txs
    ensures LinkedSum(txs[k := t], a) == LinkedSum(txs, a) + EffectOn(t, a)
  {
    LinkedSumRemove(txs[k := t], k, a);
    assert txs[k := t] - {k} == txs;
  }

  /** Replacing a transaction swaps its old effect for the new one. */
  lemma LinkedSumReplace(txs: map<Id, TransactionRecord>, k: Id, t: TransactionRecord, a: Id)
    requires k in txs
    ensures LinkedSum(txs[k := t], a) == LinkedSum(txs, a) - EffectOn(txs[k], a) + EffectOn(t, a)
  {
    LinkedSumRemove(txs[k := t], k, a);
    LinkedSumRemove(txs, k, a);
    assert txs[k := t] - {k} == txs - {k};
  }

  /** `ReverseBalance` exactly undoes `ApplyBalance` for the same account, type and amount. */
  lemma ReverseUndoesApply(accounts: map<Id, AccountRecord>, account: Option<Id>, kind: CategoryType, amount: int)
    ensures ReverseBalance(ApplyBalance(accounts, account, kind, amount), account, kind, amount) == accounts
  {
    var r := ReverseBalance(ApplyBalance(accounts, account, kind, amount), account, kind, amount);
    assert forall a :: a in accounts ==> r[a] == accounts[a];
  }

  /** createTransaction preserves every account's net value. */
  lemma CreatePreservesNet(s: Store, owner: Email, req: TransactionRequest, now: Instant)
    requires WellFormed(s)
    ensures NetPreserved(s, CreateTransaction(s, owner, req, now).store)
  {
    var r := CreateTransaction(s, owner, req, now);
    if r.result.Ok? {
      forall a | a in s.accounts
        ensures a in r.store.accounts && Net(r.store, a) == Net(s, a)
      {
        LinkedSumInsert(s.transactions, s.nextTransactionId, NewRecord(owner, req, now), a);
      }
    }
  }

  /** updateTransaction preserves every account's net value, in all four same/different account and type cases. */
  lemma UpdatePreservesNet(s: Store, owner: Email, id: Id, req: TransactionRequest)
    ensures NetPreserved(s, UpdateTransaction(s, owner, id, req).store)
  {
    var r := UpdateTransaction(s, owner, id, req);
    if r.result.Ok? {
      forall a | a in s.accounts
        ensures a in r.store.accounts && Net(r.store, a) == Net(s, a)
      {
        LinkedSumReplace(s.transactions, id, UpdatedRecord(s.transactions[id], req), a);
      }
    }
  }

  /** deleteTransaction preserves every account's net value. */
  lemma DeletePreservesNet(s: Store, owner: Email, id: Id)
    ensures NetPreserved(s, DeleteTransaction(s, owner, id).store)
  {
    var r := DeleteTransaction(s, owner, id);
    if r.result.Ok? {
      forall a | a in s.accounts
        ensures a in r.store.accounts && Net(r.store, a) == Net(s, a)
      {
        LinkedSumRemove(s.transactions, id, a);
      }
    }
  }

  /** The three ledger operations keep the identity columns ahead of every stored key. */
  lemma LedgerKeepsWellFormed(s: Store, owner: Email, id: Id, req: TransactionRequest, now: Instant)
    requires WellFormed(s)
    ensures WellFormed(CreateTransaction(s, owner, req, now).store)
    ensures WellFormed(UpdateTransaction(s, owner, id, req).store)
    ensures WellFormed(DeleteTransaction(s, owner, id).store)
  {
  }

  /**
   * Creating a transaction and then deleting it restores every balance and the transaction table,
   * provided a retracted income does not go below zero (the delete guard) — which holds when the
   * account was not already negative.
   */
  lemma CreateThenDeleteRestores(s: Store, owner: Email, req: TransactionRequest, now: Instant)
    requires WellFormed(s)
    requires CreateTransaction(s, owner, req, now).result.Ok?
    requires req.accountId.Some? && req.kind == INCOME ==> s.accounts[req.accountId.value].balance >= 0
    ensures var c := CreateTransaction(s, owner, req, now);
            var d := DeleteTransaction(c.store, owner, c.result.value.id);
            && d.result.Ok?
            && d.store.accounts == s.accounts
            && d.store.transactions == s.transactions
  {
    var c := CreateTransaction(s, owner, req, now);
    var id := s.nextTransactionId;
    ReverseUndoesApply(s.accounts, req.accountId, req.kind, req.amount);
    assert c.store.transactions - {id} == s.transactions;
  }

  // ---------------------------------------------------------------------------------------------
  // Non-negative balances

  ghost predicate NonNegative(accounts: map<Id, AccountRecord>)
  {
    forall a :: a in accounts ==> accounts[a].balance >= 0
  }

  ghost predicate PositiveAmounts(txs: map<Id, TransactionRecord>)
  {
    forall id :: id in txs ==> txs[id].amount > 0
  }

  /** A successful create never makes a balance negative: expense needs cover, income has amount > 0. */
  lemma CreateKeepsNonNegative(s: Store, owner: Email, req: TransactionRequest, now: Instant)
    requires NonNegative(s.accounts)
    ensures NonNegative(CreateTransaction(s, owner, req, now).store.accounts)
  {
  }

  /** A successful create of a transaction with a positive amount keeps all amounts positive. */
  lemma CreateKeepsPositiveAmounts(s: Store, owner: Email, req: TransactionRequest, now: Instant)
    requires PositiveAmounts(s.transactions)
    ensures PositiveAmounts(CreateTransaction(s, owner, req, now).store.transactions)
  {
  }

  /** An expense with a positive amount or a guarded income: a successful delete keeps balances non-negative. */
  lemma DeleteKeepsNonNegative(s: Store, owner: Email, id: Id)
    requires NonNegative(s.accounts) && PositiveAmounts(s.transactions)
    ensures NonNegative(DeleteTransaction(s, owner, id).store.accounts)
  {
  }

  /**
   * The update guard covers a new expense on the same account as an old expense, and a new expense
   * on a different account: in both cases the new account ends non-negative.
   */
  lemma UpdateExpenseTargetNonNegative(s: Store, owner: Email, id: Id, req: TransactionRequest)
    requires NonNegative(s.accounts)
    requires id in s.transactions && req.accountId.Some? && req.kind == EXPENSE
    requires s.transactions[id].account != req.accountId || s.transactions[id].kind == EXPENSE
    requires UpdateTransaction(s, owner, id, req).result.Ok?
    ensures UpdateTransaction(s, owner, id, req).store.accounts[req.accountId.value].balance >= 0
  {
  }

  /**
   * When the old transaction is not a linked income and the new amount is positive, a successful
   * update keeps every balance non-negative.
   */
  lemma UpdateKeepsNonNegativeUnlessOldIncome(s: Store, owner: Email, id: Id, req: TransactionRequest)
    requires NonNegative(s.accounts) && PositiveAmounts(s.transactions)
    requires id in s.transactions
    requires s.transactions[id].account.None? || s.transactions[id].kind == EXPENSE
    requires req.amount > 0
    ensures NonNegative(UpdateTransaction(s, owner, id, req).store.accounts)
  {
  }

  /** An account holding 100 with a linked income of 100, owned by "u", category 1 of each type. */
  function IncomeExample(): Store
  {
    Store({"u"},
          map[1 := AccountRecord("u", "main", 100), 2 := AccountRecord("u", "spare", 0)],
          map[1 := CategoryRecord("u", "salary", INCOME, 0), 2 := CategoryRecord("u", "food", EXPENSE, 0)],
          map[7 := TransactionRecord("u", Some(1), 1, INCOME, 100, None, Date(2024, 5, 1), 0)],
          [], 3, 3, 8)
  }

  /** Old income 100 changed into an expense of 50 on the same account: the guard passes, the balance ends at -50. */
  lemma UpdateIncomeToExpenseGoesNegative()
    ensures var r := UpdateTransaction(IncomeExample(), "u", 7,
                                       TransactionRequest(2, EXPENSE, 50, Some(1), None, Date(2024, 5, 2)));
            r.result.Ok? && r.store.accounts[1].balance == -50
  {
  }

  /** Moving an income of 100 from an account holding 40 to another account: the old account ends at -60. */
  lemma UpdateMoveIncomeGoesNegative()
    ensures var s := IncomeExample().(accounts := IncomeExample().accounts[1 := AccountRecord("u", "main", 40)]);
            var r := UpdateTransaction(s, "u", 7, TransactionRequest(1, INCOME, 100, Some(2), None, Date(2024, 5, 1)));
            r.result.Ok? && r.store.accounts[1].balance == -60 && r.store.accounts[2].balance == 100
  {
  }

  /** Shrinking a linked income of 100 to 10 on an account holding 40 ends at -50. */
  lemma UpdateShrinkIncomeGoesNegative()
    ensures var s := IncomeExample().(accounts := IncomeExample().accounts[1 := AccountRecord("u", "main", 40)]);
            var r := UpdateTransaction(s, "u", 7, TransactionRequest(1, INCOME, 10, Some(1), None, Date(2024, 5, 1)));
            r.result.Ok? && r.store.accounts[1].balance == -50
  {
  }

  /** The service itself does not check the amount on update: a zero amount is stored as it is. */
  lemma UpdateAcceptsNonPositiveAmount()
    ensures var r := UpdateTransaction(IncomeExample(), "u", 7,
                                       TransactionRequest(1, INCOME, 0, None, None, Date(2024, 5, 1)));
            r.result.Ok? && r.store.transactions[7].amount == 0
  {
  }
}
