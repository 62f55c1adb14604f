/**
 * The account read side: a single account looked up by key within the caller's own accounts, and
 * the summary of a list of accounts (total balance, count, and the list itself).
 */
module AccountQuery {
  import opened Wrappers
  import opened ErrorCodes
  import opened Entities

  datatype AccountResponse = AccountResponse(id: Id, name: string, balance: int)

  datatype AccountSummary = AccountSummary(totalBalance: int, accountCount: int, accounts: seq<AccountResponse>)

  /** The lookup by key and owner e-mail: nothing unless the account exists and is the owner's. */
  function FindByIdAndOwner(accounts: map<Id, AccountRecord>, id: Id, owner: Email): (r: Option<AccountResponse>)
    ensures r.Some? <==> id in accounts && accounts[id].owner == owner
    ensures r.Some? ==> r.value == AccountResponse(id, accounts[id].name, accounts[id].balance)
  {
    if id in accounts && accounts[id].owner == owner then
      Some(AccountResponse(id, accounts[id].name, accounts[id].balance))
    else
      None
  }

  /** getAccount: ACCOUNT_NOT_FOUND when the owner-scoped lookup finds nothing, otherwise that account. */
  function GetAccount(accounts: map<Id, AccountRecord>, owner: Email, id: Id): (r: Result<AccountResponse, ErrorCode>)
    ensures r.Err? <==> !(id in accounts && accounts[id].owner == owner)
    ensures r.Err? ==> r.error == ACCOUNT_NOT_FOUND
    ensures r.Ok? ==> r.value == AccountResponse(id, accounts[id].name, accounts[id].balance)
  {
    match FindByIdAndOwner(accounts, id, owner)
    case None => Err(ACCOUNT_NOT_FOUND)
    case Some(account) => Ok(account)
  }

  /** Another user's account is reported as missing, never as forbidden. */
  lemma OtherOwnersAccountIsNotFound(accounts: map<Id, AccountRecord>, owner: Email, id: Id)
    requires id in accounts && accounts[id].owner != owner
    ensures GetAccount(accounts, owner, id) == Err(ACCOUNT_NOT_FOUND)
    ensures GetAccount(accounts, owner, id) != Err(ACCESS_DENIED)
  {
  }

  function SumBalances(list: seq<AccountResponse>): int
  {
    if list == [] then 0 else list[0].balance + SumBalances(list[1..])
  }

  /** getAccountSummary over the list the owner's account query returned. */
  function GetAccountSummary(list: seq<AccountResponse>): (r: AccountSummary)
    ensures r.accountCount == |list| && r.accounts == list
    ensures r.totalBalance == SumBalances(list)
    ensures list == [] ==> r.totalBalance == 0
  {
    AccountSummary(SumBalances(list), |list|, list)
  }

  lemma {:induction false} SumBalancesAppend(a: seq<AccountResponse>, b: seq<AccountResponse>)
    ensures SumBalances(a + b) == SumBalances(a) + SumBalances(b)
  {
    if a == [] {
      assert a + b == b;
    } else {
      assert (a + b)[1..] == a[1..] + b;
      SumBalancesAppend(a[1..], b);
    }
  }

  /** Non-negative balances give a non-negative total. */
  lemma {:induction false} SumBalancesNonNegative(list: seq<AccountResponse>)
    requires forall i :: 0 <= i < |list| ==> list[i].balance >= 0
    ensures GetAccountSummary(list).totalBalance >= 0
  {
    if list != [] {
      SumBalancesNonNegative(list[1..]);
    }
  }

  /** Taking out position `j` takes one copy of its element out of the multiset. */
  lemma MultisetRemoveAt(b: seq<AccountResponse>, j: nat)
    requires j < |b|
    ensures multiset(b[..j] + b[j + 1..]) == multiset(b) - multiset{b[j]}
  {
    assert b == b[..j] + [b[j]] + b[j + 1..];
    assert multiset(b) == multiset(b[..j]) + multiset{b[j]} + multiset(b[j + 1..]);
  }

  /** Taking out position `j` takes its balance out of the sum. */
  lemma SumBalancesRemoveAt(b: seq<AccountResponse>, j: nat)
    requires j < |b|
    ensures SumBalances(b) == b[j].balance + SumBalances(b[..j] + b[j + 1..])
  {
    assert b == b[..j] + [b[j]] + b[j + 1..];
    SumBalancesAppend(b[..j] + [b[j]], b[j + 1..]);
    SumBalancesAppend(b[..j], [b[j]]);
    SumBalancesAppend(b[..j], b[j + 1..]);
  }

  /** The total does not depend on the order in which the query returns the accounts. */
  lemma {:induction false} SumBalancesPermutation(a: seq<AccountResponse>, b: seq<AccountResponse>)
    requires multiset(a) == multiset(b)
    ensures GetAccountSummary(a).totalBalance == GetAccountSummary(b).totalBalance
    decreases |a|
  {
    if a == [] {
      assert |b| == |multiset(b)| == 0;
    } else {
      var x := a[0];
      assert x in multiset(b);
      var j :| 0 <= j < |b| && b[j] == x;
      var rest := b[..j] + b[j + 1..];
      MultisetRemoveAt(b, j);
      MultisetRemoveAt(a, 0);
      assert a[..0] + a[1..] == a[1..];
      SumBalancesPermutation(a[1..], rest);
      SumBalancesRemoveAt(b, j);
    }
  }
}
