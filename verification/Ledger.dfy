/** The append-only points ledger, its entries and the balance it implies for each account. */
module Ledger {
  import opened Prelude

  datatype Direction = Credit | Debit

  datatype RefType = BetPlaced | BetRefund | SettlementWin | AdminCredit | AdminDebit

  /**
   * An idempotency key of the ledger. Every key is a string; the ones of the form
   * "bet-debit:<id>" are told apart, so any client-supplied key may still be one of them.
   */
  datatype LedgerKey = BetDebit(betId: nat) | Text(text: string)

  /** `refId` is the id of the row that justifies the entry; the account is named by its one user. */
  datatype Entry = Entry(
    user: nat, direction: Direction, amount: int, before: int, after: int,
    refType: RefType, refId: Option<nat>, key: LedgerKey, description: string)

  datatype Account = Account(balance: int, version: nat)

  type Accounts = map<nat, Account>

  function Signed(direction: Direction, amount: int): int {
    if direction == Credit then amount else -amount
  }

  /** SUM(credits) - SUM(debits) of account `u` over the first `n` entries. */
  function Derived(ledger: seq<Entry>, u: nat, n: nat): int
    requires n <= |ledger|
  {
    if n == 0 then 0
    else Derived(ledger, u, n - 1) + (if ledger[n - 1].user == u
        then Signed(ledger[n - 1].direction, ledger[n - 1].amount) else 0)
  }

  /** How many of the first `n` entries belong to `u`. */
  function Entries(ledger: seq<Entry>, u: nat, n: nat): nat
    requires n <= |ledger|
  {
    if n == 0 then 0 else Entries(ledger, u, n - 1) + (if ledger[n - 1].user == u then 1 else 0)
  }

  function FindKey(ledger: seq<Entry>, k: LedgerKey): (r: Option<nat>)
    ensures r.Some? ==> r.value < |ledger| && ledger[r.value].key == k
    ensures r.None? ==> forall i :: 0 <= i < |ledger| ==> ledger[i].key != k
  {
    if ledger == [] then None
    else if ledger[|ledger| - 1].key == k then Some(|ledger| - 1)
    else FindKey(ledger[..|ledger| - 1], k)
  }

  function FindRef(ledger: seq<Entry>, t: RefType, id: nat): (r: Option<nat>)
    ensures r.Some? ==> r.value < |ledger| && ledger[r.value].refType == t && ledger[r.value].refId == Some(id)
    ensures r.None? ==> forall i :: 0 <= i < |ledger| ==> !(ledger[i].refType == t && ledger[i].refId == Some(id))
  {
    if ledger == [] then None
    else if ledger[|ledger| - 1].refType == t && ledger[|ledger| - 1].refId == Some(id) then Some(|ledger| - 1)
    else FindRef(ledger[..|ledger| - 1], t, id)
  }

  /** Each entry starts from the sum of its account's earlier entries and ends at the sum including itself. */
  ghost predicate Chained(ledger: seq<Entry>) {
    forall i :: 0 <= i < |ledger| ==>
      var e := ledger[i];
      e.amount > 0 && e.before == Derived(ledger, e.user, i) && e.after == Derived(ledger, e.user, i + 1)
          && e.before >= 0 && e.after >= 0
  }

  /** The balance column caches the ledger, and the version counts its entries. */
  ghost predicate Projected(accounts: Accounts, ledger: seq<Entry>) {
    && (forall u :: u in accounts ==>
          && accounts[u].balance == Derived(ledger, u, |ledger|) >= 0
          && accounts[u].version == Entries(ledger, u, |ledger|))
    && (forall i :: 0 <= i < |ledger| ==> ledger[i].user in accounts)
  }

  ghost predicate LedgerOk(accounts: Accounts, ledger: seq<Entry>) {
    && Chained(ledger)
    && Projected(accounts, ledger)
    && (forall i, j :: 0 <= i < j < |ledger| ==> ledger[i].key != ledger[j].key)
  }

  lemma {:induction false} PrefixSums(ledger: seq<Entry>, more: seq<Entry>, u: nat, n: nat)
    requires n <= |ledger|
    ensures Derived(ledger + more, u, n) == Derived(ledger, u, n)
    ensures Entries(ledger + more, u, n) == Entries(ledger, u, n)
  {
    if n > 0 {
      PrefixSums(ledger, more, u, n - 1);
    }
  }

  lemma AppendChained(ledger: seq<Entry>, e: Entry)
    requires Chained(ledger) && e.amount > 0 && e.before == Derived(ledger, e.user, |ledger|) >= 0
    requires e.after == e.before + Signed(e.direction, e.amount) >= 0
    ensures Chained(ledger + [e])
  {
    var ledger' := ledger + [e];
    forall i | 0 <= i < |ledger'|
      ensures var x := ledger'[i];
        x.amount > 0 && x.before == Derived(ledger', x.user, i) && x.after == Derived(ledger', x.user, i + 1)
        && x.before >= 0 && x.after >= 0
    {
      PrefixSums(ledger, [e], ledger'[i].user, i);
      if i < |ledger| {
        PrefixSums(ledger, [e], ledger[i].user, i + 1);
      }
    }
  }

  lemma AppendProjected(accounts: Accounts, ledger: seq<Entry>, e: Entry)
    requires Projected(accounts, ledger) && e.user in accounts && e.before == accounts[e.user].balance
    requires e.after == e.before + Signed(e.direction, e.amount) >= 0
    ensures Projected(accounts[e.user := Account(e.after, accounts[e.user].version + 1)], ledger + [e])
  {
    var accounts' := accounts[e.user := Account(e.after, accounts[e.user].version + 1)];
    forall u | u in accounts'
      ensures accounts'[u].balance == Derived(ledger + [e], u, |ledger| + 1) >= 0
      ensures accounts'[u].version == Entries(ledger + [e], u, |ledger| + 1)
    {
      PrefixSums(ledger, [e], u, |ledger|);
    }
  }

  /** Writing an entry that starts from the account's balance, and projecting it, keeps the ledger sound. */
  lemma AppendKeeps(accounts: Accounts, ledger: seq<Entry>, e: Entry)
    requires LedgerOk(accounts, ledger) && FindKey(ledger, e.key).None?
    requires e.user in accounts && e.before == accounts[e.user].balance && e.amount > 0
    requires e.after == e.before + Signed(e.direction, e.amount) >= 0
    ensures LedgerOk(accounts[e.user := Account(e.after, accounts[e.user].version + 1)], ledger + [e])
  {
    AppendChained(ledger, e);
    AppendProjected(accounts, ledger, e);
  }

  lemma OpenKeeps(accounts: Accounts, ledger: seq<Entry>, u: nat)
    requires LedgerOk(accounts, ledger) && u !in accounts
    ensures LedgerOk(accounts[u := Account(0, 0)], ledger)
  {
    NoEntries(ledger, u, |ledger|);
  }

  lemma {:induction false} NoEntries(ledger: seq<Entry>, u: nat, n: nat)
    requires n <= |ledger| && forall i :: 0 <= i < |ledger| ==> ledger[i].user != u
    ensures Derived(ledger, u, n) == 0 && Entries(ledger, u, n) == 0
  {
    if n > 0 {
      NoEntries(ledger, u, n - 1);
    }
  }

  lemma {:induction false} DerivedSkips(ledger: seq<Entry>, u: nat, m: nat, n: nat)
    requires m <= n <= |ledger| && forall k :: m <= k < n ==> ledger[k].user != u
    ensures Derived(ledger, u, m) == Derived(ledger, u, n)
  {
    if m < n {
      DerivedSkips(ledger, u, m, n - 1);
    }
  }

  /** What account `u` was credited, or debited, in the first `n` entries. */
  function Turnover(ledger: seq<Entry>, u: nat, direction: Direction, n: nat): int
    requires n <= |ledger|
  {
    if n == 0 then 0
    else Turnover(ledger, u, direction, n - 1) +
         if ledger[n - 1].user == u && ledger[n - 1].direction == direction then ledger[n - 1].amount else 0
  }

  /** The derived balance is credits less debits. */
  lemma {:induction false} CreditsLessDebits(ledger: seq<Entry>, u: nat, n: nat)
    requires n <= |ledger|
    ensures Derived(ledger, u, n) == Turnover(ledger, u, Credit, n) - Turnover(ledger, u, Debit, n)
  {
    if n > 0 {
      CreditsLessDebits(ledger, u, n - 1);
    }
  }

  /** Consecutive entries of one account link up, and its first starts from zero. */
  lemma ChainUnbroken(ledger: seq<Entry>, i: nat, j: nat)
    requires Chained(ledger) && j < |ledger|
    requires i <= j && forall k :: i <= k < j ==> ledger[k].user != ledger[j].user
    ensures i == 0 ==> ledger[j].before == 0
    ensures i > 0 && ledger[i - 1].user == ledger[j].user ==> ledger[j].before == ledger[i - 1].after
  {
    DerivedSkips(ledger, ledger[j].user, i, j);
  }
}
