/** PointsReconciliationService: comparing every cached balance with its ledger sum. */
module Reconciliation {
  import opened Ledger
  import Money
  import Theorems = MoneyTheorems

  datatype AccountResult = AccountResult(user: nat, projected: int, derived: int, matches: bool)

  predicate Disagrees(accounts: Accounts, ledger: seq<Entry>, u: nat) {
    u in accounts && accounts[u].balance != Derived(ledger, u, |ledger|)
  }

  /**
   * `verifyAll`. The balances are read in one statement and each account's ledger in a later one of its own:
   * `read[u]` is the ledger as `u`'s sum sees it. A report for exactly the accounts whose balance is not that
   * sum, each once, with both figures.
   */
  method VerifyAll(accounts: Accounts, read: map<nat, seq<Entry>>)
      returns (checked: nat, mismatches: seq<AccountResult>)
    requires accounts.Keys <= read.Keys
    ensures checked == |accounts|
    ensures forall i :: 0 <= i < |mismatches| ==>
              var m := mismatches[i];
              m.user in accounts && Disagrees(accounts, read[m.user], m.user)
              && m == AccountResult(m.user, accounts[m.user].balance, Derived(read[m.user], m.user, |read[m.user]|),
                   false)
    ensures forall i, j :: 0 <= i < j < |mismatches| ==> mismatches[i].user != mismatches[j].user
    ensures forall u :: u in accounts && Disagrees(accounts, read[u], u) ==>
              exists i :: 0 <= i < |mismatches| && mismatches[i].user == u
  {
    mismatches := [];
    var todo := accounts.Keys;
    while todo != {}
      invariant todo <= accounts.Keys
      invariant forall i :: 0 <= i < |mismatches| ==>
                  var m := mismatches[i];
                  m.user in accounts && m.user !in todo && Disagrees(accounts, read[m.user], m.user)
                  && m == AccountResult(m.user, accounts[m.user].balance, Derived(read[m.user], m.user, |read[m.user]|),
                       false)
      invariant forall i, j :: 0 <= i < j < |mismatches| ==> mismatches[i].user != mismatches[j].user
      invariant forall u :: u in accounts && u !in todo && Disagrees(accounts, read[u], u) ==>
                  exists i :: 0 <= i < |mismatches| && mismatches[i].user == u
    {
      var u :| u in todo;
      todo := todo - {u};
      var derived := Derived(read[u], u, |read[u]|);
      var matches := accounts[u].balance == derived;
      if !matches {
        ghost var before := mismatches;
        mismatches := mismatches + [AccountResult(u, accounts[u].balance, derived, false)];
        assert mismatches[|before|].user == u;
        assert forall i :: 0 <= i < |before| ==> mismatches[i] == before[i];
      }
    }
    checked := |accounts|;
  }

  /** With nothing committed in between, no account of a reachable state is reported. */
  lemma NothingToReport(s: Money.Sys, u: nat)
    requires Theorems.Reachable(s)
    ensures !Disagrees(s.accounts, s.ledger, u)
  {
    Theorems.LedgerIntegrity(s);
  }

  /**
   * No lock is taken: the balances come from one state and `u`'s sum from a later one, whatever committed in
   * between. Then `u` is reported exactly if its balance is another one by then.
   */
  lemma ReportedExactly(s: Money.Sys, actions: seq<Money.Action>, u: nat)
    requires Theorems.Reachable(s) && u in s.accounts
    ensures var s' := Money.Run(s, actions);
      u in s'.accounts && (Disagrees(s.accounts, s'.ledger, u) <==> s'.accounts[u].balance != s.accounts[u].balance)
  {
    AccountsStay(s, actions, u);
    Theorems.ReachableRun(s, actions);
    Theorems.LedgerIntegrity(Money.Run(s, actions));
  }

  /** No run closes an account. */
  lemma {:induction false} AccountsStay(s: Money.Sys, actions: seq<Money.Action>, u: nat)
    requires u in s.accounts
    ensures u in Money.Run(s, actions).accounts
    decreases |actions|
  {
    if actions != [] {
      AccountStays(s, actions[0], u);
      AccountsStay(Money.Do(s, actions[0]), actions[1..], u);
    }
  }

  lemma AccountStays(s: Money.Sys, a: Money.Action, u: nat)
    requires u in s.accounts
    ensures u in Money.Do(s, a).accounts
  {
    hide FindKey, FindRef, Money.FindBet, Money.SameBet, Money.SameAdjustment, Money.Others;
  }
}
