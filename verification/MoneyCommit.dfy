/** COMMIT and the environment keep the invariant of the shared database; hence every run does. */
module MoneyCommit {
  import opened Prelude
  import opened Ledger
  import opened Payload
  import opened Money
  import opened MoneyInvariant
  import RE = RoundEngine

  lemma FindRefStable(ledger: seq<Entry>, e: Entry, t: RefType, id: nat)
    ensures e.refId != Some(id) || e.refType != t ==> FindRef(ledger + [e], t, id) == FindRef(ledger, t, id)
    ensures e.refId == Some(id) && e.refType == t ==> FindRef(ledger + [e], t, id) == Some(|ledger|)
  {
    assert (ledger + [e])[..|ledger|] == ledger;
  }

  lemma FindLogStable(logs: seq<Log>, l: Log, id: nat)
    ensures l.id != id ==> FindLog(logs + [l], id) == FindLog(logs, id)
    ensures l.id == id ==> FindLog(logs + [l], id) == Some(|logs|)
  {
    assert (logs + [l])[..|logs|] == logs;
  }

  lemma FindBetStable(bets: seq<Bet>, b: Bet, user: nat, key: string)
    requires !(b.user == user && b.key == key)
    ensures FindBet(bets + [b], user, key) == FindBet(bets, user, key)
  {
    assert (bets + [b])[..|bets|] == bets;
  }

  lemma FindKeyStable(ledger: seq<Entry>, e: Entry, k: LedgerKey)
    requires e.key != k
    ensures FindKey(ledger + [e], k) == FindKey(ledger, k)
  {
    assert (ledger + [e])[..|ledger|] == ledger;
  }

  lemma BetIdsAppend(bets: seq<Bet>, b: Bet)
    ensures BetIds(bets + [b]) == BetIds(bets) + {b.id}
  {
    var bs := bets + [b];
    assert bs[|bets|] == b;
    forall i | 0 <= i < |bets| ensures bets[i].id in BetIds(bs) {
      assert bs[i] == bets[i];
    }
  }

  lemma LogIdsAppend(logs: seq<Log>, l: Log)
    ensures LogIds(logs + [l]) == LogIds(logs) + {l.id}
  {
    var ls := logs + [l];
    assert ls[|logs|] == l;
    forall i | 0 <= i < |logs| ensures logs[i].id in LogIds(ls) {
      assert ls[i] == logs[i];
    }
  }

  ghost predicate AtCommit(s: Sys, p: nat) {
    Inv(s) && p < |s.procs| && s.procs[p].pc.Commit?
  }

  lemma CommitFacts(s: Sys, p: nat)
    requires AtCommit(s, p)
    ensures var q := s.procs[p]; var u := User(q.call);
      && ProcOk(s, p, q) && u in s.accounts && TokenOk(s, q) && RefFresh(s.ledger, q.id) && q.id < s.nextId
      && FindKey(s.ledger, KeyOf(q)).None? && Amount(q.call) > 0
  {
    var q := s.procs[p];
    assert ProcOk(s, p, q);
    if q.call.PlaceBet? {
      TotalPositive(q.call.items);
    }
  }

  lemma CommitLedger(s: Sys, p: nat)
    requires AtCommit(s, p)
    ensures User(s.procs[p].call) in s.accounts
    ensures LedgerOk(DoCommit(s, p).accounts, DoCommit(s, p).ledger)
  {
    hide Inv, LedgerOk, ProcOk, FindKey;
    LedgerOf(s);
    CommitFacts(s, p);
    AppendKeeps(s.accounts, s.ledger, EntryOf(s.procs[p]));
  }

  lemma CommitStart(s: Sys, p: nat)
    requires AtCommit(s, p)
    ensures EntriesJustified(s) && PcFits(s.procs[p])
  {
    assert ProcOk(s, p, s.procs[p]);
  }

  /** Appending an entry with a fresh id and its justifying row keeps all entries justified. */
  lemma EntryAppended(s: Sys, s': Sys, e: Entry, id: nat)
    requires EntriesJustified(s) && s'.ledger == s.ledger + [e] && s.nextId <= s'.nextId
    requires BetIds(s.bets) <= BetIds(s'.bets) && LogIds(s.logs) <= LogIds(s'.logs)
    requires e.refId == Some(id) && id < s'.nextId && RefFresh(s.ledger, id)
    requires (e.refType == BetPlaced && id in BetIds(s'.bets))
              || (e.refType in {AdminCredit, AdminDebit} && id in LogIds(s'.logs))
    ensures EntriesJustified(s')
  {
    hide BetIds, LogIds;
    assert forall i :: 0 <= i < |s.ledger| ==> s'.ledger[i] == s.ledger[i];
  }

  lemma CommitJustified(s: Sys, p: nat)
    requires AtCommit(s, p)
    ensures User(s.procs[p].call) in s.accounts && EntriesJustified(DoCommit(s, p))
  {
    hide Inv, ProcOk, TokenOk, RefFresh, EntriesJustified, BetIds, LogIds;
    CommitFacts(s, p);
    CommitStart(s, p);
    var q, s' := s.procs[p], DoCommit(s, p);
    if q.call.PlaceBet? {
      BetIdsAppend(s.bets, s'.bets[|s.bets|]);
    } else {
      LogIdsAppend(s.logs, s'.logs[|s.logs|]);
    }
    EntryAppended(s, s', EntryOf(q), q.id);
  }

  /** Committed bets stay sound when another entry is appended. */
  lemma OldBetStays(s: Sys, p: nat, b: nat)
    requires AtCommit(s, p) && b < |s.bets|
    ensures User(s.procs[p].call) in s.accounts && BetOk(DoCommit(s, p), b)
  {
    CommitFacts(s, p);
    assert BetOk(s, b);
    FindRefStable(s.ledger, EntryOf(s.procs[p]), BetPlaced, s.bets[b].id);
  }

  lemma OldLogStays(s: Sys, p: nat, l: nat)
    requires AtCommit(s, p) && l < |s.logs|
    ensures User(s.procs[p].call) in s.accounts && LogOk(DoCommit(s, p), l)
  {
    CommitFacts(s, p);
    assert LogOk(s, l);
    FindRefStable(s.ledger, EntryOf(s.procs[p]), AdminRef(s.logs[l].direction), s.logs[l].id);
  }

  lemma NewBetOk(s: Sys, p: nat)
    requires AtCommit(s, p) && s.procs[p].call.PlaceBet?
    ensures User(s.procs[p].call) in s.accounts && BetOk(DoCommit(s, p), |s.bets|)
    ensures forall a :: 0 <= a < |s.bets| ==> s.bets[a].id != s.procs[p].id
    ensures forall a :: 0 <= a < |s.bets| ==>
              !(s.bets[a].user == s.procs[p].call.user && s.bets[a].key == s.procs[p].call.key)
  {
    CommitFacts(s, p);
    var q := s.procs[p];
    TotalPositive(q.call.items);
    FindRefStable(s.ledger, EntryOf(q), BetPlaced, q.id);
    assert RoundOk(s, q);
    forall a | 0 <= a < |s.bets| ensures s.bets[a].id != q.id {
      assert BetOk(s, a);
    }
  }

  lemma NewLogOk(s: Sys, p: nat)
    requires AtCommit(s, p) && s.procs[p].call.Adjust?
    ensures User(s.procs[p].call) in s.accounts && LogOk(DoCommit(s, p), |s.logs|)
    ensures forall l :: 0 <= l < |s.logs| ==> s.logs[l].id != s.procs[p].id
  {
    CommitFacts(s, p);
    var q := s.procs[p];
    FindRefStable(s.ledger, EntryOf(q), AdminRef(q.call.direction), q.id);
    forall l | 0 <= l < |s.logs| ensures s.logs[l].id != q.id {
      assert LogOk(s, l);
    }
  }

  lemma BetsAfter(s: Sys, p: nat)
    requires p < |s.procs| && User(s.procs[p].call) in s.accounts
    ensures var s' := DoCommit(s, p); var c := s.procs[p].call;
      if c.PlaceBet? then
        && |s'.bets| == |s.bets| + 1 && s'.bets[..|s.bets|] == s.bets
        && s'.bets[|s.bets|].id == s.procs[p].id && s'.bets[|s.bets|].user == c.user && s'.bets[|s.bets|].key == c.key
      else s'.bets == s.bets
  {
  }

  lemma CommitBets(s: Sys, p: nat)
    requires AtCommit(s, p) && BetsOk(s)
    ensures User(s.procs[p].call) in s.accounts && BetsOk(DoCommit(s, p))
  {
    hide BetOk, Inv, ProcOk, DoCommit, RefFresh, TokenOk;
    CommitFacts(s, p);
    BetsAfter(s, p);
    var s' := DoCommit(s, p);
    if s.procs[p].call.PlaceBet? {
      NewBetOk(s, p);
      assert forall b :: 0 <= b < |s.bets| ==> s'.bets[b] == s'.bets[..|s.bets|][b];
    }
    forall b | 0 <= b < |s'.bets| ensures BetOk(s', b) {
      if b < |s.bets| {
        OldBetStays(s, p, b);
      }
    }
  }

  lemma CommitLogs(s: Sys, p: nat)
    requires AtCommit(s, p) && LogsOk(s)
    ensures User(s.procs[p].call) in s.accounts && LogsOk(DoCommit(s, p))
  {
    hide LogOk, Inv, ProcOk;
    CommitFacts(s, p);
    var s' := DoCommit(s, p);
    if s.procs[p].call.Adjust? {
      NewLogOk(s, p);
    }
    forall l | 0 <= l < |s'.logs| ensures LogOk(s', l) {
      if l < |s.logs| {
        OldLogStays(s, p, l);
      }
    }
  }

  lemma PlacedStays(s: Sys, p: nat, r: nat, c: Call, o: Outcome)
    requires AtCommit(s, p) && o.Placed? && OutcomeOk(s, r, c, o)
    ensures User(s.procs[p].call) in s.accounts && OutcomeOk(DoCommit(s, p), r, c, o)
  {
    hide Inv, SameBet, RefFresh;
    CommitFacts(s, p);
    FindRefStable(s.ledger, EntryOf(s.procs[p]), BetPlaced, o.betId);
  }

  lemma AdjustedStays(s: Sys, p: nat, r: nat, c: Call, o: Outcome)
    requires AtCommit(s, p) && o.Adjusted? && OutcomeOk(s, r, c, o)
    ensures User(s.procs[p].call) in s.accounts && OutcomeOk(DoCommit(s, p), r, c, o)
  {
    hide Inv, RefFresh;
    CommitFacts(s, p);
    var s' := DoCommit(s, p);
    assert s'.ledger[o.at] == s.ledger[o.at];
    if s.procs[p].call.Adjust? {
      FindLogStable(s.logs, s'.logs[|s.logs|], o.logId);
      var l := FindLog(s.logs, o.logId).value;
      assert s'.logs[l] == s.logs[l];
    }
  }

  lemma OutcomeStays(s: Sys, p: nat, r: nat, c: Call, o: Outcome)
    requires AtCommit(s, p) && OutcomeOk(s, r, c, o)
    ensures User(s.procs[p].call) in s.accounts && OutcomeOk(DoCommit(s, p), r, c, o)
  {
    hide Inv, DoCommit;
    CommitFacts(s, p);
    if o.Placed? {
      PlacedStays(s, p, r, c, o);
    } else if o.Adjusted? {
      AdjustedStays(s, p, r, c, o);
    }
  }

  lemma OtherCallStays(s: Sys, p: nat, r: nat)
    requires AtCommit(s, p) && r < |s.procs| && r != p
    ensures User(s.procs[p].call) in s.accounts && ProcOk(DoCommit(s, p), r, s.procs[r])
  {
    hide Inv, OutcomeOk;
    CommitFacts(s, p);
    CallOf(s, r);
    PairOf(s, p, r);
    var q, x, s' := s.procs[p], s.procs[r], DoCommit(s, p);
    if HoldsLedgerKey(x, KeyOf(x)) {
      FindKeyStable(s.ledger, EntryOf(q), KeyOf(x));
    }
    if q.call.PlaceBet? && x.call.PlaceBet? && HoldsBetKey(x, x.call.user, x.call.key) {
      FindBetStable(s.bets, s'.bets[|s.bets|], x.call.user, x.call.key);
    }
    if x.pc.Finished? {
      OutcomeStays(s, p, r, x.call, x.pc.outcome);
    }
  }

  lemma OwnBetOutcome(s: Sys, p: nat)
    requires AtCommit(s, p) && s.procs[p].call.PlaceBet?
    ensures User(s.procs[p].call) in s.accounts
    ensures OutcomeOk(DoCommit(s, p), p, s.procs[p].call, DoCommit(s, p).procs[p].pc.outcome)
  {
    hide Inv;
    CommitFacts(s, p);
    FindRefStable(s.ledger, EntryOf(s.procs[p]), BetPlaced, s.procs[p].id);
    SelfMatch(s.procs[p].call.items);
  }

  lemma OwnAdjustOutcome(s: Sys, p: nat)
    requires AtCommit(s, p) && s.procs[p].call.Adjust?
    ensures User(s.procs[p].call) in s.accounts
    ensures OutcomeOk(DoCommit(s, p), p, s.procs[p].call, DoCommit(s, p).procs[p].pc.outcome)
  {
    hide Inv;
    CommitFacts(s, p);
    FindLogStable(s.logs, DoCommit(s, p).logs[|s.logs|], s.procs[p].id);
  }

  lemma OwnOutcomeOk(s: Sys, p: nat)
    requires AtCommit(s, p)
    ensures User(s.procs[p].call) in s.accounts && ProcOk(DoCommit(s, p), p, DoCommit(s, p).procs[p])
  {
    hide Inv, OutcomeOk, TokenOk, RefFresh;
    CommitFacts(s, p);
    if s.procs[p].call.PlaceBet? {
      OwnBetOutcome(s, p);
    } else {
      OwnAdjustOutcome(s, p);
    }
  }

  /** A payload matches itself. */
  lemma SelfMatch(items: seq<Item>)
    requires Distinct(items) && AllPositive(items)
    ensures ItemsMatch(items, items)
  {
    MatchMeansSameSums(items, items);
  }

  lemma CommitKeeps(s: Sys, p: nat)
    requires AtCommit(s, p)
    ensures User(s.procs[p].call) in s.accounts && Inv(DoCommit(s, p))
  {
    hide LedgerOk, EntriesJustified, BetsOk, LogsOk, ProcOk, RE.Inv;
    CommitLedger(s, p);
    CommitJustified(s, p);
    CommitBets(s, p);
    CommitLogs(s, p);
    var s' := DoCommit(s, p);
    forall r | 0 <= r < |s'.procs| ensures ProcOk(s', r, s'.procs[r]) {
      if r != p {
        OtherCallStays(s, p, r);
      } else {
        OwnOutcomeOk(s, p);
      }
    }
  }

  // ---- every action ----

  lemma AdvanceKeeps(s: Sys, p: nat)
    requires Inv(s) && p < |s.procs| && Advance(s, p).Some?
    ensures Inv(Advance(s, p).value)
  {
    hide Inv;
    var q := s.procs[p];
    CallOf(s, p);
    match q.pc
    case CheckUser =>
      if User(q.call) in s.accounts { QuietMove(s, p, Find(false)); } else { FailKeeps(s, p, NotFound); }
    case Find(_) => FindKeeps(s, p);
    case Replay(_) => if q.call.PlaceBet? { ReplayBetKeeps(s, p); } else { ReplayAdjustmentKeeps(s, p); }
    case Begin => BeginKeeps(s, p);
    case LockRound => LockRoundKeeps(s, p);
    case InsertLog => InsertLogKeeps(s, p);
    case LockAccount => LockAccountKeeps(s, p);
    case InsertBet => InsertBetKeeps(s, p);
    case InsertItems => QuietMove(s, p, InsertLedger);
    case InsertLedger => InsertLedgerKeeps(s, p);
    case UpdateAccount => QuietMove(s, p, Commit);
    case Commit => CommitKeeps(s, p);
    case Finished(_) =>
  }

  lemma RequestKeeps(s: Sys, c: Call)
    requires Inv(s) && ValidCall(c)
    ensures Inv(s.(procs := s.procs + [NewProc(c, s.db.clock)]))
  {
    hide LedgerOk, RE.Inv, EntriesJustified, BetsOk, LogsOk;
    var s' := s.(procs := s.procs + [NewProc(c, s.db.clock)]);
    RowsStay(s, s');
    NewCallOk(s', c);
    forall r | 0 <= r < |s'.procs| ensures ProcOk(s', r, s'.procs[r]) {
      if r < |s.procs| {
        CallStays(s, s', r, s.procs[r]);
      }
    }
  }

  /** A call that has done nothing has no obligations yet. */
  lemma NewCallOk(s: Sys, c: Call)
    requires ValidCall(c)
    ensures forall r :: ProcOk(s, r, NewProc(c, s.db.clock))
    ensures forall q: Proc
              {:trigger Compatible(q, NewProc(c, s.db.clock))} {:trigger Compatible(NewProc(c, s.db.clock), q)} ::
              Compatible(q, NewProc(c, s.db.clock)) && Compatible(NewProc(c, s.db.clock), q)
  {
  }

  lemma RegisterKeeps(s: Sys, u: nat)
    requires Inv(s) && u !in s.accounts
    ensures Inv(s.(accounts := s.accounts[u := Account(0, 0)]))
  {
    hide LedgerOk, RE.Inv, EntriesJustified, BetsOk, LogsOk, ProcOk;
    var s' := s.(accounts := s.accounts[u := Account(0, 0)]);
    OpenKeeps(s.accounts, s.ledger, u);
    RowsStay(s, s');
    forall r | 0 <= r < |s'.procs| ensures ProcOk(s', r, s'.procs[r]) {
      CallStays(s, s', r, s.procs[r]);
    }
  }

  /** A bet survives an engine's move: rounds keep their deadlines. */
  lemma BetSurvivesEngine(s: Sys, a: RE.Action, b: nat)
    requires Inv(s) && b < |s.bets|
    ensures BetOk(Do(s, EngineMove(a)), b)
  {
    hide RE.Do, RE.Inv, ProcOk, LedgerOk, EntriesJustified;
    RE.RowsStep(s.db, RE.Move(a, HeldRounds(s)));
    assert BetOk(s, b);
    assert RE.RowStep(s.db.rows[s.bets[b].round], Do(s, EngineMove(a)).db.rows[s.bets[b].round]);
  }

  /** A call survives an engine's move: a round it holds is not touched. */
  lemma CallSurvivesEngine(s: Sys, a: RE.Action, r: nat)
    requires Inv(s) && r < |s.procs|
    ensures ProcOk(Do(s, EngineMove(a)), r, s.procs[r])
  {
    hide RE.Do, RE.Inv, BetOk, LogOk, LedgerOk, EntriesJustified;
    RE.RowsStep(s.db, RE.Move(a, HeldRounds(s)));
    ClockAdvances(s.db, RE.Move(a, HeldRounds(s)));
    var q := s.procs[r];
    assert ProcOk(s, r, q);
    if q.call.PlaceBet? && HoldsRound(q, q.call.round) {
      assert q.call.round in HeldRounds(s);
    }
  }

  lemma ClockAdvances(d: RE.Db, m: RE.Move)
    ensures d.clock <= RE.Do(d, m).clock
  {
  }

  /** The engines respect the row locks of open bets, so what those transactions checked stays true. */
  lemma EngineMoveKeeps(s: Sys, a: RE.Action)
    requires Inv(s)
    ensures Inv(Do(s, EngineMove(a)))
  {
    hide RE.Do, RE.Inv, ProcOk, BetOk, LedgerOk;
    var s' := Do(s, EngineMove(a));
    RE.StepKeeps(s.db, RE.Move(a, HeldRounds(s)));
    forall b | 0 <= b < |s'.bets| ensures BetOk(s', b) {
      BetSurvivesEngine(s, a, b);
    }
    forall l | 0 <= l < |s'.logs| ensures LogOk(s', l) {
      assert LogOk(s, l);
    }
    forall r | 0 <= r < |s'.procs| ensures ProcOk(s', r, s'.procs[r]) {
      CallSurvivesEngine(s, a, r);
    }
  }

  lemma DoKeeps(s: Sys, a: Action)
    requires Inv(s)
    ensures Inv(Do(s, a))
  {
    match a
    case Request(c) => if ValidCall(c) { RequestKeeps(s, c); }
    case Api(p) => if p < |s.procs| && Advance(s, p).Some? { AdvanceKeeps(s, p); }
    case ApiCrash(p) => if p < |s.procs| && !s.procs[p].pc.Finished? { FailKeeps(s, p, CallCrashed); }
    case Register(u) => if u !in s.accounts { RegisterKeeps(s, u); }
    case EngineMove(m) => EngineMoveKeeps(s, m);
  }

  /** The invariant holds after any interleaving of statements, crashes and engine moves. */
  lemma {:induction false} RunKeeps(s: Sys, actions: seq<Action>)
    requires Inv(s)
    ensures Inv(Run(s, actions))
    decreases |actions|
  {
    if actions != [] {
      DoKeeps(s, actions[0]);
      RunKeeps(Do(s, actions[0]), actions[1..]);
    }
  }
}
