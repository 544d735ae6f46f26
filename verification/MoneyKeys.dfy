/**
 * The ledger key of a bet's debit. It is made from a generated id, so no two bets share one; but the keys of
 * adjustments are free text in the same index, so an adjustment can hold it already.
 */
module MoneyKeys {
  import opened Prelude
  import opened Ledger
  import opened Payload
  import opened Money
  import opened MoneyInvariant
  import opened MoneyTheorems
  import DisplayCode
  import RT = RoundTable
  import RE = RoundEngine

  ghost predicate AtDebit(s: Sys, p: nat) {
    p < |s.procs| && s.procs[p].call.PlaceBet? && s.procs[p].pc.InsertLedger?
  }

  lemma DebitFacts(s: Sys, p: nat)
    requires Reachable(s) && AtDebit(s, p)
    ensures RefFresh(s.ledger, s.procs[p].id) && FindBet(s.bets, s.procs[p].call.user, s.procs[p].call.key).None?
  {
    ReachableInv(s);
    assert ProcOk(s, p, s.procs[p]);
  }

  /** Call `p` runs its next two statements with nothing in between and ends with the unique violation. */
  ghost predicate EndsInUniqueViolation(s: Sys, p: nat)
    requires p < |s.procs| && Advance(s, p).Some?
  {
    var s1 := Advance(s, p).value;
    p < |s1.procs| && Advance(s1, p).Some?
    && Advance(s1, p).value == s.(procs := s.procs[p := s.procs[p].(pc := Finished(Failed(UniqueViolation)))])
  }

  /**
   * A placement that comes to its debit is refused there, and then fails with the unique violation having
   * written nothing, if and only if the ledger already holds its key.
   */
  lemma DebitRefusedExactly(s: Sys, p: nat)
    requires Reachable(s) && AtDebit(s, p) && Advance(s, p).Some?
    ensures EndsInUniqueViolation(s, p) <==> FindKey(s.ledger, BetDebit(s.procs[p].id)).Some?
  {
    DebitFacts(s, p);
    hide Others, RefFresh, FindRef, SameBet;
    if FindKey(s.ledger, BetDebit(s.procs[p].id)).Some? {
      TwoStatements(s, p);
    } else {
      FreeKeyGoesOn(s, p);
    }
  }

  lemma FreeKeyGoesOn(s: Sys, p: nat)
    requires AtDebit(s, p) && Advance(s, p).Some? && FindKey(s.ledger, BetDebit(s.procs[p].id)).None?
    ensures !EndsInUniqueViolation(s, p)
  {
    hide Others, FindKey;
    assert Advance(s, p).value == At(s, p, UpdateAccount);
    assert Advance(At(s, p, UpdateAccount), p).value.procs[p].pc == Commit;
  }

  lemma TwoStatements(s: Sys, p: nat)
    requires AtDebit(s, p) && FindBet(s.bets, s.procs[p].call.user, s.procs[p].call.key).None?
    requires FindKey(s.ledger, BetDebit(s.procs[p].id)).Some?
    ensures Advance(s, p).Some? && EndsInUniqueViolation(s, p)
  {
    hide Others, FindRef, SameBet, FindBet, FindKey;
    var q := s.procs[p];
    var q1, q2 := q.(pc := Find(true)), q.(pc := Finished(Failed(UniqueViolation)));
    var s1 := s.(procs := s.procs[p := q1]);
    assert Advance(s, p) == Some(s1);
    assert s1.procs[p] == q1 && q1.(pc := Finished(Failed(UniqueViolation))) == q2;
    assert s1.procs[p := q2] == s.procs[p := q2];
    assert Advance(s1, p) == Some(s1.(procs := s1.procs[p := q2]));
  }

  /** Some call of this run is an adjustment whose key names bet id `id`. */
  ghost predicate Named(s: Sys, id: nat) {
    exists a: nat :: a < |s.procs| && s.procs[a].call.Adjust? && s.procs[a].call.ikey == BetDebit(id)
  }

  /**
   * The key is collision-free among bets: only an adjustment whose own key names the very id this call
   * generated can hold it. If no adjustment's key has that form, no placement is ever refused at its debit.
   */
  lemma OnlyNamingCollides(s: Sys, p: nat)
    requires Reachable(s) && AtDebit(s, p) && FindKey(s.ledger, BetDebit(s.procs[p].id)).Some?
    ensures Named(s, s.procs[p].id)
  {
    DebitFacts(s, p);
    var i := FindKey(s.ledger, BetDebit(s.procs[p].id)).value;
    if s.ledger[i].refType == BetPlaced {
      DebitHasOneBet(s, i);
      assert false;
    }
    EffectHasOneLog(s, i);
    var l: nat :| OnlyEffect(s, l, i);
    LogCallerIs(s, l);
    var a := s.logs[l].caller;
    OutcomeHolds(s, a);
    assert s.procs[a].pc.outcome.at == i;
    assert s.procs[a].call.ikey == BetDebit(s.procs[p].id);
  }

  lemma LogCallerIs(s: Sys, l: nat)
    requires Reachable(s) && l < |s.logs|
    ensures LogCaller(s.procs, s.logs[l])
  {
    LogHolds(s, l);
  }

  // ---- such a collision can be reached ----

  lemma ReachableDo(s: Sys, a: Action)
    requires Reachable(s)
    ensures Reachable(Do(s, a))
  {
    hide Do;
    ReachableRun(s, [a]);
    assert Run(Do(s, a), []) == Do(s, a);
  }

  const GAME := DisplayCode.TripleChanceTimer

  function OpenRow(): RT.Round {
    RT.Fresh(GAME, 1, 100).(state := RT.BETTING_OPEN, version := 1)
  }

  function OpenDb(): RE.Db {
    RE.Db([OpenRow()], [RE.Engine(GAME, false, RE.Done(RE.Created(0)), 0),
        RE.Engine(GAME, false, RE.Done(RE.Opened(true)), 0)], 0)
  }

  function Opening(): seq<RE.Action> {
    [RE.Start(GAME, false, RE.AtNextNumber), RE.Step(0, 100), RE.Step(0, 100), RE.Start(GAME, false, RE.AtOpen(0)),
        RE.Step(1, 0)]
  }

  lemma RoundOpens()
    ensures var d0 := RE.Init(0);
      var d1 := RE.Do(d0, RE.Move(Opening()[0], {}));
      var d2 := RE.Do(d1, RE.Move(Opening()[1], {}));
      var d3 := RE.Do(d2, RE.Move(Opening()[2], {}));
      var d4 := RE.Do(d3, RE.Move(Opening()[3], {}));
      RE.Do(d4, RE.Move(Opening()[4], {})) == OpenDb()
  {
    var e := RE.Engine(GAME, false, RE.AtNextNumber, 0);
    var d1 := RE.Do(RE.Init(0), RE.Move(Opening()[0], {}));
    assert d1 == RE.Db([], [e], 0);
    var d2 := RE.Do(d1, RE.Move(Opening()[1], {}));
    assert d2 == RE.Db([], [e.(pc := RE.AtCreate(1))], 0);
    var d3 := RE.Do(d2, RE.Move(Opening()[2], {}));
    assert d3 == RE.Db([RT.Fresh(GAME, 1, 100)], [e.(pc := RE.Done(RE.Created(0)))], 0);
    var d4 := RE.Do(d3, RE.Move(Opening()[3], {}));
    assert d4.engines == [e.(pc := RE.Done(RE.Created(0))), e.(pc := RE.AtOpen(0))];
    var d5 := RE.Do(d4, RE.Move(Opening()[4], {}));
    assert d5.rows == [OpenRow()];
    assert d5.engines == OpenDb().engines;
  }

  lemma EngineMoves(s: Sys, a: RE.Action)
    requires Reachable(s) && s.procs == []
    ensures Reachable(s.(db := RE.Do(s.db, RE.Move(a, {}))))
  {
    hide RE.Do;
    ReachableDo(s, EngineMove(a));
    assert HeldRounds(s) == {};
  }

  /** One open round and one registered user. */
  lemma RoundIsOpen()
    ensures Reachable(Sys(map[7 := Account(0, 0)], [], [], [], [], 0, OpenDb()))
  {
    hide RE.Do, OpenDb;
    var s := Init(0);
    assert s == Run(Init(0), []);
    RoundOpens();
    EngineMoves(s, Opening()[0]);
    s := s.(db := RE.Do(s.db, RE.Move(Opening()[0], {})));
    EngineMoves(s, Opening()[1]);
    s := s.(db := RE.Do(s.db, RE.Move(Opening()[1], {})));
    EngineMoves(s, Opening()[2]);
    s := s.(db := RE.Do(s.db, RE.Move(Opening()[2], {})));
    EngineMoves(s, Opening()[3]);
    s := s.(db := RE.Do(s.db, RE.Move(Opening()[3], {})));
    EngineMoves(s, Opening()[4]);
    s := s.(db := RE.Do(s.db, RE.Move(Opening()[4], {})));
    ReachableDo(s, Register(7));
  }

  // An adjustment whose key names bet id 1, and the placement that then generates id 1.

  function Gift(): Call {
    Adjust(1, 7, Credit, 500, "gift", BetDebit(1))
  }

  function Stake(): Call {
    PlaceBet(7, "k", GAME, 0, [Item(Key(Singles, 1), 100)])
  }

  lemma Reaches(s: Sys, p: nat, t: Sys)
    requires Reachable(s) && p < |s.procs| && Advance(s, p).Some?
    requires Advance(s, p).value.procs == t.procs && Advance(s, p).value.(procs := []) == t.(procs := [])
    ensures Reachable(t)
  {
    ReachableDo(s, Api(p));
  }

  function BeforeGift(pc: Pc, token: Token, id: nat, nextId: nat): Sys {
    Sys(map[7 := Account(0, 0)], [], [], [], [Proc(Gift(), pc, 0, token, id)], nextId, OpenDb())
  }

  lemma GiftBegins()
    ensures Reachable(BeforeGift(Begin, Token(0, 0), 0, 0))
  {
    hide OpenDb;
    var none := Token(0, 0);
    RoundIsOpen();
    ClockIsZero();
    ReachableDo(Sys(map[7 := Account(0, 0)], [], [], [], [], 0, OpenDb()), Request(Gift()));
    assert Reachable(BeforeGift(CheckUser, none, 0, 0));
    Reaches(BeforeGift(CheckUser, none, 0, 0), 0, BeforeGift(Find(false), none, 0, 0));
    Reaches(BeforeGift(Find(false), none, 0, 0), 0, BeforeGift(Begin, none, 0, 0));
  }

  lemma GiftIsLogged()
    ensures Reachable(BeforeGift(LockAccount, Token(0, 0), 0, 1))
  {
    hide OpenDb;
    var none := Token(0, 0);
    GiftBegins();
    ClockIsZero();
    Reaches(BeforeGift(Begin, none, 0, 0), 0, BeforeGift(InsertLog, none, 0, 0));
    Reaches(BeforeGift(InsertLog, none, 0, 0), 0, BeforeGift(LockAccount, none, 0, 1));
  }

  lemma GiftReachesCommit()
    ensures Reachable(BeforeGift(Commit, Token(0, 500), 0, 1))
  {
    hide OpenDb;
    var token := Token(0, 500);
    GiftIsLogged();
    Reaches(BeforeGift(LockAccount, Token(0, 0), 0, 1), 0, BeforeGift(InsertLedger, token, 0, 1));
    Reaches(BeforeGift(InsertLedger, token, 0, 1), 0, BeforeGift(UpdateAccount, token, 0, 1));
    Reaches(BeforeGift(UpdateAccount, token, 0, 1), 0, BeforeGift(Commit, token, 0, 1));
  }

  lemma ClockIsZero()
    ensures OpenDb().clock == 0
  {
  }

  function GiftEntry(): Entry {
    Entry(7, Credit, 500, 0, 500, AdminCredit, Some(0), BetDebit(1), "gift")
  }

  function AfterGift(pc: Pc, token: Token, id: nat, nextId: nat): Sys {
    Sys(map[7 := Account(500, 1)], [GiftEntry()], [], [Log(0, 1, 7, Credit, 500, "gift", 0)],
        [Proc(Gift(), Finished(Adjusted(0, 0, 500, 0, false)), 0, Token(0, 500), 0), Proc(Stake(), pc, 0, token, id)],
        nextId, OpenDb())
  }

  lemma StakeBegins()
    ensures Reachable(AfterGift(Find(false), Token(0, 0), 0, 1))
  {
    hide OpenDb;
    GiftReachesCommit();
    ClockIsZero();
    var s := BeforeGift(Commit, Token(0, 500), 0, 1);
    ReachableDo(s, Api(0));
    assert DoCommit(s, 0).procs == [Proc(Gift(), Finished(Adjusted(0, 0, 500, 0, false)), 0, Token(0, 500), 0)];
    ReachableDo(DoCommit(s, 0), Request(Stake()));
  }

  lemma StakeLocksRound()
    ensures Reachable(AfterGift(LockAccount, Token(0, 0), 0, 1))
  {
    var none := Token(0, 0);
    StakeBegins();
    Reaches(AfterGift(Find(false), none, 0, 1), 1, AfterGift(Begin, none, 0, 1));
    Reaches(AfterGift(Begin, none, 0, 1), 1, AfterGift(LockRound, none, 0, 1));
    Reaches(AfterGift(LockRound, none, 0, 1), 1, AfterGift(LockAccount, none, 0, 1));
  }

  lemma StakeReachesDebit()
    ensures Reachable(AfterGift(InsertLedger, Token(500, 400), 1, 2))
  {
    hide OpenDb;
    var token := Token(500, 400);
    StakeLocksRound();
    Reaches(AfterGift(LockAccount, Token(0, 0), 0, 1), 1, AfterGift(InsertBet, token, 0, 1));
    Reaches(AfterGift(InsertBet, token, 0, 1), 1, AfterGift(InsertItems, token, 1, 2));
    Reaches(AfterGift(InsertItems, token, 1, 2), 1, AfterGift(InsertLedger, token, 1, 2));
  }

  /** A first bet, on an open round, with points enough, that no one else placed, ends in the unique violation. */
  lemma CollisionIsReachable()
    ensures exists s: Sys, p: nat :: Reachable(s) && AtDebit(s, p) && Advance(s, p).Some? && EndsInUniqueViolation(s, p)
  {
    StakeReachesDebit();
    var s := AfterGift(InsertLedger, Token(500, 400), 1, 2);
    assert FindKey(s.ledger, BetDebit(1)) == Some(0);
    TwoStatements(s, 1);
  }
}
