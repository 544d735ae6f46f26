/** EngineRedisService's lock operations and RoundSchedulerService as they read. */
module Scheduler {
  import opened Prelude
  import opened Lease
  import opened DisplayCode
  import RT = RoundTable
  import Rounds = RoundsService

  /** The Redis server's lock key and clock. */
  class RedisLock {
    var key: Key
    var now: int
    const ttl: int

    constructor (ttl: int, now: int)
      requires ttl > 0
      ensures key == Key(None, 0) && this.now == now && this.ttl == ttl
    {
      this.key, this.now, this.ttl := Key(None, 0), now, ttl;
    }

    method AcquireLeaderLock(h: nat) returns (ok: bool)
      modifies this`key
      ensures ok <==> old(key).holder.None? || old(key).expiry <= now
      ensures key == if ok then Key(Some(h), now + ttl) else old(key)
    {
      ok := key.holder.None? || key.expiry <= now;
      if ok {
        key := Key(Some(h), now + ttl);
      }
    }

    method RenewLeaderLock(h: nat) returns (ok: bool)
      modifies this`key
      ensures ok <==> old(key).holder == Some(h) && now < old(key).expiry
      ensures key == if ok then Key(Some(h), now + ttl) else old(key)
    {
      ok := key.holder == Some(h) && now < key.expiry;
      if ok {
        key := key.(expiry := now + ttl);
      }
    }

    /** Only the holder's release frees the key. */
    method ReleaseLeaderLock(h: nat)
      modifies this`key
      ensures key == if old(key).holder == Some(h) && now < old(key).expiry then Key(None, now) else old(key)
    {
      if key.holder == Some(h) && now < key.expiry {
        key := Key(None, now);
      }
    }
  }

  const ACTIVE_GAME_IDS: seq<GameId> := [TripleChanceTimer, TripleChanceProTimer]

  /** The reconciler steps of the first `n` games in order, the failing ones skipped. */
  function ReconcileGames(rows: RT.Rows, games: seq<GameId>, n: nat, failing: set<GameId>, now: int,
      deadline: int): RT.Rows
    requires n <= |games|
  {
    if n == 0 then rows else
    var before := ReconcileGames(rows, games, n - 1, failing, now, deadline);
    if games[n - 1] in failing then before else RT.Reconcile(before, games[n - 1], now, deadline)
  }

  /** One scheduler pass over game `g`: a failing game's rounds stay, another's are reconciled. */
  ghost predicate GamePassed(rows: RT.Rows, rows': RT.Rows, g: GameId, failing: set<GameId>, now: int, deadline: int) {
    && |rows| <= |rows'|
    && if g !in failing && RT.AllOver(rows, g) then
         && (forall i :: 0 <= i < |rows| && rows[i].game == g ==> rows'[i] == rows[i])
         && exists n :: |rows| <= n < |rows'| && RT.IsNew(rows'[n], g, RT.Count(rows, g, |rows|) + 1, deadline)
                        && forall i :: |rows| <= i < |rows'| && rows'[i].game == g ==> i == n
       else
         && (forall i :: 0 <= i < |rows| && rows[i].game == g ==>
               if g in failing then rows'[i] == rows[i] else RT.Advanced(rows[i], rows'[i], now))
         && forall i :: |rows| <= i < |rows'| ==> rows'[i].game != g
  }

  /** A pass over both games is a pass over each. */
  lemma PassesBoth(rows: RT.Rows, failing: set<GameId>, now: int, deadline: int)
    requires RT.TableOk(rows)
    ensures var rows' := ReconcileGames(rows, ACTIVE_GAME_IDS, |ACTIVE_GAME_IDS|, failing, now, deadline);
      && GamePassed(rows, rows', TripleChanceTimer, failing, now, deadline)
      && GamePassed(rows, rows', TripleChanceProTimer, failing, now, deadline)
  {
    hide RT.Reconcile, RT.TableOk;
    var mid := ReconcileGames(rows, ACTIVE_GAME_IDS, 1, failing, now, deadline);
    assert ReconcileGames(rows, ACTIVE_GAME_IDS, 0, failing, now, deadline) == rows;
    TickKeepsTable(rows, ACTIVE_GAME_IDS, 1, failing, now, deadline);
    if TripleChanceTimer !in failing {
      RT.ReconcileMeans(rows, TripleChanceTimer, now, deadline);
    }
    if TripleChanceProTimer !in failing {
      RT.ReconcileMeans(mid, TripleChanceProTimer, now, deadline);
    }
    TwoPasses(rows, mid, ReconcileGames(rows, ACTIVE_GAME_IDS, 2, failing, now, deadline), failing, now, deadline);
  }

  ghost predicate PassedOne(rows: RT.Rows, rows': RT.Rows, g: GameId, failing: set<GameId>, now: int, deadline: int) {
    if g in failing then rows' == rows else RT.Reconciled(rows, rows', g, now, deadline)
  }

  lemma TwoPasses(rows: RT.Rows, mid: RT.Rows, rows': RT.Rows, failing: set<GameId>, now: int, deadline: int)
    requires PassedOne(rows, mid, TripleChanceTimer, failing, now, deadline)
    requires PassedOne(mid, rows', TripleChanceProTimer, failing, now, deadline)
    ensures GamePassed(rows, rows', TripleChanceTimer, failing, now, deadline)
    ensures GamePassed(rows, rows', TripleChanceProTimer, failing, now, deadline)
  {
    FirstPass(rows, mid, rows', failing, now, deadline);
    SecondPass(rows, mid, rows', failing, now, deadline);
  }

  lemma FirstPass(rows: RT.Rows, mid: RT.Rows, rows': RT.Rows, failing: set<GameId>, now: int, deadline: int)
    requires PassedOne(rows, mid, TripleChanceTimer, failing, now, deadline)
    requires PassedOne(mid, rows', TripleChanceProTimer, failing, now, deadline)
    ensures GamePassed(rows, rows', TripleChanceTimer, failing, now, deadline)
  {
    hide RT.Count;
    OthersStay(mid, rows', TripleChanceProTimer, failing, now, deadline);
    OthersStay(rows, mid, TripleChanceTimer, failing, now, deadline);
  }

  /** A pass over one game leaves the others' rounds alone and adds none of theirs. */
  lemma OthersStay(rows: RT.Rows, rows': RT.Rows, g: GameId, failing: set<GameId>, now: int, deadline: int)
    requires PassedOne(rows, rows', g, failing, now, deadline)
    ensures |rows| <= |rows'|
    ensures forall i :: 0 <= i < |rows| && rows[i].game != g ==> rows'[i] == rows[i]
    ensures forall i :: 0 <= i < |rows| ==> rows'[i].game == rows[i].game
    ensures forall i :: |rows| <= i < |rows'| ==> rows'[i].game == g
  {
    if g !in failing && RT.AllOver(rows, g) {
      forall i | 0 <= i < |rows| ensures rows'[i] == rows[i] {
        assert rows'[..|rows|][i] == rows'[i];
      }
    }
  }

  lemma SecondPass(rows: RT.Rows, mid: RT.Rows, rows': RT.Rows, failing: set<GameId>, now: int, deadline: int)
    requires PassedOne(rows, mid, TripleChanceTimer, failing, now, deadline)
    requires PassedOne(mid, rows', TripleChanceProTimer, failing, now, deadline)
    ensures GamePassed(rows, rows', TripleChanceProTimer, failing, now, deadline)
  {
    OthersStay(mid, rows', TripleChanceProTimer, failing, now, deadline);
    OthersStay(rows, mid, TripleChanceTimer, failing, now, deadline);
    SameCount(rows, mid, TripleChanceProTimer);
  }

  lemma SameCount(rows: RT.Rows, mid: RT.Rows, g: GameId)
    requires |rows| <= |mid| && forall i :: 0 <= i < |rows| ==> mid[i].game == rows[i].game
    requires forall i :: |rows| <= i < |mid| ==> mid[i].game != g
    ensures RT.Count(mid, g, |mid|) == RT.Count(rows, g, |rows|)
  {
    RT.CountSame(rows, mid, g, |rows|);
    NoMore(mid, g, |rows|, |mid|);
  }

  lemma {:induction false} NoMore(rows: RT.Rows, g: GameId, m: nat, n: nat)
    requires m <= n <= |rows| && forall i :: m <= i < n ==> rows[i].game != g
    ensures RT.Count(rows, g, n) == RT.Count(rows, g, m)
  {
    if m < n {
      NoMore(rows, g, m, n - 1);
    }
  }

  /** Does a holder that believes `isLeader` go on to try a fresh acquire? Only if its renew was cleanly refused. */
  predicate TriesAcquire(k: Key, h: nat, now: int, isLeader: bool, renewal: Fault) {
    !isLeader || (renewal.Answered? && !HeldBy(k, h, now))
  }

  /** When `ensureLeader` returns true: a confirmed renewal, or a confirmed acquire of an expired key. */
  predicate Leads(k: Key, h: nat, now: int, isLeader: bool, renewal: Fault, acquisition: Fault) {
    || (isLeader && renewal.Answered? && HeldBy(k, h, now))
    || (TriesAcquire(k, h, now, isLeader, renewal) && acquisition.Answered? && Expired(k, now))
  }

  /** When a command moves the key, confirmed or not. */
  predicate MovesKey(k: Key, h: nat, now: int, isLeader: bool, renewal: Fault, acquisition: Fault) {
    || (isLeader && !renewal.Undelivered? && HeldBy(k, h, now))
    || (TriesAcquire(k, h, now, isLeader, renewal) && !acquisition.Undelivered? && Expired(k, now))
  }

  class RoundScheduler {
    const holderId: nat
    const redis: RedisLock
    const rounds: Rounds.RoundsService
    var isLeader: bool
    var tickInFlight: bool

    constructor (holderId: nat, redis: RedisLock, rounds: Rounds.RoundsService)
      ensures this.holderId == holderId && this.redis == redis && this.rounds == rounds && !isLeader && !tickInFlight
    {
      this.holderId, this.redis, this.rounds := holderId, redis, rounds;
      isLeader, tickInFlight := false, false;
    }

    /**
     * `ensureLeader`, given what happens to its renew and its acquire command. It returns true exactly on
     * a confirmed renewal or acquire, and then holds the key for a full time to live. A lost or undelivered
     * renewal leaves the flag up; after a refused renewal or with the flag down it is up exactly on success.
     */
    method EnsureLeader(renewal: Fault, acquisition: Fault) returns (leader: bool)
      modifies this`isLeader, redis`key
      ensures leader <==> Leads(old(redis.key), holderId, redis.now, old(isLeader), renewal, acquisition)
      ensures var mine := old(redis.key).holder == Some(holderId) && redis.now < old(redis.key).expiry;
        var gone := old(redis.key).holder.None? || old(redis.key).expiry <= redis.now;
        leader <==> || (old(isLeader) && renewal.Answered? && mine)
                    || ((!old(isLeader) || renewal.Answered?) && acquisition.Answered? && gone)
      ensures isLeader == (leader || (old(isLeader) && !renewal.Answered?))
      ensures redis.key == if MovesKey(old(redis.key), holderId, redis.now, old(isLeader), renewal, acquisition)
                           then Key(Some(holderId), redis.now + redis.ttl) else old(redis.key)
    {
      if isLeader {
        if renewal.Undelivered? {
          return false;
        }
        var renewed := redis.RenewLeaderLock(holderId);
        if renewal.ReplyLost? {
          return false;
        }
        if renewed {
          return true;
        }
        isLeader := false;
      }
      if acquisition.Undelivered? {
        return false;
      }
      var acquired := redis.AcquireLeaderLock(holderId);
      if acquisition.ReplyLost? {
        return false;
      }
      isLeader := acquired;
      return acquired;
    }

    /**
     * `tick`: it acts exactly when no other tick is in flight and `ensureLeader` confirms the lease; then
     * it reconciles once per game, one game's failure not stopping the next. The in-flight flag is restored.
     */
    method Tick(renewal: Fault, acquisition: Fault, failing: set<GameId>) returns (acted: bool)
      modifies this`isLeader, this`tickInFlight, redis`key, rounds`rows
      ensures tickInFlight == old(tickInFlight)
      ensures acted <==> !old(tickInFlight) && Leads(old(redis.key), holderId, redis.now, old(isLeader), renewal,
                acquisition)
      ensures isLeader == if old(tickInFlight) then old(isLeader) else acted || (old(isLeader) && !renewal.Answered?)
      ensures redis.key == if !old(tickInFlight) && MovesKey(old(redis.key), holderId, redis.now, old(isLeader),
                renewal, acquisition)
                           then Key(Some(holderId), redis.now + redis.ttl) else old(redis.key)
      ensures rounds.rows == if acted
                             then ReconcileGames(old(rounds.rows), ACTIVE_GAME_IDS, |ACTIVE_GAME_IDS|, failing,
                                                 rounds.now, rounds.hostNow + rounds.bettingWindow)
                             else old(rounds.rows)
      ensures acted && RT.TableOk(old(rounds.rows)) ==>
                var deadline := rounds.hostNow + rounds.bettingWindow;
                && RT.TableOk(rounds.rows)
                && GamePassed(old(rounds.rows), rounds.rows, TripleChanceTimer, failing, rounds.now, deadline)
                && GamePassed(old(rounds.rows), rounds.rows, TripleChanceProTimer, failing, rounds.now, deadline)
    {
      hide ReconcileGames, RT.Reconcile, RT.TableOk, GamePassed;
      if RT.TableOk(rounds.rows) {
        ghost var deadline := rounds.hostNow + rounds.bettingWindow;
        PassesBoth(rounds.rows, failing, rounds.now, deadline);
        TickKeepsTable(rounds.rows, ACTIVE_GAME_IDS, |ACTIVE_GAME_IDS|, failing, rounds.now, deadline);
      }
      if tickInFlight {
        return false;
      }
      tickInFlight := true;
      acted := EnsureLeader(renewal, acquisition);
      if acted {
        ReconcileAll(ACTIVE_GAME_IDS, failing);
      }
      tickInFlight := false;
    }

    /** The loop of a leader's tick. */
    method ReconcileAll(games: seq<GameId>, failing: set<GameId>)
      modifies rounds`rows
      ensures rounds.rows == ReconcileGames(old(rounds.rows), games, |games|, failing, rounds.now,
                rounds.hostNow + rounds.bettingWindow)
    {
      hide RT.Reconcile;
      ghost var start, now, deadline := rounds.rows, rounds.now, rounds.hostNow + rounds.bettingWindow;
      for i := 0 to |games|
        invariant rounds.rows == ReconcileGames(start, games, i, failing, now, deadline)
      {
        if games[i] !in failing {
          rounds.Reconcile(games[i]);
        }
      }
    }
  }

  /** A leader's tick keeps the round table well formed. */
  lemma {:induction false} TickKeepsTable(rows: RT.Rows, games: seq<GameId>, n: nat, failing: set<GameId>, now: int,
      deadline: int)
    requires RT.TableOk(rows) && n <= |games|
    ensures RT.TableOk(ReconcileGames(rows, games, n, failing, now, deadline))
  {
    hide RT.TableOk, RT.Reconcile;
    if n > 0 {
      TickKeepsTable(rows, games, n - 1, failing, now, deadline);
      Rounds.ReconcileKeepsTable(ReconcileGames(rows, games, n - 1, failing, now, deadline), games[n - 1], now,
          deadline);
    }
  }
}
