/**
 * The leader lease: one Redis key with a time to live, and any number of engines acquiring and renewing
 * it through a process-local flag that errors, lost replies and restarts can leave wrong.
 */
module Lease {
  import opened Prelude

  /** The key's value and expiry; past its expiry the key does not exist. */
  datatype Key = Key(holder: Option<nat>, expiry: int)

  predicate Expired(k: Key, now: int) {
    k.holder.None? || k.expiry <= now
  }

  predicate HeldBy(k: Key, h: nat, now: int) {
    k.holder == Some(h) && now < k.expiry
  }

  /** SET NX PX. */
  function Acquire(k: Key, h: nat, now: int, ttl: int): Key {
    if Expired(k, now) then Key(Some(h), now + ttl) else k
  }

  /** Extend the expiry if the caller is the holder. */
  function Renew(k: Key, h: nat, now: int, ttl: int): Key {
    if HeldBy(k, h, now) then Key(Some(h), now + ttl) else k
  }

  function Release(k: Key, h: nat, now: int): Key {
    if HeldBy(k, h, now) then Key(None, now) else k
  }

  // ---- any number of engines ----

  /** An operation's reply travels with the time at which it took effect. */
  datatype Pc = Idle | Renewing | RenewReply(ok: bool, at: int) | Acquiring | AcquireReply(ok: bool, at: int)

  datatype Engine = Engine(id: nat, isLeader: bool, pc: Pc)

  datatype Grant = Grant(holder: nat, time: int)

  /** A command given up on that may still be on its way. */
  datatype Command = Command(holder: nat, renews: bool)

  /**
   * `marks` are the lock operations that succeeded at Redis, `grants` the `ensureLeader` calls that returned
   * true, and `late` the commands whose callers have failed or restarted before they took effect.
   */
  datatype State = State(key: Key, clock: int, ttl: int, engines: seq<Engine>, nextId: nat,
                         marks: seq<Grant>, grants: seq<Grant>, late: seq<Command>)

  /**
   * What happens to a Redis command: it is answered, its reply is lost, or it has not arrived when the caller
   * gives up.
   */
  datatype Fault = Answered | ReplyLost | Undelivered

  datatype Action =
    | Boot
    | Restart(e: nat)
    | CallEnsureLeader(e: nat)
    | Operate(e: nat, fault: Fault)
    | ReceiveReply(e: nat)
    | Arrive(k: nat)
    | Elapse(time: nat)

  function Set(s: State, e: nat, c: Engine): State
    requires e < |s.engines|
  {
    s.(engines := s.engines[e := c])
  }

  /** The command on its way when engine `e` gives up, if any. */
  function Abandoned(s: State, e: nat): seq<Command>
    requires e < |s.engines|
  {
    var c := s.engines[e];
    if c.pc.Renewing? then [Command(c.id, true)] else if c.pc.Acquiring? then [Command(c.id, false)] else []
  }

  /** A command given up on takes effect after all: at any later time, and if it was retried, again. */
  function ArriveStep(s: State, k: nat): State
    requires k < |s.late|
  {
    var h := s.late[k].holder;
    var ok := if s.late[k].renews then HeldBy(s.key, h, s.clock) else Expired(s.key, s.clock);
    s.(key := if ok then Key(Some(h), s.clock + s.ttl) else s.key,
       marks := if ok then s.marks + [Grant(h, s.clock)] else s.marks)
  }

  /** The pending command takes effect, or has not arrived yet; an error makes the call return false, flag untouched. */
  function OperateStep(s: State, e: nat, fault: Fault): State
    requires e < |s.engines|
  {
    var c := s.engines[e];
    if !(c.pc.Renewing? || c.pc.Acquiring?) then s
    else if fault.Undelivered? then Set(s.(late := s.late + Abandoned(s, e)), e, c.(pc := Idle))
    else
      var ok := if c.pc.Renewing? then HeldBy(s.key, c.id, s.clock) else Expired(s.key, s.clock);
      var key := if c.pc.Renewing? then Renew(s.key, c.id, s.clock, s.ttl) else Acquire(s.key, c.id, s.clock, s.ttl);
      var pc := if fault.ReplyLost? then Idle
                else if c.pc.Renewing? then RenewReply(ok, s.clock) else AcquireReply(ok, s.clock);
      Set(s.(key := key, marks := if ok then s.marks + [Grant(c.id, s.clock)] else s.marks), e, c.(pc := pc))
  }

  function ReceiveStep(s: State, e: nat): State
    requires e < |s.engines|
  {
    var c := s.engines[e];
    match c.pc
    case RenewReply(ok, at) =>
      if ok then Set(s.(grants := s.grants + [Grant(c.id, at)]), e, c.(pc := Idle))
      else Set(s, e, c.(isLeader := false, pc := Acquiring))
    case AcquireReply(ok, at) =>
      Set(s.(grants := if ok then s.grants + [Grant(c.id, at)] else s.grants), e, c.(isLeader := ok, pc := Idle))
    case _ => s
  }

  function Do(s: State, a: Action): State {
    match a
    case Boot => s.(engines := s.engines + [Engine(s.nextId, false, Idle)], nextId := s.nextId + 1)
    case Restart(e) =>
      if e < |s.engines|
      then Set(s, e, Engine(s.nextId, false, Idle)).(nextId := s.nextId + 1, late := s.late + Abandoned(s, e)) else s
    case CallEnsureLeader(e) =>
      if e < |s.engines| && s.engines[e].pc.Idle?
      then Set(s, e, s.engines[e].(pc := if s.engines[e].isLeader then Renewing else Acquiring)) else s
    case Operate(e, fault) => if e < |s.engines| then OperateStep(s, e, fault) else s
    case Arrive(k) => if k < |s.late| then ArriveStep(s, k) else s
    case ReceiveReply(e) => if e < |s.engines| then ReceiveStep(s, e) else s
    case Elapse(time) => s.(clock := s.clock + time)
  }

  function Run(s: State, actions: seq<Action>): State
    decreases |actions|
  {
    if actions == [] then s else Run(Do(s, actions[0]), actions[1..])
  }

  function Init(clock: int, ttl: int): State {
    State(Key(None, 0), clock, ttl, [], 0, [], [], [])
  }

  /**
   * A command given up on, by an error or a restart, stays under way and may take effect at any later time:
   * a renewal exactly if its holder still has the key, an acquire exactly if the key is gone.
   */
  lemma LateCommandActs(s: State, e: nat, a: Action, time: nat)
    requires e < |s.engines| && (s.engines[e].pc.Renewing? || s.engines[e].pc.Acquiring?)
    requires a == Restart(e) || a == Operate(e, Undelivered)
    ensures var h, now := s.engines[e].id, s.clock + time;
      var s' := Do(Do(Do(s, a), Elapse(time)), Arrive(|s.late|));
      && Do(s, a).key == s.key
      && s'.key == if s.engines[e].pc.Renewing?
                   then if s.key.holder == Some(h) && now < s.key.expiry then Key(Some(h), now + s.ttl) else s.key
                   else if s.key.holder.None? || s.key.expiry <= now then Key(Some(h), now + s.ttl) else s.key
  {
  }

  // ---- the invariant ----

  /** While a success is younger than the time to live, its holder still holds the key at least that long. */
  ghost predicate Covered(s: State, g: Grant) {
    g.time <= s.clock && (s.clock < g.time + s.ttl ==> s.key.holder == Some(g.holder) && g.time + s.ttl <= s.key.expiry)
  }

  ghost predicate NoOverlap(marks: seq<Grant>, ttl: int) {
    forall i, j :: 0 <= i < |marks| && 0 <= j < |marks| && marks[i].time <= marks[j].time < marks[i].time + ttl ==>
      marks[i].holder == marks[j].holder
  }

  ghost predicate ReplyMarked(s: State, c: Engine) {
    && (c.pc.RenewReply? && c.pc.ok ==> Grant(c.id, c.pc.at) in s.marks)
    && (c.pc.AcquireReply? && c.pc.ok ==> Grant(c.id, c.pc.at) in s.marks)
  }

  ghost predicate Inv(s: State) {
    && s.ttl > 0
    && (forall i :: 0 <= i < |s.marks| ==> Covered(s, s.marks[i]))
    && NoOverlap(s.marks, s.ttl)
    && (forall i :: 0 <= i < |s.grants| ==> s.grants[i] in s.marks)
    && (forall e :: 0 <= e < |s.engines| ==> ReplyMarked(s, s.engines[e]))
  }

  /** A command that takes effect keeps every earlier success covered. */
  lemma OperateCovers(s: State, e: nat, fault: Fault, i: nat)
    requires e < |s.engines| && s.ttl > 0 && i < |s.marks| && Covered(s, s.marks[i])
    ensures Covered(OperateStep(s, e, fault), s.marks[i])
  {
  }

  /** A command that succeeds now clashes with no earlier success. */
  lemma SuccessFits(s: State, e: nat, fault: Fault, i: nat)
    requires e < |s.engines| && s.ttl > 0 && i < |s.marks| && Covered(s, s.marks[i])
    requires |OperateStep(s, e, fault).marks| > |s.marks|
    ensures s.clock < s.marks[i].time + s.ttl ==> s.marks[i].holder == s.engines[e].id
  {
  }

  lemma OperateShape(s: State, e: nat, fault: Fault)
    requires e < |s.engines| && s.ttl > 0
    ensures var s' := OperateStep(s, e, fault); var mark := Grant(s.engines[e].id, s.clock);
      && s'.ttl == s.ttl && s'.grants == s.grants
      && |s'.engines| == |s.engines| && s'.engines == s.engines[e := s'.engines[e]]
      && (s'.marks == s.marks || (s'.marks == s.marks + [mark] && Covered(s', mark)))
      && (ReplyMarked(s, s.engines[e]) ==> ReplyMarked(s', s'.engines[e]))
  {
    var s' := OperateStep(s, e, fault);
    if |s'.marks| > |s.marks| {
      assert s'.marks[|s.marks|] == Grant(s.engines[e].id, s.clock);
    }
  }

  lemma OperateKeeps(s: State, e: nat, fault: Fault)
    requires Inv(s) && e < |s.engines|
    ensures Inv(OperateStep(s, e, fault))
  {
    hide OperateStep, Covered;
    var s', n := OperateStep(s, e, fault), |s.marks|;
    OperateShape(s, e, fault);
    forall i | 0 <= i < n ensures Covered(s', s.marks[i]) {
      OperateCovers(s, e, fault, i);
    }
    if |s'.marks| > n {
      forall i | 0 <= i < n
        ensures s.marks[i].time <= s.clock && (s.clock < s.marks[i].time + s.ttl ==>
                  s.marks[i].holder == s.engines[e].id)
      {
        SuccessFits(s, e, fault, i);
        MarkIsPast(s, i);
      }
      OneMoreMark(s, s'.marks, s.engines[e].id);
    }
    forall c | 0 <= c < |s.engines| ensures ReplyMarked(s', s'.engines[c]) {
      if c != e {
        assert s'.engines[c] == s.engines[c] && ReplyMarked(s, s.engines[c]);
      }
    }
  }

  /** A late arrival is one more command at its own time: it keeps what a timely one keeps. */
  lemma ArriveKeeps(s: State, k: nat)
    requires Inv(s) && k < |s.late|
    ensures Inv(ArriveStep(s, k))
  {
    var s', n, h := ArriveStep(s, k), |s.marks|, s.late[k].holder;
    forall i | 0 <= i < n ensures Covered(s', s.marks[i])
        && (|s'.marks| > n && s.clock < s.marks[i].time + s.ttl ==> s.marks[i].holder == h) {
      assert Covered(s, s.marks[i]);
    }
    if |s'.marks| > n {
      forall i | 0 <= i < n ensures s.marks[i].time <= s.clock {
        MarkIsPast(s, i);
      }
      OneMoreMark(s, s'.marks, h);
    }
    forall c | 0 <= c < |s.engines| ensures ReplyMarked(s', s'.engines[c]) {
      assert ReplyMarked(s, s.engines[c]);
    }
  }

  lemma MarkIsPast(s: State, i: nat)
    requires i < |s.marks| && Covered(s, s.marks[i])
    ensures s.marks[i].time <= s.clock
  {
  }

  lemma OneMoreMark(s: State, marks: seq<Grant>, holder: nat)
    requires s.ttl > 0 && NoOverlap(s.marks, s.ttl) && marks == s.marks + [Grant(holder, s.clock)]
    requires forall i :: 0 <= i < |s.marks| ==>
               s.marks[i].time <= s.clock && (s.clock < s.marks[i].time + s.ttl ==> s.marks[i].holder == holder)
    ensures NoOverlap(marks, s.ttl)
  {
    forall i | 0 <= i < |s.marks| ensures marks[i] == s.marks[i] {
    }
  }

  lemma DoKeeps(s: State, a: Action)
    requires Inv(s)
    ensures Inv(Do(s, a))
  {
    if a.Operate? && a.e < |s.engines| {
      OperateKeeps(s, a.e, a.fault);
    } else if a.Arrive? && a.k < |s.late| {
      ArriveKeeps(s, a.k);
    } else {
      hide Covered, NoOverlap;
      var s' := Do(s, a);
      forall i | 0 <= i < |s'.marks| ensures Covered(s', s'.marks[i]) {
        LaterCovers(s, s', s.marks[i]);
      }
    }
  }

  /** Time passing uncovers no success. */
  lemma LaterCovers(s: State, s': State, g: Grant)
    requires s'.key == s.key && s'.ttl == s.ttl && s.clock <= s'.clock && Covered(s, g)
    ensures Covered(s', g)
  {
  }

  lemma {:induction false} RunKeeps(s: State, actions: seq<Action>)
    requires Inv(s)
    ensures Inv(Run(s, actions))
    decreases |actions|
  {
    if actions != [] {
      DoKeeps(s, actions[0]);
      RunKeeps(Do(s, actions[0]), actions[1..]);
    }
  }

  /**
   * Leases never overlap: if `ensureLeader` returned true on an operation that took effect at `t`, no
   * other holder gets true for an operation in [t, t + ttl), in any run with errors, lost replies and restarts.
   */
  lemma LeasesNeverOverlap(clock: int, ttl: int, actions: seq<Action>, i: nat, j: nat)
    requires ttl > 0
    requires var grants := Run(Init(clock, ttl), actions).grants;
      i < |grants| && j < |grants| && grants[i].time <= grants[j].time < grants[i].time + ttl
    ensures var grants := Run(Init(clock, ttl), actions).grants; grants[i].holder == grants[j].holder
  {
    RunKeeps(Init(clock, ttl), actions);
    TtlIsFixed(Init(clock, ttl), actions);
    var s := Run(Init(clock, ttl), actions);
    var a :| 0 <= a < |s.marks| && s.marks[a] == s.grants[i];
    var b :| 0 <= b < |s.marks| && s.marks[b] == s.grants[j];
  }

  lemma {:induction false} TtlIsFixed(s: State, actions: seq<Action>)
    ensures Run(s, actions).ttl == s.ttl
    decreases |actions|
  {
    if actions != [] {
      TtlIsFixed(Do(s, actions[0]), actions[1..]);
    }
  }

  /**
   * Recovery: a call whose commands are all answered, with nothing in between, returns true exactly
   * when the key has expired or is the caller's own, whatever its local flag says.
   */
  lemma AnsweredCallSucceedsExactly(s: State, e: nat)
    requires Inv(s) && e < |s.engines| && s.engines[e].pc.Idle?
    ensures var c := s.engines[e];
      var s1 := Do(Do(Do(s, CallEnsureLeader(e)), Operate(e, Answered)), ReceiveReply(e));
      var s2 := if s1.engines[e].pc.Acquiring? then Do(Do(s1, Operate(e, Answered)), ReceiveReply(e)) else s1;
      && s2.engines[e].pc.Idle?
      && (|s2.grants| > |s.grants| <==> Expired(s.key, s.clock) || (c.isLeader && s.key.holder == Some(c.id)))
      && (|s2.grants| > |s.grants| ==> s2.grants == s.grants + [Grant(c.id, s.clock)] && HeldBy(s2.key, c.id, s.clock))
  {
  }
}
