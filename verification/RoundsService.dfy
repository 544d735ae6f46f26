/** RoundsService as it reads: one object over the round table, updating it statement by statement. */
module RoundsService {
  import opened Prelude
  import opened DisplayCode
  import opened RoundTable

  class RoundsService {
    var rows: Rows
    /** The database clock, and the host clock that only new rounds' times are taken from. */
    var now: int
    var hostNow: int
    const bettingWindow: int

    constructor (window: int, now: int, hostNow: int)
      ensures rows == [] && bettingWindow == window && this.now == now && this.hostNow == hostNow
    {
      rows, bettingWindow, this.now, this.hostNow := [], window, now, hostNow;
    }

    method OpenRound(id: nat) returns (ok: bool)
      modifies this`rows
      ensures ok <==> id < |old(rows)| && old(rows)[id].state == ROUND_CREATED
      ensures rows == if !ok then old(rows)
                      else old(rows)[id := old(rows)[id].(state := BETTING_OPEN, version := old(rows)[id].version + 1)]
      ensures rows == RoundTable.OpenRound(old(rows), id)
    {
      ok := id < |rows| && rows[id].state == ROUND_CREATED;
      if ok {
        rows := rows[id := rows[id].(state := BETTING_OPEN, version := rows[id].version + 1)];
      }
    }

    method LockIfDeadlinePassed(id: nat) returns (locked: bool)
      modifies this`rows
      ensures locked <==> id < |old(rows)| && old(rows)[id].deadline <= now
                          && (old(rows)[id].state == BETTING_OPEN || old(rows)[id].state == BETTING_ACTIVE)
      ensures rows == if !locked then old(rows)
                      else
                        var r := old(rows)[id];
                        old(rows)[id := r.(state := BETTING_LOCKED, version := r.version + 1, lockedAt := Some(now))]
      ensures rows == RoundTable.LockIfDeadlinePassed(old(rows), id, now)
    {
      locked := id < |rows| && Betting(rows[id].state) && rows[id].deadline <= now;
      if locked {
        rows := rows[id := rows[id].(state := BETTING_LOCKED, version := rows[id].version + 1, lockedAt := Some(now))];
      }
    }

    /** None when the insert met a unique index, with the table unchanged. */
    method TryCreateRound(g: GameId) returns (created: Option<nat>)
      modifies this`rows
      ensures created.None? <==> Clashes(old(rows), g, MaxNumber(old(rows), g) + 1)
      ensures created.None? ==> rows == old(rows)
      ensures created.Some? ==> rows == old(rows) + [Fresh(g, MaxNumber(old(rows), g) + 1, hostNow + bettingWindow)]
      ensures created.Some? ==> created.value == |old(rows)|
                                && IsNew(rows[|old(rows)|], g, MaxNumber(old(rows), g) + 1, hostNow + bettingWindow)
    {
      var number := MaxNumber(rows, g) + 1;
      var deadline := hostNow + bettingWindow;
      match Insert(rows, g, number, deadline)
      case None => created := None;
      case Some(rows') =>
        created := Some(|rows|);
        rows := rows';
    }

    /** One reconciler step: create, open or lock, at most one of them. */
    method Reconcile(g: GameId)
      modifies this`rows
      ensures rows == RoundTable.Reconcile(old(rows), g, now, hostNow + bettingWindow)
      ensures TableOk(old(rows)) ==> TableOk(rows) && Reconciled(old(rows), rows, g, now, hostNow + bettingWindow)
    {
      hide TableOk, Reconciled, Clashes, MaxNumber, FindLive;
      if TableOk(rows) {
        ReconcileMeans(rows, g, now, hostNow + bettingWindow);
        ReconcileKeepsTable(rows, g, now, hostNow + bettingWindow);
      }
      var live := FindLive(rows, g);
      if live.None? {
        var created := TryCreateRound(g);
        return;
      }
      var id := live.value;
      if rows[id].state == ROUND_CREATED {
        var ok := OpenRound(id);
      } else if Betting(rows[id].state) {
        var ok := LockIfDeadlinePassed(id);
      }
    }
  }

  /** A reconciler step with fresh reads is never refused, and keeps the table well formed. */
  lemma ReconcileKeepsTable(rows: Rows, g: GameId, now: int, deadline: int)
    requires TableOk(rows)
    ensures TableOk(Reconcile(rows, g, now, deadline))
    ensures FindLive(rows, g).None? ==>
              Reconcile(rows, g, now, deadline) == rows + [Fresh(g, Count(rows, g, |rows|) + 1, deadline)]
  {
    hide TableOk, Clashes;
    var rows' := Reconcile(rows, g, now, deadline);
    var live := FindLive(rows, g);
    if live.None? {
      NextIsFree(rows, g);
      InsertKeepsTable(rows, g, MaxNumber(rows, g) + 1, deadline);
    } else if rows' != rows {
      UpdateKeepsTable(rows, live.value, rows'[live.value]);
    }
  }
}
