/**
 * The price-alert rule engine and its local list (src/app/core/services/alert.service.ts).
 *
 * The backend's answers to `deleteAlert` and `addAlert` are inputs: a delete
 * changes the list only when it succeeds, an insert appends the returned row.
 * `toggleAlertStatus` updates the list whatever the update answers, so it is
 * applied at once; the notification row `triggerAlertNotification` inserts is
 * returned to the caller.
 */
module Alerts {
  import opened Wrappers
  import opened Models

  const DAY_MS: int := 24 * 60 * 60 * 1000

  /** ABOVE fires at or over the target, BELOW at or under it. */
  predicate Triggers(a: PriceAlert, price: real)
  {
    match a.condition
    case Above => price >= a.target_price
    case Below => price <= a.target_price
  }

  /** The alerts `checkAlerts(assetId, ...)` looks at. */
  predicate Watches(a: PriceAlert, assetId: string)
  {
    a.asset_id == assetId && a.is_active
  }

  /** `alerts.filter(a => a.asset_id === assetId && a.is_active)`. */
  function ActiveFor(alerts: seq<PriceAlert>, assetId: string): seq<PriceAlert>
  {
    if |alerts| == 0 then []
    else
      var a := alerts[|alerts| - 1];
      ActiveFor(alerts[..|alerts| - 1], assetId) + (if Watches(a, assetId) then [a] else [])
  }

  lemma {:induction false} ActiveForMembers(alerts: seq<PriceAlert>, assetId: string)
    ensures forall a :: a in ActiveFor(alerts, assetId) <==> a in alerts && Watches(a, assetId)
  {
    if |alerts| > 0 {
      ActiveForMembers(alerts[..|alerts| - 1], assetId);
    }
  }

  /** The alerts of `candidates` that the price sets off, in order. */
  function Triggering(candidates: seq<PriceAlert>, price: real): seq<PriceAlert>
  {
    if |candidates| == 0 then []
    else
      var a := candidates[|candidates| - 1];
      Triggering(candidates[..|candidates| - 1], price) + (if Triggers(a, price) then [a] else [])
  }

  lemma {:induction false} TriggeringMembers(candidates: seq<PriceAlert>, price: real)
    ensures forall a :: a in Triggering(candidates, price) <==> a in candidates && Triggers(a, price)
  {
    if |candidates| > 0 {
      TriggeringMembers(candidates[..|candidates| - 1], price);
    }
  }

  /** The alerts one `checkAlerts(assetId, price)` call fires. */
  function Fired(alerts: seq<PriceAlert>, assetId: string, price: real): seq<PriceAlert>
  {
    Triggering(ActiveFor(alerts, assetId), price)
  }

  /** An alert fires exactly when it is active, on that asset, and the price meets its condition. */
  lemma FiredMembers(alerts: seq<PriceAlert>, assetId: string, price: real)
    ensures forall a :: a in Fired(alerts, assetId, price) <==> a in alerts && Watches(a, assetId) && Triggers(a, price)
  {
    ActiveForMembers(alerts, assetId);
    TriggeringMembers(ActiveFor(alerts, assetId), price);
  }

  /** The ids of a list of alerts. */
  function IdsOf(alerts: seq<PriceAlert>): set<string>
  {
    if |alerts| == 0 then {} else IdsOf(alerts[..|alerts| - 1]) + {alerts[|alerts| - 1].id}
  }

  lemma {:induction false} IdsOfMembers(alerts: seq<PriceAlert>)
    ensures forall a :: a in alerts ==> a.id in IdsOf(alerts)
    ensures forall x :: x in IdsOf(alerts) ==> exists i :: 0 <= i < |alerts| && alerts[i].id == x
  {
    if |alerts| > 0 {
      var prefix := alerts[..|alerts| - 1];
      IdsOfMembers(prefix);
      forall a | a in alerts
        ensures a.id in IdsOf(alerts)
      {
        if a != alerts[|alerts| - 1] {
          assert a in prefix;
        }
      }
      forall x | x in IdsOf(alerts)
        ensures exists i :: 0 <= i < |alerts| && alerts[i].id == x
      {
        if x in IdsOf(prefix) {
          var i :| 0 <= i < |prefix| && prefix[i].id == x;
          assert alerts[i].id == x;
        } else {
          assert alerts[|alerts| - 1].id == x;
        }
      }
    }
  }

  /** A triggered alert: inactive, with the trigger time recorded. */
  function Deactivated(a: PriceAlert, now: int): PriceAlert
  {
    a.(is_active := false, triggered_at := Some(now))
  }

  /** `toggleAlertStatus(id, active)`'s list update: `{...a, ...updateData}` on every alert with that id. */
  function SetStatus(alerts: seq<PriceAlert>, id: string, active: bool, now: int): (r: seq<PriceAlert>)
    ensures |r| == |alerts|
  {
    if |alerts| == 0 then []
    else
      var a := alerts[|alerts| - 1];
      SetStatus(alerts[..|alerts| - 1], id, active, now)
      + [if a.id != id then a else if active then a.(is_active := true) else Deactivated(a, now)]
  }

  /** Every alert whose id is in `ids` deactivated; the others untouched. */
  function DeactivateIds(alerts: seq<PriceAlert>, ids: set<string>, now: int): (r: seq<PriceAlert>)
    ensures |r| == |alerts|
  {
    if |alerts| == 0 then []
    else
      var a := alerts[|alerts| - 1];
      DeactivateIds(alerts[..|alerts| - 1], ids, now) + [if a.id in ids then Deactivated(a, now) else a]
  }

  lemma {:induction false} DeactivateNone(alerts: seq<PriceAlert>, now: int)
    ensures DeactivateIds(alerts, {}, now) == alerts
  {
    DeactivateIdsPointwise(alerts, {}, now);
  }

  /** `toggleAlertStatus` rewrites exactly the alerts with that id, and only their status fields. */
  lemma {:induction false} SetStatusPointwise(alerts: seq<PriceAlert>, id: string, active: bool, now: int)
    ensures var r := SetStatus(alerts, id, active, now);
            forall i :: 0 <= i < |r| ==>
              r[i] == if alerts[i].id != id then alerts[i]
                      else if active then alerts[i].(is_active := true)
                      else Deactivated(alerts[i], now)
  {
    if |alerts| > 0 {
      SetStatusPointwise(alerts[..|alerts| - 1], id, active, now);
    }
  }

  /** A batch deactivation touches exactly the alerts whose id is in the batch. */
  lemma {:induction false} DeactivateIdsPointwise(alerts: seq<PriceAlert>, ids: set<string>, now: int)
    ensures var r := DeactivateIds(alerts, ids, now);
            forall i :: 0 <= i < |r| ==> r[i] == if alerts[i].id in ids then Deactivated(alerts[i], now) else alerts[i]
  {
    if |alerts| > 0 {
      DeactivateIdsPointwise(alerts[..|alerts| - 1], ids, now);
    }
  }

  predicate UniqueIds(alerts: seq<PriceAlert>)
  {
    forall i, j :: 0 <= i < j < |alerts| ==> alerts[i].id != alerts[j].id
  }

  /**
   * With unique ids, one `checkAlerts` call deactivates (with the time
   * `now`) exactly the active alerts on that asset whose condition the
   * price meets, and leaves every other alert as it was.
   */
  lemma CheckAlertsExact(alerts: seq<PriceAlert>, assetId: string, price: real, now: int)
    requires UniqueIds(alerts)
    ensures var r := DeactivateIds(alerts, IdsOf(Fired(alerts, assetId, price)), now);
            forall i :: 0 <= i < |alerts| ==>
              r[i] == if Watches(alerts[i], assetId) && Triggers(alerts[i], price)
                      then Deactivated(alerts[i], now) else alerts[i]
  {
    var fired := Fired(alerts, assetId, price);
    FiredMembers(alerts, assetId, price);
    IdsOfMembers(fired);
    DeactivateIdsPointwise(alerts, IdsOf(fired), now);
    forall i | 0 <= i < |alerts|
      ensures alerts[i].id in IdsOf(fired) <==> Watches(alerts[i], assetId) && Triggers(alerts[i], price)
    {
      if alerts[i].id in IdsOf(fired) {
        var k :| 0 <= k < |fired| && fired[k].id == alerts[i].id;
        assert fired[k] in fired;
        var j :| 0 <= j < |alerts| && alerts[j] == fired[k];
        assert j == i;
      }
      if Watches(alerts[i], assetId) && Triggers(alerts[i], price) {
        assert alerts[i] in fired;
      }
    }
  }

  /** A deactivated alert is never fired again, whatever the later asset and price. */
  lemma DeactivatedNeverRetrigger(alerts: seq<PriceAlert>, ids: set<string>, now: int, assetId: string, price: real)
    ensures forall a :: a in Fired(DeactivateIds(alerts, ids, now), assetId, price) ==> a.id !in ids
  {
    var r := DeactivateIds(alerts, ids, now);
    DeactivateIdsPointwise(alerts, ids, now);
    FiredMembers(r, assetId, price);
    forall a | a in Fired(r, assetId, price)
      ensures a.id !in ids
    {
      var i :| 0 <= i < |r| && r[i] == a;
    }
  }

  /** Cleanup candidates: inactive, triggered strictly before `now` minus 24 hours. */
  predicate Stale(a: PriceAlert, now: int)
  {
    !a.is_active && a.triggered_at.Some? && a.triggered_at.value < now - DAY_MS
  }

  function StaleAlerts(alerts: seq<PriceAlert>, now: int): seq<PriceAlert>
  {
    if |alerts| == 0 then []
    else
      var a := alerts[|alerts| - 1];
      StaleAlerts(alerts[..|alerts| - 1], now) + (if Stale(a, now) then [a] else [])
  }

  lemma {:induction false} StaleAlertsMembers(alerts: seq<PriceAlert>, now: int)
    ensures forall a :: a in StaleAlerts(alerts, now) <==> a in alerts && Stale(a, now)
  {
    if |alerts| > 0 {
      StaleAlertsMembers(alerts[..|alerts| - 1], now);
    }
  }

  /** `deleteAlert(id)`'s list update: `curr.filter(a => a.id !== id)`. */
  function WithoutId(alerts: seq<PriceAlert>, id: string): seq<PriceAlert>
  {
    if |alerts| == 0 then []
    else
      var a := alerts[|alerts| - 1];
      WithoutId(alerts[..|alerts| - 1], id) + (if a.id != id then [a] else [])
  }

  lemma {:induction false} WithoutIdMembers(alerts: seq<PriceAlert>, id: string)
    ensures forall a :: a in WithoutId(alerts, id) <==> a in alerts && a.id != id
  {
    if |alerts| > 0 {
      WithoutIdMembers(alerts[..|alerts| - 1], id);
    }
  }

  /** The alerts whose id is not in `ids`, in their original order. */
  function WithoutIds(alerts: seq<PriceAlert>, ids: set<string>): seq<PriceAlert>
  {
    if |alerts| == 0 then []
    else
      var a := alerts[|alerts| - 1];
      WithoutIds(alerts[..|alerts| - 1], ids) + (if a.id !in ids then [a] else [])
  }

  lemma {:induction false} WithoutIdsMembers(alerts: seq<PriceAlert>, ids: set<string>)
    ensures forall a :: a in WithoutIds(alerts, ids) <==> a in alerts && a.id !in ids
  {
    if |alerts| > 0 {
      WithoutIdsMembers(alerts[..|alerts| - 1], ids);
    }
  }

  lemma {:induction false} WithoutNoIds(alerts: seq<PriceAlert>)
    ensures WithoutIds(alerts, {}) == alerts
  {
    if |alerts| > 0 {
      var prefix, a := alerts[..|alerts| - 1], alerts[|alerts| - 1];
      WithoutNoIds(prefix);
      assert WithoutIds(alerts, {}) == WithoutIds(prefix, {}) + [a];
      assert prefix + [a] == alerts;
    }
  }

  /** The alerts of `toDelete` whose delete the backend confirmed, in order. */
  function Confirmed(toDelete: seq<PriceAlert>, deleted: string -> bool): seq<PriceAlert>
  {
    if |toDelete| == 0 then []
    else
      var a := toDelete[|toDelete| - 1];
      Confirmed(toDelete[..|toDelete| - 1], deleted) + (if deleted(a.id) then [a] else [])
  }

  lemma {:induction false} ConfirmedMembers(toDelete: seq<PriceAlert>, deleted: string -> bool)
    ensures forall a :: a in Confirmed(toDelete, deleted) <==> a in toDelete && deleted(a.id)
  {
    if |toDelete| > 0 {
      ConfirmedMembers(toDelete[..|toDelete| - 1], deleted);
    }
  }

  /** When every delete succeeds, every candidate is removed. */
  lemma {:induction false} AllConfirmed(toDelete: seq<PriceAlert>, deleted: string -> bool)
    requires forall i :: 0 <= i < |toDelete| ==> deleted(toDelete[i].id)
    ensures Confirmed(toDelete, deleted) == toDelete
  {
    if |toDelete| > 0 {
      var prefix := toDelete[..|toDelete| - 1];
      assert forall i :: 0 <= i < |prefix| ==> deleted(prefix[i].id) by {
        forall i | 0 <= i < |prefix| ensures deleted(prefix[i].id) {
          assert prefix[i] == toDelete[i];
        }
      }
      AllConfirmed(prefix, deleted);
      assert prefix + [toDelete[|toDelete| - 1]] == toDelete;
    }
  }

  /** A stale alert whose delete the backend refused stays in the list. */
  lemma RefusedDeleteStays(alerts: seq<PriceAlert>, now: int, deleted: string -> bool, a: PriceAlert)
    requires a in alerts && !deleted(a.id)
    ensures a in WithoutIds(alerts, IdsOf(Confirmed(StaleAlerts(alerts, now), deleted)))
  {
    var done := Confirmed(StaleAlerts(alerts, now), deleted);
    ConfirmedMembers(StaleAlerts(alerts, now), deleted);
    IdsOfMembers(done);
    WithoutIdsMembers(alerts, IdsOf(done));
  }

  /** With every delete confirmed, the cleanup is the full removal of the stale alerts. */
  lemma AllDeletedIsFullCleanup(alerts: seq<PriceAlert>, now: int, deleted: string -> bool)
    requires forall a :: a in alerts ==> deleted(a.id)
    ensures WithoutIds(alerts, IdsOf(Confirmed(StaleAlerts(alerts, now), deleted))) ==
            WithoutIds(alerts, IdsOf(StaleAlerts(alerts, now)))
  {
    var stale := StaleAlerts(alerts, now);
    StaleAlertsMembers(alerts, now);
    forall i | 0 <= i < |stale|
      ensures deleted(stale[i].id)
    {
      assert stale[i] in stale;
    }
    AllConfirmed(stale, deleted);
  }

  /** Deactivating one more id after a batch is the batch with that id added. */
  lemma DeactivateOneMore(alerts: seq<PriceAlert>, ids: set<string>, id: string, now: int)
    ensures SetStatus(DeactivateIds(alerts, ids, now), id, false, now) == DeactivateIds(alerts, ids + {id}, now)
  {
    var l := SetStatus(DeactivateIds(alerts, ids, now), id, false, now);
    var r := DeactivateIds(alerts, ids + {id}, now);
    DeactivateIdsPointwise(alerts, ids, now);
    DeactivateIdsPointwise(alerts, ids + {id}, now);
    SetStatusPointwise(DeactivateIds(alerts, ids, now), id, false, now);
    assert |l| == |r|;
    forall i | 0 <= i < |l|
      ensures l[i] == r[i]
    {
    }
  }

  /** The ids fired by one more candidate. */
  lemma TriggeringOneMore(candidates: seq<PriceAlert>, i: nat, price: real)
    requires i < |candidates|
    ensures IdsOf(Triggering(candidates[..i + 1], price)) ==
            IdsOf(Triggering(candidates[..i], price)) + (if Triggers(candidates[i], price) then {candidates[i].id} else {})
    ensures |Triggering(candidates[..i + 1], price)| ==
            |Triggering(candidates[..i], price)| + (if Triggers(candidates[i], price) then 1 else 0)
  {
    assert candidates[..i + 1][..i] == candidates[..i];
    var t := Triggering(candidates[..i], price);
    if Triggers(candidates[i], price) {
      assert Triggering(candidates[..i + 1], price) == t + [candidates[i]];
    } else {
      assert Triggering(candidates[..i + 1], price) == t;
    }
  }

  /** Before the `checkAlerts` loop nothing has fired. */
  lemma CheckStart(original: seq<PriceAlert>, active: seq<PriceAlert>, price: real, now: int)
    ensures DeactivateIds(original, IdsOf(Triggering(active[..0], price)), now) == original
    ensures |Triggering(active[..0], price)| == 0
  {
    assert active[..0] == [];
    DeactivateNone(original, now);
  }

  /** One step of the `checkAlerts` loop: the next candidate either fires and is deactivated, or nothing changes. */
  lemma CheckStep(original: seq<PriceAlert>, active: seq<PriceAlert>, i: nat, price: real, now: int)
    requires i < |active|
    ensures var before := DeactivateIds(original, IdsOf(Triggering(active[..i], price)), now);
            var after := DeactivateIds(original, IdsOf(Triggering(active[..i + 1], price)), now);
            (Triggers(active[i], price) ==> SetStatus(before, active[i].id, false, now) == after) &&
            (!Triggers(active[i], price) ==> before == after)
    ensures |Triggering(active[..i + 1], price)| ==
            |Triggering(active[..i], price)| + (if Triggers(active[i], price) then 1 else 0)
  {
    TriggeringOneMore(active, i, price);
    DeactivateOneMore(original, IdsOf(Triggering(active[..i], price)), active[i].id, now);
  }

  lemma IdsOfPrefix(s: seq<PriceAlert>, i: nat)
    requires i < |s|
    ensures IdsOf(s[..i + 1]) == IdsOf(s[..i]) + {s[i].id}
  {
    assert s[..i + 1] == s[..i] + [s[i]];
  }

  /**
   * One step of the cleanup loop: a confirmed delete of the next stale id
   * extends the batch, a refused one leaves it as it was.
   */
  lemma CleanupStep(original: seq<PriceAlert>, current: seq<PriceAlert>, toDelete: seq<PriceAlert>,
                    deleted: string -> bool, i: nat)
    requires i < |toDelete|
    requires current == WithoutIds(original, IdsOf(Confirmed(toDelete[..i], deleted)))
    ensures deleted(toDelete[i].id) ==>
              WithoutId(current, toDelete[i].id) == WithoutIds(original, IdsOf(Confirmed(toDelete[..i + 1], deleted)))
    ensures !deleted(toDelete[i].id) ==>
              current == WithoutIds(original, IdsOf(Confirmed(toDelete[..i + 1], deleted)))
  {
    var done := Confirmed(toDelete[..i], deleted);
    assert toDelete[..i + 1][..i] == toDelete[..i];
    if deleted(toDelete[i].id) {
      assert Confirmed(toDelete[..i + 1], deleted) == done + [toDelete[i]];
      IdsOfPrefix(done + [toDelete[i]], |done|);
      assert (done + [toDelete[i]])[..|done|] == done;
      WithoutIdAfterBatch(original, IdsOf(done), toDelete[i].id);
    } else {
      assert Confirmed(toDelete[..i + 1], deleted) == done;
    }
  }

  /** Deleting one more id after a batch is the batch with that id added. */
  lemma {:induction false} WithoutIdAfterBatch(alerts: seq<PriceAlert>, ids: set<string>, id: string)
    ensures WithoutId(WithoutIds(alerts, ids), id) == WithoutIds(alerts, ids + {id})
  {
    if |alerts| > 0 {
      var prefix, a := alerts[..|alerts| - 1], alerts[|alerts| - 1];
      WithoutIdAfterBatch(prefix, ids, id);
      var tail := if a.id !in ids then [a] else [];
      WithoutIdConcat(WithoutIds(prefix, ids), tail, id);
    }
  }

  lemma {:induction false} WithoutIdConcat(s: seq<PriceAlert>, t: seq<PriceAlert>, id: string)
    requires |t| <= 1
    ensures WithoutId(s + t, id) == WithoutId(s, id) + WithoutId(t, id)
  {
    if |t| == 0 {
      assert s + t == s;
    } else {
      assert (s + t)[..|s + t| - 1] == s;
      assert t[..0] == [];
    }
  }

  /** After a cleanup no stale alert is left, and every alert that was not stale survives. */
  lemma CleanupLeavesNoStale(alerts: seq<PriceAlert>, now: int)
    requires UniqueIds(alerts)
    ensures var r := WithoutIds(alerts, IdsOf(StaleAlerts(alerts, now)));
            (forall a :: a in r ==> !Stale(a, now)) &&
            (forall a :: a in alerts && !Stale(a, now) ==> a in r)
  {
    var stale := StaleAlerts(alerts, now);
    StaleAlertsMembers(alerts, now);
    WithoutIdsMembers(alerts, IdsOf(stale));
    IdsOfMembers(stale);
    forall a | a in alerts && !Stale(a, now)
      ensures a.id !in IdsOf(stale)
    {
      forall k | 0 <= k < |stale|
        ensures stale[k].id != a.id
      {
        assert stale[k] in stale;
        var j :| 0 <= j < |alerts| && alerts[j] == stale[k];
        var i :| 0 <= i < |alerts| && alerts[i] == a;
        assert alerts[i] != alerts[j];
      }
    }
  }

  /** What the client sends to `price_alerts` on `addAlert`, before the row gets its id. */
  datatype AlertDraft = AlertDraft(asset_id: string, symbol: string, target_price: real, condition: Condition)

  /** The `price_alerts` row `addAlert` inserts: the draft with the owner and `is_active` set. */
  datatype AlertInsert = AlertInsert(user_id: string, asset_id: string, symbol: string, target_price: real,
                                     condition: Condition, is_active: bool)

  /** The `notifications` row `triggerAlertNotification` inserts. */
  datatype NotificationInsert = NotificationInsert(recipient_id: string, kind: string, is_read: bool, created_at: int)

  /**
   * The rows `count` fired alerts insert: none without a user, otherwise
   * `count` unread ASSET_ALERT rows for that user, stamped `now`.
   */
  function AlertRows(user: Option<User>, count: nat, now: int): seq<NotificationInsert>
  {
    if user.None? || count == 0 then []
    else AlertRows(user, count - 1, now) + [NotificationInsert(user.value.id, "ASSET_ALERT", false, now)]
  }

  lemma {:induction false} AlertRowsShape(user: Option<User>, count: nat, now: int)
    ensures user.None? ==> AlertRows(user, count, now) == []
    ensures user.Some? ==> |AlertRows(user, count, now)| == count &&
                           forall n :: n in AlertRows(user, count, now) ==>
                             n == NotificationInsert(user.value.id, "ASSET_ALERT", false, now)
  {
    if user.Some? && count > 0 {
      AlertRowsShape(user, count - 1, now);
    }
  }

  class AlertService {
    var alerts: seq<PriceAlert>

    constructor ()
      ensures alerts == []
    {
      alerts := [];
    }

    /**
     * `loadAlerts`: with a user and a result, replace the list and clean up;
     * `deleted` is the backend's answer to each cleanup delete.
     */
    method LoadAlerts(user: Option<User>, data: Option<seq<PriceAlert>>, now: int, deleted: string -> bool)
      modifies this
      ensures user.None? || data.None? ==> alerts == old(alerts)
      ensures user.Some? && data.Some? ==>
                alerts == WithoutIds(data.value, IdsOf(Confirmed(StaleAlerts(data.value, now), deleted)))
    {
      if user.None? {
        return;
      }
      if data.Some? {
        alerts := data.value;
        CleanupOldAlerts(now, deleted);
      }
    }

    /**
     * `cleanupOldAlerts`: delete every stale alert of the current list; an
     * alert leaves the list only when the backend confirms its delete.
     */
    method CleanupOldAlerts(now: int, deleted: string -> bool)
      modifies this
      ensures alerts == WithoutIds(old(alerts), IdsOf(Confirmed(StaleAlerts(old(alerts), now), deleted)))
    {
      var toDelete := StaleAlerts(alerts, now);
      WithoutNoIds(alerts);
      assert toDelete[..0] == [];
      var i := 0;
      while i < |toDelete|
        invariant 0 <= i <= |toDelete|
        invariant alerts == WithoutIds(old(alerts), IdsOf(Confirmed(toDelete[..i], deleted)))
      {
        CleanupStep(old(alerts), alerts, toDelete, deleted, i);
        DeleteAlert(toDelete[i].id, deleted(toDelete[i].id));
        i := i + 1;
      }
      assert toDelete[..i] == toDelete;
    }

    /**
     * `addAlert`: nothing without a user; otherwise the draft is sent owned by
     * the user and active, and the row the backend returns for it (`None` on
     * an error or an empty answer) is appended as it came back.
     */
    method AddAlert(user: Option<User>, draft: AlertDraft, returned: Option<PriceAlert>)
      returns (sent: Option<AlertInsert>)
      modifies this
      ensures user.None? ==> sent.None? && alerts == old(alerts)
      ensures user.Some? ==>
                sent == Some(AlertInsert(user.value.id, draft.asset_id, draft.symbol, draft.target_price,
                                         draft.condition, true))
      ensures user.Some? && returned.Some? ==> alerts == old(alerts) + [returned.value]
      ensures user.Some? && returned.None? ==> alerts == old(alerts)
    {
      if user.None? {
        return None;
      }
      sent := Some(AlertInsert(user.value.id, draft.asset_id, draft.symbol, draft.target_price,
                               draft.condition, true));
      if returned.Some? {
        alerts := alerts + [returned.value];
      }
    }

    /** `deleteAlert`: the alert leaves the list only when the backend answers without an error. */
    method DeleteAlert(id: string, ok: bool)
      modifies this
      ensures ok ==> alerts == WithoutId(old(alerts), id)
      ensures !ok ==> alerts == old(alerts)
    {
      if ok {
        alerts := WithoutId(alerts, id);
      }
    }

    /**
     * `checkAlerts`: every fired alert is deactivated with time `now`; one
     * notification row per fired alert is produced when a user is signed in.
     */
    method CheckAlerts(assetId: string, price: real, now: int, user: Option<User>)
      returns (inserts: seq<NotificationInsert>)
      modifies this
      ensures alerts == DeactivateIds(old(alerts), IdsOf(Fired(old(alerts), assetId, price)), now)
      ensures inserts == AlertRows(user, |Fired(old(alerts), assetId, price)|, now)
    {
      var active := ActiveFor(alerts, assetId);
      CheckStart(alerts, active, price, now);
      inserts := [];
      var i := 0;
      while i < |active|
        invariant 0 <= i <= |active|
        invariant alerts == DeactivateIds(old(alerts), IdsOf(Triggering(active[..i], price)), now)
        invariant inserts == AlertRows(user, |Triggering(active[..i], price)|, now)
      {
        var alert := active[i];
        CheckStep(old(alerts), active, i, price, now);
        var triggered := Evaluate(alert, price);
        if triggered {
          inserts := TriggerAlertNotification(inserts, user, now);
          ToggleAlertStatus(alert.id, false, now);
        }
        i := i + 1;
      }
      assert active[..i] == active;
    }

    /** The condition test inside the `checkAlerts` loop. */
    static method Evaluate(alert: PriceAlert, price: real) returns (triggered: bool)
      ensures triggered <==> Triggers(alert, price)
    {
      triggered := false;
      if alert.condition == Above && price >= alert.target_price {
        triggered := true;
      } else if alert.condition == Below && price <= alert.target_price {
        triggered := true;
      }
    }

    /** `triggerAlertNotification`: one row for the signed-in user, none without one. */
    static method TriggerAlertNotification(sent: seq<NotificationInsert>, user: Option<User>, now: int)
      returns (r: seq<NotificationInsert>)
      ensures user.None? ==> r == sent
      ensures user.Some? ==> r == sent + [NotificationInsert(user.value.id, "ASSET_ALERT", false, now)]
    {
      if user.None? {
        return sent;
      }
      r := sent + [NotificationInsert(user.value.id, "ASSET_ALERT", false, now)];
    }

    method ToggleAlertStatus(id: string, active: bool, now: int)
      modifies this
      ensures alerts == SetStatus(old(alerts), id, active, now)
    {
      alerts := SetStatus(alerts, id, active, now);
    }
  }
}
