/**
 * The epoch reminders: the module-level list of scheduled reminder ids,
 * `clearEpochNotifications`, which cancels them all, and
 * `scheduleEpochNotifications`, which cancels, schedules at most two new
 * reminders and records exactly the new ids.
 */
module EpochNotifications {
  import opened Decimal

  /** The handle the notification platform returns for a scheduled reminder. */
  type ReminderId = nat

  /** A one-shot local notification: its content and its delay in seconds. */
  datatype Reminder = Reminder(title: string, body: string, seconds: int, channelId: string)

  /** The calls the app makes into the notification platform, in the order made. */
  datatype PlatformCall = Scheduled(id: ReminderId, reminder: Reminder) | Cancelled(id: ReminderId)

  /** Reminders are due this many seconds before the end of the epoch ... */
  const OneHour: int := 3600
  /** ... and the end reminder is skipped when the end is this close. */
  const EndMargin: int := 5

  function OneHourReminder(etaSeconds: int, epoch: int): Reminder {
    Reminder("Epoch ending soon", "~1 hour left in epoch " + IntToString(epoch) + ".",
             etaSeconds - OneHour, "epoch")
  }

  function EndReminder(etaSeconds: int, epoch: int): Reminder {
    Reminder("New epoch starting", "Epoch " + IntToString(epoch) + " is about to end.",
             etaSeconds, "epoch")
  }

  /**
   * The two reminders of one call: both on the "epoch" channel, with
   * different titles, the one-hour reminder due exactly an hour before the
   * end reminder, and each body naming the epoch, so that bodies for
   * different epochs differ.
   */
  lemma ReminderContents(etaSeconds: int, epoch: int, other: int)
    ensures OneHourReminder(etaSeconds, epoch).channelId == EndReminder(etaSeconds, epoch).channelId == "epoch"
    ensures OneHourReminder(etaSeconds, epoch).title != EndReminder(etaSeconds, epoch).title
    ensures OneHourReminder(etaSeconds, epoch).seconds + OneHour == EndReminder(etaSeconds, epoch).seconds == etaSeconds
    ensures OneHourReminder(etaSeconds, epoch).body == OneHourReminder(etaSeconds, other).body <==> epoch == other
    ensures EndReminder(etaSeconds, epoch).body == EndReminder(etaSeconds, other).body <==> epoch == other
  {
    IntToStringInjective(epoch, other);
    var a, b := IntToString(epoch), IntToString(other);
    var p1, p2 := "~1 hour left in epoch ", "Epoch ";
    var s1, s2 := ".", " is about to end.";
    if p1 + a + s1 == p1 + b + s1 {
      assert a == (p1 + a + s1)[|p1|..|p1| + |a|] == (p1 + b + s1)[|p1|..|p1| + |b|] == b;
    }
    if p2 + a + s2 == p2 + b + s2 {
      assert a == (p2 + a + s2)[|p2|..|p2| + |a|] == (p2 + b + s2)[|p2|..|p2| + |b|] == b;
    }
  }

  /** The reminders one call of `scheduleEpochNotifications` creates, in creation order. */
  function Plan(etaSeconds: int, epoch: int, notifyAtOneHour: bool, notifyAtEnd: bool): seq<Reminder> {
    (if notifyAtOneHour && etaSeconds > OneHour then [OneHourReminder(etaSeconds, epoch)] else [])
    + (if notifyAtEnd && etaSeconds > EndMargin then [EndReminder(etaSeconds, epoch)] else [])
  }

  /** One cancellation per id, in list order. */
  function CancelCalls(ids: seq<ReminderId>): seq<PlatformCall> {
    if ids == [] then [] else CancelCalls(ids[..|ids| - 1]) + [Cancelled(ids[|ids| - 1])]
  }

  /** One scheduling per (id, reminder) pair, in list order. */
  function ScheduleCalls(ids: seq<ReminderId>, reminders: seq<Reminder>): seq<PlatformCall>
    requires |ids| == |reminders|
  {
    if ids == [] then []
    else ScheduleCalls(ids[..|ids| - 1], reminders[..|ids| - 1])
         + [Scheduled(ids[|ids| - 1], reminders[|ids| - 1])]
  }

  predicate Distinct(ids: seq<ReminderId>) {
    forall i, j :: 0 <= i < j < |ids| ==> ids[i] != ids[j]
  }

  // ----- what a call schedules -----

  /** The one-hour reminder is created exactly when asked for and more than an hour is left. */
  lemma PlanOneHour(etaSeconds: int, epoch: int, notifyAtOneHour: bool, notifyAtEnd: bool)
    ensures var p := Plan(etaSeconds, epoch, notifyAtOneHour, notifyAtEnd);
            (OneHourReminder(etaSeconds, epoch) in p <==> notifyAtOneHour && etaSeconds > 3600)
            && (OneHourReminder(etaSeconds, epoch) in p ==>
                  p[0] == OneHourReminder(etaSeconds, epoch) && p[0].seconds == etaSeconds - 3600)
  {
    assert OneHourReminder(etaSeconds, epoch).title != EndReminder(etaSeconds, epoch).title;
  }

  /** The end reminder is created exactly when asked for and more than 5 seconds are left. */
  lemma PlanEnd(etaSeconds: int, epoch: int, notifyAtOneHour: bool, notifyAtEnd: bool)
    ensures var p := Plan(etaSeconds, epoch, notifyAtOneHour, notifyAtEnd);
            (EndReminder(etaSeconds, epoch) in p <==> notifyAtEnd && etaSeconds > 5)
            && (EndReminder(etaSeconds, epoch) in p ==>
                  p[|p| - 1] == EndReminder(etaSeconds, epoch) && p[|p| - 1].seconds == etaSeconds)
  {
    assert OneHourReminder(etaSeconds, epoch).title != EndReminder(etaSeconds, epoch).title;
  }

  /** At most two reminders, nothing else, the one-hour one first. */
  lemma PlanShape(etaSeconds: int, epoch: int, notifyAtOneHour: bool, notifyAtEnd: bool)
    ensures var p := Plan(etaSeconds, epoch, notifyAtOneHour, notifyAtEnd);
            && |p| <= 2
            && (forall r :: r in p ==> r == OneHourReminder(etaSeconds, epoch) || r == EndReminder(etaSeconds, epoch))
            && (|p| == 2 ==> p == [OneHourReminder(etaSeconds, epoch), EndReminder(etaSeconds, epoch)])
            && (!notifyAtOneHour && !notifyAtEnd ==> p == [])
  {
  }

  /** The thresholds are strict: 3601 s gives a 1 s delay, 3600 s nothing; likewise 6 s and 5 s. */
  lemma PlanBoundaries(epoch: int)
    ensures Plan(3601, epoch, true, false) == [OneHourReminder(3601, epoch)]
    ensures Plan(3601, epoch, true, false)[0].seconds == 1
    ensures Plan(3600, epoch, true, false) == []
    ensures Plan(6, epoch, false, true) == [EndReminder(6, epoch)]
    ensures Plan(6, epoch, false, true)[0].seconds == 6
    ensures Plan(5, epoch, false, true) == []
  {
  }

  // ----- the platform and the scheduler -----

  /**
   * The local notification platform: the reminders it still has pending
   * and a generator of fresh handles; `calls` records what the app asked of it.
   */
  class NotificationPlatform {
    var pending: map<ReminderId, Reminder>
    var nextId: nat
    var calls: seq<PlatformCall>

    /** Every handle handed out so far is below `nextId`. */
    ghost predicate Valid()
      reads this
    {
      forall id :: id in pending ==> id < nextId
    }

    constructor ()
      ensures Valid() && pending == map[] && nextId == 0 && calls == []
    {
      pending := map[];
      nextId := 0;
      calls := [];
    }

    /** `scheduleNotificationAsync`: a fresh handle for a newly pending reminder. */
    method Schedule(r: Reminder) returns (id: ReminderId)
      requires Valid()
      modifies this
      ensures Valid()
      ensures id == old(nextId) && nextId == old(nextId) + 1
      ensures pending == old(pending)[id := r]
      ensures calls == old(calls) + [Scheduled(id, r)]
    {
      id := nextId;
      nextId := nextId + 1;
      pending := pending[id := r];
      calls := calls + [Scheduled(id, r)];
    }

    /** `cancelScheduledNotificationAsync`: a handle that is no longer pending is ignored. */
    method Cancel(id: ReminderId)
      requires Valid()
      modifies this
      ensures Valid()
      ensures pending == old(pending) - {id} && nextId == old(nextId)
      ensures calls == old(calls) + [Cancelled(id)]
    {
      pending := pending - {id};
      calls := calls + [Cancelled(id)];
    }

    /** A reminder fires and stops being pending; the app is not involved. */
    method Deliver(id: ReminderId)
      requires Valid() && id in pending
      modifies this
      ensures Valid()
      ensures pending == old(pending) - {id} && nextId == old(nextId) && calls == old(calls)
    {
      pending := pending - {id};
    }
  }

  /** The pending reminders of `m` once every handle in `ids` is cancelled. */
  function Without(m: map<ReminderId, Reminder>, ids: seq<ReminderId>): (r: map<ReminderId, Reminder>)
    ensures forall id :: id in r <==> id in m && id !in ids
    ensures forall id :: id in r ==> r[id] == m[id]
  {
    if ids == [] then m else Without(m, ids[..|ids| - 1]) - {ids[|ids| - 1]}
  }

  /**
   * After the cancellations, `ids` are the handles created since `start`
   * for `made`, in order (the platform numbers its handles consecutively);
   * the reminders pending beforehand (`before`, all with older handles) are
   * still pending, and nothing else is; `calls` is `base` followed by those
   * creations.
   */
  ghost predicate Created(pending: map<ReminderId, Reminder>, nextId: nat, calls: seq<PlatformCall>,
                          base: seq<PlatformCall>, start: nat, ids: seq<ReminderId>, made: seq<Reminder>,
                          before: map<ReminderId, Reminder>)
  {
    && |ids| == |made| && nextId == start + |ids|
    && (forall i :: 0 <= i < |ids| ==> ids[i] == start + i)
    && (forall i :: 0 <= i < |ids| ==> ids[i] in pending && pending[ids[i]] == made[i])
    && (forall id :: id in before ==> id < start && id in pending && pending[id] == before[id])
    && (forall id :: id in pending ==> id in before || start <= id < nextId)
    && calls == base + ScheduleCalls(ids, made)
  }

  /** Before any creation, the record is empty and everything pending is from before. */
  lemma CreatedStart(before: map<ReminderId, Reminder>, nextId: nat, calls: seq<PlatformCall>)
    requires forall id :: id in before ==> id < nextId
    ensures Created(before, nextId, calls, calls, nextId, [], [], before)
  {
  }

  /** What the record says about the handles: distinct, fresh, and all that is new. */
  lemma CreatedFacts(pending: map<ReminderId, Reminder>, nextId: nat, calls: seq<PlatformCall>,
                     base: seq<PlatformCall>, start: nat, ids: seq<ReminderId>, made: seq<Reminder>,
                     before: map<ReminderId, Reminder>)
    requires Created(pending, nextId, calls, base, start, ids, made, before)
    ensures |ids| == |made| && Distinct(ids) && calls == base + ScheduleCalls(ids, made)
    ensures forall i :: 0 <= i < |ids| ==> ids[i] in pending && pending[ids[i]] == made[i]
    ensures forall i :: 0 <= i < |ids| ==> start <= ids[i] < nextId
    ensures forall id :: id in before ==> id in pending && pending[id] == before[id]
    ensures forall id :: id in pending ==> id in ids || id in before
  {
    forall id | id in pending && id !in before ensures id in ids {
      assert ids[id - start] == id;
    }
  }

  /** Scheduling one more reminder under the next handle extends the record by that handle. */
  lemma CreatedExtend(pending: map<ReminderId, Reminder>, nextId: nat, calls: seq<PlatformCall>,
                      base: seq<PlatformCall>, start: nat, ids: seq<ReminderId>, made: seq<Reminder>,
                      before: map<ReminderId, Reminder>, r: Reminder)
    requires Created(pending, nextId, calls, base, start, ids, made, before)
    ensures Created(pending[nextId := r], nextId + 1, calls + [Scheduled(nextId, r)],
                    base, start, ids + [nextId], made + [r], before)
  {
    ScheduleCallsSnoc(ids, made, nextId, r);
  }

  lemma ScheduleCallsSnoc(ids: seq<ReminderId>, made: seq<Reminder>, id: ReminderId, r: Reminder)
    requires |ids| == |made|
    ensures ScheduleCalls(ids + [id], made + [r]) == ScheduleCalls(ids, made) + [Scheduled(id, r)]
  {
    assert (ids + [id])[..|ids|] == ids && (made + [r])[..|ids|] == made;
  }

  /**
   * The module state of the reminders file: `scheduledIds`, over the platform.
   * The module is loaded with nothing recorded, while the platform may still
   * hold reminders an earlier run of the app scheduled (`leftover`, all with
   * handles below `loadId`); no call of this module ever cancels those.
   */
  class EpochReminders {
    var scheduledIds: seq<ReminderId>
    const platform: NotificationPlatform
    ghost const leftover: set<ReminderId>
    ghost const loadId: nat

    /** No orphans of this run: every pending reminder is recorded or left over from before. */
    ghost predicate Valid()
      reads this, platform
    {
      && platform.Valid()
      && Distinct(scheduledIds)
      && loadId <= platform.nextId
      && (forall id :: id in leftover ==> id < loadId)
      && (forall i :: 0 <= i < |scheduledIds| ==> loadId <= scheduledIds[i] < platform.nextId)
      && (forall id :: id in platform.pending ==> id in scheduledIds || id in leftover)
    }

    /** Module load: `let scheduledIds: string[] = []`, whatever the platform still holds. */
    constructor (p: NotificationPlatform)
      requires p.Valid()
      ensures Valid() && platform == p && scheduledIds == []
      ensures leftover == p.pending.Keys && loadId == p.nextId
      ensures p.pending == old(p.pending) && p.nextId == old(p.nextId) && p.calls == old(p.calls)
    {
      scheduledIds := [];
      platform := p;
      leftover := p.pending.Keys;
      loadId := p.nextId;
    }

    /** `clearEpochNotifications`: cancel every recorded id, then forget them. */
    method Clear()
      requires Valid()
      modifies this, platform
      ensures Valid()
      ensures scheduledIds == [] && platform.pending == Without(old(platform.pending), old(scheduledIds))
      ensures forall id :: id in platform.pending ==> id in leftover
      ensures platform.nextId == old(platform.nextId)
      ensures platform.calls == old(platform.calls) + CancelCalls(old(scheduledIds))
    {
      var ids := scheduledIds;
      for i := 0 to |ids|
        invariant platform.Valid() && platform.nextId == old(platform.nextId)
        invariant platform.pending == Without(old(platform.pending), ids[..i])
        invariant platform.calls == old(platform.calls) + CancelCalls(ids[..i])
      {
        platform.Cancel(ids[i]);
        assert ids[..i + 1][..i] == ids[..i];
      }
      assert ids[..|ids|] == ids;
      scheduledIds := [];
    }

    /**
     * One `if (...) { scheduleNotificationAsync(...); ids.push(id) }` block:
     * when `wanted`, the reminder is scheduled under a fresh handle that is
     * appended to `ids`.
     */
    method ScheduleIf(wanted: bool, r: Reminder, ids: seq<ReminderId>, ghost made: seq<Reminder>,
                      ghost base: seq<PlatformCall>, ghost start: nat, ghost before: map<ReminderId, Reminder>)
      returns (ids': seq<ReminderId>, ghost made': seq<Reminder>)
      requires platform.Valid()
      requires Created(platform.pending, platform.nextId, platform.calls, base, start, ids, made, before)
      modifies platform
      ensures platform.Valid()
      ensures made' == made + (if wanted then [r] else [])
      ensures Created(platform.pending, platform.nextId, platform.calls, base, start, ids', made', before)
    {
      ids', made' := ids, made;
      if wanted {
        CreatedExtend(platform.pending, platform.nextId, platform.calls, base, start, ids, made, before, r);
        var id := platform.Schedule(r);
        ids', made' := ids + [id], made + [r];
      }
    }

    /** Lines 23-45 of `scheduleEpochNotifications`: the two guarded creations. */
    method SchedulePlanned(etaSeconds: int, epoch: int, notifyAtOneHour: bool, notifyAtEnd: bool)
      returns (ids: seq<ReminderId>)
      requires platform.Valid()
      modifies platform
      ensures platform.Valid() && old(platform.nextId) <= platform.nextId
      ensures Created(platform.pending, platform.nextId, platform.calls, old(platform.calls), old(platform.nextId),
                      ids, Plan(etaSeconds, epoch, notifyAtOneHour, notifyAtEnd), old(platform.pending))
    {
      ids := [];
      ghost var made: seq<Reminder> := [];
      CreatedStart(platform.pending, platform.nextId, platform.calls);
      ids, made := ScheduleIf(notifyAtOneHour && etaSeconds > OneHour, OneHourReminder(etaSeconds, epoch),
                              ids, made, old(platform.calls), old(platform.nextId), old(platform.pending));
      ids, made := ScheduleIf(notifyAtEnd && etaSeconds > EndMargin, EndReminder(etaSeconds, epoch),
                              ids, made, old(platform.calls), old(platform.nextId), old(platform.pending));
      assert made == Plan(etaSeconds, epoch, notifyAtOneHour, notifyAtEnd);
    }

    /**
     * `scheduleEpochNotifications`: cancel all recorded reminders, schedule
     * the planned ones, and record exactly their ids. Reminders that were
     * pending but not recorded stay pending, unchanged.
     */
    method ScheduleReminders(etaSeconds: int, epoch: int, notifyAtOneHour: bool, notifyAtEnd: bool)
      returns (ids: seq<ReminderId>)
      requires Valid()
      modifies this, platform
      ensures Valid()
      ensures scheduledIds == ids
      ensures var plan := Plan(etaSeconds, epoch, notifyAtOneHour, notifyAtEnd);
              && |ids| == |plan|
              && (forall i :: 0 <= i < |ids| ==> ids[i] in platform.pending && platform.pending[ids[i]] == plan[i])
              && platform.calls == old(platform.calls) + CancelCalls(old(scheduledIds)) + ScheduleCalls(ids, plan)
      ensures forall i :: 0 <= i < |ids| ==> old(platform.nextId) <= ids[i]
      ensures var kept := Without(old(platform.pending), old(scheduledIds));
              && (forall id :: id in kept ==> id in platform.pending && platform.pending[id] == kept[id])
              && (forall id :: id in platform.pending ==> id in ids || id in kept)
    {
      // prevent stacking duplicates
      Clear();
      ghost var afterClear := platform.calls;
      ghost var start := platform.nextId;
      ghost var kept := platform.pending;
      ids := SchedulePlanned(etaSeconds, epoch, notifyAtOneHour, notifyAtEnd);
      CreatedFacts(platform.pending, platform.nextId, platform.calls, afterClear, start, ids,
                   Plan(etaSeconds, epoch, notifyAtOneHour, notifyAtEnd), kept);
      scheduledIds := ids;
    }
  }

  /**
   * Two calls with the same arguments: the second records as many ids as
   * the first, none of the first call's reminders is still pending, and
   * what is pending is the second call's reminders and whatever was pending
   * without being recorded.
   */
  method RescheduleTwice(r: EpochReminders, etaSeconds: int, epoch: int, notifyAtOneHour: bool, notifyAtEnd: bool)
    returns (first: seq<ReminderId>, second: seq<ReminderId>)
    requires r.Valid()
    modifies r, r.platform
    ensures r.Valid() && r.scheduledIds == second && |second| == |first|
    ensures forall id :: id in first ==> id !in second && id !in r.platform.pending
    ensures Distinct(second)
    ensures forall id :: id in r.platform.pending <==>
              id in second || id in Without(old(r.platform.pending), old(r.scheduledIds))
  {
    first := r.ScheduleReminders(etaSeconds, epoch, notifyAtOneHour, notifyAtEnd);
    second := r.ScheduleReminders(etaSeconds, epoch, notifyAtOneHour, notifyAtEnd);
  }

  /**
   * Turning both flags off records nothing and cancels every recorded
   * reminder; only reminders from before module load can still be pending.
   */
  method DisableAll(r: EpochReminders, etaSeconds: int, epoch: int) returns (ids: seq<ReminderId>)
    requires r.Valid()
    modifies r, r.platform
    ensures ids == [] && r.scheduledIds == []
    ensures r.platform.pending == Without(old(r.platform.pending), old(r.scheduledIds))
    ensures forall id :: id in r.platform.pending ==> id in r.leftover
  {
    ids := r.ScheduleReminders(etaSeconds, epoch, false, false);
  }

  /**
   * After an app restart: a reminder the previous run scheduled is not in
   * the fresh `scheduledIds`, so rescheduling leaves it pending beside the
   * new ones.
   */
  method RestartLeavesEarlierReminder(earlier: Reminder, etaSeconds: int, epoch: int,
                                      notifyAtOneHour: bool, notifyAtEnd: bool)
    returns (p: NotificationPlatform, stale: ReminderId, ids: seq<ReminderId>)
    ensures |ids| == |Plan(etaSeconds, epoch, notifyAtOneHour, notifyAtEnd)| && stale !in ids
    ensures stale in p.pending && p.pending[stale] == earlier
    ensures forall i :: 0 <= i < |ids| ==>
              ids[i] in p.pending && p.pending[ids[i]] == Plan(etaSeconds, epoch, notifyAtOneHour, notifyAtEnd)[i]
  {
    p := new NotificationPlatform();
    stale := p.Schedule(earlier);
    var r := new EpochReminders(p);
    ids := r.ScheduleReminders(etaSeconds, epoch, notifyAtOneHour, notifyAtEnd);
  }

  /** After an app restart, turning both flags off does not cancel the previous run's reminder. */
  method RestartDisableKeepsEarlierReminder(earlier: Reminder, etaSeconds: int, epoch: int)
    returns (p: NotificationPlatform, stale: ReminderId)
    ensures stale in p.pending && p.pending[stale] == earlier
  {
    p := new NotificationPlatform();
    stale := p.Schedule(earlier);
    var r := new EpochReminders(p);
    var ids := DisableAll(r, etaSeconds, epoch);
  }
}
