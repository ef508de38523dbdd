/**
 The single-process scheduler (agent/scheduler.py): firing a due job, recovering
 it at a restart, and what stays true over any mix of the two, including a crash
 between sending the message and saving the file.
 */
module LocalSchedule {
  import opened Prelude
  import opened CatchUp
  import StoreSpec
  import ScheduleFires

  type Trigger = StoreSpec.Trigger

  datatype LocalStatus = Pending | Completed | Cancelled | Failed | Missed

  /** `runAt` is None when the stored text is no date. */
  datatype Row = Row(trigger: Trigger, cron: string, interval: int, remaining: int, runAt: Option<Time>,
                     status: LocalStatus, lastError: string)

  /** Cron evaluation is not part of this model; None where it raises. */
  type CronFire = (string, Time) -> Option<Time>

  const GRACE: int := 300 * SECOND

  predicate Due(r: Row, now: Time) {
    r.status.Pending? && r.runAt.Some? && r.runAt.value <= now
  }

  /** Where a job whose message went out stands next. */
  function Reschedule(r: Row, now: Time, cron: CronFire): Row
    requires r.runAt.Some?
  {
    var step := r.interval * SECOND;
    if r.trigger.Every? && r.cron != "" then
      var next := cron(r.cron, Max(r.runAt.value, now));
      if next.Some? then r.(runAt := next) else r.(status := Failed, lastError := "invalid cron expression")
    else if (r.trigger.Every? || r.remaining > 0) && r.interval > 0 then
      r.(runAt := Some(NextSlot(r.runAt.value + step, step, now)))
    else r.(status := Completed)
  }

  function Fire(r: Row, sent: bool, now: Time, cron: CronFire): Row
    requires r.runAt.Some?
  {
    if !sent then r.(status := Failed, lastError := "publish failed")
    else Reschedule(r.(remaining := if r.remaining > 0 then r.remaining - 1 else r.remaining), now, cron)
  }

  function Recover(r: Row, now: Time, cron: CronFire): Row {
    if !r.status.Pending? then r
    else if r.runAt.None? then r.(status := Failed, lastError := "invalid run_at")
    else if now < r.runAt.value then r
    else if r.trigger.Every? && r.cron != "" then
      var next := cron(r.cron, now);
      if next.Some? then r.(runAt := next) else r.(status := Failed, lastError := "invalid cron expression")
    else if r.interval > 0 && (r.remaining > 0 || r.trigger.Every?) then
      r.(runAt := Some(NextSlot(r.runAt.value, r.interval * SECOND, now)))
    else if now - r.runAt.value > GRACE then
      r.(status := Missed, lastError := "missed while runtime was offline")
    else r
  }

  // ---------- the object ----------

  class ScheduledMessage {
    var trigger: Trigger
    var cron: string
    var interval: int
    var remaining: int
    var runAt: Option<Time>
    var status: LocalStatus
    var lastError: string

    function View(): Row
      reads this
    {
      Row(trigger, cron, interval, remaining, runAt, status, lastError)
    }

    constructor (r: Row)
      ensures View() == r
    {
      trigger, cron, interval, remaining := r.trigger, r.cron, r.interval, r.remaining;
      runAt, status, lastError := r.runAt, r.status, r.lastError;
    }

    /** `sent` tells whether publishing returned or raised. */
    method FireNow(sent: bool, now: Time, next: CronFire)
      requires runAt.Some?
      modifies this
      ensures View() == Fire(old(View()), sent, now, next)
    {
      if !sent {
        lastError := "publish failed";
        status := Failed;
        return;
      }
      if remaining > 0 {
        remaining := remaining - 1;
      }
      if trigger.Every? && cron != "" {
        var at := next(cron, Max(runAt.value, now));
        if at.Some? {
          runAt := at;
        } else {
          lastError := "invalid cron expression";
          status := Failed;
        }
      } else if trigger.Every? && interval > 0 {
        var at := AdvancePast(runAt.value + interval * SECOND, interval * SECOND, now);
        runAt := Some(at);
      } else if remaining > 0 && interval > 0 {
        var at := AdvancePast(runAt.value + interval * SECOND, interval * SECOND, now);
        runAt := Some(at);
      } else {
        status := Completed;
      }
    }

    /** Misfire recovery at start-up; the answer tells whether the row changed and must be saved. */
    method RecoverAtStart(now: Time, next: CronFire) returns (changed: bool)
      modifies this
      ensures View() == Recover(old(View()), now, next)
      ensures !changed ==> View() == old(View())
    {
      if !status.Pending? {
        return false;
      }
      if runAt.None? {
        status := Failed;
        lastError := "invalid run_at";
        return true;
      }
      if runAt.value > now {
        return false;
      }
      if trigger.Every? && cron != "" {
        var at := next(cron, now);
        if at.Some? {
          runAt := at;
        } else {
          status := Failed;
          lastError := "invalid cron expression";
        }
        return true;
      }
      if interval > 0 && (remaining > 0 || trigger.Every?) {
        var at := AdvancePast(runAt.value, interval * SECOND, now);
        runAt := Some(at);
        return true;
      }
      if now - runAt.value > GRACE {
        status := Missed;
        lastError := "missed while runtime was offline";
        return true;
      }
      return false;
    }
  }

  // ---------- runs ----------

  /**
   Where the loop stands with the job: not about it; holding it in the list of due jobs
   it collected; or having published for it, with or without success, but not yet
   rescheduled and saved. The user may cancel at any of these points.
   */
  datatype Stage = Waiting | Collected | Published(sent: bool)

  /** A job as stored, the loop's stage, the wall clock, the due time of every message that went out, and how often a save was lost. */
  datatype Diary = Diary(row: Row, stage: Stage, clock: Time, sent: seq<Time>, lost: nat)

  /** A restart may come at any stage: the row is recovered as it was saved last. */
  datatype Event =
    | Collects(now: Time)
    | Publishes(now: Time, sent: bool)
    | Settles(now: Time)
    | Restarts(now: Time)
    | UserCancels

  predicate Possible(d: Diary, e: Event) {
    match e
    case Collects(now) => d.stage.Waiting? && d.clock <= now && Due(d.row, now)
    case Publishes(now, _) => d.stage.Collected? && d.clock <= now && d.row.runAt.Some?
    case Settles(now) => d.stage.Published? && d.clock <= now && d.row.runAt.Some?
    case Restarts(now) => d.clock <= now
    case UserCancels => d.row.status.Pending?
  }

  function After(d: Diary, e: Event, cron: CronFire): Diary
    requires Possible(d, e)
  {
    match e
    case Collects(now) => d.(stage := Collected, clock := now)
    case Publishes(now, sent) =>
      d.(stage := Published(sent), clock := now, sent := if sent then d.sent + [d.row.runAt.value] else d.sent)
    case Settles(now) => d.(row := Fire(d.row, d.stage.sent, now, cron), stage := Waiting, clock := now)
    case Restarts(now) =>
      d.(row := Recover(d.row, now, cron), stage := Waiting, clock := now,
         lost := d.lost + if d.stage == Published(true) then 1 else 0)
    case UserCancels => d.(row := d.row.(status := Cancelled))
  }

  predicate Plausible(d: Diary, events: seq<Event>, cron: CronFire)
    decreases |events|
  {
    events == [] || (Possible(d, events[0]) && Plausible(After(d, events[0], cron), events[1..], cron))
  }

  function Live(d: Diary, events: seq<Event>, cron: CronFire): Diary
    requires Plausible(d, events, cron)
    decreases |events|
  {
    if events == [] then d else Live(After(d, events[0], cron), events[1..], cron)
  }

  ghost predicate Increasing(s: seq<Time>) {
    forall i, j :: 0 <= i < j < |s| ==> s[i] < s[j]
  }

  /** Jobs that repeat by interval, with what `schedule` guarantees about them. */
  predicate ByInterval(r: Row) {
    r.interval > 0 && r.cron == "" && (r.trigger.Every? || r.remaining >= 0)
  }

  /** The due times already served, up to the present one when its message is just out. */
  function Served(d: Diary): seq<Time> {
    if d.stage == Published(true) && d.sent != [] then d.sent[..|d.sent| - 1] else d.sent
  }

  /**
   Every due time is a slot of the grid of the first one, no slot is served twice, and
   served slots lie in the past. A row that is pending, or held by the loop, points at
   a slot not served before.
   */
  ghost predicate InPhase(d: Diary, first: Time, step: int) {
    && d.row.runAt.Some? && OnGrid(first, step, d.row.runAt.value)
    && (forall i :: 0 <= i < |d.sent| ==> OnGrid(first, step, d.sent[i]) && d.sent[i] <= d.clock)
    && Increasing(d.sent)
    && (d.stage == Published(true) ==> d.sent != [] && d.sent[|d.sent| - 1] == d.row.runAt.value)
    && (!d.stage.Waiting? ==> d.row.runAt.value <= d.clock)
    && (d.row.status.Pending? || !d.stage.Waiting? ==> forall i :: 0 <= i < |Served(d)| ==> d.sent[i] < d.row.runAt.value)
  }

  /** A pending job of finite repeats has a repeat left. */
  predicate HasRepeats(r: Row) {
    !r.trigger.Every? && r.status.Pending? ==> r.remaining > 0
  }

  lemma EventKeepsPhase(d: Diary, e: Event, cron: CronFire, first: Time)
    requires Possible(d, e) && ByInterval(d.row) && HasRepeats(d.row) && InPhase(d, first, d.row.interval * SECOND)
    ensures var d' := After(d, e, cron);
      && ByInterval(d'.row) && HasRepeats(d'.row) && d'.row.interval == d.row.interval
      && InPhase(d', first, d.row.interval * SECOND)
  {
    var step, t := d.row.interval * SECOND, d.row.runAt.value;
    if e.Settles? || e.Restarts? {
      CatchUpStaysOnGrid(first, step, t, e.now);
    }
    hide OnGrid, NextSlot;
    var d' := After(d, e, cron);
    if e.Publishes? && e.sent {
      assert d'.sent[..|d'.sent| - 1] == d.sent;
    }
  }

  /**
   Phase: over any mix of fires, failures, cancellations, restarts and crashes, an
   interval job is due only on slots of its first due time, and no slot is served
   twice, not even when a crash loses the save.
   */
  lemma {:induction false} PhaseIsKept(d: Diary, events: seq<Event>, cron: CronFire, first: Time)
    requires Plausible(d, events, cron) && ByInterval(d.row) && HasRepeats(d.row) && InPhase(d, first, d.row.interval * SECOND)
    ensures InPhase(Live(d, events, cron), first, d.row.interval * SECOND)
    decreases |events|
  {
    hide InPhase, After, Possible, ByInterval, HasRepeats;
    if events != [] {
      EventKeepsPhase(d, events[0], cron, first);
      PhaseIsKept(After(d, events[0], cron), events[1..], cron, first);
    }
  }

  /** A job as it was scheduled: nothing sent, nothing lost. */
  predicate JustScheduled(d: Diary) {
    d.stage.Waiting? && d.sent == [] && d.lost == 0 && d.row.status.Pending? && d.row.runAt.Some?
  }

  /** The same for a job as it was scheduled: its first due time is the origin of the grid. */
  lemma ScheduledJobsStayInPhase(d: Diary, events: seq<Event>, cron: CronFire)
    requires Plausible(d, events, cron) && JustScheduled(d) && ByInterval(d.row) && HasRepeats(d.row)
    ensures InPhase(Live(d, events, cron), d.row.runAt.value, d.row.interval * SECOND)
  {
    var first := d.row.runAt.value;
    assert first == Slot(first, d.row.interval * SECOND, 0);
    PhaseIsKept(d, events, cron, first);
  }

  /**
   The messages sent account for the repeats used up, plus one for every save lost in a
   crash, plus one that is out and not yet settled.
   */
  ghost predicate Accounted(d: Diary, initial: int) {
    if d.row.trigger.Every? then d.row.remaining == -1 && (d.row.cron != "" || d.row.interval > 0) && !d.row.status.Completed?
    else
      && d.row.cron == "" && 0 <= d.row.remaining <= initial
      && (d.row.remaining > 1 ==> d.row.interval > 0)
      && (d.row.status.Completed? <==> d.row.remaining == 0)
      && (!d.stage.Waiting? ==> d.row.remaining > 0)
      && |d.sent| == initial - d.row.remaining + d.lost + if d.stage == Published(true) then 1 else 0
  }

  lemma EventKeepsAccount(d: Diary, e: Event, cron: CronFire, initial: int)
    requires Possible(d, e) && Accounted(d, initial)
    ensures Accounted(After(d, e, cron), initial) && After(d, e, cron).row.trigger == d.row.trigger
  {
    hide NextSlot;
  }

  lemma {:induction false} SendsMatchRepeats(d: Diary, events: seq<Event>, cron: CronFire, initial: int)
    requires Plausible(d, events, cron) && Accounted(d, initial)
    ensures Accounted(Live(d, events, cron), initial) && Live(d, events, cron).row.trigger == d.row.trigger
    decreases |events|
  {
    hide Accounted, After, Possible;
    if events != [] {
      EventKeepsAccount(d, events[0], cron, initial);
      SendsMatchRepeats(After(d, events[0], cron), events[1..], cron, initial);
    }
  }

  /** Without crashes between sending and saving, a finite job sends exactly its repeats: as many as are used up, all when completed. */
  lemma ScheduledJobsSendTheirRepeats(d: Diary, events: seq<Event>, cron: CronFire)
    requires Plausible(d, events, cron) && JustScheduled(d) && !d.row.trigger.Every?
    requires ScheduleFires.Planned(d.row.trigger, d.row.cron, d.row.interval, d.row.remaining)
    ensures var later := Live(d, events, cron);
      && (later.lost == 0 ==> |later.sent| <= d.row.remaining)
      && (later.row.status.Completed? ==> |later.sent| == d.row.remaining + later.lost)
  {
    SendsMatchRepeats(d, events, cron, d.row.remaining);
  }

  // ---------- when a cancellation holds ----------

  /** The state right after `cancel_schedule` answered that the job is cancelled. */
  function AfterCancel(d: Diary): Diary
    requires d.row.status.Pending?
  {
    d.(row := d.row.(status := Cancelled))
  }

  /** A job that is not pending, and not held as due, never sends again. */
  lemma {:induction false} NoFurtherSends(d: Diary, events: seq<Event>, cron: CronFire)
    requires Plausible(d, events, cron) && !d.row.status.Pending? && !d.stage.Collected?
    ensures Live(d, events, cron).sent == d.sent
    decreases |events|
  {
    hide NextSlot;
    if events != [] {
      NoFurtherSends(After(d, events[0], cron), events[1..], cron);
    }
  }

  /** A job held as due may still send. */
  lemma CollectedMayStillSend(d: Diary, cron: CronFire)
    requires d.stage.Collected? && d.row.runAt.Some?
    ensures Plausible(d, [Publishes(d.clock, true)], cron)
    ensures Live(d, [Publishes(d.clock, true)], cron).sent == d.sent + [d.row.runAt.value]
  {
    OneEvent(d, Publishes(d.clock, true), cron);
  }

  /** The plays of one, two and three events. */
  lemma OneEvent(d: Diary, e: Event, cron: CronFire)
    requires Possible(d, e)
    ensures Plausible(d, [e], cron) && Live(d, [e], cron) == After(d, e, cron)
  {
    hide After, Possible;
    var d1 := After(d, e, cron);
    assert [e][1..] == [] && Plausible(d1, [], cron) && Live(d1, [], cron) == d1;
  }

  lemma TwoEvents(d: Diary, e: Event, f: Event, cron: CronFire)
    requires Possible(d, e) && Possible(After(d, e, cron), f)
    ensures Plausible(d, [e, f], cron) && Live(d, [e, f], cron) == After(After(d, e, cron), f, cron)
  {
    hide After, Possible;
    OneEvent(After(d, e, cron), f, cron);
    assert [e, f][1..] == [f];
  }

  lemma ThreeEvents(d: Diary, e: Event, f: Event, g: Event, cron: CronFire)
    requires Possible(d, e) && Possible(After(d, e, cron), f) && Possible(After(After(d, e, cron), f, cron), g)
    ensures Plausible(d, [e, f, g], cron) && Live(d, [e, f, g], cron) == After(After(After(d, e, cron), f, cron), g, cron)
  {
    hide After, Possible;
    TwoEvents(After(d, e, cron), f, g, cron);
    assert [e, f, g][1..] == [f, g];
  }

  /**
   A cancellation silences the job, whatever happens afterwards, if and only if the loop
   does not hold the job in a list of due jobs it collected before.
   */
  lemma CancellationSilencesIff(d: Diary, cron: CronFire)
    requires Possible(d, UserCancels) && (d.stage.Collected? ==> d.row.runAt.Some?)
    ensures After(d, UserCancels, cron) == AfterCancel(d)
    ensures (forall events :: Plausible(AfterCancel(d), events, cron) ==> Live(AfterCancel(d), events, cron).sent == d.sent)
      <==> !d.stage.Collected?
  {
    var c := AfterCancel(d);
    if d.stage.Collected? {
      CollectedMayStillSend(c, cron);
    } else {
      forall events | Plausible(c, events, cron) ensures Live(c, events, cron).sent == d.sent {
        NoFurtherSends(c, events, cron);
      }
    }
  }

  /** Settling a published message now moves the job on instead of ending it: it has a next fire, now and at any later time. */
  ghost predicate MovesOn(r: Row, clock: Time, cron: CronFire) {
    r.runAt.Some? &&
    if r.trigger.Every? && r.cron != "" then forall now :: clock <= now ==> cron(r.cron, Max(r.runAt.value, now)).Some?
    else r.interval > 0 && (r.trigger.Every? || r.remaining > 1)
  }

  /** What settling does to a cancelled row whose message went out. */
  lemma SettlingKeepsCancelledIff(r: Row, now: Time, cron: CronFire)
    requires r.status.Cancelled? && r.runAt.Some?
    ensures Fire(r, true, now, cron).status.Cancelled? <==>
      if r.trigger.Every? && r.cron != "" then cron(r.cron, Max(r.runAt.value, now)).Some?
      else r.interval > 0 && (r.trigger.Every? || r.remaining > 1)
    ensures Fire(r, false, now, cron).status.Failed?
  {
    hide NextSlot;
  }

  /** A cancelled row that the loop is not about is left alone for good. */
  lemma {:induction false} LeftAlone(d: Diary, events: seq<Event>, cron: CronFire)
    requires Plausible(d, events, cron) && d.row.status.Cancelled? && d.stage.Waiting?
    ensures Live(d, events, cron).row == d.row
    decreases |events|
  {
    if events != [] {
      LeftAlone(After(d, events[0], cron), events[1..], cron);
    }
  }

  lemma {:induction false} StaysCancelled(d: Diary, events: seq<Event>, cron: CronFire)
    requires Plausible(d, events, cron) && d.row.status.Cancelled?
    requires d.stage.Waiting? || (d.stage == Published(true) && MovesOn(d.row, d.clock, cron))
    ensures Live(d, events, cron).row.status.Cancelled?
    decreases |events|
  {
    if events != [] {
      if d.stage.Published? && events[0].Settles? {
        SettlingKeepsCancelledIff(d.row, events[0].now, cron);
      }
      LeftAloneOrHeld(d, events[0], cron);
      hide MovesOn, Fire;
      StaysCancelled(After(d, events[0], cron), events[1..], cron);
    }
  }

  lemma LeftAloneOrHeld(d: Diary, e: Event, cron: CronFire)
    requires Possible(d, e) && d.row.status.Cancelled?
    requires d.stage.Waiting? || d.stage == Published(true)
    ensures After(d, e, cron).stage.Waiting?
    ensures !e.Settles? ==> After(d, e, cron).row == d.row
  {
    hide Fire;
  }

  /** A play after which the row is no longer cancelled, from every stage where there is one. */
  lemma CancellationIsOverwritten(d: Diary, cron: CronFire) returns (events: seq<Event>)
    requires d.row.status.Cancelled? && d.row.runAt.Some?
    requires !(d.stage.Waiting? || (d.stage == Published(true) && MovesOn(d.row, d.clock, cron)))
    ensures Plausible(d, events, cron) && !Live(d, events, cron).row.status.Cancelled?
  {
    if d.stage.Collected? {
      SettlingKeepsCancelledIff(d.row, d.clock, cron);
      events := [Publishes(d.clock, false), Settles(d.clock)];
      hide Fire;
      TwoEvents(d, events[0], events[1], cron);
    } else {
      var now :| d.clock <= now &&
        (d.stage == Published(false) || (d.row.trigger.Every? && d.row.cron != "" ==> cron(d.row.cron, Max(d.row.runAt.value, now)).None?));
      SettlingKeepsCancelledIff(d.row, now, cron);
      events := [Settles(now)];
      hide Fire;
      OneEvent(d, events[0], cron);
    }
  }

  /**
   The row stays cancelled, whatever happens afterwards, if and only if the loop is not
   about the job, or its message is out and settling it moves the job on.
   */
  lemma CancellationLastsIff(d: Diary, cron: CronFire)
    requires Possible(d, UserCancels) && (d.stage.Waiting? || d.row.runAt.Some?)
    ensures After(d, UserCancels, cron) == AfterCancel(d)
    ensures (forall events :: Plausible(AfterCancel(d), events, cron) ==> Live(AfterCancel(d), events, cron).row.status.Cancelled?)
      <==> d.stage.Waiting? || (d.stage == Published(true) && MovesOn(d.row, d.clock, cron))
  {
    var c := AfterCancel(d);
    assert MovesOn(c.row, c.clock, cron) <==> MovesOn(d.row, d.clock, cron);
    if d.stage.Waiting? || (d.stage == Published(true) && MovesOn(d.row, d.clock, cron)) {
      forall events | Plausible(c, events, cron) ensures Live(c, events, cron).row.status.Cancelled? {
        StaysCancelled(c, events, cron);
      }
    } else {
      var events := CancellationIsOverwritten(c, cron);
    }
  }

  /** For rows without a cron text the condition is in the row alone. */
  lemma CancellationLastsIffWithoutCron(d: Diary, cron: CronFire)
    requires Possible(d, UserCancels) && (d.stage.Waiting? || d.row.runAt.Some?) && d.row.cron == ""
    ensures (forall events :: Plausible(AfterCancel(d), events, cron) ==> Live(AfterCancel(d), events, cron).row.status.Cancelled?)
      <==> d.stage.Waiting? || (d.stage == Published(true) && d.row.interval > 0 && (d.row.trigger.Every? || d.row.remaining > 1))
  {
    CancellationLastsIff(d, cron);
  }

  /** Concretely, from a job as scheduled: cancelled after it was collected, the message goes out all the same. */
  lemma CancelledButSent(d: Diary, now: Time, cron: CronFire)
    requires JustScheduled(d) && d.clock <= now && Due(d.row, now)
    ensures var events := [Collects(now), UserCancels, Publishes(now, true)];
      && Plausible(d, events, cron)
      && Live(d, events, cron).row.status.Cancelled? && Live(d, events, cron).sent == [d.row.runAt.value]
  {
    ThreeEvents(d, Collects(now), UserCancels, Publishes(now, true), cron);
  }

  /** Concretely, from a job as scheduled: cancelled while its last message is under way, it ends completed, or failed. */
  lemma CancelledInFlight(d: Diary, now: Time, published: bool, cron: CronFire)
    requires JustScheduled(d) && d.clock <= now && Due(d.row, now) && d.row.remaining == 1 && !d.row.trigger.Every?
    ensures var events := [Collects(now), Publishes(now, published), UserCancels] + [Settles(now)];
      && Plausible(d, events, cron)
      && Live(d, events, cron).row.status == (if published then Completed else Failed)
      && Live(d, events, cron).sent == if published then [d.row.runAt.value] else []
  {
    var first := [Collects(now), Publishes(now, published), UserCancels];
    ThreeEvents(d, first[0], first[1], first[2], cron);
    var c := After(After(After(d, first[0], cron), first[1], cron), first[2], cron);
    OneEvent(c, Settles(now), cron);
    assert After(c, Settles(now), cron).row.status == if published then Completed else Failed;
    hide After, Possible;
    EventsCompose(d, first, [Settles(now)], cron);
  }

  lemma {:induction false} EventsCompose(d: Diary, events: seq<Event>, more: seq<Event>, cron: CronFire)
    requires Plausible(d, events, cron) && Plausible(Live(d, events, cron), more, cron)
    ensures Plausible(d, events + more, cron) && Live(d, events + more, cron) == Live(Live(d, events, cron), more, cron)
    decreases |events|
  {
    hide After, Possible;
    if events == [] {
      assert events + more == more;
    } else {
      EventsCompose(After(d, events[0], cron), events[1..], more, cron);
      assert (events + more)[1..] == events[1..] + more;
    }
  }

  // ---------- when a crash repeats a message ----------

  /** The row repeats by its cron text. */
  predicate ByCron(r: Row) {
    r.trigger.Every? && r.cron != ""
  }

  /** The row has a next slot by its interval. */
  predicate HasNextSlot(r: Row) {
    !ByCron(r) && r.interval > 0 && (r.remaining > 0 || r.trigger.Every?)
  }

  /**
   A crash after the message went out and before it was saved: the restart leaves the
   served slot due again if and only if the row is pending, has no next slot, and the
   restart comes within the grace, or the cron text names that very instant again.
   */
  lemma CrashRepeatsIff(d: Diary, now: Time, cron: CronFire)
    requires d.stage == Published(true) && Possible(d, Restarts(now)) && d.row.runAt.Some? && d.row.runAt.value <= now
    ensures var r := After(d, Restarts(now), cron).row;
      (Due(r, now) && r.runAt == d.row.runAt) <==>
        && d.row.status.Pending? && !HasNextSlot(d.row)
        && (if ByCron(d.row) then cron(d.row.cron, now) == d.row.runAt else now - d.row.runAt.value <= 300 * SECOND)
  {
    NextSlotAfterRestart(d.row, now, cron);
    hide NextSlot;
  }

  /** Beyond the grace such a row is missed; a row with a next slot has moved to it, past the restart. */
  lemma NextSlotAfterRestart(r: Row, now: Time, cron: CronFire)
    requires r.status.Pending? ==> r.runAt.Some? && r.runAt.value <= now
    ensures r.status.Pending? && HasNextSlot(r) ==>
      Recover(r, now, cron) == r.(runAt := Some(NextSlot(r.runAt.value, r.interval * SECOND, now)))
      && now < NextSlot(r.runAt.value, r.interval * SECOND, now)
    ensures r.status.Pending? && !HasNextSlot(r) && !ByCron(r) ==>
      (Recover(r, now, cron).status.Missed? <==> now - r.runAt.value > 300 * SECOND)
      && (!Recover(r, now, cron).status.Missed? ==> Recover(r, now, cron) == r)
  {
    if r.status.Pending? && HasNextSlot(r) {
      NextSlotIsLeast(r.runAt.value, r.interval * SECOND, now);
    }
    hide NextSlot;
  }

  /**
   What a fire leaves, column by column. A failed send ends the job where it stood. A sent
   one uses up a repeat; then the job waits for the least slot past both its last and
   now, or for its cron text's next time, or is completed when no repeat is left.
   */
  lemma FireColumns(r: Row, sent: bool, now: Time, cron: CronFire)
    requires r.runAt.Some?
    ensures var f := Fire(r, sent, now, cron);
      var left := if r.remaining > 0 then r.remaining - 1 else r.remaining;
      && (!sent ==> f == r.(status := Failed, lastError := "publish failed"))
      && (sent && ByCron(r) ==>
            if cron(r.cron, Max(r.runAt.value, now)).Some?
            then f == r.(remaining := left, runAt := cron(r.cron, Max(r.runAt.value, now)))
            else f == r.(remaining := left, status := Failed, lastError := "invalid cron expression"))
      && (sent && !ByCron(r) && r.interval > 0 && (r.trigger.Every? || left > 0) ==>
            && f.runAt.Some? && f == r.(remaining := left, runAt := f.runAt)
            && IsNextSlot(r.runAt.value + r.interval * SECOND, r.interval * SECOND, now, f.runAt.value))
      && (sent && !ByCron(r) && (r.interval <= 0 || (!r.trigger.Every? && left <= 0)) ==> f == r.(remaining := left, status := Completed))
  {
    if r.interval > 0 {
      NextSlotIsLeast(r.runAt.value + r.interval * SECOND, r.interval * SECOND, now);
    }
    hide NextSlot;
  }

  /** Concretely: a one-shot message is sent, the process dies before saving, is back within the grace, and sends it again. */
  lemma CrashRepeatsOneShot(d: Diary, now: Time, restart: Time, cron: CronFire)
    requires JustScheduled(d) && d.row.interval <= 0 && !d.row.trigger.Every?
    requires d.clock <= now <= restart && Due(d.row, now) && restart - d.row.runAt.value <= 300 * SECOND
    ensures var events := [Collects(now), Publishes(now, true), Restarts(restart)] + [Collects(restart), Publishes(restart, true)];
      Plausible(d, events, cron) && Live(d, events, cron).sent == [d.row.runAt.value, d.row.runAt.value]
  {
    var first, second := [Collects(now), Publishes(now, true), Restarts(restart)], [Collects(restart), Publishes(restart, true)];
    ThreeEvents(d, first[0], first[1], first[2], cron);
    var c := After(After(After(d, first[0], cron), first[1], cron), first[2], cron);
    assert c.row == d.row && c.stage.Waiting? && c.sent == [d.row.runAt.value];
    TwoEvents(c, second[0], second[1], cron);
    assert After(After(c, second[0], cron), second[1], cron).sent == [d.row.runAt.value, d.row.runAt.value];
    hide After, Possible;
    EventsCompose(d, first, second, cron);
  }

  /** After a restart or a fire a repeating interval job is never due at once: no backlog is sent in a burst. */
  lemma NoBurst(r: Row, now: Time, cron: CronFire, sent: bool)
    requires ByInterval(r) && Due(r, now) && (!r.trigger.Every? ==> r.remaining > 0)
    ensures !Due(Fire(r, sent, now, cron), now) && !Due(Recover(r, now, cron), now)
  {
    var step := r.interval * SECOND;
    NextSlotIsLeast(r.runAt.value, step, now);
    NextSlotIsLeast(r.runAt.value + step, step, now);
    hide NextSlot;
  }
}
