/**
 Creating a schedule and computing its next fire (cloud/scheduler.py).
 Parsing of dates, durations and cron texts and the reading of the clock are
 inputs; what is modelled is which branch decides the trigger, the interval, the
 repeat count and the first fire, and what the accepted plans have in common.
 */
module CloudSchedule {
  import opened Prelude
  import opened CatchUp
  import opened StoreSpec
  import opened ScheduleFires
  import Text

  datatype Request = Request(
    tier: string, message: string, prompt: string, zoneKnown: bool, trigger: string, when: string,
    runAt: string, delay: int, interval: int, repeats: int)

  /** What parsing yields: None where the original raises. Durations are whole seconds. */
  datatype Readings = Readings(
    at: string -> Option<Time>, duration: string -> Option<int>, isCron: string -> bool,
    cronFire: string -> Option<Time>, base: Option<Time>, clock: Time)

  datatype Timing = Timing(trigger: Trigger, cron: string, interval: int, runAt: Time, remaining: int)
  datatype Plan = Plan(tier: Tier, message: string, prompt: string, timing: Timing)

  function LowerChar(c: char): char {
    if 'A' <= c <= 'Z' then 'a' + (c - 'A') else c
  }

  function Lower(s: string): string {
    seq(|s|, i requires 0 <= i < |s| => LowerChar(s[i]))
  }

  function Word(s: string): string {
    Lower(Text.Strip(s))
  }

  /** The trigger a text asks for. */
  datatype Wish = Unsaid | Asks(trigger: Trigger) | Nonsense

  function WishOf(text: string): Wish {
    var word := Word(text);
    if word == "" then Unsaid
    else if word == "at" then Asks(At)
    else if word == "after" then Asks(After)
    else if word == "every" then Asks(Every)
    else Nonsense
  }

  function TierOf(text: string): Option<Tier> {
    var word := Word(text);
    if word == "instant" then Some(Instant) else if word == "soft" then Some(Soft) else None
  }

  function Shift(base: Option<Time>, seconds: Option<int>): Option<Time> {
    if base.Some? && seconds.Some? then Some(base.value + seconds.value * SECOND) else None
  }

  /** The instant at which the request wants its first fire, when it names one. */
  function FirstFire(q: Request, read: Readings): Option<Time> {
    match WishOf(q.trigger)
    case Asks(At) => read.at(q.when)
    case Asks(After) => Shift(read.base, read.duration(q.when))
    case Asks(Every) =>
      if read.isCron(q.when) then read.cronFire(Text.Strip(q.when)) else Shift(Some(read.clock), read.duration(q.when))
    case _ => if q.runAt != "" then read.at(q.runAt) else Some(read.clock + q.delay * SECOND)
  }

  /** Whether the request says when to fire, in a way that makes sense. */
  predicate Timed(q: Request, read: Readings) {
    match WishOf(q.trigger)
    case Nonsense => false
    case Unsaid => q.runAt != "" || q.delay > 0
    case Asks(t) =>
      && !Text.AllBlank(q.when)
      && (t.Every? && !read.isCron(q.when) ==> read.duration(q.when).Some? && read.duration(q.when).value > 0)
  }

  /** What a request must satisfy, clause by clause of the documented errors. */
  predicate Acceptable(q: Request, read: Readings, now: Time) {
    && TierOf(q.tier).Some?
    && !Text.AllBlank(if TierOf(q.tier).value.Instant? then q.message else q.prompt)
    && q.zoneKnown
    && Timed(q, read)
    && FirstFire(q, read).Some? && now < FirstFire(q, read).value
    && (WishOf(q.trigger) != Asks(Every) && q.repeats > 1 ==> q.interval > 0)
  }

  /** What accepted timings have in common. */
  predicate Sound(q: Request, read: Readings, t: Timing) {
    && Planned(t.trigger, t.cron, t.interval, t.remaining)
    && t.remaining <= 1000 && 0 <= t.interval
    && (t.trigger.Every? <==> WishOf(q.trigger) == Asks(Every))
    && (t.cron != "" <==> t.trigger.Every? && read.isCron(q.when))
    && (t.trigger.Every? && t.cron == "" ==> t.runAt == read.clock + t.interval * SECOND)
  }

  /** The trigger that was asked for in words, or the one that goes with the field that was filled in. */
  predicate TriggerAsAsked(q: Request, t: Timing) {
    var word := Word(q.trigger);
    && (t.trigger.At? <==> word == "at" || (word == "" && q.runAt != ""))
    && (t.trigger.After? <==> word == "after" || (word == "" && q.runAt == ""))
    && (t.trigger.Every? <==> word == "every")
  }

  /** The first fire, case by case. */
  ghost predicate FirstFireAsAsked(q: Request, read: Readings, t: Timing) {
    var word := Word(q.trigger);
    && (word == "at" ==> Some(t.runAt) == read.at(q.when))
    && (word == "after" ==> read.base.Some? && read.duration(q.when) == Some((t.runAt - read.base.value) / SECOND)
                            && (t.runAt - read.base.value) % SECOND == 0)
    && (word == "" && q.runAt != "" ==> Some(t.runAt) == read.at(q.runAt))
    && (word == "" && q.runAt == "" ==> t.runAt - read.clock == q.delay * SECOND)
    && (t.cron != "" ==> Some(t.runAt) == read.cronFire(t.cron) && Text.IsTrimmed(q.when, t.cron))
  }

  /** A finite job keeps a repeat count from one to a thousand, and an interval that is not negative; a period replaces the interval. */
  predicate CountsAsAsked(q: Request, read: Readings, t: Timing) {
    && (!t.trigger.Every? && 1 <= q.repeats <= 1000 ==> t.remaining == q.repeats)
    && (!t.trigger.Every? && q.repeats < 1 ==> t.remaining == 1)
    && (!t.trigger.Every? && q.repeats > 1000 ==> t.remaining == 1000)
    && (t.trigger.Every? ==> t.remaining < 0)
    && (t.trigger.Every? && t.cron == "" ==> read.duration(q.when) == Some(t.interval))
    && (!t.trigger.Every? || t.cron != "" ==> (q.interval >= 0 ==> t.interval == q.interval) && (q.interval < 0 ==> t.interval == 0))
  }

  /** The branches that decide trigger, interval, repeats and first fire; None where the original raises. */
  method ChooseTiming(q: Request, read: Readings) returns (out: Option<Timing>)
    ensures out.Some? <==>
      && Timed(q, read) && FirstFire(q, read).Some?
      && (WishOf(q.trigger) != Asks(Every) && q.repeats > 1 ==> q.interval > 0)
    ensures out.Some? ==> Sound(q, read, out.value) && Some(out.value.runAt) == FirstFire(q, read)
    ensures out.Some? ==>
      TriggerAsAsked(q, out.value) && FirstFireAsAsked(q, read, out.value) && CountsAsAsked(q, read, out.value)
  {
    Text.StripEmptiesBlanks(q.when);
    Text.StripTrims(q.when);
    hide Word, Text.Strip, Text.AllBlank, Text.IsTrimmed;
    var wish := WishOf(q.trigger);
    var trigger := At;
    var cron := "";
    var interval := Max(0, q.interval);
    var repeats := Max(1, if q.repeats < 1000 then q.repeats else 1000);
    var scheduled: Option<Time>;
    if wish.Nonsense? || (wish.Asks? && Text.Strip(q.when) == "") {
      return None;
    } else if wish.Asks? {
      trigger := wish.trigger;
      if trigger.At? {
        scheduled := read.at(q.when);
      } else if trigger.After? {
        scheduled := Shift(read.base, read.duration(q.when));
      } else if read.isCron(q.when) {
        cron := Text.Strip(q.when);
        scheduled := read.cronFire(cron);
        repeats := -1;
      } else {
        var duration := read.duration(q.when);
        if duration.None? {
          return None;
        }
        interval := duration.value;
        if interval <= 0 {
          return None;
        }
        scheduled := Some(read.clock + interval * SECOND);
        repeats := -1;
      }
    } else if q.runAt != "" {
      scheduled := read.at(q.runAt);
    } else if q.delay > 0 {
      scheduled := Some(read.clock + q.delay * SECOND);
      trigger := After;
    } else {
      return None;
    }
    if scheduled.None? || (!trigger.Every? && repeats > 1 && interval <= 0) {
      return None;
    }
    return Some(Timing(trigger, cron, interval, scheduled.value, repeats));
  }

  /**
   `create_cloud_schedule` up to the store call. `now` is the second clock reading,
   the one the first fire is compared with. Every accepted plan is one that the
   accounting of `ScheduleFires` can start from (its `Outside` asks for `Planned`).
   */
  method PlanSchedule(q: Request, read: Readings, now: Time) returns (out: Result<Plan>)
    ensures out.Ok? <==> Acceptable(q, read, now)
    ensures out.Err? ==> out.error == Invalid
    ensures out.Ok? ==>
      var p := out.value;
      && Sound(q, read, p.timing) && Some(p.timing.runAt) == FirstFire(q, read) && now < p.timing.runAt
      && TriggerAsAsked(q, p.timing) && FirstFireAsAsked(q, read, p.timing) && CountsAsAsked(q, read, p.timing)
      && (p.tier.Instant? <==> Word(q.tier) == "instant") && (p.tier.Soft? <==> Word(q.tier) == "soft")
      && Text.IsTrimmed(q.message, p.message) && Text.IsTrimmed(q.prompt, p.prompt)
      && !Text.AllBlank(if p.tier.Instant? then p.message else p.prompt)
  {
    Text.StripEmptiesBlanks(q.message);
    Text.StripEmptiesBlanks(q.prompt);
    StrippedKeepsInk(q.message);
    StrippedKeepsInk(q.prompt);
    Text.StripTrims(q.message);
    Text.StripTrims(q.prompt);
    hide Word, Text.Strip, Text.AllBlank, Text.IsTrimmed, Timed, Sound, FirstFire, WishOf;
    hide TriggerAsAsked, FirstFireAsAsked, CountsAsAsked;
    var tier := TierOf(q.tier);
    if tier.None? {
      return Err(Invalid);
    }
    var message := Text.Strip(q.message);
    var prompt := Text.Strip(q.prompt);
    if tier.value.Instant? && message == "" {
      return Err(Invalid);
    }
    if tier.value.Soft? && prompt == "" {
      return Err(Invalid);
    }
    if !q.zoneKnown {
      return Err(Invalid);
    }
    var timing := ChooseTiming(q, read);
    if timing.None? || timing.value.runAt <= now {
      return Err(Invalid);
    }
    return Ok(Plan(tier.value, message, prompt, timing.value));
  }

  /** Stripping neither removes the last visible character nor adds one. */
  lemma StrippedKeepsInk(s: string)
    ensures Text.AllBlank(Text.Strip(s)) <==> Text.AllBlank(s)
  {
    Text.StripEmptiesBlanks(s);
    var r := Text.Strip(s);
    if r != "" {
      assert r[|r| - 1] in r;
    }
  }

  /** The loop of `_next_run`: it only turns when the interval is positive, so it ends. */
  method NextRunAt(job: Job, now: Time, cron: Cron) returns (next: Option<Time>)
    ensures next == NextRun(job, now, cron)
  {
    if job.trigger.Every? && job.cron != "" {
      return Some(cron(job.cron, Max(job.runAt, now)));
    }
    if (job.trigger.Every? || job.remaining > 1) && job.interval > 0 {
      var step := job.interval * SECOND;
      var at := AdvancePast(job.runAt + step, step, now);
      return Some(at);
    }
    return None;
  }

  /** The next fire of an interval job is the least slot of the job's own grid that lies after both the present one and now. */
  lemma NextRunIsNextSlot(job: Job, now: Time, cron: Cron)
    requires job.interval > 0 && (job.trigger.Every? || job.remaining > 1) && job.cron == ""
    ensures NextRun(job, now, cron).Some?
    ensures var next, step := NextRun(job, now, cron).value, job.interval * SECOND;
      && OnGrid(job.runAt, step, next) && job.runAt < next && now < next
      && forall k: nat :: job.runAt < Slot(job.runAt, step, k) && now < Slot(job.runAt, step, k) ==> next <= Slot(job.runAt, step, k)
  {
    var step := job.interval * SECOND;
    var first := job.runAt + step;
    var next := NextSlot(first, step, now);
    NextSlotIsLeast(first, step, now);
    var j: nat :| next == Slot(first, step, j);
    SlotsCompose(job.runAt, step, 1, j);
    assert next == Slot(job.runAt, step, 1 + j);
    forall k: nat | job.runAt < Slot(job.runAt, step, k) && now < Slot(job.runAt, step, k)
      ensures next <= Slot(job.runAt, step, k)
    {
      assert k != 0;
      SlotsCompose(job.runAt, step, 1, k - 1);
      assert Slot(job.runAt, step, k) == Slot(first, step, k - 1);
    }
  }
}
