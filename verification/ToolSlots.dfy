/**
 Which calls share a checkpoint (cloud/store.py, cloud/tool_checkpoints.py): none that
 differ in the Run, the iteration or the call index, negative numbers counting as zero.
 So an attempt nobody works beside, whose model numbers its calls apart, is never turned away.
 */
module ToolSlots {
  import opened Prelude
  import opened ToolCheckpoints

  /** Both numbers agree once negative ones count as zero. */
  predicate SameNumbers(i: int, j: int) {
    i == j || (i <= 0 && j <= 0)
  }

  lemma SlotsAreExact(run: RunId, i: int, k: int, run': RunId, i': int, k': int)
    ensures SlotOf(run, i, k) == SlotOf(run', i', k') <==> run == run' && SameNumbers(i, i') && SameNumbers(k, k')
  {
  }

  /** Beginning one call leaves the answer to every other call of any Run as it was. */
  lemma OtherCallsAreUnaffected(rows: Table, run: RunId, i: int, k: int, sig: Signature, run': RunId, i': int, k': int, sig': Signature)
    requires run != run' || !SameNumbers(i, i') || !SameNumbers(k, k')
    ensures Begin(Begin(rows, SlotOf(run, i, k), sig).0, SlotOf(run', i', k'), sig').1 == Begin(rows, SlotOf(run', i', k'), sig').1
  {
  }

  /** Nor does recording what a call produced. */
  lemma OtherRecordsAreUnaffected(rows: Table, run: RunId, i: int, k: int, sig: Signature, outcome: Outcome,
                                  run': RunId, i': int, k': int, sig': Signature)
    requires run != run' || !SameNumbers(i, i') || !SameNumbers(k, k')
    ensures var finished := Finish(rows, SlotOf(run, i, k), sig, outcome);
      finished.Ok? ==> Begin(finished.value, SlotOf(run', i', k'), sig').1 == Begin(rows, SlotOf(run', i', k'), sig').1
  {
  }

  /** Asked again, a call is ambiguous under the same signature and diverged under another. */
  lemma SecondAnswer(rows: Table, run: RunId, i: int, k: int, sig: Signature, i': int, k': int, sig': Signature)
    requires SlotOf(run, i, k) !in rows && SameNumbers(i, i') && SameNumbers(k, k')
    ensures var first := Begin(rows, SlotOf(run, i, k), sig);
      first.1 == New && Begin(first.0, SlotOf(run, i', k'), sig').1 == (if sig' == sig then Ambiguous else Diverged)
  {
    assert SlotOf(run, i, k) == SlotOf(run, i', k');
    hide SlotOf;
  }

  // ---------- an attempt on its own ----------

  /** The model never asks twice under one pair of numbers. */
  ghost predicate NumbersApart(brain: Brain, a: nat) {
    forall t: seq<Entry>, e: Entry :: e in t && Follows(brain, a, t) ==>
      var call := brain(a, t);
      !(SameNumbers(call.iteration, e.call.iteration) && SameNumbers(call.index, e.call.index))
  }

  /** A model that counts its steps does so. */
  lemma CountingIsApart(brain: Brain, a: nat)
    requires forall t :: brain(a, t).iteration == |t|
    ensures NumbersApart(brain, a)
  {
    forall t: seq<Entry>, e: Entry | e in t && Follows(brain, a, t)
      ensures !SameNumbers(brain(a, t).iteration, e.call.iteration)
    {
      var i :| 0 <= i < |t| && t[i] == e;
      assert t[i].call == brain(a, t[..i]);
    }
  }

  /** Only this attempt works at the Run, and it does not crash. */
  predicate Undisturbing(s: Step, a: nat, run: RunId) {
    match s
    case Arrive(b, r) => b == a <==> r == run
    case Vanish(b) => b != a
    case _ => true
  }

  predicate Busy(pc: Pc) {
    pc.Granted? || pc.Ran? || pc.Settled?
  }

  /** The attempt asked for this slot itself. */
  ghost predicate AskedFor(me: Attempt, slot: Slot) {
    || (Busy(me.pc) && Place(me.run, me.pc.call) == slot)
    || exists e :: e in me.transcript && Place(me.run, e.call) == slot
  }

  ghost predicate OwnAttempt(me: Attempt, rows: Table, run: RunId) {
    && me.run == run && !me.pc.Gone? && Replayed !in me.hows
    && forall slot :: slot in rows && slot.run == run ==> AskedFor(me, slot)
  }

  ghost predicate Alone(w: World, a: nat, run: RunId) {
    && (forall b :: b in w.attempts && b != a ==> w.attempts[b].run != run)
    && (a in w.attempts ==> OwnAttempt(w.attempts[a], w.rows, run))
    && (a !in w.attempts ==> forall slot :: slot in w.rows ==> slot.run != run)
  }

  /** Steps of others write rows of their own Runs only. */
  lemma StepsStayInTheirRun(w: World, s: Step, brain: Brain)
    requires Enabled(w, s) && s.a in w.attempts
    ensures var w' := Take(w, s, brain);
      && (forall slot :: slot in w'.rows && slot.run != w.attempts[s.a].run ==> slot in w.rows)
      && s.a in w'.attempts && w'.attempts[s.a].run == w.attempts[s.a].run
  {
    hide WithExtra;
  }

  lemma OthersKeepAlone(w: World, s: Step, brain: Brain, a: nat, run: RunId)
    requires Enabled(w, s) && Undisturbing(s, a, run) && Alone(w, a, run) && s.a != a
    ensures Alone(Take(w, s, brain), a, run)
  {
    var w' := Take(w, s, brain);
    if s.Arrive? {
      assert w'.rows == w.rows;
    } else {
      StepsStayInTheirRun(w, s, brain);
    }
    hide Take, Enabled, AskedFor;
    forall b | b != s.a ensures (b in w'.attempts <==> b in w.attempts) && (b in w.attempts ==> w'.attempts[b] == w.attempts[b]) {
      OthersAreLeftAlone(w, s, brain, b);
    }
  }

  lemma AskIsNew(w: World, a: nat, run: RunId, brain: Brain)
    requires a in w.attempts && w.attempts[a].pc.Thinking? && OwnAttempt(w.attempts[a], w.rows, run)
    requires NumbersApart(brain, a) && Follower(brain, a, w.attempts[a])
    ensures Place(run, brain(a, w.attempts[a].transcript)) !in w.rows
  {
    var me := w.attempts[a];
    var call := brain(a, me.transcript);
    if Place(run, call) in w.rows {
      assert AskedFor(me, Place(run, call));
      var e :| e in me.transcript && Place(me.run, e.call) == Place(run, call);
      SlotsAreExact(run, call.iteration, call.index, run, e.call.iteration, e.call.index);
      assert false;
    }
  }

  lemma AskKeepsOwn(w: World, a: nat, run: RunId, brain: Brain)
    requires a in w.attempts && w.attempts[a].pc.Thinking? && OwnAttempt(w.attempts[a], w.rows, run)
    requires NumbersApart(brain, a) && Follower(brain, a, w.attempts[a])
    ensures var w' := TakeAsk(w, a, brain(a, w.attempts[a].transcript));
      a in w'.attempts && OwnAttempt(w'.attempts[a], w'.rows, run)
  {
    AskIsNew(w, a, run, brain);
    hide NumbersApart, Follower, Place;
    var me := w.attempts[a];
    var call := brain(a, me.transcript);
    var w' := TakeAsk(w, a, call);
    forall slot | slot in w'.rows && slot.run == run ensures AskedFor(w'.attempts[a], slot) {
      if slot in w.rows {
        assert AskedFor(me, slot);
      }
    }
  }

  /** What a call leaves in the transcript still accounts for its slot. */
  lemma ToldKeepsOwn(me: Attempt, rows: Table, run: RunId, call: Call, outcome: Outcome, how: How)
    requires OwnAttempt(me, rows, run) && !how.Replayed? && (Busy(me.pc) ==> call == me.pc.call)
    ensures OwnAttempt(Told(me, call, outcome, how), rows, run)
  {
    var told := Told(me, call, outcome, how);
    hide Place;
    forall slot | slot in rows && slot.run == run ensures AskedFor(told, slot) {
      assert AskedFor(me, slot);
      if Busy(me.pc) && Place(me.run, me.pc.call) == slot {
        assert Entry(call, outcome) in told.transcript;
      } else {
        var e :| e in me.transcript && Place(me.run, e.call) == slot;
        assert e in told.transcript;
      }
    }
  }

  lemma MovedKeepsOwn(me: Attempt, me': Attempt, rows: Table, rows': Table, run: RunId)
    requires OwnAttempt(me, rows, run) && Busy(me.pc) && Busy(me'.pc) && me'.pc.call == me.pc.call
    requires me'.run == me.run && me'.transcript == me.transcript && me'.hows == me.hows && rows'.Keys <= rows.Keys
    ensures OwnAttempt(me', rows', run)
  {
    forall slot | slot in rows' && slot.run == run ensures AskedFor(me', slot) {
      assert slot in rows.Keys;
      assert AskedFor(me, slot);
    }
  }

  lemma MoverKeepsOwn(w: World, s: Step, brain: Brain, a: nat, run: RunId)
    requires Enabled(w, s) && Undisturbing(s, a, run) && s.a == a && a in w.attempts && OwnAttempt(w.attempts[a], w.rows, run)
    requires NumbersApart(brain, a) && Follower(brain, a, w.attempts[a])
    ensures var w' := Take(w, s, brain); a in w'.attempts && OwnAttempt(w'.attempts[a], w'.rows, run)
  {
    var me, w' := w.attempts[a], Take(w, s, brain);
    hide OwnAttempt, NumbersApart, Follower, Begin, Place, WithExtra;
    match s
    case Ask(_) => AskKeepsOwn(w, a, run, brain);
    case AskRaises(_, error) => ToldKeepsOwn(me, w.rows, run, brain(a, me.transcript), Failure(error), Unasked);
    case Intercept(_, outcome) => ToldKeepsOwn(me, w.rows, run, me.pc.call, WithExtra(outcome, me.pc.extra), Intercepted);
    case Return(_, extra) =>
      var all := me.pc.extra + extra;
      ToldKeepsOwn(me, w.rows, run, me.pc.call, WithExtra(me.pc.outcome, all),
                   Performed(me.pc.arguments, all, me.pc.outcome, me.pc.recorded));
    case PassHook(_, _, _) => MovedKeepsOwn(me, w'.attempts[a], w.rows, w'.rows, run);
    case Execute(_, _) => MovedKeepsOwn(me, w'.attempts[a], w.rows, w'.rows, run);
    case Record(_, _) =>
      assert w'.rows.Keys == w.rows.Keys;
      MovedKeepsOwn(me, w'.attempts[a], w.rows, w'.rows, run);
    case Arrive(_, _) =>
    case Vanish(_) =>
  }

  lemma MoverKeepsAlone(w: World, s: Step, brain: Brain, a: nat, run: RunId)
    requires Enabled(w, s) && Undisturbing(s, a, run) && Alone(w, a, run) && s.a == a
    requires NumbersApart(brain, a) && AllFollow(w, brain)
    ensures Alone(Take(w, s, brain), a, run)
  {
    var w' := Take(w, s, brain);
    if s.Arrive? {
      assert w'.rows == w.rows && w'.attempts == w.attempts[a := Attempt(run, [], [], Thinking)];
    } else {
      MoverKeepsOwn(w, s, brain, a, run);
    }
    hide Take, Enabled, AskedFor, NumbersApart, AllFollow;
    forall b | b != a ensures (b in w'.attempts <==> b in w.attempts) && (b in w.attempts ==> w'.attempts[b] == w.attempts[b]) {
      OthersAreLeftAlone(w, s, brain, b);
    }
  }

  lemma {:induction false} StaysAlone(w: World, steps: seq<Step>, brain: Brain, a: nat, run: RunId)
    requires Runs(w, steps, brain) && Alone(w, a, run) && AllFollow(w, brain) && NumbersApart(brain, a)
    requires forall s :: s in steps ==> Undisturbing(s, a, run)
    ensures Alone(Final(w, steps, brain), a, run)
    decreases |steps|
  {
    hide Alone, AllFollow, NumbersApart, Take, Enabled, Undisturbing;
    if steps != [] {
      assert steps[0] in steps && forall s :: s in steps[1..] ==> s in steps;
      if steps[0].a == a {
        MoverKeepsAlone(w, steps[0], brain, a, run);
      } else {
        OthersKeepAlone(w, steps[0], brain, a, run);
      }
      StepFollows(w, steps[0], brain);
      StaysAlone(Take(w, steps[0], brain), steps[1..], brain, a, run);
    }
  }

  /**
   Whatever other Runs do beside it and whatever its hooks do, the only attempt at a
   Run that does not crash is never turned away when its model numbers its calls apart:
   every call whose question reached the store was answered "new" there and then.
   */
  lemma LoneAttemptsAreNeverTurnedAway(steps: seq<Step>, brain: Brain, a: nat, run: RunId)
    requires Runs(FRESH_WORLD, steps, brain) && NumbersApart(brain, a)
    requires forall s :: s in steps ==> Undisturbing(s, a, run)
    requires a in Final(FRESH_WORLD, steps, brain).attempts
    ensures var w := Final(FRESH_WORLD, steps, brain);
      var me := w.attempts[a];
      && me.run == run && !me.pc.Gone? && |me.hows| == |me.transcript|
      && (forall i: nat :: i < |me.transcript| && !me.hows[i].Unasked? ==>
            var slot := Slot(run, Max(0, me.transcript[i].call.iteration), Max(0, me.transcript[i].call.index));
            slot in w.grants && w.grants[slot] == (a, i))
      && (me.pc.Thinking? ==> Slot(run, Max(0, brain(a, me.transcript).iteration), Max(0, brain(a, me.transcript).index)) !in w.rows)
  {
    FreshIsSound(brain);
    StaysAlone(FRESH_WORLD, steps, brain, a, run);
    ReachableAttempt(steps, brain, a);
    EveryoneFollows(FRESH_WORLD, steps, brain);
    hide Runs, Final, NumbersApart, WithExtra, HasRun, AskedFor;
    var w := Final(FRESH_WORLD, steps, brain);
    var me := w.attempts[a];
    if me.pc.Thinking? {
      AskIsNew(w, a, run, brain);
    }
    forall i: nat | i < |me.transcript| && !me.hows[i].Unasked?
      ensures Place(run, me.transcript[i].call) in w.grants && w.grants[Place(run, me.transcript[i].call)] == (a, i)
    {
      assert EntryOk(w, a, i, Place(me.run, me.transcript[i].call), me.transcript[i], me.hows[i]);
      assert me.hows[i] in me.hows;
    }
  }
}
