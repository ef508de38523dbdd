/**
 Send ordering of one chat (bus/queue.py): a ticket lock with two classes. Passive
 sends go first, the others in ticket order; a waiting non-passive send may be
 cancelled at any point, out of order. `LaneState` is the object; `Lane` is its
 value; the world below adds the tasks that call it.
 */
module ChatLane {
  import opened Prelude

  datatype Lane = Lane(
    turns: nat, sends: nat, sending: bool, next: nat, serving: nat,
    nextOther: nat, servingOther: nat, cancelled: set<nat>)

  const QUIET_LANE: Lane := Lane(0, 0, false, 0, 0, 0, 0, {})

  /** The tickets passed over by skipping, and what is left of the cancelled set. */
  function SkipFrom(serving: nat, cancelled: set<nat>): (nat, set<nat>)
    decreases |cancelled|
  {
    if serving in cancelled then SkipFrom(serving + 1, cancelled - {serving}) else (serving, cancelled)
  }

  function Skip(l: Lane): Lane {
    var s := SkipFrom(l.servingOther, l.cancelled);
    l.(servingOther := s.0, cancelled := s.1)
  }

  /** Skipping stops at the first ticket that is not cancelled, and removes just the cancelled ones before it. */
  lemma {:induction false} SkipStopsAtFirstLive(serving: nat, cancelled: set<nat>)
    ensures var s := SkipFrom(serving, cancelled);
      && serving <= s.0 && s.0 !in s.1
      && (forall n: nat :: serving <= n < s.0 ==> n in cancelled)
      && (forall n: nat :: n in s.1 <==> n in cancelled && !(serving <= n < s.0))
      && s.0 - serving == |cancelled| - |s.1|
    decreases |cancelled|
  {
    if serving in cancelled {
      SkipStopsAtFirstLive(serving + 1, cancelled - {serving});
      var s := SkipFrom(serving, cancelled);
      forall n: nat | serving <= n < s.0 ensures n in cancelled {
        assert n == serving || n in cancelled - {serving};
      }
    }
  }

  predicate PassiveClear(l: Lane, ticket: nat) {
    !l.sending && ticket == l.serving
  }

  predicate OtherClear(l: Lane, ticket: nat) {
    !l.sending && l.turns == 0 && l.sends == 0 && ticket == l.servingOther
  }

  function Lowered(n: nat): nat {
    if n == 0 then 0 else n - 1
  }

  function PassiveDone(l: Lane): Lane {
    l.(sends := Lowered(l.sends), serving := l.serving + 1, sending := false)
  }

  function OtherSent(l: Lane): Lane {
    Skip(l.(servingOther := l.servingOther + 1, sending := false))
  }

  function OtherCancelled(l: Lane, ticket: nat): Lane {
    Skip(l.(cancelled := l.cancelled + {ticket}))
  }

  // ---------- the object ----------

  /** One chat's state; each method is one stretch of code under the condition's lock. */
  class LaneState {
    var passiveTurns: int
    var passiveSends: int
    var sending: bool
    var nextTicket: nat
    var servingTicket: nat
    var nextNonPassive: nat
    var servingNonPassive: nat
    var cancelled: set<nat>

    predicate Valid()
      reads this
    {
      0 <= passiveTurns && 0 <= passiveSends
    }

    function View(): Lane
      requires Valid()
      reads this
    {
      Lane(passiveTurns, passiveSends, sending, nextTicket, servingTicket, nextNonPassive, servingNonPassive, cancelled)
    }

    constructor ()
      ensures Valid() && View() == QUIET_LANE
    {
      passiveTurns, passiveSends, sending := 0, 0, false;
      nextTicket, servingTicket, nextNonPassive, servingNonPassive, cancelled := 0, 0, 0, 0, {};
    }

    method MarkPassivePending()
      requires Valid()
      modifies this`passiveTurns
      ensures Valid() && View() == old(View()).(turns := old(View()).turns + 1)
    {
      passiveTurns := passiveTurns + 1;
    }

    method MarkPassiveDone()
      requires Valid()
      modifies this`passiveTurns
      ensures Valid() && View() == old(View()).(turns := Lowered(old(View()).turns))
    {
      passiveTurns := Max(0, passiveTurns - 1);
    }

    method MarkPassiveSendPending() returns (ticket: nat)
      requires Valid()
      modifies this`nextTicket, this`passiveSends
      ensures Valid() && ticket == old(View()).next
      ensures View() == old(View()).(next := ticket + 1, sends := old(View()).sends + 1)
    {
      ticket := nextTicket;
      nextTicket := nextTicket + 1;
      passiveSends := passiveSends + 1;
    }

    /** One look at the loop guard of `run_passive`: start sending, or go on waiting. */
    method TryPassive(ticket: nat) returns (admitted: bool)
      requires Valid()
      modifies this`sending
      ensures Valid() && admitted == PassiveClear(old(View()), ticket)
      ensures View() == if admitted then old(View()).(sending := true) else old(View())
    {
      if sending || ticket != servingTicket {
        return false;
      }
      sending := true;
      return true;
    }

    method FinishPassive()
      requires Valid()
      modifies this
      ensures Valid() && View() == PassiveDone(old(View()))
    {
      passiveSends := Max(0, passiveSends - 1);
      servingTicket := servingTicket + 1;
      sending := false;
    }

    method SkipCancelled()
      requires Valid()
      modifies this`servingNonPassive, this`cancelled
      ensures Valid() && View() == Skip(old(View()))
    {
      while servingNonPassive in cancelled
        invariant SkipFrom(servingNonPassive, cancelled) == old(SkipFrom(servingNonPassive, cancelled))
        decreases |cancelled|
      {
        cancelled := cancelled - {servingNonPassive};
        servingNonPassive := servingNonPassive + 1;
      }
    }

    /** Entry of `run_non_passive`: draw a ticket, skip, and look at the guard for the first time. */
    method Join() returns (ticket: nat, admitted: bool)
      requires Valid()
      modifies this
      ensures Valid() && ticket == old(View()).nextOther
      ensures var l := Skip(old(View()).(nextOther := ticket + 1));
        admitted == OtherClear(l, ticket) && View() == if admitted then l.(sending := true) else l
    {
      ticket := nextNonPassive;
      nextNonPassive := nextNonPassive + 1;
      admitted := Retry(ticket);
    }

    /** Woken from the condition: skip and look again. */
    method Retry(ticket: nat) returns (admitted: bool)
      requires Valid()
      modifies this`sending, this`servingNonPassive, this`cancelled
      ensures Valid()
      ensures var l := Skip(old(View()));
        admitted == OtherClear(l, ticket) && View() == if admitted then l.(sending := true) else l
    {
      SkipCancelled();
      if sending || passiveTurns > 0 || passiveSends > 0 || ticket != servingNonPassive {
        return false;
      }
      sending := true;
      return true;
    }

    /** The `finally` block: `wasSending` tells whether this task had been admitted. */
    method Leave(ticket: nat, wasSending: bool)
      requires Valid()
      modifies this`sending, this`servingNonPassive, this`cancelled
      ensures Valid()
      ensures View() == if wasSending then OtherSent(old(View())) else OtherCancelled(old(View()), ticket)
    {
      if wasSending {
        servingNonPassive := servingNonPassive + 1;
        sending := false;
      } else {
        cancelled := cancelled + {ticket};
      }
      SkipCancelled();
    }
  }

  // ---------- the tasks ----------

  datatype Task = Passive(ticket: nat) | Other(ticket: nat)

  datatype Stage = Waiting | Sending | Sent | Dropped

  /**
   `asleep` are the tasks inside `condition.wait()` that nobody has notified yet;
   `log` lists the sends in the order in which they started; `begun`, `ended` and
   `idleEnds` count passive turns begun, turns ended, and ends that found none open.
   */
  datatype World = World(lane: Lane, passive: map<nat, Stage>, others: map<nat, Stage>, asleep: set<Task>,
                         begun: nat, ended: nat, idleEnds: nat, log: seq<Task>)

  datatype Step =
    | TurnBegins
    | TurnEnds
    | Issue
    | LookPassive(t: nat)
    | EndPassive(t: nat)
    | Arrive
    | LookOther(n: nat)
    | EndOther(n: nat)
    | Cancel(n: nat)

  predicate Enabled(w: World, s: Step) {
    match s
    case LookPassive(t) => t in w.passive && w.passive[t].Waiting? && Passive(t) !in w.asleep
    case EndPassive(t) => t in w.passive && w.passive[t].Sending?
    case LookOther(n) => n in w.others && w.others[n].Waiting? && Other(n) !in w.asleep
    case EndOther(n) => n in w.others && w.others[n].Sending?
    case Cancel(n) => n in w.others && w.others[n].Waiting?
    case _ => true
  }

  /** A non-passive task that has just skipped looks at its guard. */
  function Judge(w: World, l: Lane, n: nat): World {
    if OtherClear(l, n) then w.(lane := l.(sending := true), others := w.others[n := Sending], log := w.log + [Other(n)])
    else w.(lane := l, others := w.others[n := Waiting], asleep := w.asleep + {Other(n)})
  }

  /** Everything but a look at a guard ends with `notify_all`. */
  function Take(w: World, s: Step): World
    requires Enabled(w, s)
  {
    var l := w.lane;
    match s
    case TurnBegins => w.(lane := l.(turns := l.turns + 1), begun := w.begun + 1, asleep := {})
    case TurnEnds =>
      w.(lane := l.(turns := Lowered(l.turns)), ended := w.ended + 1,
         idleEnds := w.idleEnds + (if l.turns == 0 then 1 else 0), asleep := {})
    case Issue =>
      w.(lane := l.(next := l.next + 1, sends := l.sends + 1), passive := w.passive[l.next := Waiting], asleep := {})
    case LookPassive(t) =>
      if PassiveClear(l, t) then w.(lane := l.(sending := true), passive := w.passive[t := Sending], log := w.log + [Passive(t)])
      else w.(asleep := w.asleep + {Passive(t)})
    case EndPassive(t) => w.(lane := PassiveDone(l), passive := w.passive[t := Sent], asleep := {})
    case Arrive => Judge(w, Skip(l.(nextOther := l.nextOther + 1)), l.nextOther)
    case LookOther(n) => Judge(w, Skip(l), n)
    case EndOther(n) => w.(lane := OtherSent(l), others := w.others[n := Sent], asleep := {})
    case Cancel(n) => w.(lane := OtherCancelled(l, n), others := w.others[n := Dropped], asleep := {})
  }

  predicate Runs(w: World, steps: seq<Step>)
    decreases |steps|
  {
    steps == [] || (Enabled(w, steps[0]) && Runs(Take(w, steps[0]), steps[1..]))
  }

  function Final(w: World, steps: seq<Step>): World
    requires Runs(w, steps)
    decreases |steps|
  {
    if steps == [] then w else Final(Take(w, steps[0]), steps[1..])
  }

  const START_WORLD: World := World(QUIET_LANE, map[], map[], {}, 0, 0, 0, [])

  // ---------- the invariant ----------

  /** Tickets below the served one are settled, the served one may be sending, the rest wait. */
  ghost predicate PassiveOk(sends: nat, next: nat, serving: nat, passive: map<nat, Stage>, current: Option<nat>) {
    && serving <= next && sends == next - serving
    && (forall t: nat :: t in passive <==> t < next)
    && (forall t: nat :: t in passive ==>
          passive[t] == if t < serving then Sent else if current == Some(t) then Sending else Waiting)
    && (current.Some? ==> current.value == serving < next)
  }

  ghost predicate OthersOk(next: nat, serving: nat, cancelled: set<nat>, others: map<nat, Stage>, current: Option<nat>) {
    && serving <= next && serving !in cancelled
    && (forall n: nat :: n in cancelled ==> serving <= n < next)
    && (forall n: nat :: n in others <==> n < next)
    && (forall n: nat :: n in others && n < serving ==> others[n].Sent? || others[n].Dropped?)
    && (forall n: nat :: n in others && serving <= n ==>
          others[n] == if n in cancelled then Dropped else if current == Some(n) then Sending else Waiting)
    && (current.Some? ==> current.value == serving < next)
  }

  /** Whoever sleeps could not send if it were awake: no wake-up is lost. */
  ghost predicate SleepersBlocked(l: Lane, asleep: set<Task>) {
    forall k :: k in asleep ==> if k.Passive? then !PassiveClear(l, k.ticket) else !OtherClear(l, k.ticket)
  }

  ghost predicate Started(w: World, k: Task) {
    if k.Passive? then k.ticket in w.passive && !w.passive[k.ticket].Waiting?
    else k.ticket in w.others && (w.others[k.ticket].Sending? || w.others[k.ticket].Sent?)
  }

  /** Within each class sends start in ticket order, each ticket once, and the log has every one that started. */
  ghost predicate LogOk(w: World) {
    && (forall k :: k in w.log <==> Started(w, k))
    && (forall i, j :: 0 <= i < j < |w.log| && w.log[i].Passive? && w.log[j].Passive? ==> w.log[i].ticket < w.log[j].ticket)
    && (forall i, j :: 0 <= i < j < |w.log| && w.log[i].Other? && w.log[j].Other? ==> w.log[i].ticket < w.log[j].ticket)
  }

  function PassiveIn(holder: Option<Task>): Option<nat> {
    if holder.Some? && holder.value.Passive? then Some(holder.value.ticket) else None
  }

  function OtherIn(holder: Option<Task>): Option<nat> {
    if holder.Some? && holder.value.Other? then Some(holder.value.ticket) else None
  }

  ghost predicate OkWith(w: World, holder: Option<Task>) {
    && PassiveOk(w.lane.sends, w.lane.next, w.lane.serving, w.passive, PassiveIn(holder))
    && OthersOk(w.lane.nextOther, w.lane.servingOther, w.lane.cancelled, w.others, OtherIn(holder))
    && (w.lane.sending <==> holder.Some?)
    && w.lane.turns + w.ended == w.begun + w.idleEnds
    && SleepersBlocked(w.lane, w.asleep)
    && LogOk(w)
  }

  ghost predicate LaneOk(w: World) {
    exists holder :: OkWith(w, holder)
  }

  lemma LogGrows(w: World, w': World, k: Task)
    requires LogOk(w) && w'.log == w.log + [k]
    requires forall j :: Started(w', j) <==> Started(w, j) || j == k
    requires forall j :: Started(w, j) && j.Passive? == k.Passive? ==> j.ticket < k.ticket
    ensures LogOk(w')
  {
    hide Started;
    forall j ensures j in w'.log <==> Started(w', j) {
      assert j in w'.log <==> j in w.log || j == k;
    }
    forall i | 0 <= i < |w.log| && w.log[i].Passive? == k.Passive? ensures w.log[i].ticket < k.ticket {
      assert w.log[i] in w.log;
    }
  }

  lemma LogStays(w: World, w': World)
    requires LogOk(w) && w'.log == w.log && forall k :: Started(w', k) <==> Started(w, k)
    ensures LogOk(w')
  {
    hide Started;
  }

  lemma LookPassiveKeeps(w: World, t: nat, h: Option<Task>) returns (h': Option<Task>)
    requires OkWith(w, h) && Enabled(w, LookPassive(t))
    ensures OkWith(Take(w, LookPassive(t)), h')
  {
    hide OthersOk;
    var w' := Take(w, LookPassive(t));
    if PassiveClear(w.lane, t) {
      h' := Some(Passive(t));
      LogGrows(w, w', Passive(t));
    } else {
      h' := h;
      LogStays(w, w');
    }
    hide LogOk;
  }

  lemma OtherPassiveStepKeeps(w: World, s: Step, h: Option<Task>)
    requires OkWith(w, h) && Enabled(w, s)
    requires s.TurnBegins? || s.TurnEnds? || s.Issue? || s.EndPassive?
    ensures OkWith(Take(w, s), if s.EndPassive? then None else h)
  {
    hide OthersOk;
    LogStays(w, Take(w, s));
    hide LogOk;
  }

  /** An arriving or woken task never finds anything to skip: the served ticket is always live. */
  lemma NothingToSkip(w: World, h: Option<Task>)
    requires OkWith(w, h)
    ensures Skip(w.lane) == w.lane
    ensures var l := w.lane.(nextOther := w.lane.nextOther + 1); Skip(l) == l
  {
  }

  lemma JudgeKeeps(w: World, l: Lane, n: nat, h: Option<Task>) returns (h': Option<Task>)
    requires OkWith(w, h)
    requires (l == w.lane && n in w.others && w.others[n].Waiting?)
          || (l == w.lane.(nextOther := w.lane.nextOther + 1) && n == w.lane.nextOther)
    ensures OkWith(Judge(w, l, n), h')
  {
    var w' := Judge(w, l, n);
    if OtherClear(l, n) {
      h' := Some(Other(n));
      LogGrows(w, w', Other(n));
    } else {
      h' := h;
      LogStays(w, w');
    }
    hide LogOk;
  }

  lemma EndOtherKeepsOthers(next: nat, serving: nat, cancelled: set<nat>, others: map<nat, Stage>)
    requires OthersOk(next, serving, cancelled, others, Some(serving))
    ensures var s := SkipFrom(serving + 1, cancelled); OthersOk(next, s.0, s.1, others[serving := Sent], None)
  {
    SkipStopsAtFirstLive(serving + 1, cancelled);
    hide SkipFrom;
    assert next !in cancelled;
  }

  lemma EndOtherKeeps(w: World, n: nat, h: Option<Task>)
    requires OkWith(w, h) && Enabled(w, EndOther(n))
    ensures OkWith(Take(w, EndOther(n)), None)
  {
    assert h == Some(Other(n));
    EndOtherKeepsOthers(w.lane.nextOther, n, w.lane.cancelled, w.others);
    hide SkipFrom, OthersOk;
    LogStays(w, Take(w, EndOther(n)));
    hide LogOk;
  }

  lemma CancelKeepsOthers(next: nat, serving: nat, cancelled: set<nat>, others: map<nat, Stage>, n: nat, current: Option<nat>)
    requires OthersOk(next, serving, cancelled, others, current) && n in others && others[n].Waiting?
    ensures var s := SkipFrom(serving, cancelled + {n}); OthersOk(next, s.0, s.1, others[n := Dropped], current)
  {
    SkipStopsAtFirstLive(serving, cancelled + {n});
    hide SkipFrom;
    assert next !in cancelled + {n};
  }

  lemma CancelKeeps(w: World, n: nat, h: Option<Task>)
    requires OkWith(w, h) && Enabled(w, Cancel(n))
    ensures OkWith(Take(w, Cancel(n)), h)
  {
    CancelKeepsOthers(w.lane.nextOther, w.lane.servingOther, w.lane.cancelled, w.others, n, OtherIn(h));
    hide SkipFrom, OthersOk;
    LogStays(w, Take(w, Cancel(n)));
    hide LogOk;
  }

  lemma StepKeeps(w: World, s: Step)
    requires LaneOk(w) && Enabled(w, s)
    ensures LaneOk(Take(w, s))
  {
    var h :| OkWith(w, h);
    NothingToSkip(w, h);
    hide OkWith, Judge, Skip;
    match s
    case Arrive => var _ := JudgeKeeps(w, w.lane.(nextOther := w.lane.nextOther + 1), w.lane.nextOther, h);
    case LookOther(n) => var _ := JudgeKeeps(w, w.lane, n, h);
    case EndOther(n) => EndOtherKeeps(w, n, h);
    case Cancel(n) => CancelKeeps(w, n, h);
    case LookPassive(t) => var _ := LookPassiveKeeps(w, t, h);
    case _ => OtherPassiveStepKeeps(w, s, h);
  }

  /** Every reachable state keeps the invariant, whatever tasks do and whenever waiting ones are cancelled. */
  lemma {:induction false} RunKeeps(w: World, steps: seq<Step>)
    requires LaneOk(w) && Runs(w, steps)
    ensures LaneOk(Final(w, steps))
    decreases |steps|
  {
    if steps != [] {
      StepKeeps(w, steps[0]);
      RunKeeps(Take(w, steps[0]), steps[1..]);
    }
  }

  lemma NothingIsInOrder()
    ensures PassiveOk(0, 0, 0, map[], None) && OthersOk(0, 0, {}, map[], None)
  {
  }

  lemma EmptyLogIsOk()
    ensures LogOk(START_WORLD)
  {
  }

  lemma StartIsOk()
    ensures LaneOk(START_WORLD)
  {
    NothingIsInOrder();
    EmptyLogIsOk();
    hide PassiveOk, OthersOk, LogOk;
    assert OkWith(START_WORLD, None);
  }

  // ---------- what it means ----------

  predicate IsSending(w: World, k: Task) {
    if k.Passive? then k.ticket in w.passive && w.passive[k.ticket].Sending?
    else k.ticket in w.others && w.others[k.ticket].Sending?
  }

  lemma OneSenderAt(w: World, a: Task, b: Task)
    requires LaneOk(w) && IsSending(w, a)
    ensures w.lane.sending
    ensures IsSending(w, b) ==> a == b
  {
    var h :| OkWith(w, h);
    hide LogOk, SleepersBlocked;
    assert h == Some(a);
  }

  /** At most one send per chat is in flight, and the flag says whether there is one. */
  lemma SendsExclude(steps: seq<Step>, a: Task, b: Task)
    requires Runs(START_WORLD, steps) && IsSending(Final(START_WORLD, steps), a)
    ensures Final(START_WORLD, steps).lane.sending
    ensures IsSending(Final(START_WORLD, steps), b) ==> a == b
  {
    hide LaneOk, IsSending;
    StartIsOk();
    RunKeeps(START_WORLD, steps);
    OneSenderAt(Final(START_WORLD, steps), a, b);
  }

  /** A non-passive send starts only when no passive turn is open and every passive ticket issued has been sent. */
  lemma OthersYield(w: World, s: Step, n: nat)
    requires LaneOk(w) && Enabled(w, s)
    requires IsSending(Take(w, s), Other(n)) && !IsSending(w, Other(n))
    ensures w.lane.turns == 0 && forall t :: t in w.passive ==> w.passive[t].Sent?
    ensures forall m :: m in w.others && m < n ==> w.others[m].Sent? || w.others[m].Dropped?
  {
    var h :| OkWith(w, h);
    NothingToSkip(w, h);
  }

  /** The clamp on passive sends never has an effect: pending sends are exactly next minus serving. */
  lemma SendClampNeverFires(w: World, s: Step)
    requires LaneOk(w) && Enabled(w, s)
    ensures s.EndPassive? ==> w.lane.sends > 0 && Take(w, s).lane.sends == w.lane.sends - 1
    ensures w.lane.sends == w.lane.next - w.lane.serving
  {
    var h :| OkWith(w, h);
  }

  /** No turn is ended while none is open. */
  predicate EndsOnlyOpenTurns(w: World, steps: seq<Step>)
    requires Runs(w, steps)
    decreases |steps|
  {
    steps != [] ==> (steps[0].TurnEnds? ==> w.lane.turns > 0) && EndsOnlyOpenTurns(Take(w, steps[0]), steps[1..])
  }

  lemma {:induction false} IdleEndsAreCounted(w: World, steps: seq<Step>)
    requires Runs(w, steps)
    ensures w.idleEnds <= Final(w, steps).idleEnds
    ensures Final(w, steps).idleEnds == w.idleEnds <==> EndsOnlyOpenTurns(w, steps)
    decreases |steps|
  {
    hide Skip;
    if steps != [] {
      IdleEndsAreCounted(Take(w, steps[0]), steps[1..]);
    }
  }

  /** The turn counter is turns begun minus turns ended if and only if its clamp never fired: no turn ended while none was open. */
  lemma TurnsAreBalancedIff(steps: seq<Step>)
    requires Runs(START_WORLD, steps)
    ensures var w := Final(START_WORLD, steps); w.lane.turns == w.begun - w.ended <==> EndsOnlyOpenTurns(START_WORLD, steps)
  {
    StartIsOk();
    RunKeeps(START_WORLD, steps);
    IdleEndsAreCounted(START_WORLD, steps);
    hide Runs, Final, PassiveOk, OthersOk, SleepersBlocked, LogOk;
    var h :| OkWith(Final(START_WORLD, steps), h);
  }

  // ---------- progress ----------

  predicate Unsettled(w: World, k: Task) {
    if k.Passive? then k.ticket in w.passive && (w.passive[k.ticket].Waiting? || w.passive[k.ticket].Sending?)
    else k.ticket in w.others && (w.others[k.ticket].Waiting? || w.others[k.ticket].Sending?)
  }

  /** Steps that settle something: an admitted look, the end of a send, or a cancellation. */
  predicate Advances(w: World, s: Step) {
    match s
    case LookPassive(t) => PassiveClear(w.lane, t)
    case LookOther(n) => OtherClear(w.lane, n)
    case EndPassive(_) => true
    case EndOther(_) => true
    case Cancel(_) => true
    case _ => false
  }

  /** Work left: two for each unsettled ticket, one less while a send is in flight. */
  function Work(l: Lane): int {
    2 * (l.next - l.serving + l.nextOther - l.servingOther - |l.cancelled|) - if l.sending then 1 else 0
  }

  /**
   Deadlock freedom: if anything is unsettled while no passive turn is open, some
   awake task can advance now; and an open turn never blocks a passive send.
   */
  lemma SomeoneCanAdvance(w: World, k: Task) returns (s: Step)
    requires LaneOk(w) && Unsettled(w, k)
    requires w.lane.turns == 0 || k.Passive?
    ensures Enabled(w, s) && Advances(w, s) && !s.Cancel?
  {
    var h :| OkWith(w, h);
    if h.Some? {
      s := if h.value.Passive? then EndPassive(h.value.ticket) else EndOther(h.value.ticket);
    } else if w.lane.serving < w.lane.next {
      s := LookPassive(w.lane.serving);
      assert PassiveClear(w.lane, w.lane.serving);
    } else {
      s := LookOther(w.lane.servingOther);
      assert OtherClear(w.lane, w.lane.servingOther);
    }
  }

  lemma {:induction false} IntervalCardinality(s: set<nat>, lo: nat, hi: nat)
    requires lo <= hi && forall n: nat :: n in s ==> lo <= n < hi
    ensures |s| <= hi - lo
    ensures |s| == hi - lo <==> forall n: nat :: lo <= n < hi ==> n in s
    decreases hi - lo
  {
    if lo < hi {
      var rest := s - {hi - 1};
      IntervalCardinality(rest, lo, hi - 1);
      assert |rest| == if hi - 1 in s then |s| - 1 else |s|;
      assert forall n: nat :: lo <= n < hi - 1 ==> (n in s <==> n in rest);
    } else {
      assert s == {};
    }
  }

  /** Work is never negative, and none is left exactly when every ticket is settled. */
  lemma WorkCountsUnsettled(w: World)
    requires LaneOk(w)
    ensures Work(w.lane) >= 0
    ensures Work(w.lane) == 0 <==> forall k :: !Unsettled(w, k)
  {
    var h :| OkWith(w, h);
    var l := w.lane;
    IntervalCardinality(l.cancelled, l.servingOther, l.nextOther);
    if l.servingOther < l.nextOther {
      assert Unsettled(w, Other(l.servingOther));
    }
    if l.serving < l.next {
      assert Unsettled(w, Passive(l.serving));
    }
  }

  /** Every advancing step lowers the work, so without new arrivals a lane runs dry however tasks are scheduled. */
  lemma AdvancingLowersWork(w: World, s: Step)
    requires LaneOk(w) && Enabled(w, s) && Advances(w, s)
    ensures Work(Take(w, s).lane) < Work(w.lane)
  {
    var h :| OkWith(w, h);
    NothingToSkip(w, h);
    match s
    case EndOther(n) => SkipStopsAtFirstLive(w.lane.servingOther + 1, w.lane.cancelled);
    case Cancel(n) =>
      SkipStopsAtFirstLive(w.lane.servingOther, w.lane.cancelled + {n});
      assert n !in w.lane.cancelled;
    case _ =>
  }

  predicate Settled(stage: Stage) {
    stage.Sent? || stage.Dropped?
  }

  /** A settled ticket stays as it was settled; so each ticket is sent or cancelled once, never both. */
  lemma {:induction false} SettledForGood(w: World, steps: seq<Step>, n: nat)
    requires LaneOk(w) && Runs(w, steps) && n in w.others && Settled(w.others[n])
    ensures n in Final(w, steps).others && Final(w, steps).others[n] == w.others[n]
    decreases |steps|
  {
    if steps != [] {
      var h :| OkWith(w, h);
      StepKeeps(w, steps[0]);
      assert steps[0].Arrive? ==> n < w.lane.nextOther;
      SettledForGood(Take(w, steps[0]), steps[1..], n);
    }
  }

  ghost predicate InTicketOrder(log: seq<Task>) {
    && (forall i, j :: 0 <= i < j < |log| && log[i].Passive? == log[j].Passive? ==> log[i].ticket < log[j].ticket)
    && (forall j, t: nat :: 0 <= j < |log| && log[j].Passive? && t < log[j].ticket ==> Passive(t) in log[..j])
  }

  lemma LogIsInTicketOrder(w: World)
    requires LaneOk(w)
    ensures InTicketOrder(w.log)
  {
    var h :| OkWith(w, h);
    hide OthersOk, SleepersBlocked;
    forall j, t: nat | 0 <= j < |w.log| && w.log[j].Passive? && t < w.log[j].ticket
      ensures Passive(t) in w.log[..j]
    {
      assert w.log[j] in w.log;
      assert Started(w, Passive(t));
      var i :| 0 <= i < |w.log| && w.log[i] == Passive(t);
      assert i < j;
    }
  }

  /** The whole log of any run: passive sends start as 0, 1, 2, …, the others in strictly increasing ticket order. */
  lemma SendsStartInTicketOrder(steps: seq<Step>)
    requires Runs(START_WORLD, steps)
    ensures InTicketOrder(Final(START_WORLD, steps).log)
  {
    hide LaneOk, InTicketOrder;
    StartIsOk();
    RunKeeps(START_WORLD, steps);
    LogIsInTicketOrder(Final(START_WORLD, steps));
  }
}
