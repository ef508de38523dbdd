/**
 The in-process half of the restart handshake (agent/restart.py): arm, freeze
 admission, wait for the turn's end and for the delivery of its reply in either
 order, write one commit frame, or give up and resume admission.
 */
module Restart {
  import opened Prelude
  import Text

  datatype Phase = Idle | Armed | WaitingDelivery | Committed | Cancelled

  datatype Request = Request(id: nat, boot: string, turn: string, reason: string)

  /** How a write to the private pipe ends. A torn write leaves part of the frame in the pipe and counts as failed. */
  datatype Write = Whole | Torn(part: nat) | Refused

  /** Frames that reached the pipe, whole or in part. */
  datatype Frame = Frame(request: Request, write: Write)

  datatype Rejection = NotSupervised | Unbound | BadReason | NoContext | OtherPending | QuiesceFailed

  /**
   `watchdogs` are all watchdog tasks ever started with the request each was started
   for, `cancelled` those that `cancel()` was called on; `freezes` and `resumes` count
   calls into admission, `issued` the request ids.
   */
  datatype Coordinator = Coordinator(
    boot: string, supervised: bool, phase: Phase, pending: Option<Request>, lastError: Option<string>,
    turnDone: bool, delivered: bool, timer: Option<nat>, watchdogs: map<nat, nat>, cancelled: set<nat>,
    freezes: nat, resumes: nat, pipe: seq<Frame>, issued: set<nat>)

  function Fresh(boot: string, supervised: bool): Coordinator {
    Coordinator(boot, supervised, Idle, None, None, false, false, None, map[], {}, 0, 0, [], {})
  }

  /** The registered watchdog is asked to stop. */
  function Stopped(c: Coordinator): set<nat> {
    if c.timer.Some? then c.cancelled + {c.timer.value} else c.cancelled
  }

  function CancelPending(c: Coordinator, why: string): Coordinator {
    if c.pending.None? then c
    else c.(timer := None, cancelled := Stopped(c), phase := Cancelled, lastError := Some(why), pending := None,
            turnDone := false, delivered := false, resumes := c.resumes + 1)
  }

  function CommitIfReady(c: Coordinator, write: Write): Coordinator {
    if c.phase.Committed? || !c.turnDone || !c.delivered || c.pending.None? then c
    else if write.Refused? then CancelPending(c, "supervisor commit failed")
    else
      var w := c.(pipe := c.pipe + [Frame(c.pending.value, write)]);
      if write.Torn? then CancelPending(w, "supervisor commit failed")
      else w.(phase := Committed, timer := None, cancelled := Stopped(c))
  }

  predicate Concerns(c: Coordinator, turn: string) {
    !c.phase.Committed? && c.pending.Some? && c.pending.value.turn == turn
  }

  /** What `arm` refuses, in the order of its checks; None when the request goes through or is already there. */
  function Refusal(c: Coordinator, bound: bool, turn: string, context: bool, reason: string, quiesced: bool): Option<Rejection> {
    if !c.supervised then Some(NotSupervised)
    else if !bound then Some(Unbound)
    else if !(1 <= |Text.Strip(reason)| <= 300) then Some(BadReason)
    else if turn == "" || !context then Some(NoContext)
    else if c.pending.Some? then (if c.pending.value.turn == turn then None else Some(OtherPending))
    else if !quiesced then Some(QuiesceFailed)
    else None
  }

  function Arm(c: Coordinator, turn: string, clean: string, id: nat, task: nat): Coordinator {
    Coordinator(c.boot, c.supervised, Armed, Some(Request(id, c.boot, turn, clean)), None, false, false,
                Some(task), c.watchdogs[task := id], c.cancelled, c.freezes + 1, c.resumes, c.pipe, c.issued + {id})
  }

  // ---------- the object ----------

  class RestartCoordinator {
    const boot: string
    const supervised: bool
    var phase: Phase
    var pending: Option<Request>
    var lastError: Option<string>
    var turnDone: bool
    var delivered: bool
    var timer: Option<nat>
    var watchdogs: map<nat, nat>
    var cancelled: set<nat>
    ghost var freezes: nat
    ghost var resumes: nat
    ghost var pipe: seq<Frame>
    ghost var issued: set<nat>

    ghost function View(): Coordinator
      reads this
    {
      Coordinator(boot, supervised, phase, pending, lastError, turnDone, delivered, timer, watchdogs, cancelled,
                  freezes, resumes, pipe, issued)
    }

    constructor (bootId: string, isSupervised: bool)
      requires !Text.AllBlank(bootId)
      ensures View() == Fresh(bootId, isSupervised)
    {
      boot, supervised := bootId, isSupervised;
      phase, pending, lastError, turnDone, delivered, timer, watchdogs := Idle, None, None, false, false, None, map[];
      cancelled, freezes, resumes, pipe, issued := {}, 0, 0, [], {};
    }

    method Cancel(why: string)
      modifies this
      ensures View() == CancelPending(old(View()), why)
    {
      if pending.None? {
        return;
      }
      if timer.Some? {
        cancelled := cancelled + {timer.value};
      }
      timer := None;
      phase := Cancelled;
      lastError := Some(why);
      pending := None;
      turnDone, delivered := false, false;
      resumes := resumes + 1;
    }

    /** `write` is what writing to the pipe will do, should it come to that. */
    method TryCommit(write: Write)
      modifies this
      ensures View() == CommitIfReady(old(View()), write)
    {
      if phase.Committed? || !turnDone || !delivered || pending.None? {
        return;
      }
      if !write.Refused? {
        pipe := pipe + [Frame(pending.value, write)];
      }
      if !write.Whole? {
        Cancel("supervisor commit failed");
        return;
      }
      phase := Committed;
      if timer.Some? {
        cancelled := cancelled + {timer.value};
      }
      timer := None;
    }

    method ArmRestart(bound: bool, turn: string, context: bool, reason: string, quiesced: bool, id: nat, task: nat)
      returns (out: Option<Rejection>)
      modifies this
      ensures out == Refusal(old(View()), bound, turn, context, reason, quiesced)
      ensures View() == if out.Some? || old(pending).Some? then old(View()) else Arm(old(View()), turn, Text.Strip(reason), id, task)
      ensures out.None? ==> pending.Some? && pending.value.turn == turn
    {
      hide Text.Strip, Arm;
      if !supervised {
        return Some(NotSupervised);
      }
      if !bound {
        return Some(Unbound);
      }
      var clean := Text.Strip(reason);
      if |clean| < 1 || 300 < |clean| {
        return Some(BadReason);
      }
      if turn == "" || !context {
        return Some(NoContext);
      }
      if pending.Some? {
        return if pending.value.turn == turn then None else Some(OtherPending);
      }
      if !quiesced {
        return Some(QuiesceFailed);
      }
      Publish(turn, clean, id, task);
      return None;
    }

    /** Admission is frozen: the request becomes the pending one, and its watchdog starts. */
    method Publish(turn: string, clean: string, id: nat, task: nat)
      modifies this
      ensures View() == Arm(old(View()), turn, clean, id, task)
      ensures pending.Some? && pending.value.turn == turn
    {
      freezes := freezes + 1;
      pending := Some(Request(id, boot, turn, clean));
      phase := Armed;
      lastError := None;
      turnDone, delivered := false, false;
      issued := issued + {id};
      StartWatchdog(id, task);
    }

    method StartWatchdog(id: nat, task: nat)
      modifies this`timer, this`watchdogs
      ensures timer == Some(task) && watchdogs == old(watchdogs)[task := id]
    {
      timer := Some(task);
      watchdogs := watchdogs[task := id];
    }

    method MarkTurnTerminal(turn: string, completed: bool, write: Write)
      modifies this
      ensures View() == Apply(old(View()), Terminal(turn, completed, write))
    {
      if phase.Committed? {
        return;
      }
      if pending.None? || pending.value.turn != turn {
        return;
      }
      if !completed {
        Cancel("restart caller turn did not complete");
        return;
      }
      turnDone := true;
      phase := WaitingDelivery;
      TryCommit(write);
    }

    method MarkDelivered(turn: string, write: Write)
      modifies this
      ensures View() == Apply(old(View()), Delivery(turn, write))
    {
      if phase.Committed? {
        return;
      }
      if pending.None? || pending.value.turn != turn {
        return;
      }
      delivered := true;
      TryCommit(write);
    }

    method MarkDeliveryFailed(turn: string)
      modifies this
      ensures View() == Apply(old(View()), DeliveryFailed(turn))
    {
      if phase.Committed? {
        return;
      }
      if pending.None? || pending.value.turn != turn {
        return;
      }
      Cancel("restart response delivery failed");
    }

    /** A watchdog's sleep is over: it acts only for the request it was started for. */
    method WatchdogFires(task: nat)
      requires task in watchdogs
      modifies this
      ensures View() == Apply(old(View()), Watchdog(task))
    {
      var id := watchdogs[task];
      if pending.Some? && pending.value.id == id {
        Cancel("delivery acknowledgement timed out");
      }
    }
  }

  // ---------- runs ----------

  datatype Event =
    | ArmCall(bound: bool, turn: string, context: bool, reason: string, quiesced: bool, id: nat, task: nat)
    | Terminal(turn: string, completed: bool, write: Write)
    | Delivery(turn: string, write: Write)
    | DeliveryFailed(turn: string)
    | Watchdog(task: nat)

  function Apply(c: Coordinator, e: Event): Coordinator {
    match e
    case ArmCall(bound, turn, context, reason, quiesced, id, task) =>
      if Refusal(c, bound, turn, context, reason, quiesced).Some? || c.pending.Some? then c else Arm(c, turn, Text.Strip(reason), id, task)
    case Terminal(turn, completed, write) =>
      if !Concerns(c, turn) then c
      else if !completed then CancelPending(c, "restart caller turn did not complete")
      else CommitIfReady(c.(turnDone := true, phase := WaitingDelivery), write)
    case Delivery(turn, write) =>
      if !Concerns(c, turn) then c else CommitIfReady(c.(delivered := true), write)
    case DeliveryFailed(turn) =>
      if !Concerns(c, turn) then c else CancelPending(c, "restart response delivery failed")
    case Watchdog(task) =>
      if OwnWatchdog(c, task) then CancelPending(c, "delivery acknowledgement timed out") else c
  }

  predicate OwnWatchdog(c: Coordinator, task: nat) {
    task in c.watchdogs && c.pending.Some? && c.pending.value.id == c.watchdogs[task]
  }

  /**
   Request ids and tasks are new. Any watchdog ever started may fire, cancelled or not
   and as often as it likes, but for one: the task that the commit itself cancelled is
   stopped in its sleep before it can look at the request it belongs to.
   */
  predicate Possible(c: Coordinator, e: Event) {
    match e
    case ArmCall(_, _, _, _, _, id, task) => id !in c.issued && task !in c.watchdogs
    case Watchdog(task) => task in c.watchdogs && !(c.phase.Committed? && OwnWatchdog(c, task))
    case _ => true
  }

  predicate Plausible(c: Coordinator, events: seq<Event>)
    decreases |events|
  {
    events == [] || (Possible(c, events[0]) && Plausible(Apply(c, events[0]), events[1..]))
  }

  function Play(c: Coordinator, events: seq<Event>): Coordinator
    decreases |events|
  {
    if events == [] then c else Play(Apply(c, events[0]), events[1..])
  }

  function WholeFrames(pipe: seq<Frame>): nat {
    if pipe == [] then 0
    else WholeFrames(pipe[..|pipe| - 1]) + if pipe[|pipe| - 1].write.Whole? then 1 else 0
  }

  /** Admission is frozen exactly while a request is pending, and a running watchdog of its own guards an uncommitted request. */
  ghost predicate CoordinatorOk(c: Coordinator) {
    Consistent(c) && (c.turnDone && c.delivered ==> c.phase.Committed?)
  }

  ghost predicate Consistent(c: Coordinator) {
    && c.freezes == c.resumes + (if c.pending.Some? then 1 else 0)
    && (c.pending.Some? <==> c.phase.Armed? || c.phase.WaitingDelivery? || c.phase.Committed?)
    && (c.turnDone || c.delivered ==> c.pending.Some?)
    && (c.phase.Committed? ==> c.turnDone && c.delivered)
    && (c.pending.Some? ==> c.pending.value.id in c.issued && c.pending.value.boot == c.boot)
    && (c.timer.Some? <==> c.pending.Some? && !c.phase.Committed?)
    && (c.timer.Some? ==> OwnWatchdog(c, c.timer.value) && c.timer.value !in c.cancelled)
    && (forall t :: t in c.watchdogs ==> c.watchdogs[t] in c.issued)
    && (forall t, u :: t in c.watchdogs && u in c.watchdogs && c.watchdogs[t] == c.watchdogs[u] ==> t == u)
    && (forall t :: OwnWatchdog(c, t) ==> (t in c.cancelled <==> c.phase.Committed?))
    && (forall t :: t in c.cancelled ==> t in c.watchdogs)
    && WholeFrames(c.pipe) == (if c.phase.Committed? then 1 else 0)
    && (c.phase.Committed? ==> c.pipe != [] && c.pipe[|c.pipe| - 1] == Frame(c.pending.value, Whole))
  }

  lemma CommitKeeps(c: Coordinator, write: Write)
    requires Consistent(c) && c.pending.Some? && !c.phase.Committed?
    ensures CoordinatorOk(CommitIfReady(c, write))
  {
    var grown := c.pipe + [Frame(c.pending.value, write)];
    assert grown[..|grown| - 1] == c.pipe;
    assert WholeFrames(grown) == WholeFrames(c.pipe) + if write.Whole? then 1 else 0;
  }

  lemma CommitWrites(c: Coordinator, write: Write)
    ensures CommitIfReady(c, write).boot == c.boot
    ensures var pipe := CommitIfReady(c, write).pipe;
      pipe == c.pipe || (c.pending.Some? && pipe == c.pipe + [Frame(c.pending.value, write)])
  {
  }

  /** An event writes at most the pending request, once. */
  lemma OnlyPendingIsWritten(c: Coordinator, e: Event)
    ensures Apply(c, e).boot == c.boot
    ensures Apply(c, e).pipe == c.pipe || (c.pending.Some? && exists write :: Apply(c, e).pipe == c.pipe + [Frame(c.pending.value, write)])
  {
    if e.Terminal? || e.Delivery? {
      CommitWrites(c.(turnDone := true, phase := WaitingDelivery), e.write);
      CommitWrites(c.(delivered := true), e.write);
      hide CommitIfReady;
    }
    hide Refusal;
  }

  lemma CancelKeeps(c: Coordinator, why: string)
    requires Consistent(c) && !c.phase.Committed?
    ensures CoordinatorOk(CancelPending(c, why))
  {
  }

  lemma ArmKeeps(c: Coordinator, turn: string, clean: string, id: nat, task: nat)
    requires CoordinatorOk(c) && c.pending.None? && id !in c.issued && task !in c.watchdogs
    ensures CoordinatorOk(Arm(c, turn, clean, id, task))
  {
  }

  /** The end of the turn and the delivery are heard in either order. */
  lemma HearingKeeps(c: Coordinator)
    requires Consistent(c) && c.pending.Some? && !c.phase.Committed?
    ensures Consistent(c.(turnDone := true, phase := WaitingDelivery)) && Consistent(c.(delivered := true))
  {
  }

  lemma EventKeeps(c: Coordinator, e: Event)
    requires CoordinatorOk(c) && Possible(c, e)
    ensures CoordinatorOk(Apply(c, e))
  {
    hide Consistent, Refusal, Arm, CancelPending, CommitIfReady;
    match e
    case ArmCall(bound, turn, context, reason, quiesced, id, task) =>
      if c.pending.None? {
        ArmKeeps(c, turn, Text.Strip(reason), id, task);
      }
    case Terminal(turn, completed, write) =>
      if Concerns(c, turn) {
        HearingKeeps(c);
        CommitKeeps(c.(turnDone := true, phase := WaitingDelivery), write);
        CancelKeeps(c, "restart caller turn did not complete");
      }
    case Delivery(turn, write) =>
      if Concerns(c, turn) {
        HearingKeeps(c);
        CommitKeeps(c.(delivered := true), write);
      }
    case DeliveryFailed(turn) =>
      if Concerns(c, turn) {
        CancelKeeps(c, "restart response delivery failed");
      }
    case Watchdog(task) =>
      if OwnWatchdog(c, task) {
        CancelKeeps(c, "delivery acknowledgement timed out");
      }
  }

  lemma {:induction false} RunKeeps(c: Coordinator, events: seq<Event>)
    requires CoordinatorOk(c) && Plausible(c, events)
    ensures CoordinatorOk(Play(c, events))
    decreases |events|
  {
    if events != [] {
      EventKeeps(c, events[0]);
      RunKeeps(Apply(c, events[0]), events[1..]);
    }
  }

  /** Nothing moves a committed coordinator: no late signal, no old watchdog, no second request. */
  lemma {:induction false} CommittedIsFinal(c: Coordinator, events: seq<Event>)
    requires CoordinatorOk(c) && c.phase.Committed? && Plausible(c, events)
    ensures Play(c, events) == c
    decreases |events|
  {
    if events != [] {
      assert Apply(c, events[0]) == c;
      CommittedIsFinal(c, events[1..]);
    }
  }

  /**
   A watchdog, however late, changes something only if its own request is the pending
   one, and then it ends just that request.
   */
  lemma WatchdogsEndTheirOwn(c: Coordinator, task: nat)
    requires CoordinatorOk(c) && task in c.watchdogs
    ensures Apply(c, Watchdog(task)) != c <==> OwnWatchdog(c, task)
    ensures OwnWatchdog(c, task) ==>
      && Apply(c, Watchdog(task)).pending.None? && Apply(c, Watchdog(task)).resumes == c.resumes + 1
      && Apply(c, Watchdog(task)).pipe == c.pipe
  {
  }

  /** No watchdog started before a request was armed ends it, in any state the request lives to see. */
  lemma {:induction false} OldWatchdogsAreHarmless(c: Coordinator, arm: Event, events: seq<Event>, task: nat)
    requires CoordinatorOk(c) && task in c.watchdogs
    requires arm.ArmCall? && Possible(c, arm) && c.pending.None? && Apply(c, arm).pending.Some?
    requires Plausible(Apply(c, arm), events)
    ensures var later := Play(Apply(c, arm), events);
      later.pending == Apply(c, arm).pending ==> task in later.watchdogs && Apply(later, Watchdog(task)) == later
  {
    WatchdogsArePermanent(Apply(c, arm), events, task);
  }

  lemma {:induction false} WatchdogsArePermanent(c: Coordinator, events: seq<Event>, task: nat)
    requires Plausible(c, events) && task in c.watchdogs
    ensures task in Play(c, events).watchdogs && Play(c, events).watchdogs[task] == c.watchdogs[task]
    decreases |events|
  {
    hide Refusal;
    if events != [] {
      WatchdogsArePermanent(Apply(c, events[0]), events[1..], task);
    }
  }

  /** Why the commit cancels its watchdog: that one alone could still undo it, and it has been cancelled. */
  lemma OnlyItsOwnWatchdogCouldUndoACommit(c: Coordinator, e: Event)
    requires CoordinatorOk(c) && c.phase.Committed? && (e.ArmCall? ==> Possible(c, e))
    ensures Apply(c, e) != c <==> e.Watchdog? && OwnWatchdog(c, e.task)
    ensures Apply(c, e) != c ==> e.task in c.cancelled
  {
  }

  // ---------- why a frame was written ----------

  /** `events[at]` armed the pending request and nothing armed another since. */
  ghost predicate Explains(c: Coordinator, events: seq<Event>, at: nat) {
    c.pending.Some? ==>
      && at < |events| && events[at].ArmCall? && events[at].turn == c.pending.value.turn && events[at].id == c.pending.value.id
      && (c.turnDone ==> SaidDone(events, at, c.pending.value.turn))
      && (c.delivered ==> SaidDelivered(events, at, c.pending.value.turn))
  }

  ghost predicate SaidDone(events: seq<Event>, at: nat, turn: string) {
    exists i :: at < i < |events| && events[i].Terminal? && events[i].turn == turn && events[i].completed
  }

  ghost predicate SaidDelivered(events: seq<Event>, at: nat, turn: string) {
    exists i :: at < i < |events| && events[i].Delivery? && events[i].turn == turn
  }

  /** Every frame in the pipe, whole or torn, was asked for by a turn that completed and whose reply was delivered. */
  ghost predicate FramesEarned(c: Coordinator, events: seq<Event>) {
    forall k :: 0 <= k < |c.pipe| ==> Earned(c.pipe[k].request, events)
  }

  ghost predicate Earned(r: Request, events: seq<Event>) {
    exists at: nat :: at < |events| && events[at].ArmCall? && events[at].turn == r.turn && events[at].id == r.id
      && SaidDone(events, at, r.turn) && SaidDelivered(events, at, r.turn)
  }

  lemma SayingsLast(events: seq<Event>, e: Event, at: nat, turn: string)
    ensures SaidDone(events, at, turn) ==> SaidDone(events + [e], at, turn)
    ensures SaidDelivered(events, at, turn) ==> SaidDelivered(events + [e], at, turn)
    ensures at < |events| && e.Terminal? && e.turn == turn && e.completed ==> SaidDone(events + [e], at, turn)
    ensures at < |events| && e.Delivery? && e.turn == turn ==> SaidDelivered(events + [e], at, turn)
  {
    var more := events + [e];
    if SaidDone(events, at, turn) {
      var i :| at < i < |events| && events[i].Terminal? && events[i].turn == turn && events[i].completed;
      assert more[i] == events[i];
    }
    if SaidDelivered(events, at, turn) {
      var i :| at < i < |events| && events[i].Delivery? && events[i].turn == turn;
      assert more[i] == events[i];
    }
    assert more[|events|] == e;
  }

  lemma EarnedLasts(r: Request, events: seq<Event>, e: Event)
    requires Earned(r, events)
    ensures Earned(r, events + [e])
  {
    var at: nat :| at < |events| && events[at].ArmCall? && events[at].turn == r.turn && events[at].id == r.id
      && SaidDone(events, at, r.turn) && SaidDelivered(events, at, r.turn);
    SayingsLast(events, e, at, r.turn);
    assert (events + [e])[at] == events[at];
  }

  /** An event that leaves the pending request in place, adding what it says, keeps the explanation. */
  lemma StillExplained(c: Coordinator, d: Coordinator, past: seq<Event>, e: Event, at: nat)
    requires Explains(c, past, at) && (d.pending.Some? ==> d.pending == c.pending)
    requires d.turnDone && !c.turnDone ==> e.Terminal? && e.completed && d.pending.Some? && e.turn == d.pending.value.turn
    requires d.delivered && !c.delivered ==> e.Delivery? && d.pending.Some? && e.turn == d.pending.value.turn
    ensures Explains(d, past + [e], at)
  {
    if d.pending.Some? {
      SayingsLast(past, e, at, d.pending.value.turn);
      assert (past + [e])[at] == past[at];
    }
    hide SaidDone, SaidDelivered;
  }

  lemma FramesStayEarned(c: Coordinator, past: seq<Event>, e: Event)
    requires FramesEarned(c, past)
    ensures FramesEarned(c, past + [e])
  {
    hide Earned;
    forall k | 0 <= k < |c.pipe| ensures Earned(c.pipe[k].request, past + [e]) {
      EarnedLasts(c.pipe[k].request, past, e);
    }
  }

  lemma CommitExplained(c: Coordinator, write: Write, events: seq<Event>, at: nat)
    requires Explains(c, events, at) && FramesEarned(c, events) && !c.phase.Committed?
    ensures Explains(CommitIfReady(c, write), events, at) && FramesEarned(CommitIfReady(c, write), events)
  {
    hide SaidDone, SaidDelivered;
    if c.pending.Some? && c.turnDone && c.delivered {
      assert Earned(c.pending.value, events);
    }
    hide Earned;
  }

  lemma EventExplained(c: Coordinator, past: seq<Event>, e: Event, at: nat) returns (at': nat)
    requires Explains(c, past, at) && FramesEarned(c, past)
    requires c.turnDone || c.delivered ==> c.pending.Some?
    ensures Explains(Apply(c, e), past + [e], at') && FramesEarned(Apply(c, e), past + [e])
  {
    at' := if c.pending.None? && Apply(c, e).pending.Some? then |past| else at;
    FramesStayEarned(c, past, e);
    hide SaidDone, SaidDelivered, Earned, Text.Strip, Refusal;
    if (e.Terminal? || e.Delivery?) && Concerns(c, e.turn) && (e.Terminal? ==> e.completed) {
      var m := if e.Terminal? then c.(turnDone := true, phase := WaitingDelivery) else c.(delivered := true);
      StillExplained(c, m, past, e, at);
      CommitExplained(m, e.write, past + [e], at);
    } else if c.pending.None? {
      assert (past + [e])[|past|] == e;
    } else {
      StillExplained(c, Apply(c, e), past, e, at);
    }
  }

  lemma {:induction false} RunExplained(c: Coordinator, past: seq<Event>, events: seq<Event>, at: nat)
    requires CoordinatorOk(c) && Plausible(c, events) && Explains(c, past, at) && FramesEarned(c, past)
    ensures FramesEarned(Play(c, events), past + events)
    decreases |events|
  {
    if events == [] {
      assert past + events == past;
    } else {
      var at' := EventExplained(c, past, events[0], at);
      EventKeeps(c, events[0]);
      RunExplained(Apply(c, events[0]), past + [events[0]], events[1..], at');
      assert past + [events[0]] + events[1..] == past + events;
    }
  }

  lemma FreshIsOk(boot: string, supervised: bool)
    ensures CoordinatorOk(Fresh(boot, supervised))
  {
  }

  /**
   At most one frame per boot is written whole, the coordinator is committed exactly
   when it was, and any frame at all was preceded, after its request was armed, by the
   turn's completion and the delivery of its reply.
   */
  lemma OneEarnedFramePerBoot(boot: string, supervised: bool, events: seq<Event>)
    requires Plausible(Fresh(boot, supervised), events)
    ensures var c := Play(Fresh(boot, supervised), events);
      && WholeFrames(c.pipe) == (if c.phase.Committed? then 1 else 0)
      && FramesEarned(c, events)
      && c.freezes == c.resumes + (if c.pending.Some? then 1 else 0)
  {
    FreshIsOk(boot, supervised);
    RunKeeps(Fresh(boot, supervised), events);
    RunExplained(Fresh(boot, supervised), [], events, 0);
    assert [] + events == events;
  }

  // ---------- what becomes of a request ----------

  /** Says nothing about the turn, and is not the watchdog of its request. */
  predicate Foreign(e: Event, turn: string, own: nat) {
    match e
    case ArmCall(_, _, _, _, _, _, _) => true
    case Terminal(t, _, _) => t != turn
    case Delivery(t, _) => t != turn
    case DeliveryFailed(t) => t != turn
    case Watchdog(task) => task != own
  }

  predicate AllForeign(events: seq<Event>, turn: string, own: nat) {
    forall i :: 0 <= i < |events| ==> Foreign(events[i], turn, own)
  }

  /** While a request waits, nothing about other turns and no other watchdog touches it; nor can another be armed. */
  lemma {:induction false} OthersDoNotInterfere(c: Coordinator, events: seq<Event>, turn: string, own: nat)
    requires CoordinatorOk(c) && c.pending.Some? && c.pending.value.turn == turn && c.timer == Some(own)
    requires AllForeign(events, turn, own)
    ensures Play(c, events) == c
    decreases |events|
  {
    if events != [] {
      assert Foreign(events[0], turn, own);
      assert Apply(c, events[0]) == c by {
        if events[0].Watchdog? && OwnWatchdog(c, events[0].task) {
          assert events[0].task == own;
        }
        hide Refusal, Arm;
      }
      hide CoordinatorOk;
      OthersDoNotInterfere(c, events[1..], turn, own);
    }
  }

  /** What `arm` asks for: a supervised, bound coordinator with nothing pending, a reason, a turn to answer in, and quiet admission. */
  predicate Grantable(c: Coordinator, e: Event) {
    && e.ArmCall? && c.supervised && e.bound && e.turn != "" && e.context && e.quiesced && c.pending.None?
    && 1 <= |Text.Strip(e.reason)| <= 300
  }

  /** The request of a granted `arm`. */
  function RequestOf(c: Coordinator, e: Event): Request
    requires e.ArmCall?
  {
    Request(e.id, c.boot, e.turn, Text.Strip(e.reason))
  }

  lemma ArmsIff(c: Coordinator, e: Event)
    requires e.ArmCall?
    ensures if Grantable(c, e)
            then Apply(c, e) == c.(phase := Armed, pending := Some(RequestOf(c, e)), lastError := None, turnDone := false,
                                   delivered := false, timer := Some(e.task), watchdogs := c.watchdogs[e.task := e.id],
                                   freezes := c.freezes + 1, issued := c.issued + {e.id})
            else Apply(c, e) == c
  {
    hide Text.Strip;
  }

  /**
   A granted request commits when its turn completed and its answer was delivered, in
   either order, and the frame went out whole: that frame and nothing else is written.
   A write that fails lets go of it instead, and admission resumes.
   */
  lemma EarnedRestartsCommit(c: Coordinator, arm: Event, deliveredFirst: bool, first: Write, second: Write)
    requires Grantable(c, arm)
    ensures var c1 := Apply(c, arm);
      var c2 := Apply(c1, if deliveredFirst then Delivery(arm.turn, first) else Terminal(arm.turn, true, first));
      var c3 := Apply(c2, if deliveredFirst then Terminal(arm.turn, true, second) else Delivery(arm.turn, second));
      && c2.pending == Some(RequestOf(c, arm)) && !c2.phase.Committed? && c2.pipe == c.pipe
      && c3.freezes == c.freezes + 1
      && (second.Whole? ==>
            && c3.phase.Committed? && c3.pending == Some(RequestOf(c, arm)) && c3.resumes == c.resumes
            && c3.pipe == c.pipe + [Frame(RequestOf(c, arm), Whole)])
      && (!second.Whole? ==>
            && c3.phase.Cancelled? && c3.pending.None? && c3.resumes == c.resumes + 1
            && c3.pipe == c.pipe + if second.Torn? then [Frame(RequestOf(c, arm), second)] else [])
  {
    ArmsIff(c, arm);
    var c1 := Apply(c, arm);
    hide RequestOf, Grantable;
    FirstHalf(c1, arm.turn, deliveredFirst, first);
    var c2 := Apply(c1, if deliveredFirst then Delivery(arm.turn, first) else Terminal(arm.turn, true, first));
    SecondHalf(c2, arm.turn, deliveredFirst, second);
    hide Apply;
  }

  lemma FirstHalf(c: Coordinator, turn: string, deliveredFirst: bool, write: Write)
    requires c.phase.Armed? && c.pending.Some? && c.pending.value.turn == turn && !c.turnDone && !c.delivered
    ensures Apply(c, if deliveredFirst then Delivery(turn, write) else Terminal(turn, true, write)) ==
      if deliveredFirst then c.(delivered := true) else c.(turnDone := true, phase := WaitingDelivery)
  {
  }

  lemma SecondHalf(c: Coordinator, turn: string, deliveredFirst: bool, write: Write)
    requires !c.phase.Committed? && c.pending.Some? && c.pending.value.turn == turn && (if deliveredFirst then c.delivered else c.turnDone)
    ensures var d := Apply(c, if deliveredFirst then Terminal(turn, true, write) else Delivery(turn, write));
      && d.freezes == c.freezes
      && (write.Whole? ==>
            && d.phase.Committed? && d.pending == c.pending && d.resumes == c.resumes
            && d.pipe == c.pipe + [Frame(c.pending.value, Whole)])
      && (!write.Whole? ==>
            && d.phase.Cancelled? && d.pending.None? && d.resumes == c.resumes + 1
            && d.pipe == c.pipe + if write.Torn? then [Frame(c.pending.value, write)] else [])
  {
  }

  /** A turn that failed, an answer that was not delivered, or the request's own watchdog gives it up, and admission resumes. */
  lemma UnearnedRestartsAreGivenUp(c: Coordinator, e: Event)
    requires c.pending.Some? && !c.phase.Committed?
    requires match e
      case Terminal(turn, completed, _) => turn == c.pending.value.turn && !completed
      case DeliveryFailed(turn) => turn == c.pending.value.turn
      case Watchdog(task) => OwnWatchdog(c, task)
      case _ => false
    ensures var d := Apply(c, e);
      && d.phase.Cancelled? && d.pending.None? && d.timer.None? && d.lastError.Some?
      && d.resumes == c.resumes + 1 && d.freezes == c.freezes && d.pipe == c.pipe
  {
  }
}
