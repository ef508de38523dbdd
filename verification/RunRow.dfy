/**
 A Run row together with its durable event stream (cloud/store.py, cloud/models.py).

 Every transaction of the store moves a Run by one of the row steps below. The
 journal is an independent account of the same history: `Replay` folds the
 events of a stream and is strict, so a stream that replays at all is a legal
 life of a Run.
 */
module RunRow {
  import opened Prelude

  datatype RunStatus = Queued | Running | Completed | Failed | Cancelled

  datatype EventKind =
    | RunQueued
    | RunStarted(attempt: nat)
    | RunCancelRequested
    | RunRequeued(attempt: nat)
    | RunCompleted(output: MsgId)
    | RunFailed(error: string)
    | RunCancelled
    | Runtime(name: string, data: string)

  datatype RunEvent = RunEvent(number: nat, kind: EventKind)

  /** Keys that make an insertion idempotent. The original spells them as prefixed strings. */
  datatype Key =
    | ClientKey(text: string)
    | ChannelKey(text: string)
    | ScheduleKey(job: JobId, token: Token)
    | ScheduleInputKey(job: JobId, token: Token)
    | AutomationKey(source: string, token: Token)
    | SubagentKey(subagent: nat)
    | PushKey(token: Token)

  datatype Run = Run(
    user: UserId, conv: ConvId, input: MsgId, key: Option<Key>,
    status: RunStatus, owner: Option<WorkerId>, expires: Option<Time>, heartbeat: Option<Time>,
    attempt: nat, cancelRequested: Option<Time>, output: Option<MsgId>, error: Option<string>,
    started: Option<Time>, completed: Option<Time>, log: seq<RunEvent>)

  predicate Terminal(status: RunStatus) {
    status.Completed? || status.Failed? || status.Cancelled?
  }

  // ---------- the event stream ----------

  /** The highest number in a stream, 0 when it is empty: what the store's aggregate query returns. */
  function MaxNumber(log: seq<RunEvent>): (n: nat)
    ensures forall e :: e in log ==> e.number <= n
  {
    if |log| == 0 then 0 else Max(MaxNumber(log[..|log| - 1]), log[|log| - 1].number)
  }

  /** Appends an event with the next free number of the stream. */
  function Log(r: Run, kind: EventKind): Run {
    r.(log := r.log + [RunEvent(MaxNumber(r.log) + 1, kind)])
  }

  /** The numbers of a stream are exactly 1, 2, ..., n in order. */
  ghost predicate Numbered(log: seq<RunEvent>) {
    forall i :: 0 <= i < |log| ==> log[i].number == i + 1
  }

  lemma {:induction false} MaxOfNumbered(log: seq<RunEvent>)
    requires Numbered(log)
    ensures MaxNumber(log) == |log|
  {
    if |log| == 0 {
    } else {
      MaxOfNumbered(log[..|log| - 1]);
    }
  }

  // ---------- row steps ----------

  function Settle(r: Run, status: RunStatus, now: Time): Run {
    r.(status := status, completed := Some(now), owner := None, expires := None)
  }

  function StartRow(r: Run, worker: WorkerId, now: Time, leaseSeconds: int): Run {
    Log(r.(status := Running, owner := Some(worker), expires := Some(now + LeaseSpan(leaseSeconds)),
           heartbeat := Some(now), started := if r.started.None? then Some(now) else r.started,
           attempt := r.attempt + 1),
        RunStarted(r.attempt + 1))
  }

  function CancelRow(r: Run, now: Time): Run {
    Log(Settle(r, Cancelled, now), RunCancelled)
  }

  function CompleteRow(r: Run, output: MsgId, now: Time): Run {
    if r.cancelRequested.Some? then CancelRow(r, now)
    else Log(Settle(r, Completed, now).(output := Some(output)), RunCompleted(output))
  }

  function FailRow(r: Run, error: string, now: Time): Run {
    if r.cancelRequested.Some? then CancelRow(r, now)
    else Log(Settle(r, Failed, now).(error := Some(Clip(error, 8000))), RunFailed(Clip(error, 8000)))
  }

  function ExpireRow(r: Run, now: Time): Run {
    if r.cancelRequested.Some? then CancelRow(r, now)
    else Log(r.(status := Queued, owner := None, expires := None), RunRequeued(r.attempt))
  }

  function RequestCancelRow(r: Run, now: Time): Run {
    if r.status.Queued? then CancelRow(r, now)
    else if r.status.Running? then Log(r.(cancelRequested := Some(now)), RunCancelRequested)
    else r
  }

  function HeartbeatRow(r: Run, now: Time, leaseSeconds: int): Run {
    r.(heartbeat := Some(now), expires := Some(now + LeaseSpan(leaseSeconds)))
  }

  /** Everything that can happen to a Run row, with the parameters of the transaction that does it. */
  datatype RowStep =
    | Start(worker: WorkerId, now: Time, leaseSeconds: int)
    | Complete(output: MsgId, now: Time)
    | Fail(error: string, now: Time)
    | Acknowledge(now: Time)
    | Expire(now: Time)
    | RequestCancel(now: Time)
    | Heartbeat(now: Time, leaseSeconds: int)
    | Note(name: string, data: string)

  /** What the transaction checks on the locked row before it takes the step. */
  predicate Allowed(r: Run, s: RowStep) {
    match s
    case Start(_, _, _) => r.status.Queued?
    case RequestCancel(_) => true
    case Note(_, _) => true
    case _ => r.status.Running?
  }

  function Step(r: Run, s: RowStep): Run {
    match s
    case Start(worker, now, lease) => StartRow(r, worker, now, lease)
    case Complete(output, now) => CompleteRow(r, output, now)
    case Fail(error, now) => FailRow(r, error, now)
    case Acknowledge(now) => CancelRow(r, now)
    case Expire(now) => ExpireRow(r, now)
    case RequestCancel(now) => RequestCancelRow(r, now)
    case Heartbeat(now, lease) => HeartbeatRow(r, now, lease)
    case Note(name, data) => Log(r, Runtime(name, data))
  }

  // ---------- the journal ----------

  /** What a stream says about its Run. */
  datatype Account = Account(status: RunStatus, attempt: nat, cancelRequested: bool, output: Option<MsgId>)

  datatype Replayed = Blank | Live(account: Account) | Illegal

  /** One event of a stream, read by a strict reader. Runtime events say nothing about the Run's life. */
  function ReadEvent(s: Replayed, kind: EventKind): (r: Replayed)
    ensures r != Blank
  {
    match s
    case Illegal => Illegal
    case Blank => if kind.RunQueued? then Live(Account(Queued, 0, false, None)) else Illegal
    case Live(a) =>
      match kind
      case Runtime(_, _) => s
      case RunQueued => Illegal
      case RunStarted(n) =>
        if a.status.Queued? && n == a.attempt + 1 then Live(a.(status := Running, attempt := n)) else Illegal
      case RunCancelRequested =>
        if a.status.Running? then Live(a.(cancelRequested := true)) else Illegal
      case RunRequeued(n) =>
        if a.status.Running? && !a.cancelRequested && n == a.attempt then Live(a.(status := Queued)) else Illegal
      case RunCompleted(output) =>
        if a.status.Running? && !a.cancelRequested
        then Live(a.(status := Completed, output := Some(output))) else Illegal
      case RunFailed(_) =>
        if a.status.Running? && !a.cancelRequested then Live(a.(status := Failed)) else Illegal
      case RunCancelled =>
        if a.status.Queued? || a.status.Running? then Live(a.(status := Cancelled)) else Illegal
  }

  function Replay(log: seq<RunEvent>): Replayed {
    if |log| == 0 then Blank else ReadEvent(Replay(log[..|log| - 1]), log[|log| - 1].kind)
  }

  predicate IsTerminalKind(kind: EventKind) {
    kind.RunCompleted? || kind.RunFailed? || kind.RunCancelled?
  }

  function TerminalEvents(log: seq<RunEvent>): nat {
    if |log| == 0 then 0
    else TerminalEvents(log[..|log| - 1]) + if IsTerminalKind(log[|log| - 1].kind) then 1 else 0
  }

  /** A legal stream holds exactly one terminal event when its Run has ended, and none before. */
  lemma {:induction false} LegalStreamsEndOnce(log: seq<RunEvent>)
    requires Replay(log).Live?
    ensures TerminalEvents(log) == if Terminal(Replay(log).account.status) then 1 else 0
  {
    var before := log[..|log| - 1];
    if Replay(before).Live? {
      LegalStreamsEndOnce(before);
    } else {
      assert before == [];
    }
  }

  // ---------- invariants of a row ----------

  function AccountOf(r: Run): Account {
    Account(r.status, r.attempt, r.cancelRequested.Some?, r.output)
  }

  /** The stored columns agree with one another. */
  ghost predicate Shaped(r: Run) {
    && (r.status.Running? <==> r.owner.Some?)
    && (r.status.Running? <==> r.expires.Some?)
    && (Terminal(r.status) <==> r.completed.Some?)
    && (r.status.Completed? <==> r.output.Some?)
    && (r.status.Failed? <==> r.error.Some?)
    && (r.attempt > 0 <==> r.started.Some?)
    && (r.status.Running? ==> r.attempt > 0)
    && (r.cancelRequested.Some? ==> r.status.Running? || r.status.Cancelled?)
  }

  /** The stream is gap-free and replays to exactly the stored state. */
  ghost predicate Journaled(r: Run) {
    Numbered(r.log) && Replay(r.log) == Live(AccountOf(r))
  }

  ghost predicate RowOk(r: Run) {
    Shaped(r) && Journaled(r)
  }

  /** Logging an event the journal accepts for the same change keeps stream and columns in step. */
  lemma LogKeepsJournal(r: Run, changed: Run, kind: EventKind)
    requires Journaled(r) && changed.log == r.log
    requires ReadEvent(Live(AccountOf(r)), kind) == Live(AccountOf(changed))
    ensures Journaled(Log(changed, kind))
    ensures r.log <= Log(changed, kind).log
  {
    MaxOfNumbered(r.log);
    var log := Log(changed, kind).log;
    assert log[..|log| - 1] == r.log;
  }

  /**
   How a row may change over any stretch of time: identity is fixed, the stream
   only grows, attempts only rise, an ended Run never changes again (only
   runtime events may still be noted), and a requested cancellation dominates.
   */
  ghost predicate Evolves(r: Run, r': Run) {
    && r'.user == r.user && r'.conv == r.conv && r'.input == r.input && r'.key == r.key
    && r.log <= r'.log
    && r.attempt <= r'.attempt
    && (Terminal(r.status) ==> r' == r.(log := r'.log))
    && (r.cancelRequested.Some? ==>
          && r'.cancelRequested.Some?
          && r'.attempt == r.attempt
          && (r'.status.Running? || r'.status.Cancelled?))
  }

  lemma EvolvesTransitive(a: Run, b: Run, c: Run)
    requires Evolves(a, b) && Evolves(b, c)
    ensures Evolves(a, c)
  {
  }

  lemma StartKeepsRow(r: Run, worker: WorkerId, now: Time, leaseSeconds: int)
    requires RowOk(r) && r.status.Queued?
    ensures RowOk(StartRow(r, worker, now, leaseSeconds)) && Evolves(r, StartRow(r, worker, now, leaseSeconds))
  {
    var changed := StartRow(r, worker, now, leaseSeconds).(log := r.log);
    LogKeepsJournal(r, changed, RunStarted(r.attempt + 1));
  }

  lemma CancelKeepsRow(r: Run, now: Time)
    requires RowOk(r) && (r.status.Queued? || r.status.Running?)
    ensures RowOk(CancelRow(r, now)) && Evolves(r, CancelRow(r, now))
  {
    LogKeepsJournal(r, Settle(r, Cancelled, now), RunCancelled);
  }

  lemma SettleKeepsRow(r: Run, s: RowStep)
    requires RowOk(r) && r.status.Running? && r.cancelRequested.None?
    requires s.Complete? || s.Fail? || s.Expire?
    ensures RowOk(Step(r, s)) && Evolves(r, Step(r, s))
  {
    match s
    case Complete(output, now) =>
      LogKeepsJournal(r, Settle(r, Completed, now).(output := Some(output)), RunCompleted(output));
    case Fail(error, now) =>
      var text := Clip(error, 8000);
      LogKeepsJournal(r, Settle(r, Failed, now).(error := Some(text)), RunFailed(text));
    case Expire(_) =>
      LogKeepsJournal(r, r.(status := Queued, owner := None, expires := None), RunRequeued(r.attempt));
  }

  /** Every row step keeps a sound row sound and changes it only in an allowed direction. */
  lemma StepKeepsRow(r: Run, s: RowStep)
    requires RowOk(r) && Allowed(r, s)
    ensures RowOk(Step(r, s)) && Evolves(r, Step(r, s))
  {
    match s
    case Start(worker, now, lease) => StartKeepsRow(r, worker, now, lease);
    case Acknowledge(now) => CancelKeepsRow(r, now);
    case RequestCancel(now) =>
      if r.status.Queued? {
        CancelKeepsRow(r, now);
      } else if r.status.Running? {
        LogKeepsJournal(r, r.(cancelRequested := Some(now)), RunCancelRequested);
      }
    case Heartbeat(_, _) =>
    case Note(name, data) => LogKeepsJournal(r, r, Runtime(name, data));
    case Complete(_, now) =>
      if r.cancelRequested.Some? { CancelKeepsRow(r, now); } else { SettleKeepsRow(r, s); }
    case Fail(_, now) =>
      if r.cancelRequested.Some? { CancelKeepsRow(r, now); } else { SettleKeepsRow(r, s); }
    case Expire(now) =>
      if r.cancelRequested.Some? { CancelKeepsRow(r, now); } else { SettleKeepsRow(r, s); }
  }

  /**
   Only `Start` names an owner, and only it makes a Run running: any other step
   leaves the owner of a running Run, and its attempt, alone. Only `Complete`
   gives a Run an output, and only when no cancellation was requested.
   */
  lemma StepEffect(r: Run, s: RowStep)
    requires Allowed(r, s)
    ensures s.Start? ==> Step(r, s).owner == Some(s.worker) && Step(r, s).attempt == r.attempt + 1
    ensures !s.Start? ==> Step(r, s).attempt == r.attempt && (Step(r, s).owner == r.owner || Step(r, s).owner.None?)
    ensures !s.Start? && Step(r, s).status.Running? ==> r.status.Running?
    ensures s.Complete? && r.cancelRequested.None? ==> Step(r, s).output == Some(s.output) && Step(r, s).status.Completed?
    ensures !(s.Complete? && r.cancelRequested.None?) ==> Step(r, s).output == r.output
    ensures Step(r, s).user == r.user && Step(r, s).conv == r.conv
    ensures Step(r, s).input == r.input && Step(r, s).key == r.key
  {
  }
}
