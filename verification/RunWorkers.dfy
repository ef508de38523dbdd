/**
 The Run worker program (cloud/worker.py) over the store: claim one Run, renew the
 lease while it executes, then complete, acknowledge a cancellation or record a
 failure. Workers may stall past their lease and go on as zombies, crash at any
 point, and interleave with one another and with everybody else.
 */
module RunWorkers {
  import opened Prelude
  import opened RunRow
  import opened StoreSpec
  import opened StoreInvariant
  import opened RunHistory

  /** Where a worker stands in `run_once`, and which claim (Run and attempt) it is working for. */
  datatype Pc =
    | Idle
    | Executing(rid: RunId, attempt: nat)
    | Cancelling(rid: RunId, attempt: nat)
    | Failing(rid: RunId, attempt: nat)

  /** Worker identifiers are distinct: each names one worker, which does one Run at a time. */
  datatype System = System(db: Db, workers: map<WorkerId, Pc>)

  /**
   `Raise` is an error of the executor, also one raised while its cancellation is awaited.
   `Report` is output or a tool event of the executor that some attempt started. It may
   outlive the round that started it, so any attempt ever made may still write.
   */
  datatype Move =
    | Claim(w: WorkerId, rid: RunId, now: Time, lease: int)
    | Renew(w: WorkerId, now: Time, lease: int)
    | Finish(w: WorkerId, mid: MsgId, content: string, now: Time)
    | AcknowledgeCancel(w: WorkerId, now: Time)
    | Raise(w: WorkerId)
    | Report(w: WorkerId, rid: RunId, attempt: nat, name: string, content: string)
    | RecordFailure(w: WorkerId, content: string, now: Time)
    | Abandon(w: WorkerId)
    | Elsewhere(a: Action)

  /** Transactions that only Run workers issue. */
  predicate IsWorkerAction(a: Action) {
    a.Work? && (a.work.AClaimRun? || a.work.AComplete? || a.work.AHeartbeat? || a.work.ACancelOwned? || a.work.AFail?
                || a.work.ARuntime?)
  }

  predicate Possible(s: System, m: Move) {
    match m
    case Elsewhere(a) => Lawful(s.db, a) && !IsWorkerAction(a)
    case _ =>
      m.w in s.workers &&
      var pc := s.workers[m.w];
      match m
      case Claim(_, _, _, _) => pc.Idle?
      case Renew(_, _, _) => pc.Executing?
      case Finish(_, _, _, _) => pc.Executing?
      case AcknowledgeCancel(_, _) => pc.Cancelling?
      case Raise(_) => pc.Executing? || pc.Cancelling?
      case Report(_, rid, attempt, _, _) => rid in s.db.runs && 1 <= attempt <= s.db.runs[rid].attempt
      case RecordFailure(_, _, _) => pc.Failing?
      case _ => true
  }

  /** The transaction a move performs, if any. */
  function TransactionOf(s: System, m: Move): Option<Action>
    requires Possible(s, m)
  {
    match m
    case Claim(w, rid, now, lease) => Some(Work(AClaimRun(rid, w, now, lease)))
    case Renew(w, now, lease) => Some(Work(AHeartbeat(s.workers[w].rid, w, now, lease)))
    case Finish(w, mid, content, now) => Some(Work(AComplete(s.workers[w].rid, w, mid, content, now)))
    case AcknowledgeCancel(w, now) => Some(Work(ACancelOwned(s.workers[w].rid, w, now)))
    case RecordFailure(w, content, now) => Some(Work(AFail(s.workers[w].rid, w, content, now)))
    case Report(_, rid, _, name, content) => Some(Work(ARuntime(rid, name, content)))
    case Raise(_) => None
    case Abandon(_) => None
    case Elsewhere(a) => Some(a)
  }

  /** What the worker does with the answer: a refused transaction raises, and a failure is recorded or given up. */
  function NextPc(s: System, m: Move): Pc
    requires Possible(s, m) && !m.Elsewhere?
  {
    var pc := s.workers[m.w];
    match m
    case Claim(w, rid, now, lease) =>
      if ClaimRun(s.db, rid, w, now, lease).out == Ok(Some(rid)) then Executing(rid, s.db.runs[rid].attempt + 1) else Idle
    case Renew(w, now, lease) =>
      (match HeartbeatRun(s.db, pc.rid, w, now, lease).out
       case Ok(cancelled) => if cancelled then Cancelling(pc.rid, pc.attempt) else pc
       case Err(_) => Failing(pc.rid, pc.attempt))
    case Finish(w, mid, content, now) =>
      if CompleteRun(s.db, pc.rid, w, mid, content, now).out.Ok? then Idle else Failing(pc.rid, pc.attempt)
    case AcknowledgeCancel(w, now) =>
      if CancelOwnedRun(s.db, pc.rid, w, now).out.Ok? then Idle else Failing(pc.rid, pc.attempt)
    case Raise(_) => Failing(pc.rid, pc.attempt)
    case Report(_, _, _, _, _) => pc
    case RecordFailure(_, _, _) => Idle
    case Abandon(_) => Idle
  }

  function Act(s: System, m: Move): System
    requires Possible(s, m)
  {
    var db := if TransactionOf(s, m).Some? then Apply(s.db, TransactionOf(s, m).value) else s.db;
    System(db, if m.Elsewhere? then s.workers else s.workers[m.w := NextPc(s, m)])
  }

  predicate Playable(s: System, moves: seq<Move>)
    decreases |moves|
  {
    moves == [] || (Possible(s, moves[0]) && Playable(Act(s, moves[0]), moves[1..]))
  }

  function Play(s: System, moves: seq<Move>): System
    requires Playable(s, moves)
    decreases |moves|
  {
    if moves == [] then s else Play(Act(s, moves[0]), moves[1..])
  }

  // ---------- the invariant ----------

  /**
   Each worker's claim was really made; no two workers hold the same attempt of a
   Run; and a Run that still names the worker as owner is at that very attempt.
   */
  ghost predicate ClaimsOk(runs: map<RunId, Run>, workers: map<WorkerId, Pc>) {
    && (forall w :: w in workers && !workers[w].Idle? ==>
          && workers[w].rid in runs
          && 1 <= workers[w].attempt <= runs[workers[w].rid].attempt
          && (Owns(runs[workers[w].rid], w) ==> runs[workers[w].rid].attempt == workers[w].attempt))
    && (forall v, w | v in workers && w in workers && v != w && !workers[v].Idle? && !workers[w].Idle?
          && workers[v].rid == workers[w].rid :: workers[v].attempt != workers[w].attempt)
  }

  ghost predicate SystemOk(s: System) {
    Inv(s.db) && ClaimsOk(s.db.runs, s.workers)
  }

  /** Rows keep their attempt, and name no new owner. */
  ghost predicate NoNewOwner(runs: map<RunId, Run>, runs': map<RunId, Run>) {
    forall id :: id in runs ==>
      id in runs' && runs'[id].attempt == runs[id].attempt && (runs'[id].owner == runs[id].owner || runs'[id].owner.None?)
  }

  lemma StepNamesNoOwner(db: Db, rid: RunId, s: RowStep)
    requires rid in db.runs && Allowed(db.runs[rid], s) && !s.Start?
    ensures NoNewOwner(db.runs, OnRun(db, rid, s).runs)
  {
    StepEffect(db.runs[rid], s);
    hide Step;
  }

  lemma RequeueNamesNoOwner(db: Db, picked: seq<RunId>, now: Time)
    ensures NoNewOwner(db.runs, RequeueExpired(db, picked, now).runs)
  {
  }

  lemma CompleteNamesNoOwner(db: Db, rid: RunId, worker: WorkerId, mid: MsgId, content: string, now: Time)
    ensures NoNewOwner(db.runs, CompleteRun(db, rid, worker, mid, content, now).db.runs)
  {
    hide Step, Clashes;
    if OwnerError(db, rid, worker).None? {
      StepNamesNoOwner(db, rid, Complete(mid, now));
    }
  }

  lemma WorkNamesNoOwner(db: Db, a: WorkAction)
    requires !a.AClaimRun?
    ensures NoNewOwner(db.runs, ApplyWork(db, a).runs)
  {
    assert NoNewOwner(db.runs, db.runs);
    hide OnRun, NoNewOwner, CompleteRun, RequeueExpired;
    match a {
      case ARequeue(picked, now) => RequeueNamesNoOwner(db, picked, now);
      case AComplete(rid, worker, mid, content, now) => CompleteNamesNoOwner(db, rid, worker, mid, content, now);
      case AHeartbeat(rid, worker, now, lease) =>
        if OwnerError(db, rid, worker).None? { StepNamesNoOwner(db, rid, Heartbeat(now, lease)); }
      case ACancelOwned(rid, worker, now) =>
        if OwnerError(db, rid, worker).None? { StepNamesNoOwner(db, rid, Acknowledge(now)); }
      case AFail(rid, worker, content, now) =>
        if OwnerError(db, rid, worker).None? { StepNamesNoOwner(db, rid, Fail(content, now)); }
      case ARequestCancel(user, rid, now) =>
        if rid in db.runs { StepNamesNoOwner(db, rid, RequestCancel(now)); }
      case ARuntime(rid, name, content) =>
        if rid in db.runs { StepNamesNoOwner(db, rid, Note(name, content)); }
    }
  }

  lemma ActionNamesNoOwner(db: Db, a: Action)
    requires !(a.Work? && a.work.AClaimRun?)
    ensures NoNewOwner(db.runs, Apply(db, a).runs)
  {
    hide ApplyMail, ApplyWork, ApplyJob, ApplyTick;
    match a
    case Mail(m) => MailAdds(db, m);
    case Work(w) => WorkNamesNoOwner(db, w);
    case Scheduling(j) => JobAdds(db, j);
    case Ticking(t) => TickAdds(db, t);
  }

  /** With no new owner, claims survive whatever the worker at `w` does next with its own claim. */
  lemma ClaimsSurvive(runs: map<RunId, Run>, runs': map<RunId, Run>, workers: map<WorkerId, Pc>, w: WorkerId, pc: Pc)
    requires ClaimsOk(runs, workers) && NoNewOwner(runs, runs') && RunsOk(runs)
    requires w in workers
    requires pc.Idle? || (!workers[w].Idle? && pc.rid == workers[w].rid && pc.attempt == workers[w].attempt)
    ensures ClaimsOk(runs', workers[w := pc])
  {
    hide Journaled;
  }

  /** A successful claim makes a new attempt, higher than any a worker holds. */
  lemma StartKeepsClaims(runs: map<RunId, Run>, workers: map<WorkerId, Pc>, w: WorkerId, rid: RunId, r: Run)
    requires ClaimsOk(runs, workers) && w in workers && rid in runs
    requires r.attempt == runs[rid].attempt + 1 && r.owner == Some(w)
    ensures ClaimsOk(runs[rid := r], workers[w := Executing(rid, r.attempt)])
  {
  }

  lemma StayIdleKeepsClaims(runs: map<RunId, Run>, workers: map<WorkerId, Pc>, w: WorkerId)
    requires ClaimsOk(runs, workers) && w in workers
    ensures ClaimsOk(runs, workers[w := Idle])
  {
  }

  lemma ClaimKeeps(s: System, w: WorkerId, rid: RunId, now: Time, lease: int)
    requires ClaimsOk(s.db.runs, s.workers) && w in s.workers && s.workers[w].Idle?
    ensures ClaimsOk(ClaimRun(s.db, rid, w, now, lease).db.runs,
                     s.workers[w := NextPc(s, Claim(w, rid, now, lease))])
  {
    hide ClaimsOk, Step;
    StayIdleKeepsClaims(s.db.runs, s.workers, w);
    if ClaimRun(s.db, rid, w, now, lease).out == Ok(Some(rid)) {
      var r := Step(s.db.runs[rid], Start(w, now, lease));
      StepEffect(s.db.runs[rid], Start(w, now, lease));
      StartKeepsClaims(s.db.runs, s.workers, w, rid, r);
    }
  }

  lemma ClaimMoveKeeps(s: System, m: Move)
    requires SystemOk(s) && Possible(s, m) && m.Claim?
    ensures ClaimsOk(Act(s, m).db.runs, Act(s, m).workers)
  {
    hide Inv, Apply, ClaimsOk, ClaimRun, NextPc;
    ClaimKeeps(s, m.w, m.rid, m.now, m.lease);
    ApplyClaim(s.db, m.rid, m.w, m.now, m.lease);
  }

  /** Between claims a worker goes on with its own claim or drops it. */
  lemma NextPcKeepsClaim(s: System, m: Move)
    requires Possible(s, m) && !m.Elsewhere? && !m.Claim?
    ensures var pc := NextPc(s, m);
      pc.Idle? || (!s.workers[m.w].Idle? && pc.rid == s.workers[m.w].rid && pc.attempt == s.workers[m.w].attempt)
  {
    hide HeartbeatRun, CompleteRun, CancelOwnedRun;
  }

  lemma OtherMoveKeeps(s: System, m: Move)
    requires SystemOk(s) && Possible(s, m) && !m.Claim?
    ensures ClaimsOk(Act(s, m).db.runs, Act(s, m).workers)
  {
    hide Inv, Apply, ClaimsOk, NoNewOwner, NextPc;
    InvRuns(s.db);
    NothingNamesOwner(s.db.runs);
    if TransactionOf(s, m).Some? { ActionNamesNoOwner(s.db, TransactionOf(s, m).value); }
    if m.Elsewhere? {
      ClaimsSurviveElsewhere(s.db.runs, Act(s, m).db.runs, s.workers);
    } else {
      NextPcKeepsClaim(s, m);
      ClaimsSurvive(s.db.runs, Act(s, m).db.runs, s.workers, m.w, NextPc(s, m));
    }
  }

  lemma MoveKeeps(s: System, m: Move)
    requires SystemOk(s) && Possible(s, m)
    ensures SystemOk(Act(s, m))
  {
    if m.Claim? { ClaimMoveKeeps(s, m); } else { OtherMoveKeeps(s, m); }
    hide Inv, Apply, ClaimsOk, NextPc;
    if TransactionOf(s, m).Some? {
      ActionKeeps(s.db, TransactionOf(s, m).value);
    }
  }

  lemma NothingNamesOwner(runs: map<RunId, Run>)
    ensures NoNewOwner(runs, runs)
  {
  }

  lemma ApplyClaim(db: Db, rid: RunId, w: WorkerId, now: Time, lease: int)
    ensures Apply(db, Work(AClaimRun(rid, w, now, lease))) == ClaimRun(db, rid, w, now, lease).db
  {
  }

  lemma ClaimsSurviveElsewhere(runs: map<RunId, Run>, runs': map<RunId, Run>, workers: map<WorkerId, Pc>)
    requires ClaimsOk(runs, workers) && NoNewOwner(runs, runs') && RunsOk(runs)
    ensures ClaimsOk(runs', workers)
  {
    hide Journaled;
  }

  lemma {:induction false} PlayKeeps(s: System, moves: seq<Move>)
    requires SystemOk(s) && Playable(s, moves)
    ensures SystemOk(Play(s, moves))
    decreases |moves|
  {
    hide SystemOk, Act, Possible;
    if moves == [] {
    } else {
      MoveKeeps(s, moves[0]);
      PlayKeeps(Act(s, moves[0]), moves[1..]);
    }
  }

  /** The empty store with idle workers is where every system starts. */
  lemma EmptySystemIsSound(workers: map<WorkerId, Pc>)
    requires forall w :: w in workers ==> workers[w].Idle?
    ensures SystemOk(System(EMPTY_DB, workers))
  {
    ReachableIsSound([]);
  }

  // ---------- fencing ----------

  /** The Run and attempt a move works for: the worker's claim, or the attempt whose executor writes. */
  function WorksFor(s: System, m: Move): Option<(RunId, nat)>
    requires Possible(s, m) && !m.Elsewhere?
  {
    if m.Report? then Some((m.rid, m.attempt))
    else if s.workers[m.w].Idle? then None
    else Some((s.workers[m.w].rid, s.workers[m.w].attempt))
  }

  /** A move on behalf of an attempt that is no longer its Run's latest. */
  ghost predicate ByZombie(s: System, m: Move) {
    && Possible(s, m) && !m.Elsewhere? && WorksFor(s, m).Some?
    && WorksFor(s, m).value.0 in s.db.runs
    && WorksFor(s, m).value.1 < s.db.runs[WorksFor(s, m).value.0].attempt
  }

  /**
   Whatever a zombie does, every table stays as it was, but for a note its executor
   appends to the stream of its own Run: the store does not ask who writes notes.
   */
  lemma ZombiesOnlyLeaveNotes(s: System, m: Move)
    requires SystemOk(s) && ByZombie(s, m)
    ensures !m.Report? ==> Act(s, m).db == s.db
    ensures m.Report? ==> Act(s, m).db == s.db.(runs := s.db.runs[m.rid := Log(s.db.runs[m.rid], Runtime(m.name, m.content))])
    ensures Act(s, m).workers.Keys == s.workers.Keys
  {
    hide Inv;
  }

  /** The attempt a Run is at never falls, so who is a zombie once stays one. */
  lemma {:induction false} ZombiesStayZombies(s: System, moves: seq<Move>, rid: RunId, attempt: nat)
    requires SystemOk(s) && Playable(s, moves)
    requires rid in s.db.runs && attempt < s.db.runs[rid].attempt
    ensures rid in Play(s, moves).db.runs && attempt < Play(s, moves).db.runs[rid].attempt
    decreases |moves|
  {
    hide SystemOk, Act, Possible;
    if moves != [] {
      AttemptsNeverFall(s, moves[0], rid);
      MoveKeeps(s, moves[0]);
      ZombiesStayZombies(Act(s, moves[0]), moves[1..], rid, attempt);
    }
  }

  lemma AttemptsNeverFall(s: System, m: Move, rid: RunId)
    requires SystemOk(s) && Possible(s, m) && rid in s.db.runs
    ensures rid in Act(s, m).db.runs && s.db.runs[rid].attempt <= Act(s, m).db.runs[rid].attempt
  {
    if TransactionOf(s, m).Some? {
      ActionEvolves(s.db, TransactionOf(s, m).value);
    }
    hide Inv, Apply, NextPc, TransactionOf;
  }

  /** Only the holder of the latest attempt, still the named owner, ends a Run on behalf of a worker. */
  lemma OnlyTheLatestAttemptFinishes(s: System, m: Move, rid: RunId)
    requires SystemOk(s) && Possible(s, m) && !m.Elsewhere?
    requires rid in s.db.runs && !Terminal(s.db.runs[rid].status)
    requires rid in Act(s, m).db.runs && Terminal(Act(s, m).db.runs[rid].status)
    ensures !s.workers[m.w].Idle? && s.workers[m.w].rid == rid
    ensures s.workers[m.w].attempt == s.db.runs[rid].attempt && Owns(s.db.runs[rid], m.w)
  {
    OtherRowsUntouched(s, m, rid);
    hide Act, Inv, NextPc;
  }

  /** A worker's transaction touches only the Run it is about, and only as owner unless it claims or notes. */
  lemma OtherRowsUntouched(s: System, m: Move, rid: RunId)
    requires Possible(s, m) && !m.Elsewhere? && rid in s.db.runs
    ensures rid in Act(s, m).db.runs
    ensures Act(s, m).db.runs[rid] == s.db.runs[rid]
      || (m.Claim? && Act(s, m).db.runs[rid].status.Running?)
      || (m.Report? && m.rid == rid && Act(s, m).db.runs[rid] == Log(s.db.runs[rid], Runtime(m.name, m.content)))
      || (!m.Claim? && !m.Report? && !s.workers[m.w].Idle? && s.workers[m.w].rid == rid && Owns(s.db.runs[rid], m.w))
  {
    hide NextPc;
    if TransactionOf(s, m).Some? {
      WorkerRows(s.db, TransactionOf(s, m).value.work, rid);
      hide ApplyWork;
    }
  }

  lemma ClaimRows(db: Db, rid: RunId, worker: WorkerId, now: Time, lease: int, other: RunId)
    requires other in db.runs
    ensures var db' := ClaimRun(db, rid, worker, now, lease).db;
      other in db'.runs && (db'.runs[other] == db.runs[other] || db'.runs[other].status.Running?)
  {
    hide RunningIn;
  }

  lemma CompleteRows(db: Db, rid: RunId, worker: WorkerId, mid: MsgId, content: string, now: Time, other: RunId)
    requires other in db.runs
    ensures var db' := CompleteRun(db, rid, worker, mid, content, now).db;
      other in db'.runs && (db'.runs[other] == db.runs[other] || (other == rid && Owns(db.runs[other], worker)))
  {
    hide Step, Clashes;
  }

  lemma NoteRows(db: Db, rid: RunId, name: string, content: string, other: RunId)
    requires other in db.runs
    ensures var db' := AppendRuntime(db, rid, name, content).db;
      other in db'.runs && db'.runs[other] == if other == rid then Log(db.runs[other], Runtime(name, content)) else db.runs[other]
  {
    hide Log;
  }

  lemma OwnerRows(db: Db, a: WorkAction, other: RunId)
    requires other in db.runs && (a.AHeartbeat? || a.ACancelOwned? || a.AFail?)
    ensures other in ApplyWork(db, a).runs
    ensures ApplyWork(db, a).runs[other] == db.runs[other] || (other == a.rid && Owns(db.runs[other], a.worker))
  {
    hide Step, Log;
  }

  lemma WorkerRows(db: Db, a: WorkAction, rid: RunId)
    requires IsWorkerAction(Work(a)) && rid in db.runs
    ensures rid in ApplyWork(db, a).runs
    ensures ApplyWork(db, a).runs[rid] == db.runs[rid]
      || (a.AClaimRun? && ApplyWork(db, a).runs[rid].status.Running?)
      || (a.ARuntime? && a.rid == rid && ApplyWork(db, a).runs[rid] == Log(db.runs[rid], Runtime(a.name, a.content)))
      || (!a.AClaimRun? && !a.ARuntime? && a.rid == rid && Owns(db.runs[rid], a.worker))
  {
    hide ClaimRun, CompleteRun, AppendRuntime, HeartbeatRun, CancelOwnedRun, FailRun, Log, Owns;
    match a
    case AClaimRun(r, worker, now, lease) => ClaimRows(db, r, worker, now, lease, rid);
    case AComplete(r, worker, mid, content, now) => CompleteRows(db, r, worker, mid, content, now, rid);
    case ARuntime(r, name, content) => NoteRows(db, r, name, content, rid);
    case _ => OwnerRows(db, a, rid);
  }
}
