/**
 What becomes of a Run, column by column and over every history: abandoned Runs are
 tried again, cancelled ones never start, failures are kept, and leases last exactly
 as long as they were given for.
 */
module RunRecovery {
  import opened Prelude
  import opened RunRow
  import opened StoreSpec
  import opened StoreInvariant
  import opened RunHistory

  // ---------- one transaction, one row ----------

  /** The step a transaction takes on one row, if it takes any. */
  function StepFor(db: Db, a: Action, rid: RunId): Option<RowStep>
    requires rid in db.runs
  {
    match a
    case Work(AClaimRun(r, w, now, lease)) =>
      if r == rid && ClaimRun(db, r, w, now, lease).out == Ok(Some(rid)) then Some(Start(w, now, lease)) else None
    case Work(AComplete(r, w, mid, content, now)) =>
      if r == rid && CompleteRun(db, r, w, mid, content, now).out.Ok? then Some(Complete(mid, now)) else None
    case Work(AHeartbeat(r, w, now, lease)) =>
      if r == rid && Owns(db.runs[rid], w) then Some(Heartbeat(now, lease)) else None
    case Work(ACancelOwned(r, w, now)) => if r == rid && Owns(db.runs[rid], w) then Some(Acknowledge(now)) else None
    case Work(AFail(r, w, content, now)) => if r == rid && Owns(db.runs[rid], w) then Some(Fail(content, now)) else None
    case Work(ARequestCancel(user, r, now)) =>
      if r == rid && db.runs[rid].user == user then Some(RequestCancel(now)) else None
    case Work(ARuntime(r, name, content)) => if r == rid then Some(Note(name, content)) else None
    case Work(ARequeue(picked, now)) =>
      if rid in picked && Expired(db.runs[rid], now) then Some(Expire(now)) else None
    case _ => None
  }

  function Stepped(r: Run, s: Option<RowStep>): Run {
    if s.Some? then Step(r, s.value) else r
  }

  lemma ClaimStep(db: Db, r: RunId, w: WorkerId, now: Time, lease: int, rid: RunId)
    requires rid in db.runs
    ensures var after := ClaimRun(db, r, w, now, lease).db.runs;
      rid in after && after[rid] == Stepped(db.runs[rid], StepFor(db, Work(AClaimRun(r, w, now, lease)), rid))
    ensures StepFor(db, Work(AClaimRun(r, w, now, lease)), rid).Some? ==> db.runs[rid].status.Queued?
  {
    hide Step, RunningIn;
  }

  lemma CompleteStep(db: Db, r: RunId, w: WorkerId, mid: MsgId, content: string, now: Time, rid: RunId)
    requires rid in db.runs
    ensures var after := CompleteRun(db, r, w, mid, content, now).db.runs;
      rid in after && after[rid] == Stepped(db.runs[rid], StepFor(db, Work(AComplete(r, w, mid, content, now)), rid))
    ensures StepFor(db, Work(AComplete(r, w, mid, content, now)), rid).Some? ==> Owns(db.runs[rid], w)
  {
    hide Step, Clashes;
  }

  lemma OwnerStep(db: Db, a: WorkAction, rid: RunId)
    requires rid in db.runs && (a.AHeartbeat? || a.ACancelOwned? || a.AFail?)
    ensures var after := ApplyWork(db, a).runs;
      rid in after && after[rid] == Stepped(db.runs[rid], StepFor(db, Work(a), rid))
    ensures StepFor(db, Work(a), rid).Some? ==> Owns(db.runs[rid], a.worker)
  {
    hide Step;
  }

  lemma PlainStep(db: Db, a: WorkAction, rid: RunId)
    requires rid in db.runs && (a.ARequestCancel? || a.ARuntime?)
    ensures var after := ApplyWork(db, a).runs;
      rid in after && after[rid] == Stepped(db.runs[rid], StepFor(db, Work(a), rid))
  {
    hide Step;
  }

  /** A transaction changes a row by the step it takes on it, and by nothing else. */
  lemma RowFollows(db: Db, a: Action, rid: RunId)
    requires rid in db.runs
    ensures var after := Apply(db, a).runs;
      rid in after && after[rid] == Stepped(db.runs[rid], StepFor(db, a, rid))
    ensures StepFor(db, a, rid).Some? ==> Allowed(db.runs[rid], StepFor(db, a, rid).value)
  {
    match a
    case Mail(m) =>
      MailAdds(db, m);
      hide ApplyMail;
    case Scheduling(j) =>
      JobAdds(db, j);
      hide ApplyJob;
    case Ticking(t) =>
      TickAdds(db, t);
      hide ApplyTick;
    case Work(w) => WorkRowFollows(db, w, rid);
  }

  lemma WorkRowFollows(db: Db, a: WorkAction, rid: RunId)
    requires rid in db.runs
    ensures var after := ApplyWork(db, a).runs;
      rid in after && after[rid] == Stepped(db.runs[rid], StepFor(db, Work(a), rid))
    ensures StepFor(db, Work(a), rid).Some? ==> Allowed(db.runs[rid], StepFor(db, Work(a), rid).value)
  {
    hide Step, ClaimRun, CompleteRun, HeartbeatRun, CancelOwnedRun, FailRun, RequestCancelRun, AppendRuntime;
    match a
    case AClaimRun(r, w, now, lease) => ClaimStep(db, r, w, now, lease, rid);
    case AComplete(r, w, mid, content, now) => CompleteStep(db, r, w, mid, content, now, rid);
    case ARequestCancel(_, _, _) => PlainStep(db, a, rid);
    case ARuntime(_, _, _) => PlainStep(db, a, rid);
    case ARequeue(picked, now) =>
      if Expired(db.runs[rid], now) {
        ExpireIsAStep(db.runs[rid], now);
      }
      hide ExpireRow;
    case _ => OwnerStep(db, a, rid);
  }

  // ---------- abandoned Runs ----------

  /**
   The reaper, column by column. A picked Run whose lease has lapsed is queued again with
   its attempts counted, or ended cancelled if that was requested; any other row stays.
   */
  lemma LapsedRunsAreRecovered(db: Db, picked: seq<RunId>, now: Time, rid: RunId)
    requires rid in db.runs
    ensures rid in RequeueExpired(db, picked, now).runs
    ensures var r, r' := db.runs[rid], RequeueExpired(db, picked, now).runs[rid];
      if rid in picked && r.status.Running? && r.expires.Some? && r.expires.value < now then
        if r.cancelRequested.Some?
        then r' == r.(status := Cancelled, completed := Some(now), owner := None, expires := None, log := r'.log)
        else r' == r.(status := Queued, owner := None, expires := None, log := r'.log)
      else r' == r
  {
  }

  /**
   A Run whose worker is gone is tried again: recovered without a cancellation request it
   can be claimed at once, and the claim is the next attempt.
   */
  lemma AbandonedRunsAreTriedAgain(db: Db, picked: seq<RunId>, now: Time, rid: RunId, worker: WorkerId, later: Time, lease: int)
    requires Inv(db) && rid in db.runs && rid in picked
    requires db.runs[rid].status.Running? && db.runs[rid].expires.value < now && db.runs[rid].cancelRequested.None?
    ensures var db' := RequeueExpired(db, picked, now);
      && rid in Claimable(db')
      && var claim := ClaimRun(db', rid, worker, later, lease);
      && claim.out == Ok(Some(rid))
      && claim.db.runs[rid].status.Running? && claim.db.runs[rid].owner == Some(worker)
      && claim.db.runs[rid].attempt == db.runs[rid].attempt + 1
  {
    var db' := RequeueExpired(db, picked, now);
    forall id | id in db.runs ensures id in db'.runs && (db'.runs[id].status.Running? ==> db.runs[id].status.Running? && id != rid)
    {
      LapsedRunsAreRecovered(db, picked, now, id);
    }
    LapsedRunsAreRecovered(db, picked, now, rid);
    assert !RunningIn(db'.runs, db'.runs[rid].conv) by {
      forall id | id in db'.runs && db'.runs[id].status.Running? ensures db'.runs[id].conv != db'.runs[rid].conv {
        LapsedRunsAreRecovered(db, picked, now, id);
        assert id in db.runs;
      }
    }
    hide Inv, RequeueExpired;
    CurrentReadClaims(db', rid, worker, later, lease);
  }

  /** Neither a claim of this Run nor a cancellation request for it. */
  predicate LeavesQueued(a: Action, rid: RunId) {
    a.Work? ==> !(a.work.AClaimRun? && a.work.rid == rid) && !(a.work.ARequestCancel? && a.work.rid == rid)
  }

  predicate AllLeaveQueued(history: seq<Action>, rid: RunId) {
    forall i :: 0 <= i < |history| ==> LeavesQueued(history[i], rid)
  }

  /** A queued Run is never lost: until it is claimed or cancelled it stays queued, at the same attempt. */
  lemma {:induction false} QueuedRunsWait(db: Db, history: seq<Action>, rid: RunId)
    requires rid in db.runs && db.runs[rid].status.Queued? && AllLeaveQueued(history, rid)
    ensures rid in Exec(db, history).runs
    ensures Exec(db, history).runs[rid] == db.runs[rid].(log := Exec(db, history).runs[rid].log)
    decreases |history|
  {
    if history != [] {
      RowFollows(db, history[0], rid);
      hide Apply;
      assert LeavesQueued(history[0], rid);
      QueuedRunsWait(Apply(db, history[0]), history[1..], rid);
    }
  }

  // ---------- cancelled before it started ----------

  /** Behind the end of a legal stream stand runtime notes only. */
  lemma {:induction false} NothingAfterTheEnd(log: seq<RunEvent>, n: nat)
    requires n <= |log| && Replay(log).Live? && Replay(log[..n]).Live? && Terminal(Replay(log[..n]).account.status)
    ensures forall i :: n <= i < |log| ==> log[i].kind.Runtime?
    ensures Replay(log) == Replay(log[..n])
    decreases |log|
  {
    if n < |log| {
      var front := log[..|log| - 1];
      assert front[..n] == log[..n];
      if Replay(front).Live? {
        NothingAfterTheEnd(front, n);
      }
    } else {
      assert log[..n] == log;
    }
  }

  /**
   The owner's request on a queued Run ends it there and then: over every history it is
   cancelled, at the attempt it had, without an output; it can never be claimed, and its
   stream never shows another start.
   */
  lemma QueuedCancellationIsFinal(db: Db, user: UserId, rid: RunId, now: Time, history: seq<Action>)
    requires Inv(db) && rid in db.runs && db.runs[rid].user == user && db.runs[rid].status.Queued?
    requires LawfulHistory(Apply(db, Work(ARequestCancel(user, rid, now))), history)
    ensures var r, db' := db.runs[rid], Exec(Apply(db, Work(ARequestCancel(user, rid, now))), history);
      && rid in db'.runs && rid !in Claimable(db')
      && db'.runs[rid] == r.(status := Cancelled, completed := Some(now), owner := None, expires := None, log := db'.runs[rid].log)
      && db'.runs[rid].attempt == r.attempt && db'.runs[rid].output.None?
      && r.log < db'.runs[rid].log && db'.runs[rid].log[|r.log|].kind == RunCancelled
      && forall i :: |r.log| < i < |db'.runs[rid].log| ==> db'.runs[rid].log[i].kind.Runtime?
  {
    var asked := Work(ARequestCancel(user, rid, now));
    var asked' := Apply(db, asked);
    QueuedRequestEnds(db, user, rid, now);
    RunIsSound(db, rid);
    assert db.runs[rid].output.None?;
    ActionKeeps(db, asked);
    hide Inv, Apply, RowOk;
    EndsQuietly(asked', history, rid);
    hide Exec, LawfulHistory;
  }

  /** Behind an end nothing is written but notes, over every history. */
  lemma EndsQuietly(db: Db, history: seq<Action>, rid: RunId)
    requires Inv(db) && LawfulHistory(db, history) && rid in db.runs && Terminal(db.runs[rid].status)
    ensures var r, db' := db.runs[rid], Exec(db, history);
      && rid in db'.runs && db'.runs[rid] == r.(log := db'.runs[rid].log) && r.log <= db'.runs[rid].log
      && forall i :: |r.log| <= i < |db'.runs[rid].log| ==> db'.runs[rid].log[i].kind.Runtime?
  {
    hide Inv, Exec, LawfulHistory;
    EndingsAreFinal(db, history, rid);
    HistoryKeeps(db, history);
    RunIsSound(db, rid);
    RunIsSound(Exec(db, history), rid);
    var log, log' := db.runs[rid].log, Exec(db, history).runs[rid].log;
    assert log'[..|log|] == log;
    NothingAfterTheEnd(log', |log|);
  }

  lemma QueuedRequestEnds(db: Db, user: UserId, rid: RunId, now: Time)
    requires rid in db.runs && db.runs[rid].user == user && db.runs[rid].status.Queued?
    ensures var r, after := db.runs[rid], Apply(db, Work(ARequestCancel(user, rid, now))).runs;
      && rid in after && |after[rid].log| == |r.log| + 1 && r.log < after[rid].log && after[rid].log[|r.log|].kind == RunCancelled
      && after[rid] == r.(status := Cancelled, completed := Some(now), owner := None, expires := None, log := after[rid].log)
  {
  }

  /** A request on an ended Run, or by somebody else, changes nothing. */
  lemma LateRequestsChangeNothing(db: Db, user: UserId, rid: RunId, now: Time)
    requires rid !in db.runs || db.runs[rid].user != user || Terminal(db.runs[rid].status)
    ensures Apply(db, Work(ARequestCancel(user, rid, now))) == db
  {
    if rid in db.runs {
      assert db.runs[rid := db.runs[rid]] == db.runs;
    }
  }

  // ---------- failures ----------

  /**
   The owner's failure is kept for good: failed with the given text, cut to its column, or
   cancelled if that was requested; and by anybody else it is refused without effect.
   */
  lemma FailuresAreKept(db: Db, rid: RunId, worker: WorkerId, text: string, now: Time, history: seq<Action>)
    requires Inv(db) && rid in db.runs
    requires LawfulHistory(Apply(db, Work(AFail(rid, worker, text, now))), history)
    ensures var r, db' := db.runs[rid], Exec(Apply(db, Work(AFail(rid, worker, text, now))), history);
      && rid in db'.runs
      && (r.status.Running? && r.owner == Some(worker) ==>
            var shown := if |text| <= 8000 then text else text[..8000];
            var r' := db'.runs[rid];
            r' == if r.cancelRequested.Some?
                  then r.(status := Cancelled, completed := Some(now), owner := None, expires := None, log := r'.log)
                  else r.(status := Failed, completed := Some(now), owner := None, expires := None, error := Some(shown), log := r'.log))
      && (!(r.status.Running? && r.owner == Some(worker)) ==> Apply(db, Work(AFail(rid, worker, text, now))) == db)
  {
    var a := Work(AFail(rid, worker, text, now));
    FailedRow(db, rid, worker, text, now);
    ActionKeeps(db, a);
    hide Inv, Apply, LawfulHistory;
    RunIsSound(db, rid);
    if db.runs[rid].status.Running? && db.runs[rid].owner == Some(worker) {
      EndingsAreFinal(Apply(db, a), history, rid);
    } else {
      HistoryEvolves(db, history);
    }
    hide Exec;
  }

  lemma FailedRow(db: Db, rid: RunId, worker: WorkerId, text: string, now: Time)
    requires rid in db.runs
    ensures var r, db' := db.runs[rid], Apply(db, Work(AFail(rid, worker, text, now)));
      && rid in db'.runs
      && (r.status.Running? && r.owner == Some(worker) ==>
            var shown := if |text| <= 8000 then text else text[..8000];
            var r' := db'.runs[rid];
            r' == if r.cancelRequested.Some?
                  then r.(status := Cancelled, completed := Some(now), owner := None, expires := None, log := r'.log)
                  else r.(status := Failed, completed := Some(now), owner := None, expires := None, error := Some(shown), log := r'.log))
      && (!(r.status.Running? && r.owner == Some(worker)) ==> db' == db)
  {
  }

  // ---------- leases ----------

  /** The row is leased to the worker until exactly this instant. */
  predicate LeasedUntil(r: Run, w: WorkerId, until: Time) {
    r.status.Running? && r.owner == Some(w) && r.expires == Some(until)
  }

  /** No transaction of the worker itself about this Run, and no reaper past the instant. */
  predicate Spares(a: Action, rid: RunId, w: WorkerId, until: Time) {
    match a
    case Work(AComplete(r, worker, _, _, _)) => r != rid || worker != w
    case Work(AHeartbeat(r, worker, _, _)) => r != rid || worker != w
    case Work(ACancelOwned(r, worker, _)) => r != rid || worker != w
    case Work(AFail(r, worker, _, _)) => r != rid || worker != w
    case Work(ARequeue(_, now)) => now <= until
    case _ => true
  }

  predicate AllSpare(history: seq<Action>, rid: RunId, w: WorkerId, until: Time) {
    forall i :: 0 <= i < |history| ==> Spares(history[i], rid, w, until)
  }

  lemma SparedStep(db: Db, a: Action, rid: RunId, w: WorkerId, until: Time)
    requires rid in db.runs && LeasedUntil(db.runs[rid], w, until) && Spares(a, rid, w, until)
    ensures var after := Apply(db, a).runs;
      rid in after && LeasedUntil(after[rid], w, until) && after[rid].attempt == db.runs[rid].attempt
  {
    RowFollows(db, a, rid);
    hide Apply;
    var s := StepFor(db, a, rid);
    assert s.Some? ==> s.value.Note? || s.value.RequestCancel? by {
      if a.Work? && a.work.AComplete? {
        CompleteStep(db, a.work.rid, a.work.worker, a.work.mid, a.work.content, a.work.now, rid);
      }
      hide CompleteRun, ClaimRun;
    }
    hide StepFor;
  }

  lemma {:induction false} SparedLeaseHolds(db: Db, history: seq<Action>, rid: RunId, w: WorkerId, until: Time)
    requires rid in db.runs && LeasedUntil(db.runs[rid], w, until) && AllSpare(history, rid, w, until)
    ensures var later := Exec(db, history);
      rid in later.runs && LeasedUntil(later.runs[rid], w, until) && later.runs[rid].attempt == db.runs[rid].attempt
    decreases |history|
  {
    if history != [] {
      assert Spares(history[0], rid, w, until);
      SparedStep(db, history[0], rid, w, until);
      hide Apply, Spares, LeasedUntil;
      SparedLeaseHolds(Apply(db, history[0]), history[1..], rid, w, until);
    }
  }

  /** The instant a lease given at `now` ends: at least ten seconds ahead. */
  function LeaseEnd(now: Time, lease: int): Time {
    now + (if lease < 10 then 10 else lease) * SECOND
  }

  /** A claim that is granted, or a heartbeat that is accepted, leases the row until the end of its span. */
  lemma GrantedLease(db: Db, a: Action, rid: RunId, w: WorkerId, now: Time, lease: int)
    requires rid in db.runs
    requires (a == Work(AClaimRun(rid, w, now, lease)) && ClaimRun(db, rid, w, now, lease).out == Ok(Some(rid)))
          || (a == Work(AHeartbeat(rid, w, now, lease)) && HeartbeatRun(db, rid, w, now, lease).out.Ok?)
    ensures rid in Apply(db, a).runs && LeasedUntil(Apply(db, a).runs[rid], w, LeaseEnd(now, lease))
    ensures Apply(db, a).runs[rid].heartbeat == Some(now)
  {
    hide RunningIn;
  }

  /**
   A lease lasts exactly as long as it was given for. Through every history in which the
   worker itself does nothing more about the Run and no reaper is ahead of the lease's end,
   the worker owns the Run; no reaper up to that end takes it, and any reaper past it that
   picks the Run does.
   */
  lemma LeasesLastExactly(db: Db, a: Action, history: seq<Action>, rid: RunId, w: WorkerId, now: Time, lease: int)
    requires rid in db.runs
    requires (a == Work(AClaimRun(rid, w, now, lease)) && ClaimRun(db, rid, w, now, lease).out == Ok(Some(rid)))
          || (a == Work(AHeartbeat(rid, w, now, lease)) && HeartbeatRun(db, rid, w, now, lease).out.Ok?)
    requires AllSpare(history, rid, w, LeaseEnd(now, lease))
    ensures var later := Exec(Apply(db, a), history);
      && rid in later.runs && later.runs[rid].status.Running? && later.runs[rid].owner == Some(w)
      && (forall picked, t :: t <= now + (if lease < 10 then 10 else lease) * SECOND ==>
            rid in RequeueExpired(later, picked, t).runs && RequeueExpired(later, picked, t).runs[rid] == later.runs[rid])
      && (forall picked, t :: t > now + (if lease < 10 then 10 else lease) * SECOND && rid in picked ==>
            rid in RequeueExpired(later, picked, t).runs && RequeueExpired(later, picked, t).runs[rid].owner.None?
            && !RequeueExpired(later, picked, t).runs[rid].status.Running?)
  {
    GrantedLease(db, a, rid, w, now, lease);
    hide Apply, ClaimRun, HeartbeatRun;
    SparedLeaseHolds(Apply(db, a), history, rid, w, LeaseEnd(now, lease));
    var later := Exec(Apply(db, a), history);
    hide Exec;
    forall picked, t ensures rid in RequeueExpired(later, picked, t).runs {
    }
    forall picked, t | t <= LeaseEnd(now, lease) ensures RequeueExpired(later, picked, t).runs[rid] == later.runs[rid] {
      LapsedRunsAreRecovered(later, picked, t, rid);
    }
    forall picked, t | t > LeaseEnd(now, lease) && rid in picked
      ensures RequeueExpired(later, picked, t).runs[rid].owner.None? && !RequeueExpired(later, picked, t).runs[rid].status.Running?
    {
      LapsedRunsAreRecovered(later, picked, t, rid);
    }
  }

  // ---------- what a worker is told ----------

  /** A granted claim, column by column: the next attempt, leased to the claimer; the first start is remembered. */
  lemma ClaimedColumns(db: Db, rid: RunId, worker: WorkerId, now: Time, lease: int)
    requires rid in db.runs
    ensures var tx := ClaimRun(db, rid, worker, now, lease);
      var r, r' := db.runs[rid], tx.db.runs[rid];
      && (rid in Claimable(db) <==> tx.out == Ok(Some(rid)))
      && (rid !in Claimable(db) ==> tx == Tx(db, Ok(None)))
      && (rid in Claimable(db) ==>
            && tx.db == db.(runs := db.runs[rid := r'])
            && r' == r.(status := Running, owner := Some(worker), expires := Some(LeaseEnd(now, lease)), heartbeat := Some(now),
                        started := if r.started.Some? then r.started else Some(now), attempt := r.attempt + 1, log := r'.log))
  {
    hide RunningIn;
  }

  /** A heartbeat is taken from the owner of the running Run only, and tells it whether to stop. */
  lemma HeartbeatTells(db: Db, rid: RunId, worker: WorkerId, now: Time, lease: int)
    requires rid in db.runs
    ensures var tx, r := HeartbeatRun(db, rid, worker, now, lease), db.runs[rid];
      if r.status.Running? && r.owner == Some(worker)
      then tx == Tx(db.(runs := db.runs[rid := r.(heartbeat := Some(now), expires := Some(LeaseEnd(now, lease)))]),
                    Ok(r.cancelRequested.Some?))
      else tx == Tx(db, Err(NotOwner))
  {
  }

  /**
   The owner's completion under a new message id: the Run is completed with that output,
   or, if a cancellation was requested, ended cancelled without one, and the answer says which.
   */
  lemma CompletionTells(db: Db, rid: RunId, worker: WorkerId, mid: MsgId, content: string, now: Time)
    requires rid in db.runs && db.runs[rid].conv in db.convs && mid !in db.messageIds
    ensures var tx, r := CompleteRun(db, rid, worker, mid, content, now), db.runs[rid];
      if !(r.status.Running? && r.owner == Some(worker)) then tx == Tx(db, Err(NotOwner))
      else
        && tx.out == Ok(r.cancelRequested.None?) && rid in tx.db.runs
        && tx.db.runs[rid] == r.(
             status := if r.cancelRequested.Some? then Cancelled else Completed, completed := Some(now), owner := None, expires := None,
             output := if r.cancelRequested.Some? then r.output else Some(mid), log := tx.db.runs[rid].log)
        && (r.cancelRequested.Some? ==> tx.db.convs == db.convs)
  {
    hide HasKey;
  }

  /** A note is stored behind what the stream holds, under the next number, and stays there over every history. */
  lemma NotesAreKept(db: Db, rid: RunId, name: string, data: string, history: seq<Action>)
    requires Inv(db) && rid in db.runs && LawfulHistory(Apply(db, Work(ARuntime(rid, name, data))), history)
    ensures var db' := Exec(Apply(db, Work(ARuntime(rid, name, data))), history);
      && rid in db'.runs && |db.runs[rid].log| < |db'.runs[rid].log|
      && db'.runs[rid].log[|db.runs[rid].log|] == RunEvent(|db.runs[rid].log| + 1, Runtime(name, data))
  {
    var a := Work(ARuntime(rid, name, data));
    RunIsSound(db, rid);
    NotedRow(db, rid, name, data);
    ActionKeeps(db, a);
    HistoryEvolves(Apply(db, a), history);
    hide Inv, Apply, Exec, LawfulHistory;
  }

  lemma NotedRow(db: Db, rid: RunId, name: string, data: string)
    requires rid in db.runs && RowOk(db.runs[rid])
    ensures var r, after := db.runs[rid], Apply(db, Work(ARuntime(rid, name, data))).runs;
      rid in after && after[rid] == r.(log := r.log + [RunEvent(|r.log| + 1, Runtime(name, data))])
  {
    MaxOfNumbered(db.runs[rid].log);
  }
}
