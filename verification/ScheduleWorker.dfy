/**
 One round of the schedule worker (cloud/scheduler.py, `run_once`) against the store
 object, when nothing else happens in between. It is proved to be a path of the
 worker machine in `ScheduleFires`, where everything else may happen in between.
 */
module ScheduleWorker {
  import opened Prelude
  import opened StoreSpec
  import opened StoreInvariant
  import opened ScheduleFires
  import opened CloudStoreTables
  import CloudSchedule

  lemma {:induction false} OneMoreMove(p: Plant, moves: seq<Move>, m: Move)
    requires Playable(p, moves) && Possible(Play(p, moves), m)
    ensures Playable(p, moves + [m]) && Play(p, moves + [m]) == Act(Play(p, moves), m)
    decreases |moves|
  {
    hide Possible, Act;
    if moves == [] {
      assert [m][1..] == [] && [] + [m] == [m];
      assert Play(Act(p, m), []) == Act(p, m);
    } else {
      OneMoreMove(Act(p, moves[0]), moves[1..], m);
      assert (moves + [m])[1..] == moves[1..] + [m];
    }
  }

  lemma {:induction false} MovesCompose(p: Plant, moves: seq<Move>, more: seq<Move>)
    requires Playable(p, moves) && Playable(Play(p, moves), more)
    ensures Playable(p, moves + more) && Play(p, moves + more) == Play(Play(p, moves), more)
    decreases |moves|
  {
    hide Possible, Act;
    if moves == [] {
      assert moves + more == more;
    } else {
      MovesCompose(Act(p, moves[0]), moves[1..], more);
      assert (moves + more)[1..] == moves[1..] + more;
    }
  }

  /** A plant with a single worker. */
  function Alone(db: Db, w: WorkerId, pc: FirePc): Plant {
    Plant(db, map[w := pc])
  }

  lemma SoundJobsCanRepeat(db: Db)
    requires LedgerOk(db)
    ensures forall j :: j in db.jobs && db.jobs[j].trigger.Every? ==> db.jobs[j].cron != "" || db.jobs[j].interval > 0
  {
    hide Located, FiredTokens;
    forall j | j in db.jobs && db.jobs[j].trigger.Every? ensures db.jobs[j].cron != "" || db.jobs[j].interval > 0 {
      assert Balanced(db.jobs[j], db.initial[j], FiredTokens(db, j));
    }
  }

  // ---------- what each move of a lone worker does ----------

  lemma AfterClaim(db: Db, w: WorkerId, m: Move)
    requires m.Claim? && m.w == w && m.minted !in db.issued
    ensures Possible(Alone(db, w, Resting), m)
    ensures var tx := ClaimJob(db, m.lapsed, m.candidates, w, m.now, m.lease, m.minted, m.cron);
      Act(Alone(db, w, Resting), m) == Alone(tx.db, w,
        if tx.out.Ok? && tx.out.value.Some? && tx.out.value.value in tx.db.jobs
        then Claimed(tx.out.value.value, tx.db.jobs[tx.out.value.value]) else Resting)
  {
    hide ClaimJob;
    assert map[w := Resting][w := NextPc(Alone(db, w, Resting), m)] == map[w := NextPc(Alone(db, w, Resting), m)];
  }

  lemma {:induction false} ClaimedIsStored(jobs: map<JobId, Job>, candidates: seq<JobId>, w: WorkerId, now: Time, lease: int,
                                           minted: Token, cron: Cron)
    ensures var claim := ClaimFrom(jobs, candidates, w, now, lease, minted, cron); claim.1.Some? ==> claim.1.value in claim.0
    decreases |candidates|
  {
    if candidates != [] {
      var j := candidates[0];
      var next := if j in jobs && Due(jobs[j], now) && Misfired(jobs[j], now) then jobs[j := Skip(jobs[j], now, cron)] else jobs;
      ClaimedIsStored(next, candidates[1..], w, now, lease, minted, cron);
    }
  }

  lemma AfterDelivery(db: Db, w: WorkerId, jid: JobId, job: Job, mid: MsgId, rid: RunId)
    ensures var p, m := Alone(db, w, Claimed(jid, job)), Deliver(w, mid, rid);
      var tx := DeliverJob(db, jid, w, TokenAt(Claimed(jid, job)), mid, rid);
      Possible(p, m) && Act(p, m) == Alone(tx.db, w,
        if tx.out.Ok? then Delivered(jid, job) else if tx.out.error.Busy? then Postponing(jid, job) else Faulted(jid, job))
  {
    hide DeliverJob;
    var p, m := Alone(db, w, Claimed(jid, job)), Deliver(w, mid, rid);
    assert p.workers[w := NextPc(p, m)] == map[w := NextPc(p, m)];
  }

  lemma AfterFinish(db: Db, w: WorkerId, jid: JobId, job: Job, now: Time, cron: Cron)
    ensures var p, m := Alone(db, w, Delivered(jid, job)), Finish(w, now, cron);
      var tx := FinishJob(db, jid, w, TokenAt(Delivered(jid, job)), FinishedStatus(job, now, cron), Decremented(job),
                          NextRun(job, now, cron), "");
      Possible(p, m) && Act(p, m) == Alone(tx.db, w, if tx.out.Ok? then Resting else Faulted(jid, job))
  {
    hide FinishJob, FinishedStatus, NextRun, Decremented;
    var p, m := Alone(db, w, Delivered(jid, job)), Finish(w, now, cron);
    assert p.workers[w := NextPc(p, m)] == map[w := NextPc(p, m)];
  }

  lemma AfterPostpone(db: Db, w: WorkerId, jid: JobId, job: Job, now: Time)
    ensures var p, m := Alone(db, w, Postponing(jid, job)), Postpone(w, now);
      Possible(p, m) && Act(p, m) == Alone(
        FinishJob(db, jid, w, TokenAt(Postponing(jid, job)), JobPending, job.remaining, Some(now + 5 * SECOND),
                  "conversation has an active passive Run").db, w, Resting)
  {
    hide FinishJob;
    var p, m := Alone(db, w, Postponing(jid, job)), Postpone(w, now);
    assert p.workers[w := Resting] == map[w := Resting];
  }

  lemma AfterGivingUp(db: Db, w: WorkerId, jid: JobId, job: Job, error: string)
    ensures var p, m := Alone(db, w, Faulted(jid, job)), GiveUp(w, error);
      Possible(p, m) && Act(p, m) == Alone(
        FinishJob(db, jid, w, TokenAt(Faulted(jid, job)), JobFailed, job.remaining, None, error).db, w, Resting)
  {
    hide FinishJob;
    var p, m := Alone(db, w, Faulted(jid, job)), GiveUp(w, error);
    assert p.workers[w := Resting] == map[w := Resting];
  }

  // ---------- the round ----------

  /** The normal end of a round, and what is recorded when even that is refused. */
  method Settle(store: CloudStore, jid: JobId, job: Job, w: WorkerId, now: Time, cron: Cron, error: string)
    returns (ghost moves: seq<Move>)
    modifies store
    ensures Playable(Alone(old(store.View()), w, Delivered(jid, job)), moves)
    ensures Play(Alone(old(store.View()), w, Delivered(jid, job)), moves) == Alone(store.View(), w, Resting)
  {
    hide Possible, Act, FinishJob, NextRun;
    ghost var p := Alone(store.View(), w, Delivered(jid, job));
    var token := TokenAt(Delivered(jid, job));
    var remaining := if job.remaining > 0 then job.remaining - 1 else job.remaining;
    var next := CloudSchedule.NextRunAt(job, now, cron);
    var status := if next.Some? && remaining != 0 then JobPending else JobCompleted;
    AfterFinish(store.View(), w, jid, job, now, cron);
    var done := store.FinishScheduledJob(jid, w, token, status, remaining, next, "");
    moves := [Finish(w, now, cron)];
    OneMoreMove(p, [], Finish(w, now, cron));
    if done.Err? {
      AfterGivingUp(store.View(), w, jid, job, error);
      var _ := store.FinishScheduledJob(jid, w, token, JobFailed, job.remaining, None, error);
      OneMoreMove(p, moves, GiveUp(w, error));
      moves := moves + [GiveUp(w, error)];
    }
  }

  /** After the claim: deliver, settle; postpone when the conversation is busy; record any other error as a failure. */
  method Work(store: CloudStore, jid: JobId, job: Job, w: WorkerId, mid: MsgId, rid: RunId, later: Time, cron: Cron, error: string)
    returns (ghost moves: seq<Move>)
    modifies store
    ensures Playable(Alone(old(store.View()), w, Claimed(jid, job)), moves)
    ensures Play(Alone(old(store.View()), w, Claimed(jid, job)), moves) == Alone(store.View(), w, Resting)
  {
    hide Possible, Act, FinishJob, DeliverJob, NextRun;
    ghost var p := Alone(store.View(), w, Claimed(jid, job));
    var token := TokenAt(Claimed(jid, job));
    AfterDelivery(store.View(), w, jid, job, mid, rid);
    var sent := store.DeliverScheduledJob(jid, w, token, mid, rid);
    moves := [Deliver(w, mid, rid)];
    OneMoreMove(p, [], Deliver(w, mid, rid));
    if sent.Ok? {
      ghost var rest := Settle(store, jid, job, w, later, cron, error);
      MovesCompose(p, moves, rest);
      moves := moves + rest;
    } else if sent.error.Busy? {
      AfterPostpone(store.View(), w, jid, job, later);
      var _ := store.FinishScheduledJob(jid, w, token, JobPending, job.remaining, Some(later + 5 * SECOND),
                                        "conversation has an active passive Run");
      OneMoreMove(p, moves, Postpone(w, later));
      moves := moves + [Postpone(w, later)];
    } else {
      AfterGivingUp(store.View(), w, jid, job, error);
      var _ := store.FinishScheduledJob(jid, w, token, JobFailed, job.remaining, None, error);
      OneMoreMove(p, moves, GiveUp(w, error));
      moves := moves + [GiveUp(w, error)];
    }
  }

  /** `run_once`: false when there was nothing to claim; either way the invariant and the accounting of fires are kept. */
  method RunOnce(store: CloudStore, w: WorkerId, lapsed: seq<JobId>, candidates: seq<JobId>, now: Time, lease: int,
                 minted: Token, mid: MsgId, rid: RunId, later: Time, cron: Cron, error: string)
    returns (worked: bool, ghost moves: seq<Move>)
    requires PlantOk(Alone(store.View(), w, Resting)) && minted !in store.issued
    requires forall i :: 0 <= i < |lapsed| ==> lapsed[i] in store.jobs && LeaseLapsed(store.jobs[lapsed[i]], now)
    requires forall i, j :: 0 <= i < j < |lapsed| ==> lapsed[i] != lapsed[j]
    modifies store
    ensures Playable(Alone(old(store.View()), w, Resting), moves) && PlantOk(Alone(store.View(), w, Resting))
    ensures Play(Alone(old(store.View()), w, Resting), moves) == Alone(store.View(), w, Resting)
    ensures !worked ==> |moves| == 1
  {
    ghost var p := Alone(store.View(), w, Resting);
    SoundJobsCanRepeat(store.View());
    hide Possible, Act, ClaimJob, PlantOk, Play, Playable;
    ghost var m := Claim(w, lapsed, candidates, now, lease, minted, cron);
    AfterClaim(store.View(), w, m);
    ClaimedIsStored(Sweep(store.View().jobs, lapsed, now), candidates, w, now, lease, minted, cron);
    var claim := store.ClaimNextScheduledJob(lapsed, candidates, w, now, lease, minted, cron);
    moves := [m];
    OneClaim(p, m);
    worked := claim.value.Some?;
    if worked {
      ghost var rest := Work(store, claim.value.value, store.jobs[claim.value.value], w, mid, rid, later, cron, error);
      MovesCompose(p, moves, rest);
      moves := moves + rest;
    }
    PlayKeeps(p, moves);
  }

  lemma OneClaim(p: Plant, m: Move)
    requires Possible(p, m)
    ensures Playable(p, [m]) && Play(p, [m]) == Act(p, m)
  {
    OneMoreMove(p, [], m);
    assert [] + [m] == [m];
  }
}
