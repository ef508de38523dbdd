/**
 The life of a scheduled job over every history (cloud/store.py): ended jobs stay as they
 ended and fire no more, no user ever has more than ten active ones, leases on fires last
 as long as they were given for, and only a late first attempt is a misfire.
 */
module JobLife {
  import opened Prelude
  import opened RunRow
  import opened CatchUp
  import opened StoreSpec
  import opened StoreInvariant
  import opened ScheduleFires
  import opened SchedulePhase
  import opened FireContents

  // ---------- the end ----------

  predicate Ended(job: Job) {
    job.status.JobCompleted? || job.status.JobCancelled? || job.status.JobFailed? || job.status.JobMissed?
  }

  lemma {:induction false} ClaimLeavesEnded(jobs: map<JobId, Job>, candidates: seq<JobId>, w: WorkerId, now: Time, lease: int,
                                            minted: Token, cron: Cron, j: JobId)
    requires j in jobs && !jobs[j].status.JobPending?
    ensures var after := ClaimFrom(jobs, candidates, w, now, lease, minted, cron).0; j in after && after[j] == jobs[j]
    decreases |candidates|
  {
    hide Skip, Fire;
    if candidates != [] {
      var c := candidates[0];
      if c in jobs && Due(jobs[c], now) && Misfired(jobs[c], now) {
        ClaimLeavesEnded(jobs[c := Skip(jobs[c], now, cron)], candidates[1..], w, now, lease, minted, cron, j);
      } else if c !in jobs || !Due(jobs[c], now) {
        ClaimLeavesEnded(jobs, candidates[1..], w, now, lease, minted, cron, j);
      }
    }
  }

  lemma EndedIsUnowned(db: Db, j: JobId)
    requires Inv(db) && j in db.jobs && Ended(db.jobs[j])
    ensures db.jobs[j].owner.None?
  {
  }

  /** A claim touches pending jobs and lapsed leases only. */
  lemma ClaimTouches(db: Db, lapsed: seq<JobId>, candidates: seq<JobId>, w: WorkerId, now: Time, lease: int, minted: Token,
                     cron: Cron, j: JobId)
    requires j in db.jobs && !db.jobs[j].status.JobPending?
    requires db.jobs[j].status.JobRunning? ==> db.jobs[j].expires.Some? && now <= db.jobs[j].expires.value
    ensures var after := ClaimJob(db, lapsed, candidates, w, now, lease, minted, cron).db.jobs; j in after && after[j] == db.jobs[j]
  {
    ClaimLeavesEnded(Sweep(db.jobs, lapsed, now), candidates, w, now, lease, minted, cron, j);
    hide ClaimFrom;
  }

  /** A cancellation touches a pending job only. */
  lemma CancelTouches(db: Db, user: UserId, jid: JobId, j: JobId)
    requires j in db.jobs && (jid != j || !db.jobs[j].status.JobPending?)
    ensures var after := CancelJob(db, user, jid).db.jobs; j in after && after[j] == db.jobs[j]
  {
  }

  /** A heartbeat and a finish touch only the fire whose lease they name. */
  lemma HeartbeatTouches(db: Db, jid: JobId, w: WorkerId, token: Token, now: Time, lease: int, j: JobId)
    requires j in db.jobs
    requires jid != j || db.jobs[j].owner != Some(OwnerName(w)) || db.jobs[j].token != Some(token)
    ensures var after := HeartbeatJob(db, jid, w, token, now, lease).db.jobs; j in after && after[j] == db.jobs[j]
  {
  }

  lemma FinishTouches(db: Db, a: JobAction, j: JobId)
    requires a.AFinishJob? && j in db.jobs
    requires a.jid != j || db.jobs[j].owner != Some(OwnerName(a.worker)) || db.jobs[j].token != Some(a.token)
    ensures var after := ApplyJob(db, a).jobs; j in after && after[j] == db.jobs[j]
  {
    ApplyFinish(db, a);
    FinishExactly(db, a.jid, a.worker, a.token, a.status, a.remaining, a.next, a.error);
    hide ApplyJob, FinishJob, Settled;
  }

  lemma JobActionTouches(db: Db, a: JobAction, j: JobId)
    requires j in db.jobs && !db.jobs[j].status.JobPending?
    requires a.AClaimJob? && db.jobs[j].status.JobRunning? ==> db.jobs[j].expires.Some? && a.now <= db.jobs[j].expires.value
    requires a.AHeartbeatJob? || a.AFinishJob? ==>
      a.jid != j || db.jobs[j].owner != Some(OwnerName(a.worker)) || db.jobs[j].token != Some(a.token)
    ensures j in ApplyJob(db, a).jobs && ApplyJob(db, a).jobs[j] == db.jobs[j]
  {
    hide ClaimJob, CancelJob, HeartbeatJob, FinishJob, DeliverJob, CreateJob;
    match a
    case ACreateJob(_, _, _, _, _, _, _, _, _, _, _) => CreateOnlyAdds(db, a);
    case AClaimJob(lapsed, candidates, w, now, lease, minted, cron) =>
      ClaimTouches(db, lapsed, candidates, w, now, lease, minted, cron, j);
    case ADeliverJob(_, _, _, _, _) => DeliverLeavesPlans(db, a);
    case AFinishJob(_, _, _, _, _, _, _) => FinishTouches(db, a, j);
    case ACancelJob(user, jid) => CancelTouches(db, user, jid, j);
    case AHeartbeatJob(jid, w, token, now, lease) => HeartbeatTouches(db, jid, w, token, now, lease, j);
  }

  lemma ActionLeavesEnded(db: Db, a: Action, j: JobId)
    requires Inv(db) && j in db.jobs && Ended(db.jobs[j])
    ensures j in Apply(db, a).jobs && Apply(db, a).jobs[j] == db.jobs[j]
  {
    EndedIsUnowned(db, j);
    hide Inv, ApplyMail, ApplyWork, ApplyJob, ApplyTick;
    match a
    case Mail(m) => MailLeavesJobs(db, m);
    case Work(w) => WorkLeavesJobs(db, w);
    case Scheduling(s) => JobActionTouches(db, s, j);
    case Ticking(t) => TickLeavesJobs(db, t);
  }

  /** The same keys stand for fires of the job. */
  ghost predicate SameFires(db: Db, db': Db, j: JobId) {
    j in db.jobs && j in db'.jobs && forall t :: Fired(db', j, t) <==> Fired(db, j, t)
  }

  lemma SameKeysSameFires(db: Db, db': Db, j: JobId)
    requires SameKeys(db, db') && j in db.jobs && j in db'.jobs && db'.jobs[j] == db.jobs[j]
    ensures SameFires(db, db', j)
  {
    hide HasKey;
  }

  lemma DeliveryFiresOnlyRunning(db: Db, a: JobAction, j: JobId)
    requires a.ADeliverJob? && j in db.jobs && Ended(db.jobs[j])
    ensures SameFires(db, ApplyJob(db, a), j)
  {
    DeliverEffect(db, a.jid, a.worker, a.token, a.mid, a.rid);
    hide DeliverJob, HasKey;
  }

  lemma ActionFiresNoEnded(db: Db, a: Action, j: JobId)
    requires Inv(db) && j in db.jobs && Ended(db.jobs[j])
    ensures SameFires(db, Apply(db, a), j)
  {
    ActionLeavesEnded(db, a, j);
    if a.Scheduling? && a.job.ADeliverJob? {
      DeliveryFiresOnlyRunning(db, a.job, j);
    } else {
      AnySameKeys(db, a);
      hide Apply, SameKeys;
      SameKeysSameFires(db, Apply(db, a), j);
    }
    hide Apply, Inv, Fired;
  }

  /** No transaction but a delivery changes the keys of fires. */
  lemma AnySameKeys(db: Db, a: Action)
    requires !(a.Scheduling? && a.job.ADeliverJob?)
    ensures SameKeys(db, Apply(db, a))
  {
    hide ApplyMail, ApplyWork, ApplyJob, ApplyTick, SameKeys;
    match a
    case Mail(m) => MailSameKeys(db, m);
    case Work(w) => WorkSameKeys(db, w);
    case Scheduling(j) => JobSameKeys(db, j);
    case Ticking(t) => TickSameKeys(db, t);
  }

  /** A job that is completed, cancelled, failed or missed stays exactly as it ended over every history, and fires no more. */
  lemma {:induction false} EndedJobsStayEnded(db: Db, history: seq<Action>, j: JobId)
    requires Inv(db) && LawfulHistory(db, history) && j in db.jobs && Ended(db.jobs[j])
    ensures j in Exec(db, history).jobs && Exec(db, history).jobs[j] == db.jobs[j]
    ensures SameFires(db, Exec(db, history), j)
    decreases |history|
  {
    hide Inv, Apply, Fired;
    if history != [] {
      ActionLeavesEnded(db, history[0], j);
      ActionFiresNoEnded(db, history[0], j);
      ActionKeeps(db, history[0]);
      EndedJobsStayEnded(Apply(db, history[0]), history[1..], j);
    }
  }

  /** So a job its user cancelled while it was pending never fires again. */
  lemma CancelledJobsNeverFire(db: Db, user: UserId, j: JobId, history: seq<Action>)
    requires Inv(db) && j in db.jobs && db.jobs[j].user == user && db.jobs[j].status.JobPending?
    requires LawfulHistory(Apply(db, Scheduling(ACancelJob(user, j))), history)
    ensures var later := Exec(Apply(db, Scheduling(ACancelJob(user, j))), history);
      && j in later.jobs && later.jobs[j] == db.jobs[j].(status := JobCancelled)
      && SameFires(db, later, j)
  {
    var a := Scheduling(ACancelJob(user, j));
    assert Apply(db, a).jobs[j] == db.jobs[j].(status := JobCancelled);
    ActionKeeps(db, a);
    AnySameKeys(db, a);
    assert forall t :: Fired(Apply(db, a), j, t) <==> Fired(db, j, t) by {
      hide HasKey, Apply;
    }
    hide Inv, Apply, Fired, LawfulHistory;
    EndedJobsStayEnded(Apply(db, a), history, j);
  }

  // ---------- at most ten ----------

  ghost predicate TenAtMost(db: Db) {
    forall user :: |ActiveJobs(db, user)| <= 10
  }

  lemma NoNewActives(db: Db, db': Db, user: UserId)
    requires PlansStay(db.jobs, db'.jobs) && db'.jobs.Keys == db.jobs.Keys
    requires forall j :: j in db.jobs && Ended(db.jobs[j]) ==> db'.jobs[j] == db.jobs[j]
    ensures ActiveJobs(db', user) <= ActiveJobs(db, user)
  {
    forall j | j in ActiveJobs(db', user) ensures j in ActiveJobs(db, user) {
      assert SamePlan(db.jobs[j], db'.jobs[j]);
    }
  }

  lemma FewerActives(a: set<JobId>, b: set<JobId>)
    requires a <= b
    ensures |a| <= |b|
  {
    assert b == a + (b - a);
  }

  lemma CreationKeepsTen(db: Db, a: JobAction)
    requires TenAtMost(db) && a.ACreateJob?
    ensures TenAtMost(ApplyJob(db, a))
  {
    var db' := ApplyJob(db, a);
    CreationStoresThePlan(db, a.jid, a.user, a.conv, a.tier, a.trigger, a.cronText, a.interval, a.message, a.prompt, a.runAt, a.remaining);
    CreateOnlyAdds(db, a);
    assert db' == CreateJob(db, a.jid, a.user, a.conv, a.tier, a.trigger, a.cronText, a.interval, a.message, a.prompt, a.runAt,
                            a.remaining).db;
    hide ApplyJob, CreateJob;
    if db' != db {
      forall user ensures |ActiveJobs(db', user)| <= 10 {
        OneMoreActive(db, db', a.jid, user);
      }
    }
  }

  lemma OneMoreActive(db: Db, db': Db, jid: JobId, user: UserId)
    requires jid !in db.jobs && db'.jobs.Keys == db.jobs.Keys + {jid} && forall j :: j in db.jobs ==> db'.jobs[j] == db.jobs[j]
    requires |ActiveJobs(db, user)| <= 10 && (db'.jobs[jid].user == user ==> |ActiveJobs(db, user)| < 10)
    ensures |ActiveJobs(db', user)| <= 10
  {
    var before, after := ActiveJobs(db, user), ActiveJobs(db', user);
    forall j | j in after && j != jid ensures j in before {
      assert j in db.jobs.Keys;
    }
    if jid in after {
      assert db'.jobs[jid].user == user;
      hide ActiveJobs;
      FewerActives(after - {jid}, before);
      assert |after| == |after - {jid}| + 1;
    } else {
      hide ActiveJobs;
      FewerActives(after, before);
    }
  }

  lemma OtherJobsAddNone(db: Db, a: JobAction)
    requires !a.ACreateJob?
    ensures ApplyJob(db, a).jobs.Keys == db.jobs.Keys
  {
    match a
    case AClaimJob(lapsed, candidates, w, now, lease, minted, cron) =>
      ClaimSteady(db, lapsed, candidates, w, now, lease, minted, cron);
      hide ClaimJob, Steady;
    case ADeliverJob(_, _, _, _, _) =>
      DeliverLeavesPlans(db, a);
      hide ApplyJob;
    case _ =>
  }

  lemma ActionKeepsTen(db: Db, a: Action)
    requires Inv(db) && TenAtMost(db)
    ensures TenAtMost(Apply(db, a))
  {
    if a.Scheduling? && a.job.ACreateJob? {
      CreationKeepsTen(db, a.job);
    } else {
      var db' := Apply(db, a);
      assert db'.jobs.Keys == db.jobs.Keys by {
        hide ApplyMail, ApplyWork, ApplyJob, ApplyTick;
        match a
        case Mail(m) => MailLeavesJobs(db, m);
        case Work(w) => WorkLeavesJobs(db, w);
        case Scheduling(j) => OtherJobsAddNone(db, j);
        case Ticking(t) => TickLeavesJobs(db, t);
      }
      ActionPlansStay(db, a);
      forall j | j in db.jobs && Ended(db.jobs[j]) ensures db'.jobs[j] == db.jobs[j] {
        ActionLeavesEnded(db, a, j);
      }
      hide Inv, Apply, SamePlan;
      forall user ensures |ActiveJobs(db', user)| <= 10 {
        NoNewActives(db, db', user);
        FewerActives(ActiveJobs(db', user), ActiveJobs(db, user));
      }
    }
  }

  lemma {:induction false} HistoryKeepsTen(db: Db, history: seq<Action>)
    requires Inv(db) && TenAtMost(db) && LawfulHistory(db, history)
    ensures TenAtMost(Exec(db, history))
    decreases |history|
  {
    hide Inv, TenAtMost, Apply;
    if history != [] {
      ActionKeepsTen(db, history[0]);
      ActionKeeps(db, history[0]);
      HistoryKeepsTen(Apply(db, history[0]), history[1..]);
    }
  }

  /** In every reachable state a user has at most ten pending or running jobs. */
  lemma AtMostTenActive(history: seq<Action>, user: UserId)
    requires LawfulHistory(EMPTY_DB, history)
    ensures var db := Exec(EMPTY_DB, history);
      |set j | j in db.jobs && db.jobs[j].user == user && (db.jobs[j].status.JobPending? || db.jobs[j].status.JobRunning?)| <= 10
  {
    NothingHappened();
    ReachableIsSound([]);
    assert TenAtMost(EMPTY_DB) by {
      assert forall u :: ActiveJobs(EMPTY_DB, u) == {};
    }
    HistoryKeepsTen(EMPTY_DB, history);
    hide Exec, LawfulHistory;
    var db := Exec(EMPTY_DB, history);
    assert |ActiveJobs(db, user)| <= 10;
    assert ActiveJobs(db, user) ==
      set j | j in db.jobs && db.jobs[j].user == user && (db.jobs[j].status.JobPending? || db.jobs[j].status.JobRunning?);
  }

  // ---------- finishing ----------

  /** A finish by the holder, column by column: the lease is given back, and the token is spent exactly if the job waits again. */
  lemma FinishedColumns(db: Db, j: JobId, w: WorkerId, token: Token, status: JobStatus, remaining: int, next: Option<Time>, error: string)
    ensures var tx := FinishJob(db, j, w, token, status, remaining, next, error);
      if j in db.jobs && db.jobs[j].owner == Some(OwnerName(w)) && db.jobs[j].token == Some(token)
      then tx == Tx(db.(jobs := db.jobs[j := db.jobs[j].(
                    status := status, remaining := remaining, runAt := if next.Some? then next.value else db.jobs[j].runAt,
                    lastError := if |error| <= 500 then error else error[..500], owner := None, expires := None,
                    token := if status == JobPending then None else Some(token))]), Ok(()))
      else tx == Tx(db, Err(NotOwner))
  {
  }

  // ---------- misfires ----------

  lemma {:induction false} NotACandidate(jobs: map<JobId, Job>, candidates: seq<JobId>, w: WorkerId, now: Time, lease: int,
                                         minted: Token, cron: Cron, j: JobId)
    requires j in jobs && j !in candidates
    ensures var after := ClaimFrom(jobs, candidates, w, now, lease, minted, cron).0; j in after && after[j] == jobs[j]
    decreases |candidates|
  {
    hide Skip, Fire;
    if candidates != [] {
      var c := candidates[0];
      if c in jobs && Due(jobs[c], now) && Misfired(jobs[c], now) {
        NotACandidate(jobs[c := Skip(jobs[c], now, cron)], candidates[1..], w, now, lease, minted, cron, j);
      } else if c !in jobs || !Due(jobs[c], now) {
        NotACandidate(jobs, candidates[1..], w, now, lease, minted, cron, j);
      }
    }
  }

  lemma FirstOfMany(jobs: map<JobId, Job>, candidates: seq<JobId>, w: WorkerId, now: Time, lease: int, minted: Token, cron: Cron)
    requires candidates != [] && candidates[0] in jobs && candidates[0] !in candidates[1..]
    requires jobs[candidates[0]].status.JobPending? && jobs[candidates[0]].runAt <= now
    ensures var j := candidates[0];
      var job, claim := jobs[j], ClaimFrom(jobs, candidates, w, now, lease, minted, cron);
      if job.token.Some? || now - job.runAt <= 300 * SECOND
      then claim == (jobs[j := Fire(job, w, now, lease, minted)], Some(j))
      else j in claim.0 && claim.0[j] == Skip(job, now, cron)
  {
    var j := candidates[0];
    hide Skip, Fire;
    if Misfired(jobs[j], now) {
      NotACandidate(jobs[j := Skip(jobs[j], now, cron)], candidates[1..], w, now, lease, minted, cron, j);
    }
  }

  lemma FiredRow(job: Job, w: WorkerId, now: Time, lease: int, minted: Token)
    ensures Fire(job, w, now, lease, minted) ==
      job.(status := JobRunning, owner := Some(OwnerName(w)), expires := Some(now + (if lease < 10 then 10 else lease) * SECOND),
           token := if job.token.Some? then job.token else Some(minted))
  {
  }

  /** The first candidate, due and not leased, is leased to the claimer with its token kept, unless it is a late first attempt. */
  lemma FirstCandidateIsClaimedIff(db: Db, candidates: seq<JobId>, w: WorkerId, now: Time, lease: int, minted: Token, cron: Cron)
    requires candidates != [] && candidates[0] in db.jobs && candidates[0] !in candidates[1..]
    requires db.jobs[candidates[0]].status.JobPending? && db.jobs[candidates[0]].runAt <= now
    ensures var j := candidates[0];
      var job, tx := db.jobs[j], ClaimJob(db, [], candidates, w, now, lease, minted, cron);
      && j in tx.db.jobs
      && (tx.db.jobs[j].status.JobRunning? <==> job.token.Some? || now - job.runAt <= 300 * SECOND)
      && (tx.db.jobs[j].status.JobRunning? ==>
            && tx.out == Ok(Some(j))
            && tx.db.jobs == db.jobs[j := job.(status := JobRunning, owner := Some(OwnerName(w)),
                 expires := Some(now + (if lease < 10 then 10 else lease) * SECOND),
                 token := if job.token.Some? then job.token else Some(minted))])
  {
    var job := db.jobs[candidates[0]];
    assert Sweep(db.jobs, [], now) == db.jobs;
    FirstOfMany(db.jobs, candidates, w, now, lease, minted, cron);
    FiredRow(job, w, now, lease, minted);
    SkippedIsNotRunning(job, now, cron);
    hide ClaimFrom, Fire, Skip, Sweep, IsNextSlot;
  }

  /** A late first attempt of a repeating job moves on to a slot past now, any other is missed. */
  lemma SkippedIsNotRunning(job: Job, now: Time, cron: Cron)
    requires job.status.JobPending?
    ensures var skipped := Skip(job, now, cron);
      if job.trigger.Every? || (job.interval > 0 && job.remaining > 1)
      then
        && skipped.status.JobPending? && skipped.token == job.token
        && (job.cron != "" ==> skipped.runAt == cron(job.cron, now))
        && (job.cron == "" && job.interval > 0 ==> IsNextSlot(job.runAt, job.interval * SECOND, now, skipped.runAt))
      else skipped == job.(status := JobMissed, lastError := "missed while scheduler was offline")
  {
    if job.interval > 0 {
      NextSlotIsLeast(job.runAt, job.interval * SECOND, now);
    }
    hide NextSlot;
  }

  // ---------- leases on fires ----------

  /** The fire is leased to the worker until exactly this instant. */
  predicate FireLeasedUntil(job: Job, w: WorkerId, token: Token, until: Time) {
    job.status.JobRunning? && job.owner == Some(OwnerName(w)) && job.token == Some(token) && job.expires == Some(until)
  }

  /** Nothing more by the holder about this fire, and no claim, which sweeps lapsed leases, past the instant. */
  predicate SparesFire(a: Action, j: JobId, w: WorkerId, token: Token, until: Time) {
    match a
    case Scheduling(AClaimJob(_, _, _, now, _, _, _)) => now <= until
    case Scheduling(AHeartbeatJob(jid, worker, t, _, _)) => jid != j || OwnerName(worker) != OwnerName(w) || t != token
    case Scheduling(AFinishJob(jid, worker, t, _, _, _, _)) => jid != j || OwnerName(worker) != OwnerName(w) || t != token
    case _ => true
  }

  predicate AllSpareFire(history: seq<Action>, j: JobId, w: WorkerId, token: Token, until: Time) {
    forall i :: 0 <= i < |history| ==> SparesFire(history[i], j, w, token, until)
  }

  lemma SparedFireStep(db: Db, a: Action, j: JobId, w: WorkerId, token: Token, until: Time)
    requires j in db.jobs && FireLeasedUntil(db.jobs[j], w, token, until) && SparesFire(a, j, w, token, until)
    ensures j in Apply(db, a).jobs && Apply(db, a).jobs[j] == db.jobs[j]
  {
    hide ApplyMail, ApplyWork, ApplyJob, ApplyTick;
    match a
    case Mail(m) => MailLeavesJobs(db, m);
    case Work(k) => WorkLeavesJobs(db, k);
    case Scheduling(s) => JobActionTouches(db, s, j);
    case Ticking(t) => TickLeavesJobs(db, t);
  }

  lemma {:induction false} SparedFireHolds(db: Db, history: seq<Action>, j: JobId, w: WorkerId, token: Token, until: Time)
    requires j in db.jobs && FireLeasedUntil(db.jobs[j], w, token, until) && AllSpareFire(history, j, w, token, until)
    ensures j in Exec(db, history).jobs && Exec(db, history).jobs[j] == db.jobs[j]
    decreases |history|
  {
    if history != [] {
      assert SparesFire(history[0], j, w, token, until);
      SparedFireStep(db, history[0], j, w, token, until);
      hide Apply, SparesFire, FireLeasedUntil;
      SparedFireHolds(Apply(db, history[0]), history[1..], j, w, token, until);
    }
  }

  /** An accepted heartbeat leases the fire from now for its span, and changes nothing else of the job; anybody else's is refused. */
  lemma HeartbeatLeasesFire(db: Db, j: JobId, w: WorkerId, token: Token, now: Time, lease: int)
    ensures var tx := HeartbeatJob(db, j, w, token, now, lease);
      var accepted :=
        j in db.jobs && db.jobs[j].status.JobRunning? && db.jobs[j].owner == Some(OwnerName(w)) && db.jobs[j].token == Some(token);
      && (tx.out.Ok? <==> accepted)
      && tx.db == if accepted
                  then db.(jobs := db.jobs[j := db.jobs[j].(expires := Some(now + (if lease < 10 then 10 else lease) * SECOND))])
                  else db
  {
  }

  /**
   A lease on a fire lasts exactly as long as it was given for: through every history in
   which its holder does nothing more about it and no claim is past the end, the row stays;
   a sweep up to that end leaves it, one past it gives it back, with its token.
   */
  lemma FireLeasesLastExactly(db: Db, history: seq<Action>, j: JobId, w: WorkerId, token: Token, until: Time)
    requires j in db.jobs && FireLeasedUntil(db.jobs[j], w, token, until) && AllSpareFire(history, j, w, token, until)
    ensures var later := Exec(db, history);
      && j in later.jobs && later.jobs[j] == db.jobs[j]
      && (forall worker, lapsed, t, lease, minted, cron :: t <= until ==>
            var claimed := ClaimJob(later, lapsed, [], worker, t, lease, minted, cron).db;
            j in claimed.jobs && claimed.jobs[j] == db.jobs[j])
      && (forall worker, lapsed, t, lease, minted, cron :: t > until && j in lapsed ==>
            var claimed := ClaimJob(later, lapsed, [], worker, t, lease, minted, cron).db;
            j in claimed.jobs && claimed.jobs[j] == db.jobs[j].(status := JobPending, owner := None, expires := None))
  {
    SparedFireHolds(db, history, j, w, token, until);
    hide Exec;
  }
}
