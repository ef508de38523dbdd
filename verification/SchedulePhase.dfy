/**
 The due times of a cloud interval job over whole plays of the schedule workers: they
 stay on the grid of the first one except where a busy conversation postpones a fire,
 which starts a new grid five seconds ahead (cloud/scheduler.py, cloud/store.py).
 */
module SchedulePhase {
  import opened Prelude
  import opened RunRow
  import opened CatchUp
  import opened StoreSpec
  import opened StoreInvariant
  import opened ScheduleFires
  import opened ScheduleWorker
  import Text

  const DELAY: int := 5 * SECOND

  predicate ByInterval(job: Job) {
    job.interval > 0 && job.cron == ""
  }

  function Step(job: Job): int {
    job.interval * SECOND
  }

  /** The move is a postponement that the store accepts for this job. */
  predicate Rebases(p: Plant, m: Move, j: JobId) {
    m.Postpone? && Possible(p, m) && p.workers[m.w].jid == j && j in p.db.jobs
    && p.db.jobs[j].owner == Some(Clip(m.w, 200)) && p.db.jobs[j].token == Some(TokenAt(p.workers[m.w]))
  }

  // ---------- one move ----------

  lemma SkipStaysOnGrid(job: Job, now: Time, cron: Cron, first: Time)
    requires ByInterval(job) && OnGrid(first, Step(job), job.runAt)
    ensures OnGrid(first, Step(job), Skip(job, now, cron).runAt) && SamePlan(job, Skip(job, now, cron))
  {
    CatchUpStaysOnGrid(first, Step(job), job.runAt, now);
    hide OnGrid, NextSlot;
  }

  lemma {:induction false} ClaimStaysOnGrid(jobs: map<JobId, Job>, candidates: seq<JobId>, w: WorkerId, now: Time, lease: int,
                                            minted: Token, cron: Cron, j: JobId, first: Time)
    requires j in jobs && ByInterval(jobs[j]) && OnGrid(first, Step(jobs[j]), jobs[j].runAt)
    ensures var after := ClaimFrom(jobs, candidates, w, now, lease, minted, cron).0;
      j in after && SamePlan(jobs[j], after[j]) && OnGrid(first, Step(jobs[j]), after[j].runAt)
    decreases |candidates|
  {
    hide OnGrid, Skip;
    if candidates != [] {
      var c := candidates[0];
      if c in jobs && Due(jobs[c], now) && Misfired(jobs[c], now) {
        if c == j {
          SkipStaysOnGrid(jobs[j], now, cron, first);
        }
        ClaimStaysOnGrid(jobs[c := Skip(jobs[c], now, cron)], candidates[1..], w, now, lease, minted, cron, j, first);
      } else if c !in jobs || !Due(jobs[c], now) {
        ClaimStaysOnGrid(jobs, candidates[1..], w, now, lease, minted, cron, j, first);
      }
    }
  }

  lemma ClaimMoveStaysOnGrid(p: Plant, m: Move, j: JobId, first: Time)
    requires Possible(p, m) && m.Claim?
    requires j in p.db.jobs && ByInterval(p.db.jobs[j]) && OnGrid(first, Step(p.db.jobs[j]), p.db.jobs[j].runAt)
    ensures var after := Act(p, m).db.jobs;
      j in after && SamePlan(p.db.jobs[j], after[j]) && OnGrid(first, Step(p.db.jobs[j]), after[j].runAt)
  {
    ClaimStaysOnGrid(Sweep(p.db.jobs, m.lapsed, m.now), m.candidates, m.w, m.now, m.lease, m.minted, m.cron, j, first);
    ApplyIsClaim(p.db, TransactionOf(p, m).value.job);
    hide OnGrid, ClaimFrom, ApplyJob;
  }

  lemma ElsewhereLeavesDueTimes(p: Plant, m: Move, j: JobId)
    requires Possible(p, m) && m.Elsewhere? && j in p.db.jobs
    ensures var after := Act(p, m).db.jobs;
      j in after && SamePlan(p.db.jobs[j], after[j]) && after[j].runAt == p.db.jobs[j].runAt
  {
    hide ApplyMail, ApplyWork, ApplyTick, ApplyJob;
    match m.a
    case Mail(a) => MailLeavesJobs(p.db, a);
    case Work(a) => WorkLeavesJobs(p.db, a);
    case Ticking(a) => TickLeavesJobs(p.db, a);
    case Scheduling(a) => OutsideLeavesDueTimes(p.db, a, j);
  }

  lemma OutsideLeavesDueTimes(db: Db, a: JobAction, j: JobId)
    requires (a.ACreateJob? || a.ACancelJob? || a.AHeartbeatJob?) && j in db.jobs
    ensures var after := ApplyJob(db, a).jobs;
      j in after && SamePlan(db.jobs[j], after[j]) && after[j].runAt == db.jobs[j].runAt
  {
    hide CreateJob, CancelJob, HeartbeatJob;
    match a
    case ACreateJob(_, _, _, _, _, _, _, _, _, _, _) => CreateOnlyAdds(db, a);
    case ACancelJob(user, jid) => CancelLeavesDueTimes(db, user, jid, j);
    case AHeartbeatJob(jid, w, token, now, lease) => HeartbeatLeavesDueTimes(db, jid, w, token, now, lease, j);
  }

  lemma CancelLeavesDueTimes(db: Db, user: UserId, jid: JobId, j: JobId)
    requires j in db.jobs
    ensures var after := CancelJob(db, user, jid).db.jobs;
      j in after && SamePlan(db.jobs[j], after[j]) && after[j].runAt == db.jobs[j].runAt
  {
    if jid in db.jobs {
      StatusAside(db.jobs[jid]);
    }
    hide SamePlan;
    assert SamePlan(db.jobs[j], db.jobs[j]) by { StatusAside(db.jobs[j]); }
  }

  lemma StatusAside(job: Job)
    ensures SamePlan(job, job) && SamePlan(job, job.(status := JobCancelled))
  {
  }

  lemma HeartbeatLeavesDueTimes(db: Db, jid: JobId, w: WorkerId, token: Token, now: Time, lease: int, j: JobId)
    requires j in db.jobs
    ensures var after := HeartbeatJob(db, jid, w, token, now, lease).db.jobs;
      j in after && SamePlan(db.jobs[j], after[j]) && after[j].runAt == db.jobs[j].runAt
  {
    hide OwnsFire;
  }

  lemma DeliveryLeavesDueTimes(p: Plant, m: Move)
    requires Possible(p, m) && (m.Deliver? || m.Stumble? || m.Crash?)
    ensures Act(p, m).db.jobs == p.db.jobs
  {
    if m.Deliver? {
      DeliverEffect(p.db, p.workers[m.w].jid, m.w, TokenAt(p.workers[m.w]), m.mid, m.rid);
    }
    hide DeliverJob, AddsKey, Fired, OwnsFire;
  }

  /** What settling a fire does to the due time of any job. */
  lemma SettlementDueTimes(p: Plant, m: Move, j: JobId)
    requires Possible(p, m) && (m.Finish? || m.Postpone? || m.GiveUp?) && j in p.db.jobs
    ensures var a, after := TransactionOf(p, m).value.job, Act(p, m).db.jobs;
      && j in after && SamePlan(p.db.jobs[j], after[j])
      && (after[j].runAt == p.db.jobs[j].runAt ||
          (j == p.workers[m.w].jid && Accepted(p.db, j, m.w, TokenAt(p.workers[m.w])) && a.next == Some(after[j].runAt)))
      && (j == p.workers[m.w].jid && Accepted(p.db, j, m.w, TokenAt(p.workers[m.w])) && a.next.Some? ==> a.next == Some(after[j].runAt))
  {
    var a := TransactionOf(p, m).value.job;
    var pc := p.workers[m.w];
    assert Act(p, m).db == ApplyJob(p.db, a) && a.AFinishJob? && a.jid == pc.jid && a.worker == m.w && a.token == TokenAt(pc);
    hide Act, TransactionOf;
    FinishDueTimes(p.db, a, j);
  }

  predicate Accepted(db: Db, j: JobId, w: WorkerId, token: Token)
    requires j in db.jobs
  {
    db.jobs[j].owner == Some(Clip(w, 200)) && db.jobs[j].token == Some(token)
  }

  lemma FinishDueTimes(db: Db, a: JobAction, j: JobId)
    requires a.AFinishJob? && j in db.jobs
    ensures var after := ApplyJob(db, a).jobs;
      && j in after && SamePlan(db.jobs[j], after[j])
      && after[j].runAt == if j == a.jid && Accepted(db, j, a.worker, a.token) && a.next.Some? then a.next.value else db.jobs[j].runAt
  {
    ApplyFinish(db, a);
    FinishExactly(db, a.jid, a.worker, a.token, a.status, a.remaining, a.next, a.error);
    hide ApplyJob, FinishJob, Clip;
    if j == a.jid && Accepted(db, j, a.worker, a.token) {
      SettledKeepsPlan(db.jobs[j], a.status, a.remaining, a.next, a.error);
    }
    StatusAside(db.jobs[j]);
    hide SamePlan;
  }

  lemma ApplyFinish(db: Db, a: JobAction)
    requires a.AFinishJob?
    ensures ApplyJob(db, a) == FinishJob(db, a.jid, a.worker, a.token, a.status, a.remaining, a.next, a.error).db
  {
  }

  lemma FinishExactly(db: Db, jid: JobId, w: WorkerId, token: Token, status: JobStatus, remaining: int, next: Option<Time>, error: string)
    ensures FinishJob(db, jid, w, token, status, remaining, next, error).db ==
      if jid in db.jobs && Accepted(db, jid, w, token)
      then db.(jobs := db.jobs[jid := Settled(db.jobs[jid], status, remaining, next, error)]) else db
  {
    hide Clip;
  }

  lemma SettledKeepsPlan(job: Job, status: JobStatus, remaining: int, next: Option<Time>, error: string)
    ensures SamePlan(job, Settled(job, status, remaining, next, error))
  {
    hide Clip;
  }

  /** The next due time of a row on the grid is on the grid. */
  lemma NextStaysOnGrid(job: Job, now: Time, cron: Cron, first: Time)
    requires ByInterval(job) && OnGrid(first, Step(job), job.runAt)
    ensures NextRun(job, now, cron).Some? ==> OnGrid(first, Step(job), NextRun(job, now, cron).value)
  {
    CatchUpStaysOnGrid(first, Step(job), job.runAt, now);
    hide OnGrid, NextSlot;
  }

  /** Finishing computes the next due time from the row the worker holds, which is the stored one while the fire is its own. */
  lemma FinishStaysOnGrid(p: Plant, m: Move, j: JobId, first: Time)
    requires PlantOk(p) && Possible(p, m) && (m.Finish? || m.GiveUp?)
    requires j in p.db.jobs && ByInterval(p.db.jobs[j]) && OnGrid(first, Step(p.db.jobs[j]), p.db.jobs[j].runAt)
    ensures var after := Act(p, m).db.jobs;
      j in after && SamePlan(p.db.jobs[j], after[j]) && OnGrid(first, Step(p.db.jobs[j]), after[j].runAt)
  {
    SettlementDueTimes(p, m, j);
    var pc := p.workers[m.w];
    if m.Finish? && j == pc.jid && Accepted(p.db, j, m.w, TokenAt(pc)) {
      HeldRowIsStored(p, m, j);
      NextStaysOnGrid(pc.job, m.now, m.cron, first);
    }
    hide PlantOk, Act, OnGrid, NextRun;
  }

  /** While a fire is the worker's own, the row it holds has the stored plan and due time. */
  lemma HeldRowIsStored(p: Plant, m: Move, j: JobId)
    requires PlantOk(p) && Possible(p, m) && m.Finish? && j in p.db.jobs && p.workers[m.w].jid == j
    requires Accepted(p.db, j, m.w, TokenAt(p.workers[m.w]))
    ensures var pc := p.workers[m.w]; SamePlan(pc.job, p.db.jobs[j]) && pc.job.runAt == p.db.jobs[j].runAt
  {
    assert HolderOk(p.db, m.w, p.workers[m.w]);
    OwnerIsRunning(p.db, j, m.w, TokenAt(p.workers[m.w]));
    hide Inv, LedgerOk, FiredTokens;
  }

  /** A postponement the store accepts puts the job five seconds ahead; one it refuses changes nothing. */
  lemma PostponeSetsDueTime(p: Plant, m: Move, j: JobId)
    requires Possible(p, m) && m.Postpone? && j in p.db.jobs
    ensures var after := Act(p, m).db.jobs;
      j in after && SamePlan(p.db.jobs[j], after[j])
      && after[j].runAt == if Rebases(p, m, j) then m.now + DELAY else p.db.jobs[j].runAt
  {
    SettlementDueTimes(p, m, j);
    hide Act;
  }

  /** Every move keeps an interval job on its grid, but for an accepted postponement that lands off it. */
  lemma MoveStaysOnGridIff(p: Plant, m: Move, j: JobId, first: Time)
    requires PlantOk(p) && Possible(p, m)
    requires j in p.db.jobs && ByInterval(p.db.jobs[j]) && OnGrid(first, Step(p.db.jobs[j]), p.db.jobs[j].runAt)
    ensures var after := Act(p, m).db.jobs;
      && j in after && SamePlan(p.db.jobs[j], after[j])
      && (OnGrid(first, Step(p.db.jobs[j]), after[j].runAt) <==>
          (Rebases(p, m, j) ==> OnGrid(first, Step(p.db.jobs[j]), m.now + DELAY)))
  {
    hide PlantOk, Act, OnGrid;
    match m
    case Claim(_, _, _, _, _, _, _) => ClaimMoveStaysOnGrid(p, m, j, first);
    case Elsewhere(_) => ElsewhereLeavesDueTimes(p, m, j);
    case Finish(_, _, _) => FinishStaysOnGrid(p, m, j, first);
    case GiveUp(_, _) => FinishStaysOnGrid(p, m, j, first);
    case Postpone(_, _) => PostponeSetsDueTime(p, m, j);
    case _ => DeliveryLeavesDueTimes(p, m);
  }

  // ---------- whole plays ----------

  /** In every state of the play the job is due on a slot of the grid. */
  ghost predicate AlwaysOnGrid(p: Plant, moves: seq<Move>, j: JobId, first: Time, step: int)
    requires Playable(p, moves)
    decreases |moves|
  {
    && j in p.db.jobs && OnGrid(first, step, p.db.jobs[j].runAt)
    && (moves == [] || AlwaysOnGrid(Act(p, moves[0]), moves[1..], j, first, step))
  }

  /** Every accepted postponement of the job in the play happens to land on the grid. */
  ghost predicate PostponedOntoGrid(p: Plant, moves: seq<Move>, j: JobId, first: Time, step: int)
    requires Playable(p, moves)
    decreases |moves|
  {
    moves != [] ==>
      && (Rebases(p, moves[0], j) ==> OnGrid(first, step, moves[0].now + DELAY))
      && PostponedOntoGrid(Act(p, moves[0]), moves[1..], j, first, step)
  }

  /**
   Over any play, with crashes, lapsed leases, misfires and retries, an interval job is
   always due on the grid it started on if and only if no accepted postponement landed
   off that grid.
   */
  lemma {:induction false} PhaseIsKeptIff(p: Plant, moves: seq<Move>, j: JobId, first: Time)
    requires PlantOk(p) && Playable(p, moves)
    requires j in p.db.jobs && ByInterval(p.db.jobs[j]) && OnGrid(first, Step(p.db.jobs[j]), p.db.jobs[j].runAt)
    ensures AlwaysOnGrid(p, moves, j, first, Step(p.db.jobs[j])) <==> PostponedOntoGrid(p, moves, j, first, Step(p.db.jobs[j]))
    decreases |moves|
  {
    hide PlantOk, Act, OnGrid, Possible;
    if moves != [] {
      assert Possible(p, moves[0]) && Playable(Act(p, moves[0]), moves[1..]);
      var next := Act(p, moves[0]);
      MoveKeeps(p, moves[0]);
      MoveStaysOnGridIff(p, moves[0], j, first);
      if OnGrid(first, Step(p.db.jobs[j]), next.db.jobs[j].runAt) {
        PhaseIsKeptIff(next, moves[1..], j, first);
      }
    }
  }

  /** The grid of a job's own first due time. */
  lemma FirstDueTimeIsOnGrid(p: Plant, j: JobId)
    requires j in p.db.jobs
    ensures OnGrid(p.db.jobs[j].runAt, Step(p.db.jobs[j]), p.db.jobs[j].runAt)
  {
    assert p.db.jobs[j].runAt == Slot(p.db.jobs[j].runAt, Step(p.db.jobs[j]), 0);
  }

  // ---------- a play that leaves the grid ----------

  const OPENED_DB: Db := EMPTY_DB.(convs := map[0 := Conversation(0, 1, [])])
  const QUEUED_DB: Db :=
    OPENED_DB.(runs := map[0 := QueuedRun(0, 0, 0, None)], messageIds := {0},
            convs := map[0 := Conversation(0, 2, [Message(1, Draft(0, UserRole, "hello", None, ClientWriter))])])
  const TEN_SECOND_JOB: Job := Job(0, 0, Instant, Every, "", 10, "ping", "", 0, -1, JobPending, None, None, None, "")
  const SCHEDULED_DB: Db := QUEUED_DB.(jobs := map[0 := TEN_SECOND_JOB], initial := map[0 := -1])

  /** A conversation with a queued Run, and a job that is due every ten seconds from instant zero. */
  function Preparation(): seq<Move> {
    [Elsewhere(Mail(AOpen(0, 0))), Elsewhere(Mail(ASend(0, 0, "hello", true, true, "", 0, 0, 0))),
     Elsewhere(Scheduling(ACreateJob(0, 0, 0, Instant, Every, "", 10, "ping", "", 0, -1)))]
  }

  /** Claimed at once, found busy, postponed. */
  function Postponement(cron: Cron): seq<Move> {
    [Claim("w", [], [0], 0, 60, 7, cron), Deliver("w", 1, 1), Postpone("w", 0)]
  }

  lemma OpeningStep()
    ensures ApplyMail(EMPTY_DB, AOpen(0, 0)) == OPENED_DB
  {
  }

  lemma NoKeyIsFine()
    ensures ClientKeyOf("").None? && !BadKey("")
  {
    assert Text.Strip("") == "" by { Text.StripEmptiesBlanks(""); }
  }

  lemma SubmittingStep()
    ensures Submit(OPENED_DB, 0, 0, Draft(0, UserRole, "hello", None, ClientWriter), 0, None) == Tx(QUEUED_DB, Ok((0, 0)))
  {
    assert QueuedRun(0, 0, 0, None).key.None?;
    hide QueuedRun;
    var d := Draft(0, UserRole, "hello", None, ClientWriter);
    assert !Clashes(OPENED_DB, 0, d) && !RunClashes(OPENED_DB, 0, 0, None);
    assert OPENED_DB.convs[0].messages + [Message(1, d)] == [Message(1, d)];
    var db := Submit(OPENED_DB, 0, 0, d, 0, None).db;
    assert db.convs == QUEUED_DB.convs && db.messageIds == QUEUED_DB.messageIds && db.runs == QUEUED_DB.runs;
  }

  lemma SendingStep()
    ensures ApplyMail(OPENED_DB, ASend(0, 0, "hello", true, true, "", 0, 0, 0)) == QUEUED_DB
  {
    NoKeyIsFine();
    SubmittingStep();
    hide Submit, ClientKeyOf, BadKey, Text.Strip;
    assert 0 in OPENED_DB.convs && OPENED_DB.convs[0].user == 0 && 0 !in QUEUED_DB.autos;
  }

  lemma CreatingStep()
    ensures ApplyJob(QUEUED_DB, ACreateJob(0, 0, 0, Instant, Every, "", 10, "ping", "", 0, -1)) == SCHEDULED_DB
  {
    assert ActiveJobs(QUEUED_DB, 0) == {};
  }

  lemma ClaimingStep(cron: Cron)
    ensures var tx := ClaimJob(SCHEDULED_DB, [], [0], "w", 0, 60, 7, cron);
      && tx.out == Ok(Some(0))
      && tx.db == SCHEDULED_DB.(jobs := map[0 := Fire(TEN_SECOND_JOB, "w", 0, 60, 7)], issued := {7})
  {
    var swept := Sweep(SCHEDULED_DB.jobs, [], 0);
    assert swept == SCHEDULED_DB.jobs && Due(TEN_SECOND_JOB, 0) && !Misfired(TEN_SECOND_JOB, 0);
    assert SCHEDULED_DB.jobs[0 := Fire(TEN_SECOND_JOB, "w", 0, 60, 7)] == map[0 := Fire(TEN_SECOND_JOB, "w", 0, 60, 7)];
  }

  const CLAIMED_DB: Db := SCHEDULED_DB.(jobs := map[0 := Fire(TEN_SECOND_JOB, "w", 0, 60, 7)], issued := {7})

  lemma DeliveringStep()
    ensures DeliverJob(CLAIMED_DB, 0, "w", 7, 1, 1) == Tx(CLAIMED_DB, Err(Busy))
  {
    hide Clip;
    assert CLAIMED_DB.runs[0].conv == 0 && Active(CLAIMED_DB.runs[0].status);
    assert BusyWith(CLAIMED_DB.runs, 0);
    assert !HasKey(CLAIMED_DB.convs[0].messages, ScheduleKey(0, 7));
  }

  lemma PostponingStep()
    ensures var tx := FinishJob(CLAIMED_DB, 0, "w", 7, JobPending, -1, Some(0 + DELAY), "conversation has an active passive Run");
      tx.out.Ok? && tx.db.jobs.Keys == {0} && tx.db.jobs[0].runAt == DELAY
  {
    hide Clip;
  }

  /** Five seconds are no slot of a ten-second grid. */
  lemma HalfwayIsOffGrid()
    ensures !OnGrid(0, Step(TEN_SECOND_JOB), DELAY)
  {
    forall k: nat ensures DELAY != Slot(0, Step(TEN_SECOND_JOB), k) {
      assert k == 0 || k * Step(TEN_SECOND_JOB) >= Step(TEN_SECOND_JOB);
    }
  }

  /** The moves of a play, one after the other. */
  lemma ThreeMoves(p: Plant, x: Move, y: Move, z: Move)
    requires Possible(p, x) && Possible(Act(p, x), y) && Possible(Act(Act(p, x), y), z)
    ensures Playable(p, [x, y, z]) && Play(p, [x, y, z]) == Act(Act(Act(p, x), y), z)
  {
    hide Possible, Act;
    var p1, p2, p3 := Act(p, x), Act(Act(p, x), y), Act(Act(Act(p, x), y), z);
    assert [x, y, z][1..] == [y, z] && [y, z][1..] == [z] && [z][1..] == [];
    assert Playable(p3, []) && Play(p3, []) == p3;
    assert Playable(p2, [z]) && Play(p2, [z]) == p3;
    assert Playable(p1, [y, z]) && Play(p1, [y, z]) == p3;
  }

  lemma ElsewhereStep(db: Db, a: Action)
    requires Lawful(db, a) && Outside(a)
    ensures var p := Alone(db, "w", Resting); Possible(p, Elsewhere(a)) && Act(p, Elsewhere(a)) == Alone(Apply(db, a), "w", Resting)
  {
    hide Apply, Lawful, Outside;
  }

  lemma PreparationPlays()
    ensures Playable(Alone(EMPTY_DB, "w", Resting), Preparation())
    ensures Play(Alone(EMPTY_DB, "w", Resting), Preparation()) == Alone(SCHEDULED_DB, "w", Resting)
  {
    OpeningStep();
    SendingStep();
    CreatingStep();
    hide ApplyMail, ApplyJob;
    ElsewhereStep(EMPTY_DB, Preparation()[0].a);
    ElsewhereStep(OPENED_DB, Preparation()[1].a);
    ElsewhereStep(QUEUED_DB, Preparation()[2].a);
    assert Apply(EMPTY_DB, Preparation()[0].a) == OPENED_DB;
    assert Apply(OPENED_DB, Preparation()[1].a) == QUEUED_DB;
    assert Apply(QUEUED_DB, Preparation()[2].a) == SCHEDULED_DB;
    hide Possible, Act, Apply;
    ThreeMoves(Alone(EMPTY_DB, "w", Resting), Preparation()[0], Preparation()[1], Preparation()[2]);
  }

  lemma PostponementPlays(cron: Cron)
    ensures Playable(Alone(SCHEDULED_DB, "w", Resting), Postponement(cron))
    ensures var p := Play(Alone(SCHEDULED_DB, "w", Resting), Postponement(cron)); 0 in p.db.jobs && p.db.jobs[0].runAt == DELAY
  {
    var fired := Fire(TEN_SECOND_JOB, "w", 0, 60, 7);
    var x, y, z := Postponement(cron)[0], Postponement(cron)[1], Postponement(cron)[2];
    assert TokenAt(Claimed(0, fired)) == 7 == TokenAt(Postponing(0, fired)) && fired.remaining == -1 && 0 + DELAY == 0 + 5 * SECOND;
    ClaimingStep(cron);
    DeliveringStep();
    PostponingStep();
    AfterClaim(SCHEDULED_DB, "w", x);
    AfterDelivery(CLAIMED_DB, "w", 0, fired, 1, 1);
    AfterPostpone(CLAIMED_DB, "w", 0, fired, 0);
    hide Possible, Act, ClaimJob, DeliverJob, FinishJob, Fire;
    ThreeMoves(Alone(SCHEDULED_DB, "w", Resting), x, y, z);
  }

  /** Concretely: from the empty store, a play that creates a job on the ten-second grid and leaves it due at second five. */
  lemma PostponingLeavesTheGrid(cron: Cron)
    ensures var start := Alone(EMPTY_DB, "w", Resting);
      && PlantOk(start) && Playable(start, Preparation())
      && var p := Play(start, Preparation());
      && PlantOk(p) && 0 in p.db.jobs && ByInterval(p.db.jobs[0]) && OnGrid(0, Step(p.db.jobs[0]), p.db.jobs[0].runAt)
      && Playable(p, Postponement(cron))
      && !AlwaysOnGrid(p, Postponement(cron), 0, 0, Step(p.db.jobs[0]))
  {
    var start := Alone(EMPTY_DB, "w", Resting);
    EmptyPlantIsSound(start.workers);
    PreparationPlays();
    ScheduleFires.PlayKeeps(start, Preparation());
    var p := Alone(SCHEDULED_DB, "w", Resting);
    FirstDueTimeIsOnGrid(p, 0);
    PostponementPlays(cron);
    HalfwayIsOffGrid();
    hide PlantOk, Possible, Act, OnGrid;
    if AlwaysOnGrid(p, Postponement(cron), 0, 0, Step(TEN_SECOND_JOB)) {
      EndIsOnGrid(p, Postponement(cron), 0, 0, Step(TEN_SECOND_JOB));
    }
  }

  lemma {:induction false} EndIsOnGrid(p: Plant, moves: seq<Move>, j: JobId, first: Time, step: int)
    requires Playable(p, moves) && AlwaysOnGrid(p, moves, j, first, step)
    ensures var end := Play(p, moves); j in end.db.jobs && OnGrid(first, step, end.db.jobs[j].runAt)
    decreases |moves|
  {
    hide OnGrid, Act, Possible;
    if moves != [] {
      EndIsOnGrid(Act(p, moves[0]), moves[1..], j, first, step);
    }
  }
}
