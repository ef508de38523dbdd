/**
 Scheduled fires (cloud/scheduler.py over cloud/store.py): claim, deliver, finish,
 with crashes, lapsed leases, re-claims, busy postponements and faults in between.
 The ledger of a job is the set of fire tokens that produced a message or a Run;
 the accounting says how its size follows from the repeat count.
 */
module ScheduleFires {
  import opened Prelude
  import opened RunRow
  import opened CatchUp
  import opened StoreSpec
  import opened StoreInvariant

  // ---------- what has fired ----------

  /** A fire leaves its key on a message (instant jobs) or in the Run index (soft jobs). */
  predicate Fired(db: Db, j: JobId, t: Token)
    requires j in db.jobs
  {
    var job := db.jobs[j];
    if job.tier.Instant? then job.conv in db.convs && HasKey(db.convs[job.conv].messages, ScheduleKey(j, t))
    else (job.user, ScheduleKey(j, t)) in db.byKey
  }

  function FiredTokens(db: Db, j: JobId): set<Token>
    requires j in db.jobs
  {
    set t | t in db.issued && Fired(db, j, t)
  }

  /** Fire keys appear only where their job delivers. */
  ghost predicate Located(jobs: map<JobId, Job>, convs: map<ConvId, Conversation>, byKey: map<(UserId, Key), RunId>) {
    && (forall c, j, t :: c in convs && HasKey(convs[c].messages, ScheduleKey(j, t)) ==>
          j in jobs && jobs[j].conv == c && jobs[j].tier.Instant?)
    && (forall u, j, t :: (u, ScheduleKey(j, t)) in byKey ==> j in jobs && jobs[j].user == u && jobs[j].tier.Soft?)
  }

  // ---------- the accounting ----------

  /** What creation guarantees about a job and every transaction keeps. */
  ghost predicate PlanOk(job: Job, initial: int) {
    if job.trigger.Every? then
      initial == -1 && job.remaining == -1 && (job.cron != "" || job.interval > 0) && !job.status.JobCompleted?
    else
      && 1 <= initial && 0 <= job.remaining <= initial && job.cron == ""
      && (job.remaining > 1 ==> job.interval > 0)
      && (job.status.JobCompleted? <==> job.remaining == 0)
  }

  /** A token whose fire has not been settled by a finish yet. */
  predicate Open(job: Job) {
    job.token.Some? && !job.status.JobCompleted?
  }

  /** Deliveries = repeats used up, plus one when the still-open fire was already delivered. */
  ghost predicate Balanced(job: Job, initial: int, fired: set<Token>) {
    && PlanOk(job, initial)
    && (job.trigger.Every? ||
        |fired| == initial - job.remaining + if Open(job) && job.token.value in fired then 1 else 0)
  }

  ghost predicate LedgerOk(db: Db) {
    && Located(db.jobs, db.convs, db.byKey)
    && forall j :: j in db.jobs ==> j in db.initial && Balanced(db.jobs[j], db.initial[j], FiredTokens(db, j))
  }

  // ---------- the schedule workers ----------

  /** Where a schedule worker stands in `run_once`, with the row it was handed at the claim. */
  datatype FirePc =
    | Resting
    | Claimed(jid: JobId, job: Job)
    | Delivered(jid: JobId, job: Job)
    | Postponing(jid: JobId, job: Job)
    | Faulted(jid: JobId, job: Job)

  datatype Plant = Plant(db: Db, workers: map<WorkerId, FirePc>)

  datatype Move =
    | Claim(w: WorkerId, lapsed: seq<JobId>, candidates: seq<JobId>, now: Time, lease: int, minted: Token, cron: Cron)
    | Deliver(w: WorkerId, mid: MsgId, rid: RunId)
    | Stumble(w: WorkerId)
    | Finish(w: WorkerId, now: Time, cron: Cron)
    | Postpone(w: WorkerId, now: Time)
    | GiveUp(w: WorkerId, error: string)
    | Crash(w: WorkerId)
    | Elsewhere(a: Action)

  /** When the next fire of a job is due, if there is one: the worker computes it from the row it was handed. */
  function NextRun(job: Job, now: Time, cron: Cron): Option<Time> {
    if job.trigger.Every? && job.cron != "" then Some(cron(job.cron, Max(job.runAt, now)))
    else if (job.trigger.Every? || job.remaining > 1) && job.interval > 0 then
      Some(NextSlot(job.runAt + job.interval * SECOND, job.interval * SECOND, now))
    else None
  }

  function Decremented(job: Job): int {
    if job.remaining > 0 then job.remaining - 1 else job.remaining
  }

  function FinishedStatus(job: Job, now: Time, cron: Cron): JobStatus {
    if NextRun(job, now, cron).Some? && Decremented(job) != 0 then JobPending else JobCompleted
  }

  /** The arguments `create_cloud_schedule` can pass on; see `CloudSchedule.PlanSchedule`. */
  predicate Planned(trigger: Trigger, cron: string, interval: int, remaining: int) {
    if trigger.Every? then remaining == -1 && (cron != "" || interval > 0)
    else 1 <= remaining && cron == "" && (remaining > 1 ==> interval > 0)
  }

  /** Claims, deliveries and finishes come from schedule workers only; creations come planned. */
  predicate Outside(a: Action) {
    a.Scheduling? ==>
      && !a.job.AClaimJob? && !a.job.ADeliverJob? && !a.job.AFinishJob?
      && (a.job.ACreateJob? ==> Planned(a.job.trigger, a.job.cronText, a.job.interval, a.job.remaining))
  }

  predicate Possible(p: Plant, m: Move) {
    match m
    case Elsewhere(a) => Lawful(p.db, a) && Outside(a)
    case _ =>
      m.w in p.workers &&
      var pc := p.workers[m.w];
      match m
      case Claim(_, _, _, _, _, minted, _) => pc.Resting? && minted !in p.db.issued
      case Deliver(_, _, _) => pc.Claimed?
      case Stumble(_) => pc.Claimed? || pc.Delivered?
      case Finish(_, _, _) => pc.Delivered?
      case Postpone(_, _) => pc.Postponing?
      case GiveUp(_, _) => pc.Faulted?
      case _ => true
  }

  function TokenAt(pc: FirePc): Token {
    if !pc.Resting? && pc.job.token.Some? then pc.job.token.value else 0
  }

  function TransactionOf(p: Plant, m: Move): Option<Action>
    requires Possible(p, m)
  {
    match m
    case Claim(w, lapsed, candidates, now, lease, minted, cron) =>
      Some(Scheduling(AClaimJob(lapsed, candidates, w, now, lease, minted, cron)))
    case Deliver(w, mid, rid) =>
      Some(Scheduling(ADeliverJob(p.workers[w].jid, w, TokenAt(p.workers[w]), mid, rid)))
    case Finish(w, now, cron) =>
      var job := p.workers[w].job;
      Some(Scheduling(AFinishJob(p.workers[w].jid, w, TokenAt(p.workers[w]), FinishedStatus(job, now, cron),
                                 Decremented(job), NextRun(job, now, cron), "")))
    case Postpone(w, now) =>
      Some(Scheduling(AFinishJob(p.workers[w].jid, w, TokenAt(p.workers[w]), JobPending, p.workers[w].job.remaining,
                                 Some(now + 5 * SECOND), "conversation has an active passive Run")))
    case GiveUp(w, error) =>
      Some(Scheduling(AFinishJob(p.workers[w].jid, w, TokenAt(p.workers[w]), JobFailed, p.workers[w].job.remaining,
                                 None, error)))
    case Stumble(_) => None
    case Crash(_) => None
    case Elsewhere(a) => Some(a)
  }

  function NextPc(p: Plant, m: Move): FirePc
    requires Possible(p, m) && !m.Elsewhere?
  {
    var pc := p.workers[m.w];
    match m
    case Claim(w, lapsed, candidates, now, lease, minted, cron) =>
      var tx := ClaimJob(p.db, lapsed, candidates, w, now, lease, minted, cron);
      if tx.out.Ok? && tx.out.value.Some? && tx.out.value.value in tx.db.jobs
      then Claimed(tx.out.value.value, tx.db.jobs[tx.out.value.value]) else Resting
    case Deliver(w, mid, rid) =>
      (match DeliverJob(p.db, pc.jid, w, TokenAt(pc), mid, rid).out
       case Ok(_) => Delivered(pc.jid, pc.job)
       case Err(Busy) => Postponing(pc.jid, pc.job)
       case Err(_) => Faulted(pc.jid, pc.job))
    case Stumble(_) => Faulted(pc.jid, pc.job)
    case Finish(w, now, cron) =>
      if FinishJob(p.db, pc.jid, w, TokenAt(pc), FinishedStatus(pc.job, now, cron), Decremented(pc.job),
                   NextRun(pc.job, now, cron), "").out.Ok?
      then Resting else Faulted(pc.jid, pc.job)
    case _ => Resting
  }

  function Act(p: Plant, m: Move): Plant
    requires Possible(p, m)
  {
    var db := if TransactionOf(p, m).Some? then Apply(p.db, TransactionOf(p, m).value) else p.db;
    Plant(db, if m.Elsewhere? then p.workers else p.workers[m.w := NextPc(p, m)])
  }

  predicate Playable(p: Plant, moves: seq<Move>)
    decreases |moves|
  {
    moves == [] || (Possible(p, moves[0]) && Playable(Act(p, moves[0]), moves[1..]))
  }

  function Play(p: Plant, moves: seq<Move>): Plant
    requires Playable(p, moves)
    decreases |moves|
  {
    if moves == [] then p else Play(Act(p, moves[0]), moves[1..])
  }

  // ---------- the invariant of the plant ----------

  predicate SamePlan(a: Job, b: Job) {
    a.user == b.user && a.conv == b.conv && a.tier == b.tier && a.trigger == b.trigger && a.cron == b.cron
    && a.interval == b.interval && a.message == b.message && a.prompt == b.prompt
  }

  /** A worker that still owns its fire works on the row as stored, and knows whether the fire was delivered. */
  ghost predicate HolderOk(db: Db, w: WorkerId, pc: FirePc) {
    !pc.Resting? ==>
      && pc.jid in db.jobs && pc.job.token.Some? && SamePlan(pc.job, db.jobs[pc.jid])
      && (OwnsFire(db, pc.jid, w, pc.job.token.value) ==>
            && db.jobs[pc.jid].remaining == pc.job.remaining
            && db.jobs[pc.jid].runAt == pc.job.runAt
            && (pc.Delivered? ==> pc.job.token.value in FiredTokens(db, pc.jid))
            && (pc.Postponing? ==> pc.job.token.value !in FiredTokens(db, pc.jid)))
  }

  /** Worker identifiers are cut to 200 characters when a worker is built. */
  ghost predicate PlantOk(p: Plant) {
    && Inv(p.db) && LedgerOk(p.db)
    && forall w :: w in p.workers ==> |w| <= 200 && HolderOk(p.db, w, p.workers[w])
  }

  // ---------- frames ----------

  ghost predicate SameFireKeys(convs: map<ConvId, Conversation>, byKey: map<(UserId, Key), RunId>,
                               convs': map<ConvId, Conversation>, byKey': map<(UserId, Key), RunId>) {
    && (forall c, j, t :: c in convs ==>
          c in convs' && (HasKey(convs'[c].messages, ScheduleKey(j, t)) <==> HasKey(convs[c].messages, ScheduleKey(j, t))))
    && (forall c, j, t :: c in convs' && c !in convs ==> !HasKey(convs'[c].messages, ScheduleKey(j, t)))
    && (forall u, j, t :: (u, ScheduleKey(j, t)) in byKey' <==> (u, ScheduleKey(j, t)) in byKey)
  }

  /** Two stores agree on every fire key. */
  ghost predicate SameKeys(db: Db, db': Db) {
    SameFireKeys(db.convs, db.byKey, db'.convs, db'.byKey)
  }

  lemma PostKeys(db: Db, conv: ConvId, d: Draft, c: ConvId, key: Key)
    requires conv in db.convs && c in db.convs
    ensures HasKey(Post(db, conv, d).convs[c].messages, key) <==>
      HasKey(db.convs[c].messages, key) || (c == conv && d.key == Some(key))
  {
    if c == conv {
      var before := db.convs[c].messages;
      var after := Post(db, conv, d).convs[c].messages;
      assert after[..|before|] == before && after[|before|].draft == d;
      if HasKey(before, key) {
        var i :| 0 <= i < |before| && before[i].draft.key == Some(key);
        assert after[i].draft.key == Some(key);
      }
    }
  }

  predicate NotAFireKey(key: Option<Key>) {
    key.Some? ==> !key.value.ScheduleKey?
  }

  lemma PostSameKeys(db: Db, conv: ConvId, d: Draft)
    requires conv in db.convs && NotAFireKey(d.key)
    ensures SameKeys(db, Post(db, conv, d))
  {
    forall c, j, t | c in db.convs
      ensures HasKey(Post(db, conv, d).convs[c].messages, ScheduleKey(j, t)) <==> HasKey(db.convs[c].messages, ScheduleKey(j, t))
    {
      PostKeys(db, conv, d, c, ScheduleKey(j, t));
    }
    hide HasKey;
  }

  lemma SubmitSameKeys(db: Db, user: UserId, conv: ConvId, d: Draft, rid: RunId, key: Option<Key>)
    requires conv in db.convs && NotAFireKey(d.key) && NotAFireKey(key)
    ensures SameKeys(db, Submit(db, user, conv, d, rid, key).db)
  {
    PostSameKeys(db, conv, d);
    hide HasKey, QueuedRun, Clashes;
  }

  lemma SendSameKeys(db: Db, user: UserId, conv: ConvId, content: string, hasFiles: bool, filesFound: bool,
                     rawKey: string, mid: MsgId, rid: RunId, now: Time)
    ensures SameKeys(db, SendMessage(db, user, conv, content, hasFiles, filesFound, rawKey, mid, rid, now).db)
  {
    assert NotAFireKey(ClientKeyOf(rawKey)) && SameKeys(db, db);
    hide SendMessage, Submit, SameFireKeys, ClientKeyOf, NotAFireKey, Revoke;
    SendEffect(db, user, conv, content, hasFiles, filesFound, rawKey, mid, rid, now);
    if conv in db.convs {
      SubmitSameKeys(db, user, conv, Draft(mid, UserRole, content, None, ClientWriter), rid, ClientKeyOf(rawKey));
    }
  }

  lemma IngestSameKeys(db: Db, provider: string, event: string, link: Option<(UserId, ConvId)>, content: string,
                       hasFiles: bool, filesFound: bool, mid: MsgId, rid: RunId)
    ensures SameKeys(db, IngestChannel(db, provider, event, link, content, hasFiles, filesFound, mid, rid).db)
  {
    assert SameKeys(db, db);
    hide IngestChannel, Submit, SameFireKeys, Clip;
    IngestEffect(db, provider, event, link, content, hasFiles, filesFound, mid, rid);
    if link.Some? && link.value.1 in db.convs {
      SubmitSameKeys(db, link.value.0, link.value.1, Draft(mid, UserRole, content, None, ChannelWriter), rid,
                     Some(ChannelKey(Clip(provider + ":" + event, 120))));
    }
  }

  lemma WriterSameKeys(db: Db, a: MailAction)
    requires a.APush? || a.ASubagent? || a.AOpen?
    ensures SameKeys(db, ApplyMail(db, a))
  {
    assert a.AOpen? ==> forall j, t :: !HasKey([], ScheduleKey(j, t));
    assert SameKeys(db, db);
    hide HasKey, Clashes;
    match a
    case APush(conv, linked, content, mid, minted) =>
      if conv in db.convs { PostSameKeys(db, conv, Draft(mid, AssistantRole, content, Some(PushKey(minted)), PushWriter)); }
    case ASubagent(subagent, conv, content, mid) =>
      if conv in db.convs { PostSameKeys(db, conv, Draft(mid, AssistantRole, content, Some(SubagentKey(subagent)), SubagentWriter)); }
    case AOpen(user, conv) =>
  }

  lemma MailSameKeys(db: Db, a: MailAction)
    ensures SameKeys(db, ApplyMail(db, a))
  {
    hide SendMessage, IngestChannel, PushMessage, DeliverSubagent, OpenConversation, SameKeys;
    match a
    case ASend(user, conv, content, hasFiles, filesFound, rawKey, mid, rid, now) =>
      SendSameKeys(db, user, conv, content, hasFiles, filesFound, rawKey, mid, rid, now);
    case AIngest(provider, event, link, content, hasFiles, filesFound, mid, rid) =>
      IngestSameKeys(db, provider, event, link, content, hasFiles, filesFound, mid, rid);
    case _ => WriterSameKeys(db, a);
  }

  lemma WorkSameKeys(db: Db, a: WorkAction)
    ensures SameKeys(db, ApplyWork(db, a))
  {
    assert SameKeys(db, db);
    hide SameFireKeys, Clashes, Step, RunningIn;
    if a.AComplete? && a.rid in db.runs && db.runs[a.rid].conv in db.convs {
      PostSameKeys(db, db.runs[a.rid].conv, Draft(a.mid, AssistantRole, a.content, None, OutputOf(a.rid)));
    }
  }

  lemma TickSameKeys(db: Db, a: TickAction)
    ensures SameKeys(db, ApplyTick(db, a))
  {
    assert SameKeys(db, db);
    hide SameFireKeys, HasKey, Clashes, BusyWith, DisableOthers;
    if a.AAppendAuto? && a.conv in db.convs {
      PostSameKeys(db, a.conv, Draft(a.mid, AssistantRole, a.content, Some(AutomationKey(a.source, a.token)), AutomationWriter));
    }
  }

  lemma JobSameKeys(db: Db, a: JobAction)
    requires !a.ADeliverJob?
    ensures SameKeys(db, ApplyJob(db, a))
  {
    assert SameKeys(db, db);
    hide SameFireKeys, ClaimFrom, Sweep, ActiveJobs, OwnsFire;
  }

  /** Only deliveries write fire keys. */
  lemma OthersSameKeys(db: Db, a: Action)
    requires !(a.Scheduling? && a.job.ADeliverJob?)
    ensures SameKeys(db, Apply(db, a))
  {
    hide ApplyMail, ApplyWork, ApplyTick, ApplyJob, SameKeys;
    match a
    case Mail(m) => MailSameKeys(db, m);
    case Work(w) => WorkSameKeys(db, w);
    case Scheduling(j) => JobSameKeys(db, j);
    case Ticking(t) => TickSameKeys(db, t);
  }

  // ---------- a ledger through a transaction ----------

  lemma FiredIsIssued(db: Db, j: JobId, t: Token)
    requires Inv(db) && j in db.jobs && Fired(db, j, t)
    ensures t in db.issued
  {
    hide RunsOk, OneRunning, IndexOk, ConvsOk, AllAnchored, OutputsOk, JobsOk, AutosOk, AutosOwned;
    var job := db.jobs[j];
    if job.tier.Instant? {
      var messages := db.convs[job.conv].messages;
      var i :| 0 <= i < |messages| && messages[i].draft.key == Some(ScheduleKey(j, t));
      assert Known(messages[i].draft.key, db.issued);
    } else {
      assert Known(Some((job.user, ScheduleKey(j, t)).1), db.issued);
    }
  }

  lemma FiredSame(db: Db, db': Db, j: JobId)
    requires Inv(db) && db.issued <= db'.issued && SameKeys(db, db')
    requires j in db.jobs && j in db'.jobs && SamePlan(db.jobs[j], db'.jobs[j])
    ensures FiredTokens(db', j) == FiredTokens(db, j)
  {
    hide Inv, HasKey;
    forall t | Fired(db, j, t) ensures t in db.issued {
      FiredIsIssued(db, j, t);
    }
    forall t ensures Fired(db', j, t) <==> Fired(db, j, t) {
    }
  }

  lemma LocatedSame(db: Db, db': Db)
    requires Located(db.jobs, db.convs, db.byKey) && SameKeys(db, db')
    requires forall j :: j in db.jobs ==> j in db'.jobs && SamePlan(db.jobs[j], db'.jobs[j])
    ensures Located(db'.jobs, db'.convs, db'.byKey)
  {
    hide HasKey;
  }

  /** A job whose account is untouched, or that got its first token of a new fire. */
  predicate Steady(job: Job, job': Job, minted: set<Token>) {
    && SamePlan(job, job') && job'.remaining == job.remaining
    && (job'.status.JobCompleted? <==> job.status.JobCompleted?)
    && (job'.token == job.token || (job.token.None? && job'.token.Some? && job'.token.value in minted))
  }

  ghost predicate AllSteady(jobs: map<JobId, Job>, jobs': map<JobId, Job>, minted: set<Token>) {
    jobs'.Keys == jobs.Keys && forall j :: j in jobs ==> Steady(jobs[j], jobs'[j], minted)
  }

  lemma SteadyKeepsLedger(db: Db, db': Db, minted: set<Token>)
    requires Inv(db) && LedgerOk(db) && SameKeys(db, db') && db.issued <= db'.issued && minted !! db.issued
    requires db'.initial == db.initial && AllSteady(db.jobs, db'.jobs, minted)
    ensures LedgerOk(db')
  {
    hide Inv, SameKeys;
    LocatedSame(db, db');
    forall j | j in db'.jobs
      ensures Balanced(db'.jobs[j], db'.initial[j], FiredTokens(db', j))
    {
      FiredSame(db, db', j);
      assert Balanced(db.jobs[j], db.initial[j], FiredTokens(db, j));
    }
    hide Located;
  }

  /** Nothing has fired yet for a job that is just being created. */
  lemma NewJobsHaveNotFired(db: Db, db': Db, jid: JobId)
    requires Located(db.jobs, db.convs, db.byKey) && jid !in db.jobs && jid in db'.jobs
    requires db'.convs == db.convs && db'.byKey == db.byKey
    ensures FiredTokens(db', jid) == {}
  {
    hide HasKey;
    forall t ensures !Fired(db', jid, t) {
    }
  }

  lemma AddJobKeepsLedger(db: Db, jid: JobId, job: Job)
    requires Inv(db) && LedgerOk(db) && jid !in db.jobs && Balanced(job, job.remaining, {})
    ensures LedgerOk(db.(jobs := db.jobs[jid := job], initial := db.initial[jid := job.remaining]))
  {
    var db' := db.(jobs := db.jobs[jid := job], initial := db.initial[jid := job.remaining]);
    hide Inv, HasKey, Balanced;
    assert SameKeys(db, db');
    LocatedSame(db, db');
    NewJobsHaveNotFired(db, db', jid);
    hide Located;
    forall j | j in db.jobs
      ensures Balanced(db'.jobs[j], db'.initial[j], FiredTokens(db', j))
    {
      FiredSame(db, db', j);
    }
  }

  lemma CreateKeepsLedger(db: Db, a: JobAction)
    requires Inv(db) && LedgerOk(db) && a.ACreateJob? && Outside(Scheduling(a))
    ensures LedgerOk(ApplyJob(db, a))
  {
    var db' := ApplyJob(db, a);
    if a.jid !in db.jobs && a.jid in db'.jobs {
      assert Balanced(db'.jobs[a.jid], db'.jobs[a.jid].remaining, {});
      hide Inv, LedgerOk, Balanced, ActiveJobs;
      AddJobKeepsLedger(db, a.jid, db'.jobs[a.jid]);
    }
    hide LedgerOk;
  }

  lemma SetSteady(jobs: map<JobId, Job>, jid: JobId, job': Job)
    requires jid in jobs && Steady(jobs[jid], job', {})
    ensures AllSteady(jobs, jobs[jid := job'], {})
  {
  }

  lemma CancelSteady(db: Db, user: UserId, jid: JobId)
    ensures AllSteady(db.jobs, CancelJob(db, user, jid).db.jobs, {})
  {
    assert AllSteady(db.jobs, db.jobs, {});
    hide AllSteady;
    if jid in db.jobs && db.jobs[jid].status.JobPending? {
      SetSteady(db.jobs, jid, db.jobs[jid].(status := JobCancelled));
    }
  }

  lemma HeartbeatSteady(db: Db, jid: JobId, worker: WorkerId, token: Token, now: Time, lease: int)
    ensures AllSteady(db.jobs, HeartbeatJob(db, jid, worker, token, now, lease).db.jobs, {})
  {
    assert AllSteady(db.jobs, db.jobs, {});
    hide AllSteady;
    if jid in db.jobs {
      SetSteady(db.jobs, jid, db.jobs[jid].(expires := Some(now + LeaseSpan(lease))));
    }
  }

  lemma OutsideJobsSteady(db: Db, a: Action)
    requires Outside(a) && !(a.Scheduling? && a.job.ACreateJob?)
    ensures Apply(db, a).initial == db.initial && db.issued <= Apply(db, a).issued
    ensures AllSteady(db.jobs, Apply(db, a).jobs, {})
  {
    assert AllSteady(db.jobs, db.jobs, {});
    hide AllSteady, ApplyMail, ApplyWork, ApplyTick, ApplyJob;
    match a
    case Mail(m) => MailLeavesJobs(db, m);
    case Work(w) => WorkLeavesJobs(db, w);
    case Ticking(t) => TickLeavesJobs(db, t);
    case Scheduling(ACancelJob(user, jid)) => CancelSteady(db, user, jid); ApplyCancel(db, user, jid);
    case Scheduling(AHeartbeatJob(jid, worker, token, now, lease)) =>
      HeartbeatSteady(db, jid, worker, token, now, lease);
      ApplyHeartbeat(db, jid, worker, token, now, lease);
  }

  lemma ApplyCancel(db: Db, user: UserId, jid: JobId)
    ensures var db' := ApplyJob(db, ACancelJob(user, jid));
      db' == CancelJob(db, user, jid).db && db'.initial == db.initial && db'.issued == db.issued
  {
  }

  lemma ApplyHeartbeat(db: Db, jid: JobId, worker: WorkerId, token: Token, now: Time, lease: int)
    ensures var db' := ApplyJob(db, AHeartbeatJob(jid, worker, token, now, lease));
      db' == HeartbeatJob(db, jid, worker, token, now, lease).db && db'.initial == db.initial && db'.issued == db.issued
  {
  }

  lemma SubmitLeavesJobs(db: Db, user: UserId, conv: ConvId, d: Draft, rid: RunId, key: Option<Key>)
    requires conv in db.convs
    ensures var db' := Submit(db, user, conv, d, rid, key).db;
      db'.jobs == db.jobs && db'.initial == db.initial && db'.issued == db.issued
  {
    hide Clashes, RunClashes, QueuedRun;
  }

  lemma MailLeavesJobs(db: Db, a: MailAction)
    ensures ApplyMail(db, a).jobs == db.jobs && ApplyMail(db, a).initial == db.initial && db.issued <= ApplyMail(db, a).issued
  {
    hide Clashes, Revoke, ClientKeyOf, SendMessage, IngestChannel, Submit, Clip;
    match a
    case ASend(user, conv, content, hasFiles, filesFound, rawKey, mid, rid, now) =>
      SendEffect(db, user, conv, content, hasFiles, filesFound, rawKey, mid, rid, now);
      if conv in db.convs {
        SubmitLeavesJobs(db, user, conv, Draft(mid, UserRole, content, None, ClientWriter), rid, ClientKeyOf(rawKey));
      }
    case AIngest(provider, event, link, content, hasFiles, filesFound, mid, rid) =>
      IngestEffect(db, provider, event, link, content, hasFiles, filesFound, mid, rid);
      if link.Some? && link.value.1 in db.convs {
        SubmitLeavesJobs(db, link.value.0, link.value.1, Draft(mid, UserRole, content, None, ChannelWriter), rid,
                         Some(ChannelKey(Clip(provider + ":" + event, 120))));
      }
    case _ =>
  }

  lemma CompleteLeavesJobs(db: Db, rid: RunId, worker: WorkerId, mid: MsgId, content: string, now: Time)
    ensures var db' := CompleteRun(db, rid, worker, mid, content, now).db;
      db'.jobs == db.jobs && db'.initial == db.initial && db'.issued == db.issued
  {
    hide Clashes, Step, OwnerError;
  }

  lemma WorkLeavesJobs(db: Db, a: WorkAction)
    ensures ApplyWork(db, a).jobs == db.jobs && ApplyWork(db, a).initial == db.initial && ApplyWork(db, a).issued == db.issued
  {
    hide CompleteRun, Step, RunningIn;
    if a.AComplete? { CompleteLeavesJobs(db, a.rid, a.worker, a.mid, a.content, a.now); }
  }

  lemma TickLeavesJobs(db: Db, a: TickAction)
    ensures ApplyTick(db, a).jobs == db.jobs && ApplyTick(db, a).initial == db.initial && db.issued <= ApplyTick(db, a).issued
  {
    hide Clashes, HasKey, BusyWith, DisableOthers;
  }

  /** Claiming keeps every account; the claimed row belongs to the claimer and holds a token. */
  lemma {:induction false} ClaimFromSteady(jobs: map<JobId, Job>, candidates: seq<JobId>, worker: WorkerId, now: Time,
                                           lease: int, minted: Token, cron: Cron)
    ensures var claim := ClaimFrom(jobs, candidates, worker, now, lease, minted, cron);
      && AllSteady(jobs, claim.0, {minted})
      && (forall j :: j in jobs && claim.1 != Some(j) && claim.0[j].status.JobRunning? ==> claim.0[j] == jobs[j])
      && (claim.1.Some? ==>
            && claim.1.value in jobs
            && claim.0[claim.1.value].owner == Some(Clip(worker, 200))
            && claim.0[claim.1.value].token.Some?)
    decreases |candidates|
  {
    if candidates == [] {
    } else {
      var j := candidates[0];
      if j !in jobs || !Due(jobs[j], now) {
        ClaimFromSteady(jobs, candidates[1..], worker, now, lease, minted, cron);
      } else if Misfired(jobs[j], now) {
        ClaimFromSteady(jobs[j := Skip(jobs[j], now, cron)], candidates[1..], worker, now, lease, minted, cron);
      }
    }
  }

  lemma ClaimSteady(db: Db, lapsed: seq<JobId>, candidates: seq<JobId>, worker: WorkerId, now: Time, lease: int,
                    minted: Token, cron: Cron)
    ensures var tx := ClaimJob(db, lapsed, candidates, worker, now, lease, minted, cron);
      && tx.db.initial == db.initial && db.issued <= tx.db.issued
      && AllSteady(db.jobs, tx.db.jobs, {minted})
      && (forall j :: j in db.jobs && tx.out.value != Some(j) && tx.db.jobs[j].status.JobRunning? ==> tx.db.jobs[j] == db.jobs[j])
      && (tx.out.value.Some? ==>
            && tx.out.value.value in db.jobs
            && tx.db.jobs[tx.out.value.value].owner == Some(Clip(worker, 200))
            && tx.db.jobs[tx.out.value.value].token.Some?)
  {
    ClaimFromSteady(Sweep(db.jobs, lapsed, now), candidates, worker, now, lease, minted, cron);
    hide ClaimFrom;
  }

  // ---------- deliveries ----------

  /** A delivery adds its own fire key where the job delivers, and no other. */
  ghost predicate AddsKey(db: Db, db': Db, jid: JobId, token: Token)
    requires jid in db.jobs
  {
    var job := db.jobs[jid];
    && (forall c, j, t :: c in db.convs ==>
          c in db'.convs && (HasKey(db'.convs[c].messages, ScheduleKey(j, t)) <==>
            HasKey(db.convs[c].messages, ScheduleKey(j, t)) || (job.tier.Instant? && c == job.conv && j == jid && t == token)))
    && (forall c :: c in db'.convs ==> c in db.convs)
    && (forall u, j, t :: (u, ScheduleKey(j, t)) in db'.byKey <==>
          (u, ScheduleKey(j, t)) in db.byKey || (job.tier.Soft? && u == job.user && j == jid && t == token))
  }

  lemma InstantAddsKey(db: Db, jid: JobId, token: Token, d: Draft)
    requires jid in db.jobs && db.jobs[jid].tier.Instant? && db.jobs[jid].conv in db.convs
    requires d.key == Some(ScheduleKey(jid, token))
    ensures AddsKey(db, Post(db, db.jobs[jid].conv, d), jid, token)
  {
    var conv := db.jobs[jid].conv;
    forall c, j, t | c in db.convs
      ensures HasKey(Post(db, conv, d).convs[c].messages, ScheduleKey(j, t)) <==>
        HasKey(db.convs[c].messages, ScheduleKey(j, t)) || (c == conv && j == jid && t == token)
    {
      PostKeys(db, conv, d, c, ScheduleKey(j, t));
    }
    hide HasKey;
  }

  lemma SoftAddsKey(db: Db, jid: JobId, token: Token, d: Draft, rid: RunId)
    requires jid in db.jobs && db.jobs[jid].tier.Soft? && db.jobs[jid].conv in db.convs
    requires d.key == Some(ScheduleInputKey(jid, token))
    requires Submit(db, db.jobs[jid].user, db.jobs[jid].conv, d, rid, Some(ScheduleKey(jid, token))).out.Ok?
    ensures AddsKey(db, Submit(db, db.jobs[jid].user, db.jobs[jid].conv, d, rid, Some(ScheduleKey(jid, token))).db, jid, token)
  {
    PostSameKeys(db, db.jobs[jid].conv, d);
    hide HasKey, QueuedRun, Clashes;
  }

  /** What a delivery does: nothing when refused or repeated, otherwise it adds exactly its key. */
  lemma DeliverEffect(db: Db, jid: JobId, worker: WorkerId, token: Token, mid: MsgId, rid: RunId)
    ensures var tx := DeliverJob(db, jid, worker, token, mid, rid);
      && tx.db.jobs == db.jobs && tx.db.initial == db.initial && tx.db.issued == db.issued
      && (tx.out.Ok? ==> OwnsFire(db, jid, worker, token))
      && (tx.out.Ok? && Fired(db, jid, token) ==> tx.db == db)
      && (tx.out.Ok? && !Fired(db, jid, token) ==> AddsKey(db, tx.db, jid, token) && db.jobs[jid].conv in db.convs)
      && (tx.out.Err? ==> tx.db == db)
      && (tx.out == Err(Busy) ==> jid in db.jobs && !Fired(db, jid, token))
  {
    hide AddsKey, Clashes, RunClashes, QueuedRun, BusyWith;
    if OwnsFire(db, jid, worker, token) && db.jobs[jid].conv in db.convs {
      var job := db.jobs[jid];
      if job.tier.Instant? {
        InstantAddsKey(db, jid, token, Draft(mid, AssistantRole, job.message, Some(ScheduleKey(jid, token)), ScheduleWriter(jid)));
      } else {
        var d := Draft(mid, UserRole, job.prompt, Some(ScheduleInputKey(jid, token)), ScheduleWriter(jid));
        if Submit(db, job.user, job.conv, d, rid, Some(ScheduleKey(jid, token))).out.Ok? {
          SoftAddsKey(db, jid, token, d, rid);
        }
      }
    }
  }

  lemma AddsKeyFired(db: Db, db': Db, jid: JobId, token: Token, j: JobId)
    requires Inv(db) && jid in db.jobs && AddsKey(db, db', jid, token) && token in db.issued && j in db.jobs
    requires db'.jobs == db.jobs && db'.issued == db.issued && db.jobs[jid].conv in db.convs
    ensures FiredTokens(db', j) == FiredTokens(db, j) + if j == jid then {token} else {}
  {
    hide Inv, HasKey;
    forall t ensures Fired(db', j, t) <==> Fired(db, j, t) || (j == jid && t == token) {
    }
  }

  lemma UnfiredIsAbsent(db: Db, j: JobId, t: Token)
    requires j in db.jobs && !Fired(db, j, t)
    ensures t !in FiredTokens(db, j)
  {
  }

  /** Firing the open token for the first time keeps the balance. */
  lemma OneMoreFire(job: Job, initial: int, fired: set<Token>)
    requires Balanced(job, initial, fired) && Open(job) && job.token.value !in fired
    ensures Balanced(job, initial, fired + {job.token.value})
  {
  }

  lemma DeliverKeepsLedger(db: Db, jid: JobId, worker: WorkerId, token: Token, mid: MsgId, rid: RunId)
    requires Inv(db) && LedgerOk(db)
    ensures LedgerOk(DeliverJob(db, jid, worker, token, mid, rid).db)
  {
    DeliverEffect(db, jid, worker, token, mid, rid);
    var tx := DeliverJob(db, jid, worker, token, mid, rid);
    hide DeliverJob;
    if tx.out.Ok? && !Fired(db, jid, token) {
      FireTokenIsIssued(db, jid, worker, token);
      RunningIsOpen(db, jid);
      hide Inv, HasKey;
      assert Located(tx.db.jobs, tx.db.convs, tx.db.byKey);
      hide Located, FiredTokens, Balanced;
      forall j | j in db.jobs
        ensures Balanced(tx.db.jobs[j], tx.db.initial[j], FiredTokens(tx.db, j))
      {
        AddsKeyFired(db, tx.db, jid, token, j);
        assert Balanced(db.jobs[j], db.initial[j], FiredTokens(db, j));
        if j == jid {
          assert token !in FiredTokens(db, j) by { UnfiredIsAbsent(db, j, token); }
          OneMoreFire(db.jobs[j], db.initial[j], FiredTokens(db, j));
        }
      }
    }
  }

  lemma RunningIsOpen(db: Db, jid: JobId)
    requires Inv(db) && jid in db.jobs && db.jobs[jid].status.JobRunning?
    ensures Open(db.jobs[jid])
  {
  }

  // ---------- finishes ----------

  /** Settling one fire of a job whose account is known. */
  lemma SettleKeepsLedger(db: Db, jid: JobId, job': Job)
    requires Inv(db) && LedgerOk(db) && jid in db.jobs && SamePlan(db.jobs[jid], job')
    requires Balanced(job', db.initial[jid], FiredTokens(db, jid))
    ensures LedgerOk(db.(jobs := db.jobs[jid := job']))
  {
    var db' := db.(jobs := db.jobs[jid := job']);
    hide Inv, HasKey, Balanced, Located;
    assert SameKeys(db, db');
    LocatedSame(db, db');
    forall j | j in db'.jobs
      ensures Balanced(db'.jobs[j], db'.initial[j], FiredTokens(db', j))
    {
      FiredSame(db, db', j);
    }
  }

  lemma OwnerIsRunning(db: Db, jid: JobId, w: WorkerId, token: Token)
    requires Inv(db) && jid in db.jobs && db.jobs[jid].owner == Some(Clip(w, 200)) && db.jobs[jid].token == Some(token)
    ensures OwnsFire(db, jid, w, token)
  {
  }

  /** The row after a finish. */
  function Settled(job: Job, status: JobStatus, remaining: int, next: Option<Time>, error: string): Job {
    job.(status := status, remaining := remaining, runAt := if next.Some? then next.value else job.runAt,
         lastError := Clip(error, 500), owner := None, expires := None,
         token := if status.JobPending? then None else job.token)
  }

  /** The three ways a worker settles its fire all keep the account of the job. */
  lemma FinishKeepsBalance(p: Plant, m: Move, job: Job, initial: int, fired: set<Token>)
    requires Possible(p, m) && (m.Finish? || m.Postpone? || m.GiveUp?)
    requires Balanced(job, initial, fired) && job.status.JobRunning? && job.token.Some?
    requires SamePlan(p.workers[m.w].job, job) && p.workers[m.w].job.remaining == job.remaining
    requires m.Finish? ==> job.token.value in fired
    requires m.Postpone? ==> job.token.value !in fired
    ensures var a := TransactionOf(p, m).value.job;
      Balanced(Settled(job, a.status, a.remaining, a.next, a.error), initial, fired)
  {
  }

  lemma FinishEffect(db: Db, a: JobAction)
    requires a.AFinishJob?
    ensures ApplyJob(db, a) == db ||
      (a.jid in db.jobs && db.jobs[a.jid].owner == Some(Clip(a.worker, 200)) && db.jobs[a.jid].token == Some(a.token) &&
       ApplyJob(db, a) == db.(jobs := db.jobs[a.jid := Settled(db.jobs[a.jid], a.status, a.remaining, a.next, a.error)]))
  {
  }

  lemma SettleMoveKeepsLedger(p: Plant, m: Move)
    requires PlantOk(p) && Possible(p, m) && (m.Finish? || m.Postpone? || m.GiveUp?)
    ensures LedgerOk(Act(p, m).db)
  {
    var pc := p.workers[m.w];
    var db := p.db;
    var a := TransactionOf(p, m).value.job;
    assert HolderOk(db, m.w, pc);
    FinishEffect(db, a);
    hide ApplyJob;
    if ApplyJob(db, a) != db {
      OwnerIsRunning(db, pc.jid, m.w, TokenAt(pc));
      assert Balanced(db.jobs[pc.jid], db.initial[pc.jid], FiredTokens(db, pc.jid));
      FinishKeepsBalance(p, m, db.jobs[pc.jid], db.initial[pc.jid], FiredTokens(db, pc.jid));
      hide Inv, LedgerOk, Balanced;
      SettleKeepsLedger(db, pc.jid, Settled(db.jobs[pc.jid], a.status, a.remaining, a.next, a.error));
    }
  }

  // ---------- the ledger through every move ----------

  lemma ApplyIsClaim(db: Db, a: JobAction)
    requires a.AClaimJob?
    ensures ApplyJob(db, a) == ClaimJob(db, a.lapsed, a.candidates, a.worker, a.now, a.lease, a.minted, a.cron).db
  {
  }

  lemma ClaimMoveKeepsLedger(p: Plant, m: Move)
    requires PlantOk(p) && Possible(p, m) && m.Claim?
    ensures LedgerOk(Act(p, m).db)
  {
    var a := TransactionOf(p, m).value.job;
    ClaimSteady(p.db, m.lapsed, m.candidates, m.w, m.now, m.lease, m.minted, m.cron);
    ApplyIsClaim(p.db, a);
    JobSameKeys(p.db, a);
    hide Inv, LedgerOk, AllSteady, SameKeys, ApplyJob, ClaimJob;
    SteadyKeepsLedger(p.db, Act(p, m).db, {m.minted});
  }

  lemma ElsewhereKeepsLedger(p: Plant, m: Move)
    requires PlantOk(p) && Possible(p, m) && m.Elsewhere?
    ensures LedgerOk(Act(p, m).db)
  {
    hide Inv, LedgerOk, AllSteady, SameKeys, ApplyMail, ApplyWork, ApplyJob, ApplyTick;
    if m.a.Scheduling? && m.a.job.ACreateJob? {
      CreateKeepsLedger(p.db, m.a.job);
    } else {
      OutsideJobsSteady(p.db, m.a);
      OthersSameKeys(p.db, m.a);
      SteadyKeepsLedger(p.db, Apply(p.db, m.a), {});
    }
  }

  lemma MoveKeepsLedger(p: Plant, m: Move)
    requires PlantOk(p) && Possible(p, m)
    ensures LedgerOk(Act(p, m).db)
  {
    match m {
      case Claim(_, _, _, _, _, _, _) => ClaimMoveKeepsLedger(p, m);
      case Elsewhere(_) => ElsewhereKeepsLedger(p, m);
      case Deliver(w, mid, rid) => DeliverKeepsLedger(p.db, p.workers[w].jid, w, TokenAt(p.workers[w]), mid, rid);
      case Stumble(_) =>
      case Crash(_) =>
      case _ => SettleMoveKeepsLedger(p, m);
    }
    hide Inv, LedgerOk, DeliverJob;
  }

  // ---------- the holders through every move ----------

  /** Running jobs not of `w` were already running, under the same owner, token and account. */
  ghost predicate NoNewFire(jobs: map<JobId, Job>, jobs': map<JobId, Job>, except: Option<WorkerId>) {
    forall j :: j in jobs ==>
      && j in jobs' && SamePlan(jobs[j], jobs'[j])
      && (jobs'[j].status.JobRunning? && (except.None? || jobs'[j].owner != except) ==>
            jobs[j].status.JobRunning? && jobs'[j].owner == jobs[j].owner && jobs'[j].token == jobs[j].token
            && jobs'[j].remaining == jobs[j].remaining && jobs'[j].runAt == jobs[j].runAt)
  }

  /** A holder keeps its knowledge when no fire it owns was touched. */
  lemma HolderSurvives(db: Db, db': Db, w: WorkerId, pc: FirePc, except: Option<WorkerId>)
    requires HolderOk(db, w, pc) && NoNewFire(db.jobs, db'.jobs, except) && |w| <= 200 && except != Some(w)
    requires !pc.Resting? && pc.jid in db.jobs && pc.jid in db'.jobs ==>
      FiredTokens(db, pc.jid) <= FiredTokens(db', pc.jid)
      && (OwnsFire(db', pc.jid, w, TokenAt(pc)) ==> FiredTokens(db', pc.jid) <= FiredTokens(db, pc.jid))
    ensures HolderOk(db', w, pc)
  {
    hide FiredTokens;
  }

  /** How the fires of a job look after a move: the same, but for a first delivery by the fire's owner. */
  ghost predicate FiresFollow(db: Db, db': Db, m: Move, pc: FirePc) {
    forall j :: j in db.jobs && j in db'.jobs ==>
      || FiredTokens(db', j) == FiredTokens(db, j)
      || (m.Deliver? && !pc.Resting? && j == pc.jid && OwnsFire(db, j, m.w, TokenAt(pc)) && FiredTokens(db, j) <= FiredTokens(db', j))
  }

  ghost predicate MoveEffect(db: Db, db': Db, m: Move, pc: FirePc) {
    && NoNewFire(db.jobs, db'.jobs, if m.Claim? then Some(m.w) else None)
    && FiresFollow(db, db', m, pc)
  }

  lemma SameKeysFollow(db: Db, db': Db, m: Move, pc: FirePc)
    requires Inv(db) && db.issued <= db'.issued && SameKeys(db, db')
    requires forall j :: j in db.jobs ==> j in db'.jobs && SamePlan(db.jobs[j], db'.jobs[j])
    ensures FiresFollow(db, db', m, pc)
  {
    hide Inv, SameKeys, FiredTokens;
    forall j | j in db.jobs ensures FiredTokens(db', j) == FiredTokens(db, j) {
      FiredSame(db, db', j);
    }
  }

  lemma ClaimMoveEffect(p: Plant, m: Move)
    requires PlantOk(p) && Possible(p, m) && m.Claim?
    ensures MoveEffect(p.db, Act(p, m).db, m, p.workers[m.w])
  {
    var a := TransactionOf(p, m).value.job;
    ClaimSteady(p.db, m.lapsed, m.candidates, m.w, m.now, m.lease, m.minted, m.cron);
    ApplyIsClaim(p.db, a);
    JobSameKeys(p.db, a);
    hide Inv, LedgerOk, SameKeys, ApplyJob, ClaimJob;
    SameKeysFollow(p.db, Act(p, m).db, m, p.workers[m.w]);
  }

  lemma SetNoNewFire(jobs: map<JobId, Job>, jid: JobId, job': Job)
    requires jid in jobs && SamePlan(jobs[jid], job')
    requires job'.status.JobRunning? ==>
      jobs[jid].status.JobRunning? && job'.owner == jobs[jid].owner && job'.token == jobs[jid].token
      && job'.remaining == jobs[jid].remaining && job'.runAt == jobs[jid].runAt
    ensures NoNewFire(jobs, jobs[jid := job'], None)
  {
  }

  lemma NoFire(jobs: map<JobId, Job>)
    ensures NoNewFire(jobs, jobs, None)
  {
  }

  lemma FinishNoNewFire(db: Db, a: JobAction)
    requires a.AFinishJob? && !a.status.JobRunning?
    ensures NoNewFire(db.jobs, ApplyJob(db, a).jobs, None) && ApplyJob(db, a).issued == db.issued
  {
    FinishEffect(db, a);
    NoFire(db.jobs);
    hide ApplyJob, NoNewFire;
    if a.jid in db.jobs {
      SetNoNewFire(db.jobs, a.jid, Settled(db.jobs[a.jid], a.status, a.remaining, a.next, a.error));
    }
  }

  lemma NoNewFireSamePlans(jobs: map<JobId, Job>, jobs': map<JobId, Job>, except: Option<WorkerId>)
    requires NoNewFire(jobs, jobs', except)
    ensures forall j :: j in jobs ==> j in jobs' && SamePlan(jobs[j], jobs'[j])
  {
  }

  /** A finish by the owner stops that fire and touches no other. */
  lemma SettleMoveEffect(p: Plant, m: Move)
    requires PlantOk(p) && Possible(p, m) && (m.Finish? || m.Postpone? || m.GiveUp?)
    ensures MoveEffect(p.db, Act(p, m).db, m, p.workers[m.w])
  {
    hide Inv, LedgerOk, SameKeys, ApplyJob, NoNewFire, HolderOk, NextRun, Decremented, FiresFollow, SamePlan;
    var a := TransactionOf(p, m).value.job;
    assert !a.status.JobRunning? && a.AFinishJob?;
    FinishNoNewFire(p.db, a);
    JobSameKeys(p.db, a);
    NoNewFireSamePlans(p.db.jobs, ApplyJob(p.db, a).jobs, None);
    SameKeysFollow(p.db, Act(p, m).db, m, p.workers[m.w]);
  }

  lemma DeliverFollows(db: Db, m: Move, pc: FirePc)
    requires Inv(db) && m.Deliver? && !pc.Resting?
    ensures FiresFollow(db, DeliverJob(db, pc.jid, m.w, TokenAt(pc), m.mid, m.rid).db, m, pc)
  {
    DeliverEffect(db, pc.jid, m.w, TokenAt(pc), m.mid, m.rid);
    var db' := DeliverJob(db, pc.jid, m.w, TokenAt(pc), m.mid, m.rid).db;
    hide DeliverJob, AddsKey, FiredTokens;
    if db' != db {
      FireTokenIsIssued(db, pc.jid, m.w, TokenAt(pc));
      forall j | j in db.jobs
        ensures FiredTokens(db', j) == FiredTokens(db, j) + if j == pc.jid then {TokenAt(pc)} else {}
      {
        AddsKeyFired(db, db', pc.jid, TokenAt(pc), j);
      }
    }
    hide Inv;
  }

  lemma DeliverMoveEffect(p: Plant, m: Move)
    requires PlantOk(p) && Possible(p, m) && m.Deliver?
    ensures MoveEffect(p.db, Act(p, m).db, m, p.workers[m.w])
  {
    hide Inv, LedgerOk, DeliverJob, NoNewFire, FiresFollow, AddsKey, HolderOk, Fired, OwnsFire;
    var pc := p.workers[m.w];
    DeliverEffect(p.db, pc.jid, m.w, TokenAt(pc), m.mid, m.rid);
    DeliverFollows(p.db, m, pc);
    NoFire(p.db.jobs);
  }

  lemma CreateOnlyAdds(db: Db, a: JobAction)
    requires a.ACreateJob?
    ensures db.issued == ApplyJob(db, a).issued
    ensures forall j :: j in db.jobs ==> j in ApplyJob(db, a).jobs && ApplyJob(db, a).jobs[j] == db.jobs[j]
  {
    hide ActiveJobs;
  }

  lemma OutsideJobNoNewFire(db: Db, a: JobAction)
    requires a.ACancelJob? || a.AHeartbeatJob?
    ensures NoNewFire(db.jobs, ApplyJob(db, a).jobs, None) && ApplyJob(db, a).issued == db.issued
  {
    NoFire(db.jobs);
    hide NoNewFire;
    if a.jid in db.jobs && a.ACancelJob? {
      SetNoNewFire(db.jobs, a.jid, db.jobs[a.jid].(status := JobCancelled));
    }
    if a.jid in db.jobs && a.AHeartbeatJob? {
      SetNoNewFire(db.jobs, a.jid, db.jobs[a.jid].(expires := Some(a.now + LeaseSpan(a.lease))));
    }
  }

  lemma OutsideNoNewFire(db: Db, a: Action)
    requires Outside(a)
    ensures NoNewFire(db.jobs, Apply(db, a).jobs, None) && db.issued <= Apply(db, a).issued
  {
    NoFire(db.jobs);
    if a.Scheduling? && a.job.ACreateJob? { CreateOnlyAdds(db, a.job); }
    hide ApplyMail, ApplyWork, ApplyTick, ApplyJob;
    match a
    case Mail(m) => MailLeavesJobs(db, m);
    case Work(w) => WorkLeavesJobs(db, w);
    case Ticking(t) => TickLeavesJobs(db, t);
    case Scheduling(j) => if !j.ACreateJob? { OutsideJobNoNewFire(db, j); }
  }

  lemma ElsewhereMoveEffect(p: Plant, m: Move)
    requires PlantOk(p) && Possible(p, m) && m.Elsewhere?
    ensures MoveEffect(p.db, Act(p, m).db, m, Resting)
  {
    hide Inv, LedgerOk, SameKeys, ApplyMail, ApplyWork, ApplyJob, ApplyTick;
    OutsideNoNewFire(p.db, m.a);
    OthersSameKeys(p.db, m.a);
    SameKeysFollow(p.db, Act(p, m).db, m, Resting);
  }

  lemma StillMoveEffect(p: Plant, m: Move)
    requires PlantOk(p) && Possible(p, m) && (m.Stumble? || m.Crash?)
    ensures MoveEffect(p.db, Act(p, m).db, m, p.workers[m.w])
  {
  }

  lemma AnyMoveEffect(p: Plant, m: Move)
    requires PlantOk(p) && Possible(p, m)
    ensures MoveEffect(p.db, Act(p, m).db, m, if m.Elsewhere? then Resting else p.workers[m.w])
  {
    hide PlantOk, Act, MoveEffect, Possible;
    match m {
      case Claim(_, _, _, _, _, _, _) => ClaimMoveEffect(p, m);
      case Elsewhere(_) => ElsewhereMoveEffect(p, m);
      case Deliver(_, _, _) => DeliverMoveEffect(p, m);
      case Stumble(_) => StillMoveEffect(p, m);
      case Crash(_) => StillMoveEffect(p, m);
      case _ => SettleMoveEffect(p, m);
    }
  }

  lemma OthersSurvive(db: Db, db': Db, m: Move, mover: FirePc, v: WorkerId, pc: FirePc)
    requires MoveEffect(db, db', m, mover) && HolderOk(db, v, pc) && |v| <= 200
    requires !m.Elsewhere? ==> m.w != v && |m.w| <= 200
    ensures HolderOk(db', v, pc)
  {
    hide FiredTokens;
    HolderSurvives(db, db', v, pc, if m.Claim? then Some(m.w) else None);
  }

  lemma ClaimerKeeps(p: Plant, m: Move)
    requires Possible(p, m) && m.Claim?
    ensures HolderOk(Act(p, m).db, m.w, NextPc(p, m))
  {
    ClaimSteady(p.db, m.lapsed, m.candidates, m.w, m.now, m.lease, m.minted, m.cron);
    ApplyIsClaim(p.db, TransactionOf(p, m).value.job);
    hide ClaimJob, ApplyJob, FiredTokens, AllSteady;
  }

  lemma DelivererKeeps(p: Plant, m: Move)
    requires PlantOk(p) && Possible(p, m) && m.Deliver?
    ensures HolderOk(Act(p, m).db, m.w, NextPc(p, m))
  {
    var pc := p.workers[m.w];
    assert HolderOk(p.db, m.w, pc);
    DeliverEffect(p.db, pc.jid, m.w, TokenAt(pc), m.mid, m.rid);
    DeliverMarks(p.db, pc.jid, m.w, TokenAt(pc), m.mid, m.rid);
    hide Inv, LedgerOk, DeliverJob, FiredTokens, AddsKey;
  }

  lemma MoverKeeps(p: Plant, m: Move)
    requires PlantOk(p) && Possible(p, m) && !m.Elsewhere?
    ensures HolderOk(Act(p, m).db, m.w, NextPc(p, m))
  {
    assert HolderOk(p.db, m.w, p.workers[m.w]);
    match m {
      case Claim(_, _, _, _, _, _, _) => ClaimerKeeps(p, m);
      case Deliver(_, _, _) => DelivererKeeps(p, m);
      case _ => hide Inv, LedgerOk, FiredTokens, NextRun;
    }
  }

  /** A delivery that answers has fired its token; one that found the conversation busy has not. */
  lemma DeliverMarks(db: Db, jid: JobId, worker: WorkerId, token: Token, mid: MsgId, rid: RunId)
    requires Inv(db)
    ensures var tx := DeliverJob(db, jid, worker, token, mid, rid);
      && (tx.out.Ok? ==> jid in tx.db.jobs && token in FiredTokens(tx.db, jid))
      && (tx.out == Err(Busy) ==> jid in tx.db.jobs && token !in FiredTokens(tx.db, jid))
  {
    DeliverEffect(db, jid, worker, token, mid, rid);
    var tx := DeliverJob(db, jid, worker, token, mid, rid);
    hide DeliverJob;
    if tx.out.Ok? {
      FireTokenIsIssued(db, jid, worker, token);
      if !Fired(db, jid, token) {
        AddsKeyFired(db, tx.db, jid, token, jid);
      }
    }
    hide Inv, AddsKey;
  }

  /** Every move keeps the invariant of the plant. */
  lemma MoveKeeps(p: Plant, m: Move)
    requires PlantOk(p) && Possible(p, m)
    ensures PlantOk(Act(p, m))
  {
    hide Inv, LedgerOk, MoveEffect, HolderOk, Apply, NextPc, TransactionOf, Possible, Lawful;
    MoveKeepsLedger(p, m);
    AnyMoveEffect(p, m);
    if !m.Elsewhere? {
      MoverKeeps(p, m);
      MoversWork(p, m);
    }
    if TransactionOf(p, m).Some? {
      LawfulMove(p, m);
      ActionKeeps(p.db, TransactionOf(p, m).value);
    }
    var p' := Act(p, m);
    forall v | v in p'.workers ensures |v| <= 200 && HolderOk(p'.db, v, p'.workers[v]) {
      if m.Elsewhere? || v != m.w {
        OthersSurvive(p.db, p'.db, m, if m.Elsewhere? then Resting else p.workers[m.w], v, p.workers[v]);
      }
    }
  }

  lemma MoversWork(p: Plant, m: Move)
    requires Possible(p, m) && !m.Elsewhere?
    ensures m.w in p.workers
  {
  }

  lemma LawfulMove(p: Plant, m: Move)
    requires Possible(p, m) && TransactionOf(p, m).Some?
    ensures Lawful(p.db, TransactionOf(p, m).value)
  {
  }

  lemma {:induction false} PlayKeeps(p: Plant, moves: seq<Move>)
    requires PlantOk(p) && Playable(p, moves)
    ensures PlantOk(Play(p, moves))
    decreases |moves|
  {
    hide PlantOk, Act, Possible;
    if moves == [] {
    } else {
      MoveKeeps(p, moves[0]);
      PlayKeeps(Act(p, moves[0]), moves[1..]);
    }
  }

  // ---------- the results ----------

  /**
   Whatever crashed, lapsed, was retried or postponed: a finite job never fired
   more often than its repeat count, a completed one fired exactly that often,
   and in between the fires are the repeats used up, plus one for a fire that is
   delivered but not yet settled.
   */
  lemma FiresMatchRepeats(p: Plant, moves: seq<Move>, j: JobId)
    requires PlantOk(p) && Playable(p, moves) && j in Play(p, moves).db.jobs
    ensures var db := Play(p, moves).db;
      var job := db.jobs[j];
      j in db.initial && (!job.trigger.Every? ==>
        && |FiredTokens(db, j)| <= db.initial[j]
        && (job.status.JobCompleted? ==> |FiredTokens(db, j)| == db.initial[j])
        && |FiredTokens(db, j)| == db.initial[j] - job.remaining
             + if Open(job) && job.token.value in FiredTokens(db, j) then 1 else 0)
  {
    PlayKeeps(p, moves);
    var db := Play(p, moves).db;
    assert Balanced(db.jobs[j], db.initial[j], FiredTokens(db, j));
    hide Play, Playable, FiredTokens, Inv, Located;
  }

  /** A repeated delivery of the same token changes nothing, whoever owns the fire by then. */
  lemma RedeliveryIsSilent(db: Db, jid: JobId, worker: WorkerId, token: Token, mid: MsgId, rid: RunId)
    requires jid in db.jobs && Fired(db, jid, token)
    ensures DeliverJob(db, jid, worker, token, mid, rid).db == db
  {
    DeliverEffect(db, jid, worker, token, mid, rid);
  }

  /** What has fired stays fired, over every play. */
  lemma {:induction false} FiresAreForGood(p: Plant, moves: seq<Move>, j: JobId, t: Token)
    requires PlantOk(p) && Playable(p, moves) && j in p.db.jobs && t in FiredTokens(p.db, j)
    ensures j in Play(p, moves).db.jobs && t in FiredTokens(Play(p, moves).db, j)
    decreases |moves|
  {
    hide PlantOk, Act, Possible, FiredTokens;
    if moves != [] {
      var m := moves[0];
      AnyMoveEffect(p, m);
      MoveKeeps(p, m);
      assert j in Act(p, m).db.jobs && FiredTokens(p.db, j) <= FiredTokens(Act(p, m).db, j);
      FiresAreForGood(Act(p, m), moves[1..], j, t);
    }
  }

  /** A token that fired once is never delivered again: at any later time every delivery of it, by anybody, changes nothing. */
  lemma FiredOnceForAll(p: Plant, moves: seq<Move>, j: JobId, t: Token, worker: WorkerId, mid: MsgId, rid: RunId)
    requires PlantOk(p) && Playable(p, moves) && j in p.db.jobs && t in FiredTokens(p.db, j)
    ensures DeliverJob(Play(p, moves).db, j, worker, t, mid, rid).db == Play(p, moves).db
  {
    FiresAreForGood(p, moves, j, t);
    hide PlantOk, Play, Playable, DeliverJob, Fired;
    RedeliveryIsSilent(Play(p, moves).db, j, worker, t, mid, rid);
  }

  ghost predicate KeyAt(c: Conversation, i: nat, key: Key) {
    i < |c.messages| && c.messages[i].draft.key == Some(key)
  }

  /** Across the whole store a fire token stands on at most one message, or on at most one Run, never both. */
  lemma OneEffectPerToken(db: Db, jid: JobId, t: Token)
    requires Inv(db) && LedgerOk(db)
    ensures forall c, d, i: nat, k: nat | c in db.convs && d in db.convs
      && KeyAt(db.convs[c], i, ScheduleKey(jid, t)) && KeyAt(db.convs[d], k, ScheduleKey(jid, t)) :: c == d && i == k
    ensures forall a, b | a in db.runs && b in db.runs
      && db.runs[a].key == Some(ScheduleKey(jid, t)) && db.runs[b].key == Some(ScheduleKey(jid, t)) :: a == b
    ensures forall c, i: nat, a :: c in db.convs && a in db.runs && KeyAt(db.convs[c], i, ScheduleKey(jid, t)) ==>
      db.runs[a].key != Some(ScheduleKey(jid, t))
  {
    hide RunsOk, OneRunning, AllAnchored, OutputsOk, KeysKnown, JobsOk, AutosOk, AutosOwned;
    forall c, i: nat | c in db.convs && KeyAt(db.convs[c], i, ScheduleKey(jid, t))
      ensures jid in db.jobs && db.jobs[jid].conv == c && db.jobs[jid].tier.Instant?
    {
      assert HasKey(db.convs[c].messages, ScheduleKey(jid, t));
    }
    forall a | a in db.runs && db.runs[a].key == Some(ScheduleKey(jid, t))
      ensures jid in db.jobs && db.jobs[jid].user == db.runs[a].user && db.jobs[jid].tier.Soft?
      ensures (db.runs[a].user, ScheduleKey(jid, t)) in db.byKey && db.byKey[(db.runs[a].user, ScheduleKey(jid, t))] == a
    {
    }
    if jid in db.jobs && db.jobs[jid].conv in db.convs {
      assert ConvOk(db.convs[db.jobs[jid].conv]);
    }
    hide HasKey, Balanced;
  }

  /** The empty store with idle workers is where every plant starts. */
  lemma EmptyPlantIsSound(workers: map<WorkerId, FirePc>)
    requires forall w :: w in workers ==> |w| <= 200 && workers[w].Resting?
    ensures PlantOk(Plant(EMPTY_DB, workers))
  {
  }
}
