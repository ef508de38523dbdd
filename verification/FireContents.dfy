/**
 What a scheduled fire says (cloud/store.py, `deliver_scheduled_job`): over every
 history an instant fire is an assistant message with the job's message, a soft fire a
 Run on a user message with the job's prompt, both as they were given at creation.
 */
module FireContents {
  import opened Prelude
  import opened RunRow
  import opened StoreSpec
  import opened StoreInvariant
  import opened RunHistory
  import opened ScheduleFires
  import opened SchedulePhase
  import opened AutomationTicks

  // ---------- plans are for good ----------

  /** Jobs are never removed, and keep who and what they are for. */
  ghost predicate PlansStay(jobs: map<JobId, Job>, jobs': map<JobId, Job>) {
    forall j :: j in jobs ==> j in jobs' && SamePlan(jobs[j], jobs'[j])
  }

  lemma PlansStaySelf(jobs: map<JobId, Job>)
    ensures PlansStay(jobs, jobs)
  {
  }

  lemma PlansCompose(a: map<JobId, Job>, b: map<JobId, Job>, c: map<JobId, Job>)
    requires PlansStay(a, b) && PlansStay(b, c)
    ensures PlansStay(a, c)
  {
  }

  lemma JobPlansStay(db: Db, a: JobAction)
    ensures PlansStay(db.jobs, ApplyJob(db, a).jobs)
  {
    hide ApplyJob, SamePlan, DeliverJob, ClaimJob;
    match a
    case ACreateJob(_, _, _, _, _, _, _, _, _, _, _) =>
      CreateOnlyAdds(db, a);
      PlansStaySelf(db.jobs);
    case AClaimJob(lapsed, candidates, w, now, lease, minted, cron) =>
      ClaimSteady(db, lapsed, candidates, w, now, lease, minted, cron);
      ApplyIsClaim(db, a);
      SteadyPlansStay(db.jobs, ClaimJob(db, lapsed, candidates, w, now, lease, minted, cron).db.jobs, {minted});
    case ADeliverJob(jid, w, token, mid, rid) =>
      DeliverLeavesPlans(db, a);
      PlansStaySelf(db.jobs);
    case AFinishJob(_, _, _, _, _, _, _) =>
      forall j | j in db.jobs ensures j in ApplyJob(db, a).jobs && SamePlan(db.jobs[j], ApplyJob(db, a).jobs[j]) {
        FinishDueTimes(db, a, j);
      }
    case _ =>
      forall j | j in db.jobs ensures j in ApplyJob(db, a).jobs && SamePlan(db.jobs[j], ApplyJob(db, a).jobs[j]) {
        OutsideLeavesDueTimes(db, a, j);
      }
  }

  lemma DeliverLeavesPlans(db: Db, a: JobAction)
    requires a.ADeliverJob?
    ensures ApplyJob(db, a).jobs == db.jobs
  {
    DeliverEffect(db, a.jid, a.worker, a.token, a.mid, a.rid);
    hide DeliverJob, AddsKey, Fired;
  }

  lemma SteadyPlansStay(jobs: map<JobId, Job>, jobs': map<JobId, Job>, minted: set<Token>)
    requires AllSteady(jobs, jobs', minted)
    ensures PlansStay(jobs, jobs')
  {
  }

  lemma ActionPlansStay(db: Db, a: Action)
    ensures PlansStay(db.jobs, Apply(db, a).jobs)
  {
    hide ApplyMail, ApplyWork, ApplyJob, ApplyTick, SamePlan;
    PlansStaySelf(db.jobs);
    match a
    case Mail(m) => MailLeavesJobs(db, m);
    case Work(w) => WorkLeavesJobs(db, w);
    case Scheduling(j) => JobPlansStay(db, j);
    case Ticking(t) => TickLeavesJobs(db, t);
  }

  lemma {:induction false} PlansStayThroughout(db: Db, history: seq<Action>)
    ensures PlansStay(db.jobs, Exec(db, history).jobs)
    decreases |history|
  {
    hide Apply, SamePlan;
    PlansStaySelf(db.jobs);
    if history != [] {
      ActionPlansStay(db, history[0]);
      PlansStayThroughout(Apply(db, history[0]), history[1..]);
      PlansCompose(db.jobs, Apply(db, history[0]).jobs, Exec(Apply(db, history[0]), history[1..]).jobs);
    }
  }

  // ---------- what messages say ----------

  /** A message under a fire's key says what its job was created to say. */
  ghost predicate SaysItsJob(d: Draft, jobs: map<JobId, Job>) {
    d.key.Some? ==>
      && (d.key.value.ScheduleKey? ==>
            d.key.value.job in jobs && d.role.AssistantRole? && d.content == jobs[d.key.value.job].message)
      && (d.key.value.ScheduleInputKey? ==>
            d.key.value.job in jobs && d.role.UserRole? && d.content == jobs[d.key.value.job].prompt)
  }

  ghost predicate MessagesSay(convs: map<ConvId, Conversation>, jobs: map<JobId, Job>) {
    forall c, i :: c in convs && 0 <= i < |convs[c].messages| ==> SaysItsJob(convs[c].messages[i].draft, jobs)
  }

  /** The message with this number of the conversation is the Run's input, and a user message with this prompt. */
  ghost predicate AsksAt(c: Conversation, i: nat, mid: MsgId, prompt: string) {
    HasIdAt(c, i, mid) && c.messages[i].draft.role.UserRole? && c.messages[i].draft.content == prompt
  }

  ghost predicate RunAsks(r: Run, convs: map<ConvId, Conversation>, jobs: map<JobId, Job>) {
    r.key.Some? && r.key.value.ScheduleKey? ==>
      && r.key.value.job in jobs && r.conv in convs && r.conv == jobs[r.key.value.job].conv
      && exists i: nat :: AsksAt(convs[r.conv], i, r.input, jobs[r.key.value.job].prompt)
  }

  ghost predicate RunsAsk(runs: map<RunId, Run>, convs: map<ConvId, Conversation>, jobs: map<JobId, Job>) {
    forall id :: id in runs ==> RunAsks(runs[id], convs, jobs)
  }

  /** Conversations only grow, and every new message says what its job was created to say. */
  ghost predicate Grows(convs: map<ConvId, Conversation>, convs': map<ConvId, Conversation>) {
    forall c :: c in convs ==> c in convs' && convs[c].messages <= convs'[c].messages
  }

  lemma PostGrows(db: Db, conv: ConvId, d: Draft)
    requires conv in db.convs
    ensures Grows(db.convs, Post(db, conv, d).convs)
    ensures MessagesSay(db.convs, db.jobs) && SaysItsJob(d, db.jobs) ==> MessagesSay(Post(db, conv, d).convs, db.jobs)
  {
    var after := Post(db, conv, d).convs[conv].messages;
    assert after[|db.convs[conv].messages|].draft == d;
    hide SaysItsJob;
  }

  lemma SubmitGrows(db: Db, user: UserId, conv: ConvId, d: Draft, rid: RunId, key: Option<Key>)
    requires conv in db.convs
    ensures var db' := Submit(db, user, conv, d, rid, key).db;
      && Grows(db.convs, db'.convs) && db'.jobs == db.jobs
      && (MessagesSay(db.convs, db.jobs) && SaysItsJob(d, db.jobs) ==> MessagesSay(db'.convs, db.jobs))
  {
    PostGrows(db, conv, d);
    assert Grows(db.convs, db.convs);
    hide SaysItsJob, MessagesSay, Grows, Clashes, RunClashes, QueuedRun;
  }

  /** Whatever Runs are new, they are no fires. */
  ghost predicate NewRunsPlain(runs: map<RunId, Run>, runs': map<RunId, Run>) {
    forall id :: id in runs' && id !in runs ==> !(runs'[id].key.Some? && runs'[id].key.value.ScheduleKey?)
  }

  lemma SubmitPlain(db: Db, user: UserId, conv: ConvId, d: Draft, rid: RunId, key: Option<Key>)
    requires conv in db.convs && (key.Some? ==> !key.value.ScheduleKey?)
    ensures NewRunsPlain(db.runs, Submit(db, user, conv, d, rid, key).db.runs)
  {
    hide Clashes;
  }

  /** The part of a transaction that is no delivery. */
  ghost predicate Quiet(db: Db, db': Db) {
    Grows(db.convs, db'.convs) && MessagesSay(db'.convs, db.jobs) && NewRunsPlain(db.runs, db'.runs)
  }

  lemma NothingSaid(db: Db)
    requires MessagesSay(db.convs, db.jobs)
    ensures Quiet(db, db)
  {
  }

  lemma QuietByTables(db: Db, db': Db, db'': Db)
    requires Quiet(db, db') && db''.convs == db'.convs && db''.runs == db'.runs
    ensures Quiet(db, db'')
  {
  }

  lemma PostQuiet(db: Db, conv: ConvId, d: Draft)
    requires conv in db.convs && MessagesSay(db.convs, db.jobs) && SaysItsJob(d, db.jobs)
    ensures Quiet(db, Post(db, conv, d))
  {
    PostGrows(db, conv, d);
    hide MessagesSay, SaysItsJob, Grows;
  }

  lemma SubmitQuiet(db: Db, user: UserId, conv: ConvId, d: Draft, rid: RunId, key: Option<Key>)
    requires conv in db.convs && (key.Some? ==> !key.value.ScheduleKey?)
    requires MessagesSay(db.convs, db.jobs) && SaysItsJob(d, db.jobs)
    ensures Quiet(db, Submit(db, user, conv, d, rid, key).db)
  {
    SubmitGrows(db, user, conv, d, rid, key);
    SubmitPlain(db, user, conv, d, rid, key);
    hide MessagesSay, SaysItsJob, Grows, NewRunsPlain, Submit;
  }

  lemma MailQuiet(db: Db, a: MailAction)
    requires MessagesSay(db.convs, db.jobs)
    ensures Quiet(db, ApplyMail(db, a))
  {
    NothingSaid(db);
    hide SendMessage, IngestChannel, Submit, MessagesSay, Quiet, Clip, ClientKeyOf, PushMessage, DeliverSubagent, OpenConversation;
    match a
    case ASend(user, conv, content, hasFiles, filesFound, rawKey, mid, rid, now) =>
      SendEffect(db, user, conv, content, hasFiles, filesFound, rawKey, mid, rid, now);
      if conv in db.convs {
        var d := Draft(mid, UserRole, content, None, ClientWriter);
        assert NotAFireKey(ClientKeyOf(rawKey)) by { ClientKeysAreNoFires(rawKey); }
        SubmitQuiet(db, user, conv, d, rid, ClientKeyOf(rawKey));
        var tx := Submit(db, user, conv, d, rid, ClientKeyOf(rawKey));
        QuietByTables(db, tx.db, tx.db.(autos := Revoke(tx.db.autos, conv, now)));
      }
    case AIngest(provider, event, link, content, hasFiles, filesFound, mid, rid) =>
      IngestEffect(db, provider, event, link, content, hasFiles, filesFound, mid, rid);
      if link.Some? && link.value.1 in db.convs {
        var d := Draft(mid, UserRole, content, None, ChannelWriter);
        var key := Some(ChannelKey(Clip(provider + ":" + event, 120)));
        SubmitQuiet(db, link.value.0, link.value.1, d, rid, key);
        var tx := Submit(db, link.value.0, link.value.1, d, rid, key);
        QuietByTables(db, tx.db, tx.db.(inbound := tx.db.inbound[(provider, event) := mid]));
      }
    case _ => WriterQuiet(db, a);
  }

  lemma ClientKeysAreNoFires(raw: string)
    ensures NotAFireKey(ClientKeyOf(raw))
  {
  }

  lemma WriterQuiet(db: Db, a: MailAction)
    requires MessagesSay(db.convs, db.jobs) && (a.APush? || a.ASubagent? || a.AOpen?)
    ensures Quiet(db, ApplyMail(db, a))
  {
    NothingSaid(db);
    if (a.APush? || a.ASubagent?) && a.conv in db.convs {
      PostQuiet(db, a.conv, Draft(a.mid, AssistantRole, a.content,
        Some(if a.APush? then PushKey(a.minted) else SubagentKey(a.subagent)), if a.APush? then PushWriter else SubagentWriter));
    }
    hide Clashes;
    if a.AOpen? {
      assert MessagesSay(ApplyMail(db, a).convs, db.jobs) && Grows(db.convs, ApplyMail(db, a).convs);
    } else {
      hide Quiet, MessagesSay;
      if a.APush? && a.conv in db.convs {
        var p := Post(db, a.conv, Draft(a.mid, AssistantRole, a.content, Some(PushKey(a.minted)), PushWriter));
        QuietByTables(db, p, p.(issued := db.issued + {a.minted}));
      }
    }
  }

  lemma WorkQuiet(db: Db, a: WorkAction)
    requires MessagesSay(db.convs, db.jobs)
    ensures Quiet(db, ApplyWork(db, a))
  {
    NothingSaid(db);
    WorkAddsNoRuns(db, a);
    if a.AComplete? {
      CompleteEffect(db, a.rid, a.worker, a.mid, a.content, a.now);
      if a.rid in db.runs && db.runs[a.rid].conv in db.convs {
        PostQuiet(db, db.runs[a.rid].conv, Draft(a.mid, AssistantRole, a.content, None, OutputOf(a.rid)));
      }
    } else {
      WorkLeavesMessages(db, a);
    }
    hide ApplyWork, MessagesSay, Grows, CompleteRun;
    hide Post;
    assert ApplyWork(db, a).runs.Keys == db.runs.Keys;
  }

  lemma WorkAddsNoRuns(db: Db, a: WorkAction)
    ensures ApplyWork(db, a).runs.Keys == db.runs.Keys
    ensures a.AComplete? ==> ApplyWork(db, a) == CompleteRun(db, a.rid, a.worker, a.mid, a.content, a.now).db
  {
    hide RunRow.Step, RunningIn, CompleteRun, RequeueExpired, OnRun;
    match a
    case AComplete(rid, w, mid, content, now) => CompleteAddsNoRuns(db, rid, w, mid, content, now);
    case ARequeue(picked, now) => RequeueAddsNoRuns(db, picked, now);
    case _ => OnRunAddsNoRuns(db);
  }

  lemma OnRunAddsNoRuns(db: Db)
    ensures forall rid, s :: rid in db.runs ==> OnRun(db, rid, s).runs.Keys == db.runs.Keys
  {
    hide RunRow.Step;
  }

  lemma RequeueAddsNoRuns(db: Db, picked: seq<RunId>, now: Time)
    ensures RequeueExpired(db, picked, now).runs.Keys == db.runs.Keys
  {
    hide ExpireRow;
  }

  lemma CompleteAddsNoRuns(db: Db, rid: RunId, w: WorkerId, mid: MsgId, content: string, now: Time)
    ensures CompleteRun(db, rid, w, mid, content, now).db.runs.Keys == db.runs.Keys
  {
    hide RunRow.Step, Clashes;
  }

  lemma OtherJobQuiet(db: Db, a: JobAction)
    requires MessagesSay(db.convs, db.jobs) && !a.ADeliverJob?
    ensures Quiet(db, ApplyJob(db, a))
  {
    NothingSaid(db);
    OtherJobsLeaveMessages(db, a);
    OtherJobsLeaveRuns(db, a);
    hide ApplyJob, Quiet, MessagesSay;
    QuietByTables(db, db, ApplyJob(db, a));
  }

  lemma OtherJobsLeaveRuns(db: Db, a: JobAction)
    requires !a.ADeliverJob?
    ensures ApplyJob(db, a).runs == db.runs
  {
    hide ClaimFrom, Sweep, ActiveJobs, OwnsFire;
  }

  lemma TickQuiet(db: Db, a: TickAction)
    requires MessagesSay(db.convs, db.jobs)
    ensures Quiet(db, ApplyTick(db, a))
  {
    NothingSaid(db);
    if a.AAppendAuto? {
      AppendQuiet(db, a.user, a.conv, a.worker, a.token, a.source, a.content, a.mid);
    } else {
      LeaseTicksFrom(db, a);
      LeasesLeaveRuns(db, a);
      hide ApplyTick, Quiet;
      QuietByTables(db, db, ApplyTick(db, a));
    }
    hide AppendAutomation, Quiet;
  }

  lemma AppendQuiet(db: Db, user: UserId, conv: ConvId, worker: WorkerId, token: Token, source: string, content: string, mid: MsgId)
    requires MessagesSay(db.convs, db.jobs)
    ensures Quiet(db, AppendAutomation(db, user, conv, worker, token, source, content, mid).db)
  {
    NothingSaid(db);
    if conv in db.convs {
      PostQuiet(db, conv, Draft(mid, AssistantRole, content, Some(AutomationKey(source, token)), AutomationWriter));
    }
    hide Quiet, Clashes, HasKey, BusyWith, OwnsTick, MessagesSay;
  }

  // ---------- a delivery ----------

  /** A delivery posts the message, or submits a Run on the prompt. */
  lemma DeliveryTexts(db: Db, jid: JobId, w: WorkerId, token: Token, mid: MsgId, rid: RunId)
    requires MessagesSay(db.convs, db.jobs)
    ensures var db' := DeliverJob(db, jid, w, token, mid, rid).db;
      && Grows(db.convs, db'.convs) && MessagesSay(db'.convs, db.jobs)
      && (forall id :: id in db'.runs && id !in db.runs ==> RunAsks(db'.runs[id], db'.convs, db.jobs))
  {
    NothingSaid(db);
    if jid in db.jobs && db.jobs[jid].conv in db.convs {
      var job := db.jobs[jid];
      if job.tier.Instant? {
        PostQuiet(db, job.conv, Draft(mid, AssistantRole, job.message, Some(ScheduleKey(jid, token)), ScheduleWriter(jid)));
      } else {
        SoftDelivery(db, jid, token, mid, rid);
      }
    }
    hide MessagesSay, Grows, Submit, Clashes, HasKey, BusyWith, RunAsks;
  }

  lemma SoftDelivery(db: Db, jid: JobId, token: Token, mid: MsgId, rid: RunId)
    requires MessagesSay(db.convs, db.jobs) && jid in db.jobs && db.jobs[jid].conv in db.convs
    ensures var job := db.jobs[jid];
      var d := Draft(mid, UserRole, job.prompt, Some(ScheduleInputKey(jid, token)), ScheduleWriter(jid));
      var db' := Submit(db, job.user, job.conv, d, rid, Some(ScheduleKey(jid, token))).db;
      && Grows(db.convs, db'.convs) && MessagesSay(db'.convs, db.jobs)
      && (forall id :: id in db'.runs && id !in db.runs ==> RunAsks(db'.runs[id], db'.convs, db.jobs))
  {
    var job := db.jobs[jid];
    var d := Draft(mid, UserRole, job.prompt, Some(ScheduleInputKey(jid, token)), ScheduleWriter(jid));
    SubmitGrows(db, job.user, job.conv, d, rid, Some(ScheduleKey(jid, token)));
    var tx := Submit(db, job.user, job.conv, d, rid, Some(ScheduleKey(jid, token)));
    hide MessagesSay, Grows, Clashes;
    if tx.out.Ok? {
      assert AsksAt(tx.db.convs[job.conv], |db.convs[job.conv].messages|, mid, job.prompt);
      assert forall id :: id in tx.db.runs && id !in db.runs ==> id == rid;
      assert RunAsks(tx.db.runs[rid], tx.db.convs, db.jobs);
    }
  }

  // ---------- every transaction, every history ----------

  /** All fires so far say what their jobs were created to say. */
  ghost predicate FiresSay(db: Db) {
    MessagesSay(db.convs, db.jobs) && RunsAsk(db.runs, db.convs, db.jobs)
  }

  lemma MessagesStillSay(convs: map<ConvId, Conversation>, jobs: map<JobId, Job>, jobs': map<JobId, Job>)
    requires MessagesSay(convs, jobs) && PlansStay(jobs, jobs')
    ensures MessagesSay(convs, jobs')
  {
  }

  lemma RunStillAsks(r: Run, r': Run, convs: map<ConvId, Conversation>, convs': map<ConvId, Conversation>,
                     jobs: map<JobId, Job>, jobs': map<JobId, Job>)
    requires RunAsks(r, convs, jobs) && Grows(convs, convs') && PlansStay(jobs, jobs')
    requires r'.key == r.key && r'.conv == r.conv && r'.input == r.input
    ensures RunAsks(r', convs', jobs')
  {
    if r.key.Some? && r.key.value.ScheduleKey? {
      var prompt := jobs[r.key.value.job].prompt;
      var i: nat :| AsksAt(convs[r.conv], i, r.input, prompt);
      assert AsksAt(convs'[r.conv], i, r.input, prompt);
    }
  }

  /** What a transaction does to messages and Runs, all kinds together. */
  lemma ActionTexts(db: Db, a: Action)
    requires MessagesSay(db.convs, db.jobs)
    ensures var db' := Apply(db, a);
      && Grows(db.convs, db'.convs) && MessagesSay(db'.convs, db.jobs)
      && (forall id :: id in db'.runs && id !in db.runs ==> RunAsks(db'.runs[id], db'.convs, db.jobs))
  {
    hide ApplyMail, ApplyWork, ApplyTick, MessagesSay, Grows, DeliverJob;
    match a
    case Mail(m) => MailQuiet(db, m);
    case Work(w) => WorkQuiet(db, w);
    case Ticking(t) => TickQuiet(db, t);
    case Scheduling(j) =>
      if j.ADeliverJob? {
        DeliveryTexts(db, j.jid, j.worker, j.token, j.mid, j.rid);
      } else {
        OtherJobQuiet(db, j);
        hide ApplyJob;
      }
  }

  lemma ActionKeepsTexts(db: Db, a: Action)
    requires Inv(db) && FiresSay(db)
    ensures FiresSay(Apply(db, a))
  {
    ActionTexts(db, a);
    ActionPlansStay(db, a);
    ActionEvolves(db, a);
    var db' := Apply(db, a);
    hide Inv, Apply, MessagesSay, Grows, PlansStay, RunAsks;
    MessagesStillSay(db'.convs, db.jobs, db'.jobs);
    forall id | id in db'.runs ensures RunAsks(db'.runs[id], db'.convs, db'.jobs) {
      if id in db.runs {
        RunStillAsks(db.runs[id], db'.runs[id], db.convs, db'.convs, db.jobs, db'.jobs);
      } else {
        GrowsSelf(db'.convs);
        RunStillAsks(db'.runs[id], db'.runs[id], db'.convs, db'.convs, db.jobs, db'.jobs);
      }
    }
  }

  lemma GrowsSelf(convs: map<ConvId, Conversation>)
    ensures Grows(convs, convs)
  {
  }

  lemma {:induction false} HistoryKeepsTexts(db: Db, history: seq<Action>)
    requires Inv(db) && FiresSay(db) && LawfulHistory(db, history)
    ensures FiresSay(Exec(db, history))
    decreases |history|
  {
    hide Inv, FiresSay, Apply;
    if history != [] {
      ActionKeepsTexts(db, history[0]);
      ActionKeeps(db, history[0]);
      HistoryKeepsTexts(Apply(db, history[0]), history[1..]);
    }
  }

  // ---------- the results ----------

  /**
   In every reachable state: a message under a fire's key is an assistant message with the
   job's message, and a Run under a fire's key has as its input a user message of the
   job's conversation with the job's prompt.
   */
  lemma FiresSayWhatTheirJobsSay(history: seq<Action>)
    requires LawfulHistory(EMPTY_DB, history)
    ensures var db := Exec(EMPTY_DB, history);
      && (forall c, i, j, t | c in db.convs && 0 <= i < |db.convs[c].messages|
            && db.convs[c].messages[i].draft.key == Some(ScheduleKey(j, t)) ::
            j in db.jobs && db.convs[c].messages[i].draft.role.AssistantRole?
            && db.convs[c].messages[i].draft.content == db.jobs[j].message)
      && (forall id, j, t | id in db.runs && db.runs[id].key == Some(ScheduleKey(j, t)) ::
            j in db.jobs && db.runs[id].conv in db.convs && db.runs[id].conv == db.jobs[j].conv
            && exists i: nat :: AsksAt(db.convs[db.runs[id].conv], i, db.runs[id].input, db.jobs[j].prompt))
  {
    hide Exec, LawfulHistory;
    NothingHappened();
    ReachableIsSound([]);
    StartSays();
    HistoryKeepsTexts(EMPTY_DB, history);
    hide HasIdAt;
    var db := Exec(EMPTY_DB, history);
    forall c, i, j, t | c in db.convs && 0 <= i < |db.convs[c].messages|
      && db.convs[c].messages[i].draft.key == Some(ScheduleKey(j, t))
      ensures j in db.jobs && db.convs[c].messages[i].draft.role.AssistantRole?
        && db.convs[c].messages[i].draft.content == db.jobs[j].message
    {
      assert SaysItsJob(db.convs[c].messages[i].draft, db.jobs);
    }
  }

  lemma NothingHappened()
    ensures LawfulHistory(EMPTY_DB, []) && Exec(EMPTY_DB, []) == EMPTY_DB
  {
  }

  lemma StartSays()
    ensures FiresSay(EMPTY_DB)
  {
  }

  ghost predicate SaidAt(c: Conversation, i: nat, key: Key, content: string) {
    i < |c.messages| && c.messages[i].draft.key == Some(key) && c.messages[i].draft.content == content
  }

  ghost predicate RunOn(db: Db, id: RunId, i: nat, key: Key, conv: ConvId, prompt: string) {
    id in db.runs && db.runs[id].key == Some(key) && conv in db.convs && AsksAt(db.convs[conv], i, db.runs[id].input, prompt)
  }

  /** And nothing is marked as fired that was not said: every fired token has its message, or its Run. */
  lemma FiredTokensWereSaid(history: seq<Action>, j: JobId, t: Token)
    requires LawfulHistory(EMPTY_DB, history)
    requires j in Exec(EMPTY_DB, history).jobs && Fired(Exec(EMPTY_DB, history), j, t)
    ensures var db := Exec(EMPTY_DB, history);
      var job := db.jobs[j];
      && job.conv in db.convs
      && (job.tier.Instant? ==> exists i: nat :: SaidAt(db.convs[job.conv], i, ScheduleKey(j, t), job.message))
      && (job.tier.Soft? ==> exists id: RunId, i: nat :: RunOn(db, id, i, ScheduleKey(j, t), job.conv, job.prompt))
  {
    FiresSayWhatTheirJobsSay(history);
    ReachableIsSound(history);
    hide Exec, LawfulHistory, AsksAt;
    var db := Exec(EMPTY_DB, history);
    var job := db.jobs[j];
    if job.tier.Instant? {
      var i :| 0 <= i < |db.convs[job.conv].messages| && db.convs[job.conv].messages[i].draft.key == Some(ScheduleKey(j, t));
      assert SaidAt(db.convs[job.conv], i, ScheduleKey(j, t), job.message);
    } else {
      var id := db.byKey[(db.jobs[j].user, ScheduleKey(j, t))];
      assert id in db.runs && db.runs[id].key == Some(ScheduleKey(j, t)) by {
        hide RunsOk, OneRunning, ConvsOk, AllAnchored, OutputsOk, KeysKnown, JobsOk, AutosOk, AutosOwned;
      }
      var i: nat :| AsksAt(db.convs[db.runs[id].conv], i, db.runs[id].input, job.prompt);
      assert RunOn(db, id, i, ScheduleKey(j, t), job.conv, job.prompt);
    }
    hide Inv;
  }

  /** A created job has the texts, the conversation and the plan it was asked for; a refused creation changes nothing. */
  lemma CreationStoresThePlan(db: Db, jid: JobId, user: UserId, conv: ConvId, tier: Tier, trigger: Trigger, cron: string,
                              interval: int, message: string, prompt: string, runAt: Time, remaining: int)
    ensures var tx := CreateJob(db, jid, user, conv, tier, trigger, cron, interval, message, prompt, runAt, remaining);
      && var active := set j | j in db.jobs && db.jobs[j].user == user && (db.jobs[j].status.JobPending? || db.jobs[j].status.JobRunning?);
      && (tx.out.Ok? <==> conv in db.convs && db.convs[conv].user == user && jid !in db.jobs && |active| < 10)
      && (tx.out.Err? ==> tx.db == db)
      && (tx.out.Ok? ==>
            && tx.db.jobs.Keys == db.jobs.Keys + {jid}
            && tx.db.jobs[jid] == Job(user, conv, tier, trigger, cron, if interval < 0 then 0 else interval, message, prompt,
                                      runAt, remaining, JobPending, None, None, None, ""))
  {
    assert ActiveJobs(db, user) ==
      set j | j in db.jobs && db.jobs[j].user == user && (db.jobs[j].status.JobPending? || db.jobs[j].status.JobRunning?);
  }

  /**
   From creation to every fire: whatever happens in between, the fires of a job say the
   very texts it was created with, in the conversation it was created for.
   */
  lemma FiresSayWhatWasScheduled(past: seq<Action>, jid: JobId, user: UserId, conv: ConvId, tier: Tier, trigger: Trigger, cron: string,
                                 interval: int, message: string, prompt: string, runAt: Time, remaining: int, history: seq<Action>)
    requires var create := Scheduling(ACreateJob(jid, user, conv, tier, trigger, cron, interval, message, prompt, runAt, remaining));
      LawfulHistory(EMPTY_DB, past + [create] + history)
    requires CreateJob(Exec(EMPTY_DB, past), jid, user, conv, tier, trigger, cron, interval, message, prompt, runAt, remaining).out.Ok?
    ensures var create := Scheduling(ACreateJob(jid, user, conv, tier, trigger, cron, interval, message, prompt, runAt, remaining));
      var db := Exec(EMPTY_DB, past + [create] + history);
      && (forall c, i, t | c in db.convs && 0 <= i < |db.convs[c].messages|
            && db.convs[c].messages[i].draft.key == Some(ScheduleKey(jid, t)) ::
            db.convs[c].messages[i].draft.role.AssistantRole? && db.convs[c].messages[i].draft.content == message)
      && (forall id, t | id in db.runs && db.runs[id].key == Some(ScheduleKey(jid, t)) ::
            db.runs[id].conv == conv && conv in db.convs
            && exists i: nat :: AsksAt(db.convs[conv], i, db.runs[id].input, prompt))
  {
    var a := ACreateJob(jid, user, conv, tier, trigger, cron, interval, message, prompt, runAt, remaining);
    var create := Scheduling(a);
    var before := Exec(EMPTY_DB, past);
    ExecSplits(EMPTY_DB, past + [create], history);
    ExecSplits(EMPTY_DB, past, [create]);
    CreationStoresThePlan(before, jid, user, conv, tier, trigger, cron, interval, message, prompt, runAt, remaining);
    OneAction(before, create);
    assert Apply(before, create) == CreateJob(before, jid, user, conv, tier, trigger, cron, interval, message, prompt, runAt, remaining).db;
    hide Apply, CreateJob, Exec, LawfulHistory;
    PlansStayThroughout(Apply(before, create), history);
    FiresSayWhatTheirJobsSay(past + [create] + history);
    hide AsksAt;
  }

  lemma OneAction(db: Db, a: Action)
    ensures Exec(db, [a]) == Apply(db, a)
  {
    hide Apply;
    assert [a][1..] == [] && Exec(Apply(db, a), []) == Apply(db, a);
  }

  lemma {:induction false} ExecSplits(db: Db, past: seq<Action>, more: seq<Action>)
    ensures Exec(db, past + more) == Exec(Exec(db, past), more)
    decreases |past|
  {
    hide Apply;
    if past == [] {
      assert past + more == more;
    } else {
      ExecSplits(Apply(db, past[0]), past[1..], more);
      assert (past + more)[1..] == past[1..] + more;
    }
  }
}
