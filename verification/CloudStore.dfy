/**
 The store object (cloud/store.py): tables in fields, one method a transaction,
 rows read, checked, changed column by column and written back. Each method is
 proved to be exactly the transaction of the same name in `StoreSpec`; what the
 transactions guarantee is proved there and in the modules about histories.
 */
module CloudStoreTables {
  import opened Prelude
  import opened RunRow
  import opened CatchUp
  import opened StoreSpec
  import Text

  class CloudStore {
    var runs: map<RunId, Run>
    var byKey: map<(UserId, Key), RunId>
    var convs: map<ConvId, Conversation>
    var messageIds: set<MsgId>
    var jobs: map<JobId, Job>
    var autos: map<ConvId, Automation>
    var inbound: map<(string, string), MsgId>
    ghost var issued: set<Token>
    ghost var initial: map<JobId, int>

    ghost function View(): Db
      reads this
    {
      Db(runs, byKey, convs, messageIds, jobs, autos, inbound, issued, initial)
    }

    constructor ()
      ensures View() == EMPTY_DB
    {
      runs, byKey, convs, messageIds, jobs, autos, inbound := map[], map[], map[], {}, map[], map[], map[];
      issued, initial := {}, map[];
    }

    // ---------- shared pieces ----------

    /** Numbers the event by the highest number stored so far. */
    method AppendRunEvent(rid: RunId, kind: EventKind)
      requires rid in runs
      modifies this`runs
      ensures runs == old(runs)[rid := Log(old(runs)[rid], kind)]
    {
      var run := runs[rid];
      var last := MaxNumber(run.log);
      run := run.(log := run.log + [RunEvent(last + 1, kind)]);
      runs := runs[rid := run];
    }

    /** Inserts a message with the conversation's next number; a violated constraint leaves everything unchanged. */
    method InsertMessage(conv: ConvId, d: Draft) returns (ok: bool)
      requires conv in convs
      modifies this`convs, this`messageIds
      ensures ok == !Clashes(old(View()), conv, d)
      ensures View() == if ok then Post(old(View()), conv, d) else old(View())
    {
      var conversation := convs[conv];
      if d.id in messageIds || (d.key.Some? && HasKey(conversation.messages, d.key.value)) {
        return false;
      }
      var message := Message(conversation.nextNumber, d);
      conversation := conversation.(nextNumber := conversation.nextNumber + 1);
      conversation := conversation.(messages := conversation.messages + [message]);
      convs := convs[conv := conversation];
      messageIds := messageIds + {d.id};
      return true;
    }

    /** Inserts an input message and its queued Run, both or neither. */
    method InsertSubmission(user: UserId, conv: ConvId, d: Draft, rid: RunId, key: Option<Key>) returns (out: Result<(MsgId, RunId)>)
      requires conv in convs
      modifies this`convs, this`messageIds, this`runs, this`byKey
      ensures Tx(View(), out) == Submit(old(View()), user, conv, d, rid, key)
    {
      if rid in runs || (key.Some? && (user, key.value) in byKey) {
        return Err(Integrity);
      }
      var ok := InsertMessage(conv, d);
      if !ok {
        return Err(Integrity);
      }
      runs := runs[rid := Run(user, conv, d.id, key, Queued, None, None, None, 0, None, None, None, None, None, [])];
      if key.Some? {
        byKey := byKey[(user, key.value) := rid];
      }
      AppendRunEvent(rid, RunQueued);
      return Ok((d.id, rid));
    }

    // ---------- messages in ----------

    method AppendUserMessageAndRun(user: UserId, conv: ConvId, content: string, hasFiles: bool, filesFound: bool,
                                   rawKey: string, mid: MsgId, rid: RunId, now: Time) returns (out: Result<(MsgId, RunId)>)
      modifies this
      ensures Tx(View(), out) ==
        SendMessage(old(View()), user, conv, content, hasFiles, filesFound, rawKey, mid, rid, now)
    {
      hide Submit, Revoke, Text.Strip;
      if Text.Strip(content) == "" && !hasFiles {
        return Err(Invalid);
      }
      var text := Text.Strip(rawKey);
      if text != "" && (|text| > 128 || exists c :: c in text && c < '!') {
        return Err(Invalid);
      }
      var key := if text == "" then None else Some(ClientKey(text));
      if key.Some? && (user, key.value) in byKey {
        var known := byKey[(user, key.value)];
        if known !in runs {
          return Err(Missing);
        }
        if runs[known].conv != conv {
          return Err(Conflict);
        }
        return Ok((runs[known].input, known));
      }
      if conv !in convs || convs[conv].user != user {
        return Err(NotFound);
      }
      if hasFiles && !filesFound {
        return Err(NotFound);
      }
      out := SubmitAndRevoke(user, conv, Draft(mid, UserRole, content, None, ClientWriter), rid, key, now);
    }

    /** A submission by the user takes the conversation back from background work. */
    method SubmitAndRevoke(user: UserId, conv: ConvId, d: Draft, rid: RunId, key: Option<Key>, now: Time)
      returns (out: Result<(MsgId, RunId)>)
      requires conv in convs
      modifies this`convs, this`messageIds, this`runs, this`byKey, this`autos
      ensures out == Submit(old(View()), user, conv, d, rid, key).out
      ensures View() == (var db := Submit(old(View()), user, conv, d, rid, key).db;
                         if out.Ok? then db.(autos := Revoke(db.autos, conv, now)) else db)
    {
      hide Submit, Revoke;
      out := InsertSubmission(user, conv, d, rid, key);
      if out.Ok? {
        RevokeLease(conv, now);
      }
    }

    /** Takes the automation of the conversation away from whoever works on it; the tick token stays. */
    method RevokeLease(conv: ConvId, now: Time)
      modifies this`autos
      ensures autos == Revoke(old(autos), conv, now)
    {
      if conv in autos && autos[conv].owner.Some? {
        var automation := autos[conv];
        automation := automation.(owner := None, expires := None);
        automation := automation.(nextTick := now);
        autos := autos[conv := automation];
      }
    }

    method IngestChannelMessage(provider: string, event: string, link: Option<(UserId, ConvId)>, content: string,
                                hasFiles: bool, filesFound: bool, mid: MsgId, rid: RunId) returns (out: Result<(MsgId, bool)>)
      modifies this
      ensures Tx(View(), out) ==
        IngestChannel(old(View()), provider, event, link, content, hasFiles, filesFound, mid, rid)
    {
      if Text.Strip(content) == "" {
        return Err(Invalid);
      }
      if (provider, event) in inbound {
        return Ok((inbound[(provider, event)], false));
      }
      if link.None? {
        return Err(NotFound);
      }
      var (user, conv) := link.value;
      if conv !in convs {
        return Err(Missing);
      }
      if hasFiles && !filesFound {
        return Err(NotFound);
      }
      var key := ChannelKey(Clip(provider + ":" + event, 120));
      var submitted := InsertSubmission(user, conv, Draft(mid, UserRole, content, None, ChannelWriter), rid, Some(key));
      if submitted.Err? {
        return Err(submitted.error);
      }
      inbound := inbound[(provider, event) := mid];
      return Ok((mid, true));
    }

    // ---------- Runs ----------

    /** The read half of a claim; the answer may be stale by the time it is used. */
    method ReadClaimable() returns (candidates: set<RunId>)
      ensures candidates == Claimable(View())
    {
      candidates := set id | id in runs && runs[id].status.Queued? && !RunningIn(runs, runs[id].conv);
    }

    /** The commit half: the row is locked and re-read, and the unique index arbitrates. */
    method CommitClaim(rid: RunId, worker: WorkerId, now: Time, lease: int) returns (out: Result<Option<RunId>>)
      modifies this`runs
      ensures Tx(View(), out) == ClaimRun(old(View()), rid, worker, now, lease)
    {
      if rid !in runs || !runs[rid].status.Queued? {
        return Ok(None);
      }
      var run := runs[rid];
      if RunningIn(runs, run.conv) {
        return Ok(None);
      }
      run := run.(status := Running);
      run := run.(owner := Some(worker), expires := Some(now + LeaseSpan(lease)));
      run := run.(heartbeat := Some(now));
      if run.started.None? {
        run := run.(started := Some(now));
      }
      run := run.(attempt := run.attempt + 1);
      runs := runs[rid := run];
      AppendRunEvent(rid, RunStarted(run.attempt));
      return Ok(Some(rid));
    }

    method CompleteRun(rid: RunId, worker: WorkerId, mid: MsgId, content: string, now: Time) returns (out: Result<bool>)
      modifies this
      ensures Tx(View(), out) == StoreSpec.CompleteRun(old(View()), rid, worker, mid, content, now)
    {
      if rid !in runs {
        return Err(NotFound);
      }
      var run := runs[rid];
      if !run.status.Running? || run.owner != Some(worker) {
        return Err(NotOwner);
      }
      if run.cancelRequested.Some? {
        run := run.(status := Cancelled, completed := Some(now));
        run := run.(owner := None, expires := None);
        runs := runs[rid := run];
        AppendRunEvent(rid, RunCancelled);
        return Ok(false);
      }
      if run.conv !in convs {
        return Err(Missing);
      }
      var ok := InsertMessage(run.conv, Draft(mid, AssistantRole, content, None, OutputOf(rid)));
      if !ok {
        return Err(Integrity);
      }
      run := run.(output := Some(mid));
      run := run.(status := Completed, completed := Some(now));
      run := run.(owner := None, expires := None);
      runs := runs[rid := run];
      AppendRunEvent(rid, RunCompleted(mid));
      return Ok(true);
    }

    method HeartbeatRun(rid: RunId, worker: WorkerId, now: Time, lease: int) returns (out: Result<bool>)
      modifies this`runs
      ensures Tx(View(), out) == StoreSpec.HeartbeatRun(old(View()), rid, worker, now, lease)
    {
      if rid !in runs {
        return Err(NotFound);
      }
      var run := runs[rid];
      if !run.status.Running? || run.owner != Some(worker) {
        return Err(NotOwner);
      }
      run := run.(heartbeat := Some(now));
      run := run.(expires := Some(now + LeaseSpan(lease)));
      runs := runs[rid := run];
      return Ok(run.cancelRequested.Some?);
    }

    method CancelOwnedRun(rid: RunId, worker: WorkerId, now: Time) returns (out: Result<()>)
      modifies this`runs
      ensures Tx(View(), out) == StoreSpec.CancelOwnedRun(old(View()), rid, worker, now)
    {
      if rid !in runs {
        return Err(NotFound);
      }
      var run := runs[rid];
      if !run.status.Running? || run.owner != Some(worker) {
        return Err(NotOwner);
      }
      run := run.(status := Cancelled, completed := Some(now));
      run := run.(owner := None, expires := None);
      runs := runs[rid := run];
      AppendRunEvent(rid, RunCancelled);
      return Ok(());
    }

    method FailRun(rid: RunId, worker: WorkerId, error: string, now: Time) returns (out: Result<()>)
      modifies this`runs
      ensures Tx(View(), out) == StoreSpec.FailRun(old(View()), rid, worker, error, now)
    {
      if rid !in runs {
        return Err(NotFound);
      }
      var run := runs[rid];
      if !run.status.Running? || run.owner != Some(worker) {
        return Err(NotOwner);
      }
      var kind := RunCancelled;
      if run.cancelRequested.Some? {
        run := run.(status := Cancelled);
      } else {
        run := run.(status := Failed, error := Some(Clip(error, 8000)));
        kind := RunFailed(Clip(error, 8000));
      }
      run := run.(completed := Some(now));
      run := run.(owner := None, expires := None);
      runs := runs[rid := run];
      AppendRunEvent(rid, kind);
      return Ok(());
    }

    /** Takes an abandoned Run from its worker: cancelled if that was requested, queued again otherwise. */
    method RecoverRow(rid: RunId, now: Time)
      requires rid in runs
      modifies this`runs
      ensures runs == old(runs)[rid := ExpireRow(old(runs)[rid], now)]
    {
      var run := runs[rid].(owner := None, expires := None);
      if run.cancelRequested.Some? {
        run := run.(status := Cancelled, completed := Some(now));
        runs := runs[rid := run];
        AppendRunEvent(rid, RunCancelled);
      } else {
        run := run.(status := Queued);
        runs := runs[rid := run];
        AppendRunEvent(rid, RunRequeued(run.attempt));
      }
    }

    /** Recovers the expired rows this reaper locked, one after the other. */
    method RequeueExpiredRuns(expired: seq<RunId>, now: Time) returns (count: nat)
      requires forall i :: 0 <= i < |expired| ==> expired[i] in runs && Expired(runs[expired[i]], now)
      requires forall i, j :: 0 <= i < j < |expired| ==> expired[i] != expired[j]
      modifies this`runs
      ensures View() == RequeueExpired(old(View()), expired, now) && count == |expired|
    {
      hide ExpireRow;
      ghost var before := runs;
      var i := 0;
      while i < |expired|
        invariant 0 <= i <= |expired|
        invariant runs.Keys == before.Keys
        invariant forall id :: id in runs ==> runs[id] == if id in expired[..i] then ExpireRow(before[id], now) else before[id]
      {
        assert expired[i] !in expired[..i];
        RecoverRow(expired[i], now);
        assert expired[..i + 1] == expired[..i] + [expired[i]];
        i := i + 1;
      }
      assert expired[..i] == expired;
      assert runs == RequeueExpired(old(View()), expired, now).runs;
      return |expired|;
    }

    method RequestCancel(user: UserId, rid: RunId, now: Time) returns (out: Result<()>)
      modifies this`runs
      ensures Tx(View(), out) == RequestCancelRun(old(View()), user, rid, now)
    {
      if rid !in runs || runs[rid].user != user {
        return Err(NotFound);
      }
      var run := runs[rid];
      if run.status.Queued? {
        run := run.(status := Cancelled, completed := Some(now));
        assert Settle(runs[rid], Cancelled, now) == run.(owner := None, expires := None);
        runs := runs[rid := run.(owner := None, expires := None)];
        AppendRunEvent(rid, RunCancelled);
      } else if run.status.Running? {
        run := run.(cancelRequested := Some(now));
        runs := runs[rid := run];
        AppendRunEvent(rid, RunCancelRequested);
      }
      assert runs[rid] == RequestCancelRow(old(runs[rid]), now);
      return Ok(());
    }

    method AppendRuntimeRunEvent(rid: RunId, name: string, data: string) returns (out: Result<()>)
      modifies this`runs
      ensures Tx(View(), out) == AppendRuntime(old(View()), rid, name, data)
    {
      if rid !in runs {
        return Err(NotFound);
      }
      AppendRunEvent(rid, Runtime(name, data));
      return Ok(());
    }

    // ---------- scheduled jobs ----------

    method CreateScheduledJob(jid: JobId, user: UserId, conv: ConvId, tier: Tier, trigger: Trigger, cron: string,
                              interval: int, message: string, prompt: string, runAt: Time, remaining: int)
      returns (out: Result<()>)
      modifies this
      ensures Tx(View(), out) ==
        CreateJob(old(View()), jid, user, conv, tier, trigger, cron, interval, message, prompt, runAt, remaining)
    {
      if conv !in convs || convs[conv].user != user {
        return Err(NotFound);
      }
      var active := set j | j in jobs && jobs[j].user == user && (jobs[j].status.JobPending? || jobs[j].status.JobRunning?);
      assert active == ActiveJobs(View(), user);
      if |active| >= 10 {
        return Err(Conflict);
      }
      if jid in jobs {
        return Err(Integrity);
      }
      jobs := jobs[jid := Job(user, conv, tier, trigger, cron, Max(0, interval), message, prompt, runAt, remaining,
                              JobPending, None, None, None, "")];
      initial := initial[jid := remaining];
      return Ok(());
    }

    method CancelScheduledJob(user: UserId, jid: JobId) returns (out: Result<()>)
      modifies this`jobs
      ensures Tx(View(), out) == CancelJob(old(View()), user, jid)
    {
      if jid !in jobs || jobs[jid].user != user {
        return Err(NotFound);
      }
      if !jobs[jid].status.JobPending? {
        return Err(Conflict);
      }
      jobs := jobs[jid := jobs[jid].(status := JobCancelled)];
      return Ok(());
    }

    /** Gives lapsed leases back, one locked row after the other. */
    method SweepLapsed(lapsed: seq<JobId>, now: Time)
      requires forall i :: 0 <= i < |lapsed| ==> lapsed[i] in jobs && LeaseLapsed(jobs[lapsed[i]], now)
      requires forall i, j :: 0 <= i < j < |lapsed| ==> lapsed[i] != lapsed[j]
      modifies this`jobs
      ensures jobs == Sweep(old(jobs), lapsed, now)
    {
      ghost var before := jobs;
      var i := 0;
      while i < |lapsed|
        invariant 0 <= i <= |lapsed|
        invariant jobs.Keys == before.Keys
        invariant forall j :: j in jobs ==>
          jobs[j] == if j in lapsed[..i] then before[j].(status := JobPending, owner := None, expires := None) else before[j]
      {
        var job := jobs[lapsed[i]];
        job := job.(status := JobPending);
        job := job.(owner := None, expires := None);
        jobs := jobs[lapsed[i] := job];
        assert lapsed[..i + 1] == lapsed[..i] + [lapsed[i]];
        i := i + 1;
      }
      assert lapsed[..i] == lapsed;
      assert jobs == Sweep(before, lapsed, now);
    }

    /** A misfired repeating job moves to its next future slot; any other misfired job is missed. */
    method SkipMisfire(jid: JobId, now: Time, cron: Cron)
      requires jid in jobs && (jobs[jid].trigger.Every? ==> jobs[jid].cron != "" || jobs[jid].interval > 0)
      modifies this`jobs
      ensures jobs == old(jobs)[jid := Skip(old(jobs)[jid], now, cron)]
    {
      var job := jobs[jid];
      if job.trigger.Every? || (job.interval > 0 && job.remaining > 1) {
        if job.cron != "" {
          job := job.(runAt := cron(job.cron, now));
        } else {
          var next := AdvancePast(job.runAt, job.interval * SECOND, now);
          job := job.(runAt := next);
        }
      } else {
        job := job.(status := JobMissed, lastError := "missed while scheduler was offline");
      }
      jobs := jobs[jid := job];
    }

    /** Candidates are the locked due rows in order; the first that is no misfire is claimed. */
    method ClaimNextScheduledJob(lapsed: seq<JobId>, candidates: seq<JobId>, worker: WorkerId, now: Time, lease: int,
                                 minted: Token, cron: Cron) returns (out: Result<Option<JobId>>)
      requires forall i :: 0 <= i < |lapsed| ==> lapsed[i] in jobs && LeaseLapsed(jobs[lapsed[i]], now)
      requires forall i, j :: 0 <= i < j < |lapsed| ==> lapsed[i] != lapsed[j]
      requires forall j :: j in jobs && jobs[j].trigger.Every? ==> jobs[j].cron != "" || jobs[j].interval > 0
      modifies this
      ensures Tx(View(), out) == ClaimJob(old(View()), lapsed, candidates, worker, now, lease, minted, cron)
    {
      issued := issued + {minted};
      SweepLapsed(lapsed, now);
      ghost var swept := jobs;
      ghost var rest := View();
      var i := 0;
      while i < |candidates|
        invariant 0 <= i <= |candidates|
        invariant View() == rest.(jobs := jobs)
        invariant forall j :: j in jobs && jobs[j].trigger.Every? ==> jobs[j].cron != "" || jobs[j].interval > 0
        invariant ClaimFrom(swept, candidates, worker, now, lease, minted, cron)
          == ClaimFrom(jobs, candidates[i..], worker, now, lease, minted, cron)
      {
        var jid := candidates[i];
        assert candidates[i..][0] == jid && candidates[i..][1..] == candidates[i + 1..];
        if jid in jobs && jobs[jid].status.JobPending? && jobs[jid].runAt <= now {
          var job := jobs[jid];
          if job.token.None? && now - job.runAt > MISFIRE_GRACE {
            SkipMisfire(jid, now, cron);
          } else {
            job := job.(status := JobRunning);
            job := job.(owner := Some(Clip(worker, 200)), expires := Some(now + LeaseSpan(lease)));
            if job.token.None? {
              job := job.(token := Some(minted));
            }
            jobs := jobs[jid := job];
            return Ok(Some(jid));
          }
        }
        i := i + 1;
      }
      return Ok(None);
    }

    method HeartbeatScheduledJob(jid: JobId, worker: WorkerId, token: Token, now: Time, lease: int) returns (out: Result<()>)
      modifies this`jobs
      ensures Tx(View(), out) == HeartbeatJob(old(View()), jid, worker, token, now, lease)
    {
      if jid !in jobs || !jobs[jid].status.JobRunning? || jobs[jid].owner != Some(Clip(worker, 200))
        || jobs[jid].token != Some(token) {
        return Err(NotOwner);
      }
      jobs := jobs[jid := jobs[jid].(expires := Some(now + LeaseSpan(lease)))];
      return Ok(());
    }

    method DeliverScheduledJob(jid: JobId, worker: WorkerId, token: Token, mid: MsgId, rid: RunId) returns (out: Result<()>)
      modifies this
      ensures Tx(View(), out) == DeliverJob(old(View()), jid, worker, token, mid, rid)
    {
      if jid !in jobs || !jobs[jid].status.JobRunning? || jobs[jid].owner != Some(Clip(worker, 200))
        || jobs[jid].token != Some(token) {
        return Err(NotOwner);
      }
      var job := jobs[jid];
      var key := ScheduleKey(jid, token);
      if job.conv !in convs || convs[job.conv].user != job.user {
        return Err(Missing);
      }
      if job.tier.Instant? {
        if HasKey(convs[job.conv].messages, key) {
          return Ok(());
        }
        if BusyWith(runs, job.conv) {
          return Err(Busy);
        }
        var ok := InsertMessage(job.conv, Draft(mid, AssistantRole, job.message, Some(key), ScheduleWriter(jid)));
        return if ok then Ok(()) else Err(Integrity);
      }
      if (job.user, key) in byKey {
        return Ok(());
      }
      var submitted := InsertSubmission(job.user, job.conv,
        Draft(mid, UserRole, job.prompt, Some(ScheduleInputKey(jid, token)), ScheduleWriter(jid)), rid, Some(key));
      return if submitted.Ok? then Ok(()) else Err(submitted.error);
    }

    method FinishScheduledJob(jid: JobId, worker: WorkerId, token: Token, status: JobStatus, remaining: int,
                              next: Option<Time>, error: string) returns (out: Result<()>)
      modifies this`jobs
      ensures Tx(View(), out) == FinishJob(old(View()), jid, worker, token, status, remaining, next, error)
    {
      if jid !in jobs || jobs[jid].owner != Some(Clip(worker, 200)) || jobs[jid].token != Some(token) {
        return Err(NotOwner);
      }
      var job := jobs[jid];
      job := job.(status := status, remaining := remaining);
      if next.Some? {
        job := job.(runAt := next.value);
      }
      job := job.(lastError := Clip(error, 500));
      job := job.(owner := None, expires := None);
      if status.JobPending? {
        job := job.(token := None);
      }
      jobs := jobs[jid := job];
      return Ok(());
    }

    // ---------- automations ----------

    /** Turns off the rows the SELECT returned: the user's other enabled automations. */
    method DisableRows(others: seq<ConvId>, user: UserId, conv: ConvId)
      requires forall c :: c in others <==> c in autos && autos[c].user == user && c != conv && autos[c].enabled
      modifies this`autos
      ensures autos == DisableOthers(old(autos), user, conv)
    {
      ghost var before := autos;
      var i := 0;
      while i < |others|
        invariant 0 <= i <= |others|
        invariant autos.Keys == before.Keys
        invariant forall c :: c in autos ==>
          autos[c] == if c in others[..i]
            then before[c].(enabled := false, proactive := false, drift := false, owner := None, expires := None, tick := None)
            else before[c]
      {
        var other := autos[others[i]];
        other := other.(enabled := false, proactive := false, drift := false);
        other := other.(owner := None, expires := None, tick := None);
        autos := autos[others[i] := other];
        assert others[..i + 1] == others[..i] + [others[i]];
        i := i + 1;
      }
      assert others[..i] == others;
      assert autos == DisableOthers(before, user, conv);
    }

    method ConfigureAutomation(user: UserId, conv: ConvId, proactive: bool, drift: bool, others: seq<ConvId>, now: Time)
      returns (out: Result<()>)
      requires forall c :: c in others <==> c in autos && autos[c].user == user && c != conv && autos[c].enabled
      modifies this`autos
      ensures Tx(View(), out) == Configure(old(View()), user, conv, proactive, drift, now)
    {
      if conv !in convs || convs[conv].user != user {
        return Err(NotFound);
      }
      if proactive || drift {
        DisableRows(others, user, conv);
      }
      var row := if conv in autos then autos[conv]
                 else Automation(user, false, false, false, now, None, None, None, "");
      row := row.(proactive := proactive, drift := drift);
      row := row.(enabled := row.proactive || row.drift, nextTick := now);
      row := row.(owner := None, expires := None, tick := None, lastError := "");
      autos := autos[conv := row];
      return Ok(());
    }

    method ClaimNextAutomation(conv: ConvId, worker: WorkerId, now: Time, lease: int, minted: Token) returns (out: Result<bool>)
      modifies this`autos, this`issued
      ensures Tx(View(), out) == ClaimAutomation(old(View()), conv, worker, now, lease, minted)
    {
      if conv !in autos || !autos[conv].enabled || now < autos[conv].nextTick
        || (autos[conv].expires.Some? && now < autos[conv].expires.value) || BusyWith(runs, conv) {
        return Ok(false);
      }
      var row := autos[conv];
      row := row.(owner := Some(Clip(worker, 200)), expires := Some(now + LeaseSpan(lease)));
      if row.tick.None? {
        row := row.(tick := Some(minted));
      }
      autos := autos[conv := row];
      issued := issued + {minted};
      return Ok(true);
    }

    method FinishAutomation(conv: ConvId, worker: WorkerId, next: Time, error: string) returns (out: Result<()>)
      modifies this`autos
      ensures Tx(View(), out) == StoreSpec.FinishAutomation(old(View()), conv, worker, next, error)
    {
      if conv !in autos || autos[conv].owner != Some(Clip(worker, 200)) {
        return Err(NotOwner);
      }
      var row := autos[conv].(nextTick := next, lastError := Clip(error, 500));
      row := row.(owner := None, expires := None);
      if error == "" {
        row := row.(tick := None);
      }
      autos := autos[conv := row];
      return Ok(());
    }

    method HeartbeatAutomation(conv: ConvId, worker: WorkerId, token: Token, now: Time, lease: int) returns (out: Result<()>)
      modifies this`autos
      ensures Tx(View(), out) == StoreSpec.HeartbeatAutomation(old(View()), conv, worker, token, now, lease)
    {
      if conv !in autos || autos[conv].owner != Some(Clip(worker, 200)) || autos[conv].tick != Some(token) {
        return Err(NotOwner);
      }
      autos := autos[conv := autos[conv].(expires := Some(now + LeaseSpan(lease)))];
      return Ok(());
    }

    method AppendAutomationMessage(user: UserId, conv: ConvId, worker: WorkerId, token: Token, source: string,
                                   content: string, mid: MsgId) returns (out: Result<()>)
      modifies this
      ensures Tx(View(), out) == AppendAutomation(old(View()), user, conv, worker, token, source, content, mid)
    {
      if conv !in autos || autos[conv].owner != Some(Clip(worker, 200)) || autos[conv].tick != Some(token)
        || autos[conv].user != user {
        return Err(NotOwner);
      }
      var key := AutomationKey(source, token);
      if conv in convs && HasKey(convs[conv].messages, key) {
        return Ok(());
      }
      if BusyWith(runs, conv) {
        return Err(Busy);
      }
      if conv !in convs || convs[conv].user != user {
        return Err(NotFound);
      }
      var ok := InsertMessage(conv, Draft(mid, AssistantRole, content, Some(key), AutomationWriter));
      return if ok then Ok(()) else Err(Integrity);
    }

    // ---------- the two remaining writers ----------

    method EnqueueChannelPush(conv: ConvId, linked: bool, content: string, mid: MsgId, minted: Token) returns (out: Result<()>)
      modifies this
      ensures Tx(View(), out) == PushMessage(old(View()), conv, linked, content, mid, minted)
    {
      if !linked || conv !in convs {
        return Err(NotFound);
      }
      var ok := InsertMessage(conv, Draft(mid, AssistantRole, content, Some(PushKey(minted)), PushWriter));
      if !ok {
        return Err(Integrity);
      }
      issued := issued + {minted};
      return Ok(());
    }

    method DeliverSubagentResult(subagent: nat, conv: ConvId, content: string, mid: MsgId) returns (out: Result<()>)
      modifies this
      ensures Tx(View(), out) == DeliverSubagent(old(View()), subagent, conv, content, mid)
    {
      if conv !in convs {
        return Err(NotFound);
      }
      var ok := InsertMessage(conv, Draft(mid, AssistantRole, content, Some(SubagentKey(subagent)), SubagentWriter));
      return if ok then Ok(()) else Err(Integrity);
    }
  }
}
