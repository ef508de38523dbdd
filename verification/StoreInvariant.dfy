/**
 What holds of the store in every reachable state, over every interleaving of
 workers, reapers, clients and administrators. Each part of the invariant speaks
 of only the tables it needs, so a transaction keeps the other parts by frame.
 */
module StoreInvariant {
  import opened Prelude
  import opened RunRow
  import opened StoreSpec

  // ---------- the invariant ----------

  ghost predicate RunsOk(runs: map<RunId, Run>) {
    forall id :: id in runs ==> RowOk(runs[id])
  }

  /** At most one running Run per conversation. */
  ghost predicate OneRunning(runs: map<RunId, Run>) {
    forall a, b | a in runs && b in runs && a != b && runs[a].status.Running? && runs[b].status.Running?
      :: runs[a].conv != runs[b].conv
  }

  /** The idempotency index and the rows name each other. */
  ghost predicate IndexOk(runs: map<RunId, Run>, byKey: map<(UserId, Key), RunId>) {
    && (forall id :: id in runs && runs[id].key.Some? ==>
          (runs[id].user, runs[id].key.value) in byKey && byKey[(runs[id].user, runs[id].key.value)] == id)
    && (forall k :: k in byKey ==>
          byKey[k] in runs && runs[byKey[k]].user == k.0 && runs[byKey[k]].key == Some(k.1))
  }

  /** Message numbers are exactly 1 .. nextNumber - 1; identifiers and delivery keys never repeat. */
  ghost predicate ConvOk(c: Conversation) {
    && c.nextNumber == |c.messages| + 1
    && (forall i :: 0 <= i < |c.messages| ==> c.messages[i].number == i + 1)
    && (forall i, j :: 0 <= i < j < |c.messages| ==> c.messages[i].draft.id != c.messages[j].draft.id)
    && (forall i, j :: 0 <= i < j < |c.messages| && c.messages[i].draft.key.Some? ==>
          c.messages[i].draft.key != c.messages[j].draft.key)
  }

  ghost predicate IdsKnown(c: Conversation, messageIds: set<MsgId>) {
    forall i :: 0 <= i < |c.messages| ==> c.messages[i].draft.id in messageIds
  }

  ghost predicate ConvsOk(convs: map<ConvId, Conversation>, messageIds: set<MsgId>) {
    forall c :: c in convs ==> ConvOk(convs[c]) && IdsKnown(convs[c], messageIds)
  }

  ghost predicate HasIdAt(c: Conversation, i: nat, mid: MsgId) {
    i < |c.messages| && c.messages[i].draft.id == mid
  }

  /** The output of a Run sits after position `i` of its conversation and is signed by that Run. */
  ghost predicate OutputAfter(c: Conversation, i: nat, id: RunId, output: MsgId) {
    exists j: nat :: i < j && HasIdAt(c, j, output) && c.messages[j].draft.writer == OutputOf(id)
  }

  /** A Run's input is in its conversation, and a completed Run's output comes later there. */
  ghost predicate Anchored(c: Conversation, id: RunId, r: Run) {
    exists i: nat :: HasIdAt(c, i, r.input) && (r.output.Some? ==> OutputAfter(c, i, id, r.output.value))
  }

  ghost predicate AllAnchored(runs: map<RunId, Run>, convs: map<ConvId, Conversation>) {
    forall id :: id in runs ==> runs[id].conv in convs && Anchored(convs[runs[id].conv], id, runs[id])
  }

  /** Only a completed Run has an output message, and only the one its row names. */
  ghost predicate OutputsOk(runs: map<RunId, Run>, convs: map<ConvId, Conversation>) {
    forall c, i :: c in convs && 0 <= i < |convs[c].messages| && convs[c].messages[i].draft.writer.OutputOf? ==>
      var id := convs[c].messages[i].draft.writer.run;
      id in runs && runs[id].conv == c && runs[id].output == Some(convs[c].messages[i].draft.id)
  }

  function TokenOf(key: Key): Option<Token> {
    match key
    case ScheduleKey(_, t) => Some(t)
    case ScheduleInputKey(_, t) => Some(t)
    case AutomationKey(_, t) => Some(t)
    case PushKey(t) => Some(t)
    case _ => None
  }

  ghost predicate Known(key: Option<Key>, issued: set<Token>) {
    key.Some? && TokenOf(key.value).Some? ==> TokenOf(key.value).value in issued
  }

  /** No key, job or automation uses a token that was not handed out. */
  ghost predicate KeysKnown(convs: map<ConvId, Conversation>, byKey: map<(UserId, Key), RunId>, issued: set<Token>) {
    && (forall c, i :: c in convs && 0 <= i < |convs[c].messages| ==> Known(convs[c].messages[i].draft.key, issued))
    && (forall k :: k in byKey ==> Known(Some(k.1), issued))
  }

  ghost predicate JobShaped(job: Job) {
    && (job.status.JobRunning? <==> job.owner.Some?)
    && (job.status.JobRunning? <==> job.expires.Some?)
    && (job.status.JobRunning? || job.status.JobCompleted? || job.status.JobFailed? ==> job.token.Some?)
  }

  ghost predicate JobsOk(jobs: map<JobId, Job>, issued: set<Token>) {
    forall j :: j in jobs ==> JobShaped(jobs[j]) && (jobs[j].token.Some? ==> jobs[j].token.value in issued)
  }

  ghost predicate TickShaped(a: Automation) {
    && (a.owner.Some? <==> a.expires.Some?)
    && (a.owner.Some? ==> a.enabled && a.tick.Some?)
    && (a.enabled <==> a.proactive || a.drift)
  }

  /** Each user has at most one enabled automation. */
  ghost predicate AutosOk(autos: map<ConvId, Automation>, issued: set<Token>) {
    && (forall c :: c in autos ==> TickShaped(autos[c]) && (autos[c].tick.Some? ==> autos[c].tick.value in issued))
    && (forall a, b | a in autos && b in autos && a != b && autos[a].enabled && autos[b].enabled
          :: autos[a].user != autos[b].user)
  }

  ghost predicate AutosOwned(autos: map<ConvId, Automation>, convs: map<ConvId, Conversation>) {
    forall c :: c in autos ==> c in convs && convs[c].user == autos[c].user
  }

  ghost predicate Inv(db: Db) {
    && RunsOk(db.runs) && OneRunning(db.runs) && IndexOk(db.runs, db.byKey)
    && ConvsOk(db.convs, db.messageIds) && AllAnchored(db.runs, db.convs) && OutputsOk(db.runs, db.convs)
    && KeysKnown(db.convs, db.byKey, db.issued)
    && JobsOk(db.jobs, db.issued)
    && AutosOk(db.autos, db.issued) && AutosOwned(db.autos, db.convs)
  }

  // ---------- appending a message ----------

  function Extend(c: Conversation, d: Draft): Conversation {
    c.(nextNumber := c.nextNumber + 1, messages := c.messages + [Message(c.nextNumber, d)])
  }

  lemma ExtendKeepsConv(c: Conversation, d: Draft, messageIds: set<MsgId>)
    requires ConvOk(c) && IdsKnown(c, messageIds) && d.id !in messageIds
    requires d.key.Some? ==> !HasKey(c.messages, d.key.value)
    ensures ConvOk(Extend(c, d)) && IdsKnown(Extend(c, d), messageIds + {d.id})
  {
  }

  lemma ExtendKeepsAnchor(c: Conversation, d: Draft, id: RunId, r: Run)
    requires Anchored(c, id, r)
    ensures Anchored(Extend(c, d), id, r)
  {
    var c' := Extend(c, d);
    var i: nat :| HasIdAt(c, i, r.input) && (r.output.Some? ==> OutputAfter(c, i, id, r.output.value));
    assert HasIdAt(c', i, r.input);
    if r.output.Some? {
      var j: nat :| i < j && HasIdAt(c, j, r.output.value) && c.messages[j].draft.writer == OutputOf(id);
      assert HasIdAt(c', j, r.output.value);
    }
  }

  lemma PostKeepsAnchors(runs: map<RunId, Run>, convs: map<ConvId, Conversation>, conv: ConvId, d: Draft)
    requires AllAnchored(runs, convs) && conv in convs
    ensures AllAnchored(runs, convs[conv := Extend(convs[conv], d)])
  {
    hide Anchored;
    forall id | id in runs && runs[id].conv == conv
      ensures Anchored(Extend(convs[conv], d), id, runs[id])
    {
      ExtendKeepsAnchor(convs[conv], d, id, runs[id]);
    }
  }

  lemma PostKeepsConvs(db: Db, conv: ConvId, d: Draft)
    requires ConvsOk(db.convs, db.messageIds) && conv in db.convs && !Clashes(db, conv, d)
    ensures ConvsOk(Post(db, conv, d).convs, Post(db, conv, d).messageIds)
  {
    ExtendKeepsConv(db.convs[conv], d, db.messageIds);
    hide ConvOk;
  }

  lemma PostKeepsKeys(db: Db, conv: ConvId, d: Draft)
    requires KeysKnown(db.convs, db.byKey, db.issued) && conv in db.convs && Known(d.key, db.issued)
    ensures KeysKnown(Post(db, conv, d).convs, db.byKey, db.issued)
  {
    hide Known;
  }

  lemma PostKeepsOutputs(db: Db, conv: ConvId, d: Draft)
    requires OutputsOk(db.runs, db.convs) && conv in db.convs && !d.writer.OutputOf?
    ensures OutputsOk(db.runs, Post(db, conv, d).convs)
  {
  }

  /** Appending a message that clashes with nothing keeps the invariant. */
  lemma PostKeeps(db: Db, conv: ConvId, d: Draft)
    requires Inv(db) && conv in db.convs && !Clashes(db, conv, d) && !d.writer.OutputOf? && Known(d.key, db.issued)
    ensures Inv(Post(db, conv, d))
  {
    hide RunsOk, OneRunning, IndexOk, ConvsOk, AllAnchored, OutputsOk, KeysKnown, JobsOk, AutosOk, Clashes, Known;
    PostKeepsConvs(db, conv, d);
    PostKeepsAnchors(db.runs, db.convs, conv, d);
    PostKeepsKeys(db, conv, d);
    PostKeepsOutputs(db, conv, d);
  }

  // ---------- changing a row ----------

  lemma StepKeepsRuns(runs: map<RunId, Run>, rid: RunId, s: RowStep)
    requires RunsOk(runs) && rid in runs && Allowed(runs[rid], s)
    ensures RunsOk(runs[rid := Step(runs[rid], s)])
  {
    StepKeepsRow(runs[rid], s);
    hide Step, RowOk, Evolves;
  }

  lemma StepKeepsOneRunning(runs: map<RunId, Run>, rid: RunId, s: RowStep)
    requires OneRunning(runs) && rid in runs && Allowed(runs[rid], s)
    requires s.Start? ==> !RunningIn(runs, runs[rid].conv)
    ensures OneRunning(runs[rid := Step(runs[rid], s)])
  {
    StepEffect(runs[rid], s);
    hide Step;
  }

  lemma StepKeepsIndex(db: Db, rid: RunId, s: RowStep)
    requires IndexOk(db.runs, db.byKey) && rid in db.runs && Allowed(db.runs[rid], s)
    ensures IndexOk(OnRun(db, rid, s).runs, db.byKey)
  {
    StepEffect(db.runs[rid], s);
    hide Step;
  }

  lemma StepKeepsMessages(runs: map<RunId, Run>, convs: map<ConvId, Conversation>, rid: RunId, s: RowStep)
    requires AllAnchored(runs, convs) && OutputsOk(runs, convs) && rid in runs && Allowed(runs[rid], s)
    requires Step(runs[rid], s).output == runs[rid].output
    ensures AllAnchored(runs[rid := Step(runs[rid], s)], convs) && OutputsOk(runs[rid := Step(runs[rid], s)], convs)
  {
    StepEffect(runs[rid], s);
    hide Step, OutputAfter;
    assert Anchored(convs[runs[rid].conv], rid, runs[rid]);
    assert Anchored(convs[runs[rid].conv], rid, Step(runs[rid], s));
  }

  /** A row step that neither starts a second Run nor completes one keeps the invariant. */
  lemma StepKeeps(db: Db, rid: RunId, s: RowStep)
    requires Inv(db) && rid in db.runs && Allowed(db.runs[rid], s)
    requires s.Start? ==> !RunningIn(db.runs, db.runs[rid].conv)
    requires s.Complete? ==> db.runs[rid].cancelRequested.Some?
    ensures Inv(OnRun(db, rid, s))
  {
    StepEffect(db.runs[rid], s);
    StepKeepsRuns(db.runs, rid, s);
    StepKeepsOneRunning(db.runs, rid, s);
    StepKeepsIndex(db, rid, s);
    StepKeepsMessages(db.runs, db.convs, rid, s);
    hide Step, RunsOk, OneRunning, IndexOk, ConvsOk, AllAnchored, OutputsOk, KeysKnown, JobsOk, AutosOk, AutosOwned;
  }

  // ---------- completing a Run ----------

  /** The output lands after the input, so the completed row is anchored. */
  lemma OutputIsAnchored(c: Conversation, d: Draft, id: RunId, r: Run, r': Run)
    requires Anchored(c, id, r) && d.writer == OutputOf(id) && r'.input == r.input && r'.output == Some(d.id)
    ensures Anchored(Extend(c, d), id, r')
  {
    var c' := Extend(c, d);
    var i: nat :| HasIdAt(c, i, r.input);
    assert HasIdAt(c', i, r'.input);
    assert HasIdAt(c', |c.messages|, d.id) && c'.messages[|c.messages|].draft == d;
    assert OutputAfter(c', i, id, d.id);
  }

  lemma CompletionKeepsAnchors(runs: map<RunId, Run>, convs: map<ConvId, Conversation>, rid: RunId, d: Draft, r': Run)
    requires AllAnchored(runs, convs) && rid in runs && d.writer == OutputOf(rid)
    requires r'.conv == runs[rid].conv && r'.input == runs[rid].input && r'.output == Some(d.id)
    ensures var conv := runs[rid].conv;
      conv in convs && AllAnchored(runs[rid := r'], convs[conv := Extend(convs[conv], d)])
  {
    hide Anchored, Extend;
    var conv := runs[rid].conv;
    OutputIsAnchored(convs[conv], d, rid, runs[rid], r');
    PostKeepsAnchors(runs, convs, conv, d);
  }

  lemma CompletionKeepsOutputs(runs: map<RunId, Run>, convs: map<ConvId, Conversation>, rid: RunId, d: Draft, r': Run)
    requires OutputsOk(runs, convs) && rid in runs && runs[rid].conv in convs && d.writer == OutputOf(rid)
    requires runs[rid].output.None? && r'.conv == runs[rid].conv && r'.output == Some(d.id)
    ensures OutputsOk(runs[rid := r'], convs[r'.conv := Extend(convs[r'.conv], d)])
  {
  }

  lemma CompleteKeeps(db: Db, rid: RunId, worker: WorkerId, mid: MsgId, content: string, now: Time)
    requires Inv(db)
    ensures Inv(CompleteRun(db, rid, worker, mid, content, now).db)
  {
    hide RunsOk, OneRunning, IndexOk, ConvsOk, AllAnchored, OutputsOk, KeysKnown, JobsOk, AutosOk, Step;
    if OwnerError(db, rid, worker).None? {
      var s := Complete(mid, now);
      if db.runs[rid].cancelRequested.Some? {
        StepKeeps(db, rid, s);
      } else if CompleteRun(db, rid, worker, mid, content, now).out.Ok? {
        var d := Draft(mid, AssistantRole, content, None, OutputOf(rid));
        RunningHasNoOutput(db.runs, rid);
        StepKeepsRuns(db.runs, rid, s);
        StepKeepsOneRunning(db.runs, rid, s);
        StepKeepsIndex(db, rid, s);
        PostKeepsConvs(db, db.runs[rid].conv, d);
        PostKeepsKeys(db, db.runs[rid].conv, d);
        StepEffect(db.runs[rid], s);
        CompletionKeepsAnchors(db.runs, db.convs, rid, d, Step(db.runs[rid], s));
        CompletionKeepsOutputs(db.runs, db.convs, rid, d, Step(db.runs[rid], s));
      }
    }
  }

  lemma RunningHasNoOutput(runs: map<RunId, Run>, rid: RunId)
    requires RunsOk(runs) && rid in runs && runs[rid].status.Running?
    ensures runs[rid].output.None?
  {
    assert RowOk(runs[rid]);
  }

  // ---------- submitting a Run ----------

  lemma QueuedRunIsSound(user: UserId, conv: ConvId, input: MsgId, key: Option<Key>)
    ensures RowOk(QueuedRun(user, conv, input, key))
  {
    var log := QueuedRun(user, conv, input, key).log;
    assert log == [RunEvent(1, RunQueued)];
    assert log[..0] == [];
  }

  lemma AddRunKeepsIndex(db: Db, rid: RunId, r: Run)
    requires IndexOk(db.runs, db.byKey) && !RunClashes(db, rid, r.user, r.key)
    ensures IndexOk(AddRun(db, rid, r).runs, AddRun(db, rid, r).byKey)
  {
  }

  lemma AddRunKeepsKeys(db: Db, rid: RunId, r: Run)
    requires KeysKnown(db.convs, db.byKey, db.issued) && Known(r.key, db.issued)
    ensures KeysKnown(db.convs, AddRun(db, rid, r).byKey, db.issued)
  {
    hide Known;
  }

  lemma AddRunKeepsRows(runs: map<RunId, Run>, convs: map<ConvId, Conversation>, rid: RunId, r: Run)
    requires RunsOk(runs) && OneRunning(runs) && AllAnchored(runs, convs) && OutputsOk(runs, convs)
    requires rid !in runs && RowOk(r) && r.status.Queued? && r.conv in convs && Anchored(convs[r.conv], rid, r)
    ensures RunsOk(runs[rid := r]) && OneRunning(runs[rid := r])
    ensures AllAnchored(runs[rid := r], convs) && OutputsOk(runs[rid := r], convs)
  {
    hide RowOk, Anchored;
  }

  lemma AddRunKeeps(db: Db, rid: RunId, r: Run)
    requires Inv(db) && !RunClashes(db, rid, r.user, r.key) && Known(r.key, db.issued)
    requires RowOk(r) && r.status.Queued? && r.conv in db.convs && Anchored(db.convs[r.conv], rid, r)
    ensures Inv(AddRun(db, rid, r))
  {
    AddRunKeepsRows(db.runs, db.convs, rid, r);
    AddRunKeepsIndex(db, rid, r);
    AddRunKeepsKeys(db, rid, r);
    hide RowOk, Known, Anchored, RunsOk, OneRunning, IndexOk, ConvsOk, AllAnchored, OutputsOk, KeysKnown, JobsOk, AutosOk,
      AutosOwned;
  }

  lemma SubmitKeeps(db: Db, user: UserId, conv: ConvId, d: Draft, rid: RunId, key: Option<Key>)
    requires Inv(db) && conv in db.convs && !d.writer.OutputOf? && Known(d.key, db.issued) && Known(key, db.issued)
    ensures Inv(Submit(db, user, conv, d, rid, key).db)
  {
    hide RowOk, Inv, Known;
    if !Clashes(db, conv, d) && !RunClashes(db, rid, user, key) {
      PostKeeps(db, conv, d);
      var db1 := Post(db, conv, d);
      var r := QueuedRun(user, conv, d.id, key);
      QueuedRunIsSound(user, conv, d.id, key);
      assert HasIdAt(db1.convs[conv], |db.convs[conv].messages|, r.input);
      assert Anchored(db1.convs[conv], rid, r);
      AddRunKeeps(db1, rid, r);
    }
  }

  // ---------- the reaper ----------

  /** Rows changed pointwise, none of them started and none given an output. */
  lemma RowsKeep(db: Db, runs: map<RunId, Run>)
    requires Inv(db) && runs.Keys == db.runs.Keys && RunsOk(runs)
    requires forall id :: id in runs ==>
      && (runs[id].status.Running? ==> db.runs[id].status.Running?)
      && runs[id].user == db.runs[id].user && runs[id].conv == db.runs[id].conv && runs[id].input == db.runs[id].input
      && runs[id].key == db.runs[id].key && runs[id].output == db.runs[id].output
    ensures Inv(db.(runs := runs))
  {
    hide RunsOk, ConvsOk, OutputAfter, JobsOk, AutosOk, AutosOwned, KeysKnown;
    assert OneRunning(runs);
    assert IndexOk(runs, db.byKey);
    assert OutputsOk(runs, db.convs);
    forall id | id in runs
      ensures runs[id].conv in db.convs && Anchored(db.convs[runs[id].conv], id, runs[id])
    {
      assert Anchored(db.convs[db.runs[id].conv], id, db.runs[id]);
    }
  }

  lemma RequeueKeeps(db: Db, picked: seq<RunId>, now: Time)
    requires Inv(db)
    ensures Inv(RequeueExpired(db, picked, now))
  {
    hide RowOk, Evolves, Step, ExpireRow;
    var db' := RequeueExpired(db, picked, now);
    forall id | id in db.runs
      ensures RowOk(db'.runs[id])
      ensures db'.runs[id].output == db.runs[id].output && (db'.runs[id].status.Running? ==> db.runs[id].status.Running?)
      ensures db'.runs[id].user == db.runs[id].user && db'.runs[id].conv == db.runs[id].conv
      ensures db'.runs[id].input == db.runs[id].input && db'.runs[id].key == db.runs[id].key
    {
      if id in picked && Expired(db.runs[id], now) {
        ExpireIsAStep(db.runs[id], now);
        StepKeepsRow(db.runs[id], Expire(now));
        StepEffect(db.runs[id], Expire(now));
      }
    }
    RowsKeep(db, db'.runs);
  }

  lemma ExpireIsAStep(r: Run, now: Time)
    ensures ExpireRow(r, now) == Step(r, Expire(now))
  {
  }

  // ---------- jobs and automations ----------

  lemma JobsKeep(db: Db, jobs: map<JobId, Job>, minted: set<Token>, initial: map<JobId, int>)
    requires Inv(db) && JobsOk(jobs, db.issued + minted)
    ensures Inv(db.(jobs := jobs, issued := db.issued + minted, initial := initial))
  {
    hide RunsOk, OneRunning, IndexOk, ConvsOk, AllAnchored, OutputsOk, JobsOk, AutosOwned;
  }

  lemma AutosKeep(db: Db, autos: map<ConvId, Automation>, minted: set<Token>)
    requires Inv(db) && AutosOk(autos, db.issued + minted) && AutosOwned(autos, db.convs)
    ensures Inv(db.(autos := autos, issued := db.issued + minted))
  {
    hide RunsOk, OneRunning, IndexOk, ConvsOk, AllAnchored, OutputsOk, AutosOk, AutosOwned;
  }

  /** Claiming walks over misfired jobs and fires at most one; the shape of every job survives. */
  lemma {:induction false} ClaimFromKeeps(jobs: map<JobId, Job>, candidates: seq<JobId>, worker: WorkerId, now: Time,
                                          lease: int, minted: Token, cron: Cron, issued: set<Token>)
    requires JobsOk(jobs, issued) && minted in issued
    ensures JobsOk(ClaimFrom(jobs, candidates, worker, now, lease, minted, cron).0, issued)
    decreases |candidates|
  {
    if candidates == [] {
    } else {
      var j := candidates[0];
      if j !in jobs || !Due(jobs[j], now) {
        ClaimFromKeeps(jobs, candidates[1..], worker, now, lease, minted, cron, issued);
      } else if Misfired(jobs[j], now) {
        ClaimFromKeeps(jobs[j := Skip(jobs[j], now, cron)], candidates[1..], worker, now, lease, minted, cron, issued);
      }
    }
  }

  lemma ClaimJobKeeps(db: Db, lapsed: seq<JobId>, candidates: seq<JobId>, worker: WorkerId, now: Time, lease: int,
                      minted: Token, cron: Cron)
    requires Inv(db)
    ensures Inv(ClaimJob(db, lapsed, candidates, worker, now, lease, minted, cron).db)
  {
    var issued := db.issued + {minted};
    var swept := Sweep(db.jobs, lapsed, now);
    assert JobsOk(swept, issued);
    ClaimFromKeeps(swept, candidates, worker, now, lease, minted, cron, issued);
    hide JobsOk, Inv, ClaimFrom;
    JobsKeep(db, ClaimFrom(swept, candidates, worker, now, lease, minted, cron).0, {minted}, db.initial);
  }

  lemma SetJobKeeps(db: Db, jid: JobId, job: Job, initial: map<JobId, int>)
    requires Inv(db) && JobShaped(job) && (job.token.Some? ==> job.token.value in db.issued)
    ensures Inv(db.(jobs := db.jobs[jid := job], initial := initial))
  {
    assert JobsOk(db.jobs[jid := job], db.issued);
    assert db.issued + {} == db.issued;
    hide JobsOk, Inv;
    JobsKeep(db, db.jobs[jid := job], {}, initial);
  }

  lemma CreateJobKeeps(db: Db, jid: JobId, user: UserId, conv: ConvId, tier: Tier, trigger: Trigger, cron: string,
                       interval: int, message: string, prompt: string, runAt: Time, remaining: int)
    requires Inv(db)
    ensures Inv(CreateJob(db, jid, user, conv, tier, trigger, cron, interval, message, prompt, runAt, remaining).db)
  {
    hide Inv;
    var db' := CreateJob(db, jid, user, conv, tier, trigger, cron, interval, message, prompt, runAt, remaining).db;
    if jid in db'.jobs && jid !in db.jobs {
      SetJobKeeps(db, jid, db'.jobs[jid], db'.initial);
    }
  }

  lemma CancelJobKeeps(db: Db, user: UserId, jid: JobId)
    requires Inv(db)
    ensures Inv(CancelJob(db, user, jid).db)
  {
    if CancelJob(db, user, jid).out.Ok? {
      assert JobShaped(db.jobs[jid]);
      SetJobKeeps(db, jid, db.jobs[jid].(status := JobCancelled), db.initial);
    }
  }

  lemma HeartbeatJobKeeps(db: Db, jid: JobId, worker: WorkerId, token: Token, now: Time, lease: int)
    requires Inv(db)
    ensures Inv(HeartbeatJob(db, jid, worker, token, now, lease).db)
  {
    if OwnsFire(db, jid, worker, token) {
      assert JobShaped(db.jobs[jid]);
      SetJobKeeps(db, jid, HeartbeatJob(db, jid, worker, token, now, lease).db.jobs[jid], db.initial);
    }
  }

  lemma FinishJobKeeps(db: Db, jid: JobId, worker: WorkerId, token: Token, status: JobStatus, remaining: int,
                       next: Option<Time>, error: string)
    requires Inv(db) && (status.JobPending? || status.JobCompleted? || status.JobFailed?)
    ensures Inv(FinishJob(db, jid, worker, token, status, remaining, next, error).db)
  {
    var tx := FinishJob(db, jid, worker, token, status, remaining, next, error);
    if tx.out.Ok? {
      assert JobShaped(db.jobs[jid]);
      SetJobKeeps(db, jid, tx.db.jobs[jid], db.initial);
    }
  }

  lemma SetAutoKeeps(db: Db, conv: ConvId, a: Automation, minted: set<Token>)
    requires Inv(db) && conv in db.autos && TickShaped(a)
    requires a.user == db.autos[conv].user && (a.enabled ==> db.autos[conv].enabled)
    requires a.tick.Some? ==> a.tick.value in db.issued + minted
    ensures Inv(db.(autos := db.autos[conv := a], issued := db.issued + minted))
  {
    AutosKeep(db, db.autos[conv := a], minted);
  }

  lemma ClaimAutomationKeeps(db: Db, conv: ConvId, worker: WorkerId, now: Time, lease: int, minted: Token)
    requires Inv(db)
    ensures Inv(ClaimAutomation(db, conv, worker, now, lease, minted).db)
  {
    if TickDue(db, conv, now) {
      assert TickShaped(db.autos[conv]);
      SetAutoKeeps(db, conv, ClaimAutomation(db, conv, worker, now, lease, minted).db.autos[conv], {minted});
    }
  }

  lemma FinishAutomationKeeps(db: Db, conv: ConvId, worker: WorkerId, next: Time, error: string)
    requires Inv(db)
    ensures Inv(FinishAutomation(db, conv, worker, next, error).db)
  {
    assert db.issued + {} == db.issued;
    if FinishAutomation(db, conv, worker, next, error).out.Ok? {
      assert TickShaped(db.autos[conv]);
      SetAutoKeeps(db, conv, FinishAutomation(db, conv, worker, next, error).db.autos[conv], {});
    }
  }

  lemma HeartbeatAutomationKeeps(db: Db, conv: ConvId, worker: WorkerId, token: Token, now: Time, lease: int)
    requires Inv(db)
    ensures Inv(HeartbeatAutomation(db, conv, worker, token, now, lease).db)
  {
    assert db.issued + {} == db.issued;
    if OwnsTick(db, conv, worker, token) {
      assert TickShaped(db.autos[conv]);
      SetAutoKeeps(db, conv, HeartbeatAutomation(db, conv, worker, token, now, lease).db.autos[conv], {});
    }
  }

  lemma RevokeKeeps(db: Db, conv: ConvId, now: Time)
    requires Inv(db)
    ensures Inv(db.(autos := Revoke(db.autos, conv, now)))
  {
    if conv in db.autos && db.autos[conv].owner.Some? {
      assert db.issued + {} == db.issued;
      SetAutoKeeps(db, conv, Revoke(db.autos, conv, now)[conv], {});
    }
  }

  lemma OthersAreDisabled(autos: map<ConvId, Automation>, user: UserId, conv: ConvId, issued: set<Token>)
    requires AutosOk(autos, issued)
    ensures AutosOk(DisableOthers(autos, user, conv), issued)
    ensures forall c :: c in autos && c != conv && autos[c].user == user ==> !DisableOthers(autos, user, conv)[c].enabled
  {
  }

  lemma SetOnlyEnabled(autos: map<ConvId, Automation>, conv: ConvId, a: Automation, issued: set<Token>)
    requires AutosOk(autos, issued) && TickShaped(a) && a.tick.None?
    requires a.enabled ==> forall c :: c in autos && c != conv && autos[c].user == a.user ==> !autos[c].enabled
    ensures AutosOk(autos[conv := a], issued)
  {
  }

  /** Turning one conversation on turns the user's others off. */
  lemma ConfiguredAutosOk(autos: map<ConvId, Automation>, convs: map<ConvId, Conversation>, user: UserId, conv: ConvId,
                          proactive: bool, drift: bool, now: Time, issued: set<Token>)
    requires AutosOk(autos, issued) && AutosOwned(autos, convs) && conv in convs && convs[conv].user == user
    ensures var others := if proactive || drift then DisableOthers(autos, user, conv) else autos;
      var a := Automation(user, proactive || drift, proactive, drift, now, None, None, None, "");
      AutosOk(others[conv := a], issued) && AutosOwned(others[conv := a], convs)
  {
    OthersAreDisabled(autos, user, conv, issued);
    var others := if proactive || drift then DisableOthers(autos, user, conv) else autos;
    SetOnlyEnabled(others, conv, Automation(user, proactive || drift, proactive, drift, now, None, None, None, ""), issued);
  }

  lemma ConfigureKeeps(db: Db, user: UserId, conv: ConvId, proactive: bool, drift: bool, now: Time)
    requires Inv(db)
    ensures Inv(Configure(db, user, conv, proactive, drift, now).db)
  {
    if conv in db.convs && db.convs[conv].user == user {
      ConfiguredAutosOk(db.autos, db.convs, user, conv, proactive, drift, now, db.issued);
      assert conv in db.autos ==> db.autos[conv].user == user;
      hide AutosOk, AutosOwned, RunsOk, OneRunning, IndexOk, ConvsOk, AllAnchored, OutputsOk, KeysKnown, JobsOk;
    }
  }

  // ---------- every transaction, every history ----------

  /** A sent message either changes nothing or submits a Run and revokes the automation's lease. */
  lemma SendEffect(db: Db, user: UserId, conv: ConvId, content: string, hasFiles: bool, filesFound: bool,
                   rawKey: string, mid: MsgId, rid: RunId, now: Time)
    ensures var db' := SendMessage(db, user, conv, content, hasFiles, filesFound, rawKey, mid, rid, now).db;
      db' == db ||
      (conv in db.convs && db.convs[conv].user == user &&
       var tx := Submit(db, user, conv, Draft(mid, UserRole, content, None, ClientWriter), rid, ClientKeyOf(rawKey));
       tx.out.Ok? && db' == tx.db.(autos := Revoke(tx.db.autos, conv, now)))
  {
    hide Clashes, RunClashes, Post, AddRun, QueuedRun, Revoke, BadKey, ClientKeyOf;
  }

  lemma SendKeeps(db: Db, user: UserId, conv: ConvId, content: string, hasFiles: bool, filesFound: bool,
                  rawKey: string, mid: MsgId, rid: RunId, now: Time)
    requires Inv(db)
    ensures Inv(SendMessage(db, user, conv, content, hasFiles, filesFound, rawKey, mid, rid, now).db)
  {
    hide Inv, Submit, BadKey, Revoke, SendMessage;
    SendEffect(db, user, conv, content, hasFiles, filesFound, rawKey, mid, rid, now);
    if conv in db.convs {
      var d := Draft(mid, UserRole, content, None, ClientWriter);
      SubmitKeeps(db, user, conv, d, rid, ClientKeyOf(rawKey));
      RevokeKeeps(Submit(db, user, conv, d, rid, ClientKeyOf(rawKey)).db, conv, now);
    }
  }

  lemma InboundKeeps(db: Db, inbound: map<(string, string), MsgId>)
    requires Inv(db)
    ensures Inv(db.(inbound := inbound))
  {
  }

  /** So does a channel message, but for the record of the external event and the lease, which it leaves alone. */
  lemma IngestEffect(db: Db, provider: string, event: string, link: Option<(UserId, ConvId)>, content: string,
                     hasFiles: bool, filesFound: bool, mid: MsgId, rid: RunId)
    ensures var db' := IngestChannel(db, provider, event, link, content, hasFiles, filesFound, mid, rid).db;
      db' == db ||
      (link.Some? && link.value.1 in db.convs &&
       var tx := Submit(db, link.value.0, link.value.1, Draft(mid, UserRole, content, None, ChannelWriter), rid,
                        Some(ChannelKey(Clip(provider + ":" + event, 120))));
       tx.out.Ok? && db' == tx.db.(inbound := tx.db.inbound[(provider, event) := mid]))
  {
    hide Submit, Clip, Text.Strip;
  }

  lemma IngestKeeps(db: Db, provider: string, event: string, link: Option<(UserId, ConvId)>, content: string,
                    hasFiles: bool, filesFound: bool, mid: MsgId, rid: RunId)
    requires Inv(db)
    ensures Inv(IngestChannel(db, provider, event, link, content, hasFiles, filesFound, mid, rid).db)
  {
    hide Inv, Submit, IngestChannel, Clip;
    IngestEffect(db, provider, event, link, content, hasFiles, filesFound, mid, rid);
    if link.Some? && link.value.1 in db.convs {
      var d := Draft(mid, UserRole, content, None, ChannelWriter);
      var key := ChannelKey(Clip(provider + ":" + event, 120));
      SubmitKeeps(db, link.value.0, link.value.1, d, rid, Some(key));
      var db1 := Submit(db, link.value.0, link.value.1, d, rid, Some(key)).db;
      InboundKeeps(db1, db1.inbound[(provider, event) := mid]);
    }
  }

  lemma FireTokenIsIssued(db: Db, jid: JobId, worker: WorkerId, token: Token)
    requires Inv(db) && OwnsFire(db, jid, worker, token)
    ensures token in db.issued
  {
  }

  lemma DeliverKeeps(db: Db, jid: JobId, worker: WorkerId, token: Token, mid: MsgId, rid: RunId)
    requires Inv(db)
    ensures Inv(DeliverJob(db, jid, worker, token, mid, rid).db)
  {
    hide Inv, Submit, Post, Clashes;
    if OwnsFire(db, jid, worker, token) && db.jobs[jid].conv in db.convs {
      var job := db.jobs[jid];
      FireTokenIsIssued(db, jid, worker, token);
      if job.tier.Instant? {
        var d := Draft(mid, AssistantRole, job.message, Some(ScheduleKey(jid, token)), ScheduleWriter(jid));
        if !Clashes(db, job.conv, d) { PostKeeps(db, job.conv, d); }
      } else {
        var d := Draft(mid, UserRole, job.prompt, Some(ScheduleInputKey(jid, token)), ScheduleWriter(jid));
        SubmitKeeps(db, job.user, job.conv, d, rid, Some(ScheduleKey(jid, token)));
      }
    }
  }

  lemma TickTokenIsIssued(db: Db, conv: ConvId, worker: WorkerId, token: Token)
    requires Inv(db) && OwnsTick(db, conv, worker, token)
    ensures token in db.issued
  {
  }

  lemma AppendKeeps(db: Db, user: UserId, conv: ConvId, worker: WorkerId, token: Token, source: string,
                    content: string, mid: MsgId)
    requires Inv(db)
    ensures Inv(AppendAutomation(db, user, conv, worker, token, source, content, mid).db)
  {
    hide Inv, Post, Clashes, HasKey, BusyWith;
    if OwnsTick(db, conv, worker, token) && conv in db.convs {
      TickTokenIsIssued(db, conv, worker, token);
      var d := Draft(mid, AssistantRole, content, Some(AutomationKey(source, token)), AutomationWriter);
      if !Clashes(db, conv, d) { PostKeeps(db, conv, d); }
    }
  }

  lemma MintKeeps(db: Db, minted: Token)
    requires Inv(db)
    ensures Inv(db.(issued := db.issued + {minted}))
  {
    assert JobsOk(db.jobs, db.issued + {minted});
    hide Inv, JobsOk;
    JobsKeep(db, db.jobs, {minted}, db.initial);
  }

  lemma PushKeeps(db: Db, conv: ConvId, linked: bool, content: string, mid: MsgId, minted: Token)
    requires Inv(db)
    ensures Inv(PushMessage(db, conv, linked, content, mid, minted).db)
  {
    hide Inv, HasKey;
    if conv in db.convs {
      var d := Draft(mid, AssistantRole, content, Some(PushKey(minted)), PushWriter);
      var db1 := db.(issued := db.issued + {minted});
      MintKeeps(db, minted);
      if !Clashes(db, conv, d) { PostKeeps(db1, conv, d); }
    }
  }

  lemma SubagentKeeps(db: Db, subagent: nat, conv: ConvId, content: string, mid: MsgId)
    requires Inv(db)
    ensures Inv(DeliverSubagent(db, subagent, conv, content, mid).db)
  {
    hide Inv, Post, Clashes;
    if conv in db.convs {
      var d := Draft(mid, AssistantRole, content, Some(SubagentKey(subagent)), SubagentWriter);
      if !Clashes(db, conv, d) { PostKeeps(db, conv, d); }
    }
  }

  lemma OpenKeepsAnchors(runs: map<RunId, Run>, convs: map<ConvId, Conversation>, conv: ConvId, c: Conversation)
    requires AllAnchored(runs, convs) && OutputsOk(runs, convs) && conv !in convs && c.messages == []
    ensures AllAnchored(runs, convs[conv := c]) && OutputsOk(runs, convs[conv := c])
  {
    hide Anchored;
  }

  lemma OpenKeeps(db: Db, user: UserId, conv: ConvId)
    requires Inv(db)
    ensures Inv(OpenConversation(db, user, conv).db)
  {
    if conv !in db.convs {
      OpenKeepsAnchors(db.runs, db.convs, conv, Conversation(user, 1, []));
      assert ConvOk(Conversation(user, 1, []));
      hide RunsOk, OneRunning, IndexOk, AllAnchored, OutputsOk, Known, JobsOk, AutosOk, ConvOk;
    }
  }

  lemma MailKeeps(db: Db, a: MailAction)
    requires Inv(db)
    ensures Inv(ApplyMail(db, a))
  {
    hide Inv, OpenConversation, SendMessage, IngestChannel, PushMessage, DeliverSubagent;
    match a {
      case AOpen(user, conv) => OpenKeeps(db, user, conv);
      case ASend(user, conv, content, hasFiles, filesFound, rawKey, mid, rid, now) =>
        SendKeeps(db, user, conv, content, hasFiles, filesFound, rawKey, mid, rid, now);
      case AIngest(provider, event, link, content, hasFiles, filesFound, mid, rid) =>
        IngestKeeps(db, provider, event, link, content, hasFiles, filesFound, mid, rid);
      case APush(conv, linked, content, mid, minted) => PushKeeps(db, conv, linked, content, mid, minted);
      case ASubagent(subagent, conv, content, mid) => SubagentKeeps(db, subagent, conv, content, mid);
    }
  }

  lemma WorkKeeps(db: Db, a: WorkAction)
    requires Inv(db)
    ensures Inv(ApplyWork(db, a))
  {
    hide Inv, OnRun, CompleteRun, RequeueExpired;
    match a {
      case ARequeue(picked, now) => RequeueKeeps(db, picked, now);
      case AComplete(rid, worker, mid, content, now) => CompleteKeeps(db, rid, worker, mid, content, now);
      case AClaimRun(rid, worker, now, lease) =>
        if ClaimRun(db, rid, worker, now, lease).out == Ok(Some(rid)) { StepKeeps(db, rid, Start(worker, now, lease)); }
      case AHeartbeat(rid, worker, now, lease) =>
        if OwnerError(db, rid, worker).None? { StepKeeps(db, rid, Heartbeat(now, lease)); }
      case ACancelOwned(rid, worker, now) =>
        if OwnerError(db, rid, worker).None? { StepKeeps(db, rid, Acknowledge(now)); }
      case AFail(rid, worker, content, now) =>
        if OwnerError(db, rid, worker).None? { StepKeeps(db, rid, Fail(content, now)); }
      case ARequestCancel(user, rid, now) =>
        if rid in db.runs { StepKeeps(db, rid, RequestCancel(now)); }
      case ARuntime(rid, name, content) =>
        if rid in db.runs { StepKeeps(db, rid, Note(name, content)); }
    }
  }

  lemma JobKeeps(db: Db, a: JobAction)
    requires Inv(db) && Lawful(db, Scheduling(a))
    ensures Inv(ApplyJob(db, a))
  {
    hide Inv, CreateJob, CancelJob, ClaimJob, HeartbeatJob, DeliverJob, FinishJob;
    match a {
      case ACreateJob(jid, user, conv, tier, trigger, cronText, interval, message, prompt, runAt, remaining) =>
        CreateJobKeeps(db, jid, user, conv, tier, trigger, cronText, interval, message, prompt, runAt, remaining);
      case ACancelJob(user, jid) => CancelJobKeeps(db, user, jid);
      case AClaimJob(lapsed, candidates, worker, now, lease, minted, cron) =>
        ClaimJobKeeps(db, lapsed, candidates, worker, now, lease, minted, cron);
      case AHeartbeatJob(jid, worker, token, now, lease) => HeartbeatJobKeeps(db, jid, worker, token, now, lease);
      case ADeliverJob(jid, worker, token, mid, rid) => DeliverKeeps(db, jid, worker, token, mid, rid);
      case AFinishJob(jid, worker, token, status, remaining, next, error) =>
        FinishJobKeeps(db, jid, worker, token, status, remaining, next, error);
    }
  }

  lemma TickKeeps(db: Db, a: TickAction)
    requires Inv(db)
    ensures Inv(ApplyTick(db, a))
  {
    hide Inv, Configure, ClaimAutomation, HeartbeatAutomation, FinishAutomation, AppendAutomation;
    match a {
      case AConfigure(user, conv, proactive, drift, now) => ConfigureKeeps(db, user, conv, proactive, drift, now);
      case AClaimAuto(conv, worker, now, lease, minted) => ClaimAutomationKeeps(db, conv, worker, now, lease, minted);
      case AHeartbeatAuto(conv, worker, token, now, lease) => HeartbeatAutomationKeeps(db, conv, worker, token, now, lease);
      case AFinishAuto(conv, worker, nextTick, error) => FinishAutomationKeeps(db, conv, worker, nextTick, error);
      case AAppendAuto(user, conv, worker, token, source, content, mid) =>
        AppendKeeps(db, user, conv, worker, token, source, content, mid);
    }
  }

  /** Every transaction keeps the invariant. */
  lemma ActionKeeps(db: Db, a: Action)
    requires Inv(db) && Lawful(db, a)
    ensures Inv(Apply(db, a))
  {
    hide Inv, ApplyMail, ApplyWork, ApplyJob, ApplyTick;
    match a {
      case Mail(m) => MailKeeps(db, m);
      case Work(w) => WorkKeeps(db, w);
      case Scheduling(j) => JobKeeps(db, j);
      case Ticking(t) => TickKeeps(db, t);
    }
  }

  /** The invariant holds after every history of transactions, in any interleaving. */
  lemma {:induction false} HistoryKeeps(db: Db, history: seq<Action>)
    requires Inv(db) && LawfulHistory(db, history)
    ensures Inv(Exec(db, history))
    decreases |history|
  {
    hide Inv, Apply;
    if history == [] {
    } else {
      ActionKeeps(db, history[0]);
      HistoryKeeps(Apply(db, history[0]), history[1..]);
    }
  }

  lemma ReachableIsSound(history: seq<Action>)
    requires LawfulHistory(EMPTY_DB, history)
    ensures Inv(Exec(EMPTY_DB, history))
  {
    HistoryKeeps(EMPTY_DB, history);
  }
}
