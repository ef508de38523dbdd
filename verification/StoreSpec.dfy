/**
 The durable store as a mathematical object (cloud/store.py, cloud/models.py).

 `Db` holds the tables; each function below is one transaction, atomic, giving
 the new tables and what the caller sees. Row choices that the database makes
 (`skip_locked`, ordering, limits) and minted UUIDs are parameters. The class
 `CloudStore` implements these transactions step by step.
 */
module StoreSpec {
  import opened Prelude
  import opened RunRow
  import opened CatchUp
  import Text

  datatype Role = UserRole | AssistantRole

  /** Which of the eight writers appended a message. A history annotation; no transaction reads it. */
  datatype Writer =
    | ClientWriter | ChannelWriter | PushWriter | SubagentWriter | AutomationWriter
    | ScheduleWriter(job: JobId)
    | OutputOf(run: RunId)

  datatype Draft = Draft(id: MsgId, role: Role, content: string, key: Option<Key>, writer: Writer)
  datatype Message = Message(number: nat, draft: Draft)
  datatype Conversation = Conversation(user: UserId, nextNumber: nat, messages: seq<Message>)

  datatype Tier = Instant | Soft
  datatype Trigger = At | After | Every
  datatype JobStatus = JobPending | JobRunning | JobCompleted | JobCancelled | JobFailed | JobMissed
  datatype Job = Job(
    user: UserId, conv: ConvId, tier: Tier, trigger: Trigger, cron: string, interval: nat,
    message: string, prompt: string, runAt: Time, remaining: int,
    status: JobStatus, owner: Option<WorkerId>, expires: Option<Time>, token: Option<Token>,
    lastError: string)

  /** Cron evaluation is not part of this model: an expression and a time give the next fire. */
  type Cron = (string, Time) -> Time

  datatype Automation = Automation(
    user: UserId, enabled: bool, proactive: bool, drift: bool, nextTick: Time,
    owner: Option<WorkerId>, expires: Option<Time>, tick: Option<Token>, lastError: string)

  /**
   The tables. `byKey` is the unique index on (user, idempotency key) and
   `messageIds` the primary key of messages. `issued` (tokens handed out so far)
   and `initial` (a job's repeat count at creation) are history only.
   */
  datatype Db = Db(
    runs: map<RunId, Run>, byKey: map<(UserId, Key), RunId>,
    convs: map<ConvId, Conversation>, messageIds: set<MsgId>,
    jobs: map<JobId, Job>, autos: map<ConvId, Automation>,
    inbound: map<(string, string), MsgId>,
    issued: set<Token>, initial: map<JobId, int>)

  datatype Tx<T> = Tx(db: Db, out: Result<T>)

  function Refuse<T>(db: Db, e: Error): Tx<T> {
    Tx(db, Err(e))
  }

  // ---------- messages ----------

  predicate HasKey(messages: seq<Message>, key: Key) {
    exists i :: 0 <= i < |messages| && messages[i].draft.key == Some(key)
  }

  /** Whether inserting the draft would violate a unique constraint of the messages table. */
  predicate Clashes(db: Db, conv: ConvId, d: Draft)
    requires conv in db.convs
  {
    d.id in db.messageIds || (d.key.Some? && HasKey(db.convs[conv].messages, d.key.value))
  }

  function Post(db: Db, conv: ConvId, d: Draft): Db
    requires conv in db.convs
  {
    var c := db.convs[conv];
    db.(convs := db.convs[conv := c.(nextNumber := c.nextNumber + 1,
                                     messages := c.messages + [Message(c.nextNumber, d)])],
        messageIds := db.messageIds + {d.id})
  }

  // ---------- Runs ----------

  predicate Active(status: RunStatus) {
    status.Queued? || status.Running?
  }

  predicate BusyWith(runs: map<RunId, Run>, conv: ConvId) {
    exists id :: id in runs && runs[id].conv == conv && Active(runs[id].status)
  }

  predicate RunningIn(runs: map<RunId, Run>, conv: ConvId) {
    exists id :: id in runs && runs[id].conv == conv && runs[id].status.Running?
  }

  function QueuedRun(user: UserId, conv: ConvId, input: MsgId, key: Option<Key>): Run {
    Log(Run(user, conv, input, key, Queued, None, None, None, 0, None, None, None, None, None, []), RunQueued)
  }

  predicate RunClashes(db: Db, rid: RunId, user: UserId, key: Option<Key>) {
    rid in db.runs || (key.Some? && (user, key.value) in db.byKey)
  }

  function AddRun(db: Db, rid: RunId, r: Run): Db {
    db.(runs := db.runs[rid := r],
        byKey := if r.key.Some? then db.byKey[(r.user, r.key.value) := rid] else db.byKey)
  }

  /** Appends an input message and queues a Run for it; refused as a whole when a unique constraint fails. */
  function Submit(db: Db, user: UserId, conv: ConvId, d: Draft, rid: RunId, key: Option<Key>): Tx<(MsgId, RunId)>
    requires conv in db.convs
  {
    if Clashes(db, conv, d) || RunClashes(db, rid, user, key) then Refuse(db, Integrity)
    else Tx(AddRun(Post(db, conv, d), rid, QueuedRun(user, conv, d.id, key)), Ok((d.id, rid)))
  }

  /** A client's Idempotency-Key after normalisation. */
  function ClientKeyOf(raw: string): Option<Key> {
    if Text.Strip(raw) == "" then None else Some(ClientKey(Text.Strip(raw)))
  }

  predicate BadKey(raw: string) {
    |Text.Strip(raw)| > 128 || exists c :: c in Text.Strip(raw) && c < '!'
  }

  /** Passive input wins over background work: the automation lease is revoked, its tick token kept. */
  function Revoke(autos: map<ConvId, Automation>, conv: ConvId, now: Time): map<ConvId, Automation> {
    if conv in autos && autos[conv].owner.Some?
    then autos[conv := autos[conv].(owner := None, expires := None, nextTick := now)]
    else autos
  }

  function SendMessage(db: Db, user: UserId, conv: ConvId, content: string, hasFiles: bool, filesFound: bool,
                       rawKey: string, mid: MsgId, rid: RunId, now: Time): Tx<(MsgId, RunId)> {
    var key := ClientKeyOf(rawKey);
    if Text.Strip(content) == "" && !hasFiles then Refuse(db, Invalid)
    else if BadKey(rawKey) then Refuse(db, Invalid)
    else if key.Some? && (user, key.value) in db.byKey then
      var known := db.byKey[(user, key.value)];
      if known !in db.runs then Refuse(db, Missing)
      else if db.runs[known].conv != conv then Refuse(db, Conflict)
      else Tx(db, Ok((db.runs[known].input, known)))
    else if conv !in db.convs || db.convs[conv].user != user then Refuse(db, NotFound)
    else if hasFiles && !filesFound then Refuse(db, NotFound)
    else
      var tx := Submit(db, user, conv, Draft(mid, UserRole, content, None, ClientWriter), rid, key);
      if tx.out.Err? then tx else tx.(db := tx.db.(autos := Revoke(tx.db.autos, conv, now)))
  }

  /** `link` is the enabled channel link of the chat, if any: its user and conversation. */
  function IngestChannel(db: Db, provider: string, event: string, link: Option<(UserId, ConvId)>, content: string,
                         hasFiles: bool, filesFound: bool, mid: MsgId, rid: RunId): Tx<(MsgId, bool)> {
    if Text.Strip(content) == "" then Refuse(db, Invalid)
    else if (provider, event) in db.inbound then Tx(db, Ok((db.inbound[(provider, event)], false)))
    else if link.None? then Refuse(db, NotFound)
    else if link.value.1 !in db.convs then Refuse(db, Missing)
    else if hasFiles && !filesFound then Refuse(db, NotFound)
    else
      var key := ChannelKey(Clip(provider + ":" + event, 120));
      var tx := Submit(db, link.value.0, link.value.1, Draft(mid, UserRole, content, None, ChannelWriter), rid, Some(key));
      if tx.out.Err? then Refuse(db, tx.out.error)
      else Tx(tx.db.(inbound := tx.db.inbound[(provider, event) := mid]), Ok((mid, true)))
  }

  function OnRun(db: Db, rid: RunId, s: RowStep): Db
    requires rid in db.runs
  {
    db.(runs := db.runs[rid := Step(db.runs[rid], s)])
  }

  /** The read half of a claim: queued Runs whose conversation shows no running Run. */
  function Claimable(db: Db): set<RunId> {
    set id | id in db.runs && db.runs[id].status.Queued? && !RunningIn(db.runs, db.runs[id].conv)
  }

  /**
   The commit half. `rid` may come from an older state. The row lock re-reads the
   row itself, so it must still be queued; the partial unique index on running
   Runs decides the rest, and the loser sees no Run.
   */
  function ClaimRun(db: Db, rid: RunId, worker: WorkerId, now: Time, lease: int): Tx<Option<RunId>> {
    if rid !in db.runs || !db.runs[rid].status.Queued? then Tx(db, Ok(None))
    else if RunningIn(db.runs, db.runs[rid].conv) then Tx(db, Ok(None))
    else Tx(OnRun(db, rid, Start(worker, now, lease)), Ok(Some(rid)))
  }

  predicate Owns(r: Run, worker: WorkerId) {
    r.status.Running? && r.owner == Some(worker)
  }

  /** The guard shared by the transactions of the owning worker. */
  function OwnerError(db: Db, rid: RunId, worker: WorkerId): Option<Error> {
    if rid !in db.runs then Some(NotFound)
    else if !Owns(db.runs[rid], worker) then Some(NotOwner)
    else None
  }

  /** The answer says whether an output message was appended. */
  function CompleteRun(db: Db, rid: RunId, worker: WorkerId, mid: MsgId, content: string, now: Time): Tx<bool> {
    var error := OwnerError(db, rid, worker);
    if error.Some? then Refuse(db, error.value)
    else if db.runs[rid].cancelRequested.Some? then Tx(OnRun(db, rid, Complete(mid, now)), Ok(false))
    else
      var conv := db.runs[rid].conv;
      var d := Draft(mid, AssistantRole, content, None, OutputOf(rid));
      if conv !in db.convs then Refuse(db, Missing)
      else if Clashes(db, conv, d) then Refuse(db, Integrity)
      else Tx(OnRun(Post(db, conv, d), rid, Complete(mid, now)), Ok(true))
  }

  /** The answer says whether cancellation was requested. */
  function HeartbeatRun(db: Db, rid: RunId, worker: WorkerId, now: Time, lease: int): Tx<bool> {
    var error := OwnerError(db, rid, worker);
    if error.Some? then Refuse(db, error.value)
    else Tx(OnRun(db, rid, Heartbeat(now, lease)), Ok(db.runs[rid].cancelRequested.Some?))
  }

  function CancelOwnedRun(db: Db, rid: RunId, worker: WorkerId, now: Time): Tx<()> {
    var error := OwnerError(db, rid, worker);
    if error.Some? then Refuse(db, error.value) else Tx(OnRun(db, rid, Acknowledge(now)), Ok(()))
  }

  function FailRun(db: Db, rid: RunId, worker: WorkerId, text: string, now: Time): Tx<()> {
    var error := OwnerError(db, rid, worker);
    if error.Some? then Refuse(db, error.value) else Tx(OnRun(db, rid, Fail(text, now)), Ok(()))
  }

  predicate Expired(r: Run, now: Time) {
    r.status.Running? && r.expires.Some? && r.expires.value < now
  }

  /** Recovers the expired Runs among those the database locked for this reaper. */
  function RequeueExpired(db: Db, picked: seq<RunId>, now: Time): Db {
    db.(runs := map id | id in db.runs ::
      if id in picked && Expired(db.runs[id], now) then ExpireRow(db.runs[id], now) else db.runs[id])
  }

  function RequestCancelRun(db: Db, user: UserId, rid: RunId, now: Time): Tx<()> {
    if rid !in db.runs || db.runs[rid].user != user then Refuse(db, NotFound)
    else Tx(OnRun(db, rid, RequestCancel(now)), Ok(()))
  }

  function AppendRuntime(db: Db, rid: RunId, name: string, data: string): Tx<()> {
    if rid !in db.runs then Refuse(db, NotFound) else Tx(OnRun(db, rid, Note(name, data)), Ok(()))
  }

  // ---------- scheduled jobs ----------

  function ActiveJobs(db: Db, user: UserId): set<JobId> {
    set j | j in db.jobs && db.jobs[j].user == user && (db.jobs[j].status.JobPending? || db.jobs[j].status.JobRunning?)
  }

  function CreateJob(db: Db, jid: JobId, user: UserId, conv: ConvId, tier: Tier, trigger: Trigger, cron: string,
                     interval: int, message: string, prompt: string, runAt: Time, remaining: int): Tx<()> {
    if conv !in db.convs || db.convs[conv].user != user then Refuse(db, NotFound)
    else if |ActiveJobs(db, user)| >= 10 then Refuse(db, Conflict)
    else if jid in db.jobs then Refuse(db, Integrity)
    else
      var job := Job(user, conv, tier, trigger, cron, Max(0, interval), message, prompt, runAt, remaining,
                     JobPending, None, None, None, "");
      Tx(db.(jobs := db.jobs[jid := job], initial := db.initial[jid := remaining]), Ok(()))
  }

  function CancelJob(db: Db, user: UserId, jid: JobId): Tx<()> {
    if jid !in db.jobs || db.jobs[jid].user != user then Refuse(db, NotFound)
    else if !db.jobs[jid].status.JobPending? then Refuse(db, Conflict)
    else Tx(db.(jobs := db.jobs[jid := db.jobs[jid].(status := JobCancelled)]), Ok(()))
  }

  predicate LeaseLapsed(job: Job, now: Time) {
    job.status.JobRunning? && job.expires.Some? && job.expires.value < now
  }

  predicate Due(job: Job, now: Time) {
    job.status.JobPending? && job.runAt <= now
  }

  /** Returns lapsed leases to the pending pool; the fire token stays. */
  function Sweep(jobs: map<JobId, Job>, picked: seq<JobId>, now: Time): map<JobId, Job> {
    map j | j in jobs ::
      if j in picked && LeaseLapsed(jobs[j], now)
      then jobs[j].(status := JobPending, owner := None, expires := None)
      else jobs[j]
  }

  const MISFIRE_GRACE: int := 300 * SECOND

  predicate Misfired(job: Job, now: Time) {
    job.token.None? && now - job.runAt > MISFIRE_GRACE
  }

  predicate Repeats(job: Job) {
    job.trigger.Every? || (job.interval > 0 && job.remaining > 1)
  }

  /** A never-attempted fire found too late: a repeating job skips to its next slot, another one is missed. */
  function Skip(job: Job, now: Time, cron: Cron): Job {
    if !Repeats(job) then job.(status := JobMissed, lastError := "missed while scheduler was offline")
    else if job.cron != "" then job.(runAt := cron(job.cron, now))
    else if job.interval == 0 then job
    else job.(runAt := NextSlot(job.runAt, job.interval * SECOND, now))
  }

  function Fire(job: Job, worker: WorkerId, now: Time, lease: int, minted: Token): Job {
    job.(status := JobRunning, owner := Some(Clip(worker, 200)), expires := Some(now + LeaseSpan(lease)),
         token := if job.token.Some? then job.token else Some(minted))
  }

  /** Walks the locked candidates in order: misfires are skipped over, the first other one is claimed. */
  function ClaimFrom(jobs: map<JobId, Job>, candidates: seq<JobId>, worker: WorkerId, now: Time, lease: int,
                     minted: Token, cron: Cron): (map<JobId, Job>, Option<JobId>)
    decreases |candidates|
  {
    if candidates == [] then (jobs, None)
    else
      var j := candidates[0];
      if j !in jobs || !Due(jobs[j], now) then ClaimFrom(jobs, candidates[1..], worker, now, lease, minted, cron)
      else if Misfired(jobs[j], now) then
        ClaimFrom(jobs[j := Skip(jobs[j], now, cron)], candidates[1..], worker, now, lease, minted, cron)
      else (jobs[j := Fire(jobs[j], worker, now, lease, minted)], Some(j))
  }

  function ClaimJob(db: Db, lapsed: seq<JobId>, candidates: seq<JobId>, worker: WorkerId, now: Time, lease: int,
                    minted: Token, cron: Cron): Tx<Option<JobId>> {
    var claim := ClaimFrom(Sweep(db.jobs, lapsed, now), candidates, worker, now, lease, minted, cron);
    Tx(db.(jobs := claim.0, issued := db.issued + {minted}), Ok(claim.1))
  }

  predicate OwnsFire(db: Db, jid: JobId, worker: WorkerId, token: Token) {
    && jid in db.jobs
    && db.jobs[jid].status.JobRunning?
    && db.jobs[jid].owner == Some(Clip(worker, 200))
    && db.jobs[jid].token == Some(token)
  }

  function HeartbeatJob(db: Db, jid: JobId, worker: WorkerId, token: Token, now: Time, lease: int): Tx<()> {
    if !OwnsFire(db, jid, worker, token) then Refuse(db, NotOwner)
    else Tx(db.(jobs := db.jobs[jid := db.jobs[jid].(expires := Some(now + LeaseSpan(lease)))]), Ok(()))
  }

  /** The effect of one fire, at most once per token. */
  function DeliverJob(db: Db, jid: JobId, worker: WorkerId, token: Token, mid: MsgId, rid: RunId): Tx<()> {
    if !OwnsFire(db, jid, worker, token) then Refuse(db, NotOwner)
    else
      var job := db.jobs[jid];
      var key := ScheduleKey(jid, token);
      if job.conv !in db.convs || db.convs[job.conv].user != job.user then Refuse(db, Missing)
      else if job.tier.Instant? then
        var d := Draft(mid, AssistantRole, job.message, Some(key), ScheduleWriter(jid));
        if HasKey(db.convs[job.conv].messages, key) then Tx(db, Ok(()))
        else if BusyWith(db.runs, job.conv) then Refuse(db, Busy)
        else if Clashes(db, job.conv, d) then Refuse(db, Integrity)
        else Tx(Post(db, job.conv, d), Ok(()))
      else
        var d := Draft(mid, UserRole, job.prompt, Some(ScheduleInputKey(jid, token)), ScheduleWriter(jid));
        if (job.user, key) in db.byKey then Tx(db, Ok(()))
        else
          var tx := Submit(db, job.user, job.conv, d, rid, Some(key));
          if tx.out.Err? then Refuse(db, tx.out.error) else Tx(tx.db, Ok(()))
  }

  function FinishJob(db: Db, jid: JobId, worker: WorkerId, token: Token, status: JobStatus, remaining: int,
                     next: Option<Time>, error: string): Tx<()> {
    if jid !in db.jobs || db.jobs[jid].owner != Some(Clip(worker, 200)) || db.jobs[jid].token != Some(token)
    then Refuse(db, NotOwner)
    else
      var job := db.jobs[jid];
      Tx(db.(jobs := db.jobs[jid := job.(
        status := status, remaining := remaining,
        runAt := if next.Some? then next.value else job.runAt,
        lastError := Clip(error, 500), owner := None, expires := None,
        token := if status.JobPending? then None else job.token)]), Ok(()))
  }

  // ---------- automations ----------

  /** Turns off every enabled automation of the user in another conversation. */
  function DisableOthers(autos: map<ConvId, Automation>, user: UserId, conv: ConvId): map<ConvId, Automation> {
    map c | c in autos ::
      if autos[c].user == user && c != conv && autos[c].enabled
      then autos[c].(enabled := false, proactive := false, drift := false, owner := None, expires := None, tick := None)
      else autos[c]
  }

  function Configure(db: Db, user: UserId, conv: ConvId, proactive: bool, drift: bool, now: Time): Tx<()> {
    if conv !in db.convs || db.convs[conv].user != user then Refuse(db, NotFound)
    else
      var autos := if proactive || drift then DisableOthers(db.autos, user, conv) else db.autos;
      var owner := if conv in autos then autos[conv].user else user;
      Tx(db.(autos := autos[conv := Automation(owner, proactive || drift, proactive, drift, now, None, None, None, "")]),
         Ok(()))
  }

  predicate TickDue(db: Db, conv: ConvId, now: Time) {
    && conv in db.autos
    && db.autos[conv].enabled
    && db.autos[conv].nextTick <= now
    && (db.autos[conv].expires.None? || db.autos[conv].expires.value <= now)
    && !BusyWith(db.runs, conv)
  }

  /** Claims the automation the database picked among the due ones. */
  function ClaimAutomation(db: Db, conv: ConvId, worker: WorkerId, now: Time, lease: int, minted: Token): Tx<bool> {
    if !TickDue(db, conv, now) then Tx(db, Ok(false))
    else
      var a := db.autos[conv];
      Tx(db.(autos := db.autos[conv := a.(owner := Some(Clip(worker, 200)), expires := Some(now + LeaseSpan(lease)),
                                         tick := if a.tick.Some? then a.tick else Some(minted))],
             issued := db.issued + {minted}), Ok(true))
  }

  function FinishAutomation(db: Db, conv: ConvId, worker: WorkerId, next: Time, error: string): Tx<()> {
    if conv !in db.autos || db.autos[conv].owner != Some(Clip(worker, 200)) then Refuse(db, NotOwner)
    else
      var a := db.autos[conv];
      Tx(db.(autos := db.autos[conv := a.(nextTick := next, lastError := Clip(error, 500), owner := None, expires := None,
                                         tick := if error == "" then None else a.tick)]), Ok(()))
  }

  predicate OwnsTick(db: Db, conv: ConvId, worker: WorkerId, token: Token) {
    && conv in db.autos
    && db.autos[conv].owner == Some(Clip(worker, 200))
    && db.autos[conv].tick == Some(token)
  }

  function HeartbeatAutomation(db: Db, conv: ConvId, worker: WorkerId, token: Token, now: Time, lease: int): Tx<()> {
    if !OwnsTick(db, conv, worker, token) then Refuse(db, NotOwner)
    else Tx(db.(autos := db.autos[conv := db.autos[conv].(expires := Some(now + LeaseSpan(lease)))]), Ok(()))
  }

  function AppendAutomation(db: Db, user: UserId, conv: ConvId, worker: WorkerId, token: Token, source: string,
                            content: string, mid: MsgId): Tx<()> {
    var key := AutomationKey(source, token);
    if !OwnsTick(db, conv, worker, token) || db.autos[conv].user != user then Refuse(db, NotOwner)
    else if conv in db.convs && HasKey(db.convs[conv].messages, key) then Tx(db, Ok(()))
    else if BusyWith(db.runs, conv) then Refuse(db, Busy)
    else if conv !in db.convs || db.convs[conv].user != user then Refuse(db, NotFound)
    else
      var d := Draft(mid, AssistantRole, content, Some(key), AutomationWriter);
      if Clashes(db, conv, d) then Refuse(db, Integrity) else Tx(Post(db, conv, d), Ok(()))
  }

  // ---------- the two remaining writers ----------

  function PushMessage(db: Db, conv: ConvId, linked: bool, content: string, mid: MsgId, minted: Token): Tx<()> {
    if !linked || conv !in db.convs then Refuse(db, NotFound)
    else
      var d := Draft(mid, AssistantRole, content, Some(PushKey(minted)), PushWriter);
      if Clashes(db, conv, d) then Refuse(db, Integrity)
      else Tx(Post(db, conv, d).(issued := db.issued + {minted}), Ok(()))
  }

  function DeliverSubagent(db: Db, subagent: nat, conv: ConvId, content: string, mid: MsgId): Tx<()> {
    if conv !in db.convs then Refuse(db, NotFound)
    else
      var d := Draft(mid, AssistantRole, content, Some(SubagentKey(subagent)), SubagentWriter);
      if Clashes(db, conv, d) then Refuse(db, Integrity) else Tx(Post(db, conv, d), Ok(()))
  }

  function OpenConversation(db: Db, user: UserId, conv: ConvId): Tx<()> {
    if conv in db.convs then Refuse(db, Integrity)
    else Tx(db.(convs := db.convs[conv := Conversation(user, 1, [])]), Ok(()))
  }

  // ---------- histories ----------

  /** Clients, channels and the plain writers. */
  datatype MailAction =
    | AOpen(user: UserId, conv: ConvId)
    | ASend(user: UserId, conv: ConvId, content: string, hasFiles: bool, filesFound: bool, rawKey: string, mid: MsgId,
            rid: RunId, now: Time)
    | AIngest(provider: string, event: string, link: Option<(UserId, ConvId)>, content: string, hasFiles: bool,
              filesFound: bool, mid: MsgId, rid: RunId)
    | APush(conv: ConvId, linked: bool, content: string, mid: MsgId, minted: Token)
    | ASubagent(subagent: nat, conv: ConvId, content: string, mid: MsgId)

  function ApplyMail(db: Db, a: MailAction): Db {
    match a
    case AOpen(user, conv) => OpenConversation(db, user, conv).db
    case ASend(user, conv, content, hasFiles, filesFound, rawKey, mid, rid, now) =>
      SendMessage(db, user, conv, content, hasFiles, filesFound, rawKey, mid, rid, now).db
    case AIngest(provider, event, link, content, hasFiles, filesFound, mid, rid) =>
      IngestChannel(db, provider, event, link, content, hasFiles, filesFound, mid, rid).db
    case APush(conv, linked, content, mid, minted) => PushMessage(db, conv, linked, content, mid, minted).db
    case ASubagent(subagent, conv, content, mid) => DeliverSubagent(db, subagent, conv, content, mid).db
  }

  /** Run workers, the reaper, and cancellation requests. */
  datatype WorkAction =
    | AClaimRun(rid: RunId, worker: WorkerId, now: Time, lease: int)
    | AComplete(rid: RunId, worker: WorkerId, mid: MsgId, content: string, now: Time)
    | AHeartbeat(rid: RunId, worker: WorkerId, now: Time, lease: int)
    | ACancelOwned(rid: RunId, worker: WorkerId, now: Time)
    | AFail(rid: RunId, worker: WorkerId, content: string, now: Time)
    | ARequestCancel(user: UserId, rid: RunId, now: Time)
    | ARuntime(rid: RunId, name: string, content: string)
    | ARequeue(picked: seq<RunId>, now: Time)

  function ApplyWork(db: Db, a: WorkAction): Db {
    match a
    case AClaimRun(rid, worker, now, lease) => ClaimRun(db, rid, worker, now, lease).db
    case AComplete(rid, worker, mid, content, now) => CompleteRun(db, rid, worker, mid, content, now).db
    case AHeartbeat(rid, worker, now, lease) => HeartbeatRun(db, rid, worker, now, lease).db
    case ACancelOwned(rid, worker, now) => CancelOwnedRun(db, rid, worker, now).db
    case AFail(rid, worker, content, now) => FailRun(db, rid, worker, content, now).db
    case ARequestCancel(user, rid, now) => RequestCancelRun(db, user, rid, now).db
    case ARuntime(rid, name, content) => AppendRuntime(db, rid, name, content).db
    case ARequeue(picked, now) => RequeueExpired(db, picked, now)
  }

  /** Schedule tools and schedule workers. */
  datatype JobAction =
    | ACreateJob(jid: JobId, user: UserId, conv: ConvId, tier: Tier, trigger: Trigger, cronText: string, interval: int,
                 message: string, prompt: string, runAt: Time, remaining: int)
    | ACancelJob(user: UserId, jid: JobId)
    | AClaimJob(lapsed: seq<JobId>, candidates: seq<JobId>, worker: WorkerId, now: Time, lease: int, minted: Token, cron: Cron)
    | AHeartbeatJob(jid: JobId, worker: WorkerId, token: Token, now: Time, lease: int)
    | ADeliverJob(jid: JobId, worker: WorkerId, token: Token, mid: MsgId, rid: RunId)
    | AFinishJob(jid: JobId, worker: WorkerId, token: Token, status: JobStatus, remaining: int, next: Option<Time>, error: string)

  function ApplyJob(db: Db, a: JobAction): Db {
    match a
    case ACreateJob(jid, user, conv, tier, trigger, cronText, interval, message, prompt, runAt, remaining) =>
      CreateJob(db, jid, user, conv, tier, trigger, cronText, interval, message, prompt, runAt, remaining).db
    case ACancelJob(user, jid) => CancelJob(db, user, jid).db
    case AClaimJob(lapsed, candidates, worker, now, lease, minted, cron) =>
      ClaimJob(db, lapsed, candidates, worker, now, lease, minted, cron).db
    case AHeartbeatJob(jid, worker, token, now, lease) => HeartbeatJob(db, jid, worker, token, now, lease).db
    case ADeliverJob(jid, worker, token, mid, rid) => DeliverJob(db, jid, worker, token, mid, rid).db
    case AFinishJob(jid, worker, token, status, remaining, next, error) =>
      FinishJob(db, jid, worker, token, status, remaining, next, error).db
  }

  /** Automation settings and automation workers. */
  datatype TickAction =
    | AConfigure(user: UserId, conv: ConvId, proactive: bool, drift: bool, now: Time)
    | AClaimAuto(conv: ConvId, worker: WorkerId, now: Time, lease: int, minted: Token)
    | AHeartbeatAuto(conv: ConvId, worker: WorkerId, token: Token, now: Time, lease: int)
    | AFinishAuto(conv: ConvId, worker: WorkerId, nextTick: Time, error: string)
    | AAppendAuto(user: UserId, conv: ConvId, worker: WorkerId, token: Token, source: string, content: string, mid: MsgId)

  function ApplyTick(db: Db, a: TickAction): Db {
    match a
    case AConfigure(user, conv, proactive, drift, now) => Configure(db, user, conv, proactive, drift, now).db
    case AClaimAuto(conv, worker, now, lease, minted) => ClaimAutomation(db, conv, worker, now, lease, minted).db
    case AHeartbeatAuto(conv, worker, token, now, lease) => HeartbeatAutomation(db, conv, worker, token, now, lease).db
    case AFinishAuto(conv, worker, nextTick, error) => FinishAutomation(db, conv, worker, nextTick, error).db
    case AAppendAuto(user, conv, worker, token, source, content, mid) =>
      AppendAutomation(db, user, conv, worker, token, source, content, mid).db
  }

  datatype Action = Mail(mail: MailAction) | Work(work: WorkAction) | Scheduling(job: JobAction) | Ticking(tick: TickAction)

  /** The tables after one transaction. */
  function Apply(db: Db, a: Action): Db {
    match a
    case Mail(m) => ApplyMail(db, m)
    case Work(w) => ApplyWork(db, w)
    case Scheduling(j) => ApplyJob(db, j)
    case Ticking(t) => ApplyTick(db, t)
  }

  /**
   What the callers of the store guarantee: a generated token (a UUID) was never
   handed out before, and a schedule worker finishes a fire in one of three states.
   */
  predicate Lawful(db: Db, a: Action) {
    match a
    case Mail(APush(_, _, _, _, minted)) => minted !in db.issued
    case Scheduling(AClaimJob(_, _, _, _, _, minted, _)) => minted !in db.issued
    case Scheduling(AFinishJob(_, _, _, status, _, _, _)) =>
      status.JobPending? || status.JobCompleted? || status.JobFailed?
    case Ticking(AClaimAuto(_, _, _, _, minted)) => minted !in db.issued
    case _ => true
  }

  const EMPTY_DB: Db := Db(map[], map[], map[], {}, map[], map[], map[], {}, map[])

  /** A history: transactions of any workers, clients, reapers and administrators, in any interleaving. */
  function Exec(db: Db, history: seq<Action>): Db
    decreases |history|
  {
    if history == [] then db else Exec(Apply(db, history[0]), history[1..])
  }

  predicate LawfulHistory(db: Db, history: seq<Action>)
    decreases |history|
  {
    history == [] || (Lawful(db, history[0]) && LawfulHistory(Apply(db, history[0]), history[1..]))
  }
}
