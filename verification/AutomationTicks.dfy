/**
 Proactive and Drift ticks (cloud/store.py, cloud/automation.py). A tick token
 names one tick of one conversation; it outlives errors and revocations so that
 a retry is idempotent, and passive activity fences background messages.
 */
module AutomationTicks {
  import opened Prelude
  import opened RunRow
  import opened StoreSpec
  import opened StoreInvariant
  import opened RunHistory
  import opened ScheduleFires

  // ---------- a token belongs to one conversation ----------

  ghost predicate TickKeyAt(c: Conversation, i: nat, t: Token) {
    i < |c.messages| && c.messages[i].draft.key.Some? && c.messages[i].draft.key.value.AutomationKey?
    && c.messages[i].draft.key.value.token == t
  }

  ghost predicate Holds(autos: map<ConvId, Automation>, c: ConvId, t: Token) {
    c in autos && autos[c].tick == Some(t)
  }

  /** Messages of a token, and the automation holding it, are all of one conversation. */
  ghost predicate TicksOk(convs: map<ConvId, Conversation>, autos: map<ConvId, Automation>) {
    && (forall a: ConvId, b: ConvId, t: Token :: Holds(autos, a, t) && Holds(autos, b, t) ==> a == b)
    && (forall c, i: nat, b: ConvId, t: Token :: c in convs && TickKeyAt(convs[c], i, t) && Holds(autos, b, t) ==> b == c)
    && (forall c, i: nat, d, k: nat, t: Token ::
          c in convs && d in convs && TickKeyAt(convs[c], i, t) && TickKeyAt(convs[d], k, t) ==> c == d)
  }

  /** Every tick key of the new messages was there before, or is the one being appended in `conv`. */
  ghost predicate TickKeysFrom(convs: map<ConvId, Conversation>, convs': map<ConvId, Conversation>, conv: ConvId, t: Option<Token>) {
    forall c, i: nat, u: Token :: c in convs' && TickKeyAt(convs'[c], i, u) ==>
      (c in convs && TickKeyAt(convs[c], i, u)) || (c == conv && t == Some(u))
  }

  /** Every token an automation holds was held there before, or is the freshly minted one at `conv`. */
  ghost predicate TicksFrom(autos: map<ConvId, Automation>, autos': map<ConvId, Automation>, conv: ConvId, t: Option<Token>) {
    forall c: ConvId, u: Token :: Holds(autos', c, u) ==> Holds(autos, c, u) || (c == conv && t == Some(u))
  }

  function TickOf(d: Draft): Option<Token> {
    if d.key.Some? && d.key.value.AutomationKey? then Some(d.key.value.token) else None
  }

  lemma PostTickKeys(db: Db, conv: ConvId, d: Draft)
    requires conv in db.convs
    ensures TickKeysFrom(db.convs, Post(db, conv, d).convs, conv, TickOf(d))
  {
    var after := Post(db, conv, d).convs[conv].messages;
    assert after[|db.convs[conv].messages|].draft == d;
  }

  lemma SubmitTickKeys(db: Db, user: UserId, conv: ConvId, d: Draft, rid: RunId, key: Option<Key>)
    requires conv in db.convs && TickOf(d).None?
    ensures TickKeysFrom(db.convs, Submit(db, user, conv, d, rid, key).db.convs, conv, None)
    ensures Submit(db, user, conv, d, rid, key).db.autos == db.autos
  {
    PostTickKeys(db, conv, d);
    assert TickKeysFrom(db.convs, db.convs, conv, None);
    hide TickKeysFrom, QueuedRun, Clashes;
  }

  /** What a transaction can add: a tick key for a token its conversation holds, or a freshly minted token. */
  ghost predicate TickMove(db: Db, db': Db) {
    exists conv: ConvId, key: Option<Token>, tick: Option<Token> ::
      && TickKeysFrom(db.convs, db'.convs, conv, key)
      && TicksFrom(db.autos, db'.autos, conv, tick)
      && (key.Some? ==> Holds(db.autos, conv, key.value) && tick.None?)
      && (tick.Some? ==> tick.value !in db.issued && key.None?)
  }

  lemma TickMoveKeeps(db: Db, db': Db)
    requires Inv(db) && TicksOk(db.convs, db.autos) && TickMove(db, db')
    ensures TicksOk(db'.convs, db'.autos)
  {
    var conv: ConvId, key: Option<Token>, tick: Option<Token> :|
      && TickKeysFrom(db.convs, db'.convs, conv, key)
      && TicksFrom(db.autos, db'.autos, conv, tick)
      && (key.Some? ==> Holds(db.autos, conv, key.value) && tick.None?)
      && (tick.Some? ==> tick.value !in db.issued && key.None?);
    if tick.Some? {
      MintedIsUnused(db, tick.value);
    }
    hide Inv;
  }

  lemma MintedIsUnused(db: Db, t: Token)
    requires Inv(db) && t !in db.issued
    ensures forall c :: !Holds(db.autos, c, t)
    ensures forall c, i: nat :: c in db.convs ==> !TickKeyAt(db.convs[c], i, t)
  {
    hide RunsOk, OneRunning, IndexOk, ConvsOk, AllAnchored, OutputsOk, JobsOk, AutosOwned;
    forall c, i: nat | c in db.convs && i < |db.convs[c].messages|
      ensures Known(db.convs[c].messages[i].draft.key, db.issued)
    {
    }
  }

  lemma NoTickMove(db: Db, db': Db, conv: ConvId)
    requires TickKeysFrom(db.convs, db'.convs, conv, None) && TicksFrom(db.autos, db'.autos, conv, None)
    ensures TickKeysFrom(db.convs, db'.convs, 0, None)
    ensures TickMove(db, db')
  {
  }

  lemma RevokeKeepsTicks(autos: map<ConvId, Automation>, conv: ConvId, now: Time)
    ensures TicksFrom(autos, Revoke(autos, conv, now), conv, None)
    ensures forall c :: c in autos ==> c in Revoke(autos, conv, now) && Revoke(autos, conv, now)[c].tick == autos[c].tick
  {
  }

  lemma MailTickMove(db: Db, a: MailAction)
    ensures TickMove(db, ApplyMail(db, a))
    ensures TickKeysFrom(db.convs, ApplyMail(db, a).convs, 0, None)
  {
    var db' := ApplyMail(db, a);
    assert TickKeysFrom(db.convs, db.convs, 0, None) && TicksFrom(db.autos, db.autos, 0, None);
    NoTickMove(db, db, 0);
    match a {
      case ASend(user, conv, content, hasFiles, filesFound, rawKey, mid, rid, now) =>
        SendEffect(db, user, conv, content, hasFiles, filesFound, rawKey, mid, rid, now);
        RevokeKeepsTicks(db.autos, conv, now);
        hide SendMessage, Submit, Revoke, TickKeysFrom, TicksFrom, TickMove, ClientKeyOf;
        if db' != db {
          SubmitTickKeys(db, user, conv, Draft(mid, UserRole, content, None, ClientWriter), rid, ClientKeyOf(rawKey));
          NoTickMove(db, db', conv);
        }
      case AIngest(provider, event, link, content, hasFiles, filesFound, mid, rid) =>
        IngestEffect(db, provider, event, link, content, hasFiles, filesFound, mid, rid);
        assert link.Some? ==> TicksFrom(db.autos, db.autos, link.value.1, None);
        hide IngestChannel, Submit, TickKeysFrom, TicksFrom, TickMove, Clip;
        if db' != db {
          SubmitTickKeys(db, link.value.0, link.value.1, Draft(mid, UserRole, content, None, ChannelWriter), rid,
                         Some(ChannelKey(Clip(provider + ":" + event, 120))));
          NoTickMove(db, db', link.value.1);
        }
      case _ => WriterTickMove(db, a);
    }
  }

  lemma WriterTickMove(db: Db, a: MailAction)
    requires a.APush? || a.ASubagent? || a.AOpen?
    ensures TickKeysFrom(db.convs, ApplyMail(db, a).convs, 0, None)
    ensures TickMove(db, ApplyMail(db, a))
  {
    hide Clashes;
    if (a.APush? || a.ASubagent?) && a.conv in db.convs {
      PostTickKeys(db, a.conv, Draft(a.mid, AssistantRole, a.content,
        Some(if a.APush? then PushKey(a.minted) else SubagentKey(a.subagent)), if a.APush? then PushWriter else SubagentWriter));
    }
    assert TickKeysFrom(db.convs, ApplyMail(db, a).convs, a.conv, None);
    assert TicksFrom(db.autos, ApplyMail(db, a).autos, a.conv, None);
    hide ApplyMail, TickKeysFrom, TicksFrom;
    NoTickMove(db, ApplyMail(db, a), a.conv);
  }

  lemma CompleteEffect(db: Db, rid: RunId, worker: WorkerId, mid: MsgId, content: string, now: Time)
    ensures var db' := CompleteRun(db, rid, worker, mid, content, now).db;
      db'.autos == db.autos &&
      (db'.convs == db.convs ||
       (rid in db.runs && db.runs[rid].conv in db.convs &&
        db'.convs == Post(db, db.runs[rid].conv, Draft(mid, AssistantRole, content, None, OutputOf(rid))).convs))
  {
    hide Clashes, Step;
  }

  lemma CompleteTickMove(db: Db, rid: RunId, worker: WorkerId, mid: MsgId, content: string, now: Time)
    ensures TickKeysFrom(db.convs, CompleteRun(db, rid, worker, mid, content, now).db.convs, 0, None)
    ensures TickMove(db, CompleteRun(db, rid, worker, mid, content, now).db)
  {
    var db' := CompleteRun(db, rid, worker, mid, content, now).db;
    var conv: ConvId := if rid in db.runs then db.runs[rid].conv else 0;
    assert TickKeysFrom(db.convs, db.convs, conv, None) && TicksFrom(db.autos, db.autos, conv, None);
    CompleteEffect(db, rid, worker, mid, content, now);
    if conv in db.convs {
      PostTickKeys(db, conv, Draft(mid, AssistantRole, content, None, OutputOf(rid)));
    }
    hide CompleteRun, TickKeysFrom, TicksFrom, TickMove, Post;
    NoTickMove(db, db', conv);
  }

  lemma WorkLeavesMessages(db: Db, a: WorkAction)
    requires !a.AComplete?
    ensures ApplyWork(db, a).convs == db.convs && ApplyWork(db, a).autos == db.autos
  {
    hide Step, RunningIn;
  }

  lemma WorkTickMove(db: Db, a: WorkAction)
    ensures TickMove(db, ApplyWork(db, a))
    ensures TickKeysFrom(db.convs, ApplyWork(db, a).convs, 0, None)
  {
    assert TickKeysFrom(db.convs, db.convs, 0, None) && TicksFrom(db.autos, db.autos, 0, None);
    if a.AComplete? {
      CompleteTickMove(db, a.rid, a.worker, a.mid, a.content, a.now);
    } else {
      WorkLeavesMessages(db, a);
      hide ApplyWork;
      NoTickMove(db, ApplyWork(db, a), 0);
    }
  }

  lemma DeliverTickMove(db: Db, jid: JobId, worker: WorkerId, token: Token, mid: MsgId, rid: RunId)
    ensures TickKeysFrom(db.convs, DeliverJob(db, jid, worker, token, mid, rid).db.convs, 0, None)
    ensures TickMove(db, DeliverJob(db, jid, worker, token, mid, rid).db)
  {
    var db' := DeliverJob(db, jid, worker, token, mid, rid).db;
    assert TickKeysFrom(db.convs, db.convs, 0, None) && TicksFrom(db.autos, db.autos, 0, None);
    NoTickMove(db, db, 0);
    if jid in db.jobs && db.jobs[jid].conv in db.convs {
      var job := db.jobs[jid];
      PostTickKeys(db, job.conv, Draft(mid, AssistantRole, job.message, Some(ScheduleKey(jid, token)), ScheduleWriter(jid)));
      SubmitTickKeys(db, job.user, job.conv,
                     Draft(mid, UserRole, job.prompt, Some(ScheduleInputKey(jid, token)), ScheduleWriter(jid)),
                     rid, Some(ScheduleKey(jid, token)));
      assert TicksFrom(db.autos, db.autos, job.conv, None);
      hide TickKeysFrom, TicksFrom, TickMove, Submit, Clashes, HasKey, BusyWith;
      if db' != db {
        NoTickMove(db, db', job.conv);
      }
    }
  }

  lemma JobTickMove(db: Db, a: JobAction)
    ensures TickMove(db, ApplyJob(db, a))
    ensures TickKeysFrom(db.convs, ApplyJob(db, a).convs, 0, None)
  {
    assert TickKeysFrom(db.convs, db.convs, 0, None) && TicksFrom(db.autos, db.autos, 0, None);
    if a.ADeliverJob? {
      DeliverTickMove(db, a.jid, a.worker, a.token, a.mid, a.rid);
    } else {
      OtherJobsLeaveMessages(db, a);
      hide ApplyJob, TickKeysFrom, TicksFrom, TickMove;
      NoTickMove(db, ApplyJob(db, a), 0);
    }
    hide DeliverJob;
  }

  lemma OtherJobsLeaveMessages(db: Db, a: JobAction)
    requires !a.ADeliverJob?
    ensures ApplyJob(db, a).convs == db.convs && ApplyJob(db, a).autos == db.autos
  {
    hide ClaimFrom, Sweep, ActiveJobs, OwnsFire;
  }

  lemma AppendTickMove(db: Db, user: UserId, conv: ConvId, worker: WorkerId, token: Token, source: string,
                       content: string, mid: MsgId)
    ensures TickMove(db, AppendAutomation(db, user, conv, worker, token, source, content, mid).db)
  {
    var db' := AppendAutomation(db, user, conv, worker, token, source, content, mid).db;
    assert TickKeysFrom(db.convs, db.convs, conv, None) && TicksFrom(db.autos, db.autos, conv, None);
    NoTickMove(db, db, conv);
    if conv in db.convs && OwnsTick(db, conv, worker, token) {
      PostTickKeys(db, conv, Draft(mid, AssistantRole, content, Some(AutomationKey(source, token)), AutomationWriter));
      assert Holds(db.autos, conv, token);
      hide TickKeysFrom, TicksFrom, HasKey, Clashes, BusyWith;
      assert db' == db || TickKeysFrom(db.convs, db'.convs, conv, Some(token));
    }
  }

  lemma MintTickMove(db: Db, db': Db, conv: ConvId, minted: Option<Token>)
    requires db'.convs == db.convs && TicksFrom(db.autos, db'.autos, conv, minted)
    requires minted.Some? ==> minted.value !in db.issued
    ensures TickMove(db, db')
  {
    assert TickKeysFrom(db.convs, db'.convs, conv, None);
    hide TickKeysFrom, TicksFrom;
  }

  /** Leases and settings only keep, clear or mint tokens. */
  lemma LeaseTicksFrom(db: Db, a: TickAction)
    requires !a.AAppendAuto?
    ensures ApplyTick(db, a).convs == db.convs
    ensures TicksFrom(db.autos, ApplyTick(db, a).autos, a.conv, if a.AClaimAuto? then Some(a.minted) else None)
  {
    hide BusyWith;
  }

  lemma TickTickMove(db: Db, a: TickAction)
    requires Lawful(db, Ticking(a))
    ensures TickMove(db, ApplyTick(db, a))
  {
    if a.AAppendAuto? {
      AppendTickMove(db, a.user, a.conv, a.worker, a.token, a.source, a.content, a.mid);
    } else {
      LeaseTicksFrom(db, a);
      hide ApplyTick;
      MintTickMove(db, ApplyTick(db, a), a.conv, if a.AClaimAuto? then Some(a.minted) else None);
    }
    hide TickMove, AppendAutomation;
  }

  lemma AnyTickMove(db: Db, a: Action)
    requires Lawful(db, a)
    ensures TickMove(db, Apply(db, a))
  {
    hide TickMove, ApplyMail, ApplyWork, ApplyJob, ApplyTick;
    match a
    case Mail(m) => MailTickMove(db, m);
    case Work(w) => WorkTickMove(db, w);
    case Scheduling(j) => JobTickMove(db, j);
    case Ticking(t) => TickTickMove(db, t);
  }

  lemma {:induction false} HistoryKeepsTicks(db: Db, history: seq<Action>)
    requires Inv(db) && TicksOk(db.convs, db.autos) && LawfulHistory(db, history)
    ensures TicksOk(Exec(db, history).convs, Exec(db, history).autos)
    decreases |history|
  {
    hide Inv, TicksOk, Apply, TickMove;
    if history == [] {
    } else {
      AnyTickMove(db, history[0]);
      TickMoveKeeps(db, Apply(db, history[0]));
      ActionKeeps(db, history[0]);
      HistoryKeepsTicks(Apply(db, history[0]), history[1..]);
    }
  }

  lemma OneMessagePerTickHere(db: Db, source: string, t: Token, c: ConvId, i: nat, d: ConvId, k: nat)
    requires Inv(db) && TicksOk(db.convs, db.autos) && c in db.convs && d in db.convs
    requires KeyAt(db.convs[c], i, AutomationKey(source, t)) && KeyAt(db.convs[d], k, AutomationKey(source, t))
    ensures c == d && i == k
  {
    assert TickKeyAt(db.convs[c], i, t) && TickKeyAt(db.convs[d], k, t);
    assert ConvOk(db.convs[c]);
    hide Inv, TickKeyAt;
  }

  /** In every reachable state the whole store holds at most one message per source and tick token. */
  lemma OneMessagePerTick(history: seq<Action>, source: string, t: Token)
    requires LawfulHistory(EMPTY_DB, history)
    ensures var db := Exec(EMPTY_DB, history);
      forall c, d, i: nat, k: nat | c in db.convs && d in db.convs
        && KeyAt(db.convs[c], i, AutomationKey(source, t)) && KeyAt(db.convs[d], k, AutomationKey(source, t)) :: c == d && i == k
  {
    ReachableIsSound(history);
    HistoryKeepsTicks(EMPTY_DB, history);
    var db := Exec(EMPTY_DB, history);
    hide Exec, LawfulHistory, Inv, TicksOk, KeyAt;
    forall c, d, i: nat, k: nat | c in db.convs && d in db.convs
      && KeyAt(db.convs[c], i, AutomationKey(source, t)) && KeyAt(db.convs[d], k, AutomationKey(source, t))
      ensures c == d && i == k
    {
      OneMessagePerTickHere(db, source, t, c, i, d, k);
    }
  }

  /** In every reachable state a user has at most one enabled automation, and only a leased one has an owner. */
  lemma OneEnabledPerUser(history: seq<Action>)
    requires LawfulHistory(EMPTY_DB, history)
    ensures var autos := Exec(EMPTY_DB, history).autos;
      && (forall c, d | c in autos && d in autos && autos[c].enabled && autos[d].enabled && autos[c].user == autos[d].user :: c == d)
      && (forall c :: c in autos && autos[c].owner.Some? ==> autos[c].enabled && autos[c].tick.Some?)
  {
    hide Exec, LawfulHistory;
    ReachableIsSound(history);
  }

  // ---------- the life of a token ----------

  /** The transactions that may clear the token of a conversation's automation. */
  predicate Clears(db: Db, a: Action, c: ConvId) {
    match a
    case Ticking(AFinishAuto(conv, worker, _, error)) => conv == c && error == ""
    case Ticking(AConfigure(user, conv, proactive, drift, _)) =>
      conv == c || ((proactive || drift) && c in db.autos && db.autos[c].user == user)
    case _ => false
  }

  lemma TickSurvivesMail(db: Db, a: MailAction, c: ConvId)
    requires c in db.autos
    ensures c in ApplyMail(db, a).autos && ApplyMail(db, a).autos[c].tick == db.autos[c].tick
  {
    match a
    case ASend(user, conv, content, hasFiles, filesFound, rawKey, mid, rid, now) =>
      SendEffect(db, user, conv, content, hasFiles, filesFound, rawKey, mid, rid, now);
      RevokeKeepsTicks(db.autos, conv, now);
      if conv in db.convs {
        SubmitTickKeys(db, user, conv, Draft(mid, UserRole, content, None, ClientWriter), rid, ClientKeyOf(rawKey));
      }
      hide SendMessage, Submit, Revoke;
    case AIngest(provider, event, link, content, hasFiles, filesFound, mid, rid) =>
      IngestEffect(db, provider, event, link, content, hasFiles, filesFound, mid, rid);
      if link.Some? && link.value.1 in db.convs {
        SubmitTickKeys(db, link.value.0, link.value.1, Draft(mid, UserRole, content, None, ChannelWriter), rid,
                       Some(ChannelKey(Clip(provider + ":" + event, 120))));
      }
      hide IngestChannel, Submit;
    case _ => hide Clashes;
  }

  lemma WorkLeavesAutos(db: Db, a: WorkAction)
    ensures ApplyWork(db, a).autos == db.autos
  {
    hide Step, RunningIn, Clashes;
  }

  lemma JobLeavesAutos(db: Db, a: JobAction)
    ensures ApplyJob(db, a).autos == db.autos
  {
    if a.ADeliverJob? {
      DeliverLeavesAutos(db, a.jid, a.worker, a.token, a.mid, a.rid);
    } else {
      hide ClaimFrom, Sweep, ActiveJobs, OwnsFire;
    }
  }

  lemma DeliverLeavesAutos(db: Db, jid: JobId, worker: WorkerId, token: Token, mid: MsgId, rid: RunId)
    ensures DeliverJob(db, jid, worker, token, mid, rid).db.autos == db.autos
  {
    hide Clashes, HasKey, BusyWith, QueuedRun, RunClashes;
  }

  lemma TickSurvivesTick(db: Db, a: TickAction, c: ConvId)
    requires c in db.autos && db.autos[c].tick.Some? && !Clears(db, Ticking(a), c)
    ensures c in ApplyTick(db, a).autos && ApplyTick(db, a).autos[c].tick == db.autos[c].tick
  {
    hide Clashes, HasKey, BusyWith;
  }

  /** Errors, lapses, revocations and every other transaction leave the token in place. */
  lemma TokenSurvives(db: Db, a: Action, c: ConvId)
    requires c in db.autos && db.autos[c].tick.Some? && !Clears(db, a, c)
    ensures c in Apply(db, a).autos && Apply(db, a).autos[c].tick == db.autos[c].tick
  {
    hide ApplyMail, ApplyWork, ApplyJob, ApplyTick;
    match a
    case Mail(m) => TickSurvivesMail(db, m, c);
    case Work(w) => WorkLeavesAutos(db, w);
    case Scheduling(j) => JobLeavesAutos(db, j);
    case Ticking(t) => TickSurvivesTick(db, t, c);
  }

  predicate NeverClears(db: Db, history: seq<Action>, c: ConvId)
    decreases |history|
  {
    history == [] || (!Clears(db, history[0], c) && NeverClears(Apply(db, history[0]), history[1..], c))
  }

  /** Retries see the same token: over any history without an error-free finish or a reconfiguration. */
  lemma {:induction false} TokenSurvivesHistory(db: Db, history: seq<Action>, c: ConvId)
    requires c in db.autos && db.autos[c].tick.Some? && NeverClears(db, history, c)
    ensures c in Exec(db, history).autos && Exec(db, history).autos[c].tick == db.autos[c].tick
    decreases |history|
  {
    hide Apply, Clears;
    if history == [] {
    } else {
      TokenSurvives(db, history[0], c);
      TokenSurvivesHistory(Apply(db, history[0]), history[1..], c);
    }
  }

  // ---------- fencing ----------

  /** A background message is newly appended exactly when its worker holds this very tick and nothing passive is active. */
  lemma AppendNeedsAnIdleConversation(db: Db, user: UserId, conv: ConvId, worker: WorkerId, token: Token, source: string,
                                      content: string, mid: MsgId)
    requires Inv(db)
    ensures AppendAutomation(db, user, conv, worker, token, source, content, mid).db != db <==>
      && OwnsTick(db, conv, worker, token) && db.autos[conv].user == user && db.autos[conv].enabled
      && !BusyWith(db.runs, conv)
      && !HasKey(db.convs[conv].messages, AutomationKey(source, token))
      && mid !in db.messageIds
  {
    hide RunsOk, OneRunning, IndexOk, ConvsOk, AllAnchored, OutputsOk, KeysKnown, JobsOk, HasKey, BusyWith;
    var db' := AppendAutomation(db, user, conv, worker, token, source, content, mid).db;
    if conv in db.convs && db' == Post(db, conv, Draft(mid, AssistantRole, content, Some(AutomationKey(source, token)), AutomationWriter)) {
      assert |db'.convs[conv].messages| == |db.convs[conv].messages| + 1;
    }
  }

  // ---------- fencing over histories ----------

  /** Nobody holds the lease of the conversation's automation. */
  predicate Unowned(autos: map<ConvId, Automation>, c: ConvId) {
    c in autos ==> autos[c].owner.None?
  }

  /** The conversation holds no background message that it did not hold before. */
  ghost predicate NothingBackgroundLands(convs: map<ConvId, Conversation>, convs': map<ConvId, Conversation>, c: ConvId) {
    c in convs' ==> forall i: nat, u: Token :: TickKeyAt(convs'[c], i, u) ==> c in convs && TickKeyAt(convs[c], i, u)
  }

  /** A claim of this conversation's automation that the store grants. */
  predicate GrantsTick(db: Db, a: Action, c: ConvId) {
    a.Ticking? && a.tick.AClaimAuto? && a.tick.conv == c && TickDue(db, c, a.tick.now)
  }

  lemma UnownedStaysInMail(db: Db, a: MailAction, c: ConvId)
    requires Unowned(db.autos, c)
    ensures Unowned(ApplyMail(db, a).autos, c)
  {
    hide SendMessage, Submit, IngestChannel, Clip, ClientKeyOf, PushMessage, DeliverSubagent, OpenConversation;
    match a
    case ASend(user, conv, content, hasFiles, filesFound, rawKey, mid, rid, now) =>
      SendEffect(db, user, conv, content, hasFiles, filesFound, rawKey, mid, rid, now);
      if conv in db.convs {
        SubmitTickKeys(db, user, conv, Draft(mid, UserRole, content, None, ClientWriter), rid, ClientKeyOf(rawKey));
      }
    case AIngest(provider, event, link, content, hasFiles, filesFound, mid, rid) =>
      IngestEffect(db, provider, event, link, content, hasFiles, filesFound, mid, rid);
      if link.Some? && link.value.1 in db.convs {
        SubmitTickKeys(db, link.value.0, link.value.1, Draft(mid, UserRole, content, None, ChannelWriter), rid,
                       Some(ChannelKey(Clip(provider + ":" + event, 120))));
      }
    case _ => WritersLeaveAutos(db, a);
  }

  lemma WritersLeaveAutos(db: Db, a: MailAction)
    requires a.APush? || a.ASubagent? || a.AOpen?
    ensures ApplyMail(db, a).autos == db.autos
  {
    hide Clashes;
  }

  lemma UnownedStaysInTicks(db: Db, a: TickAction, c: ConvId)
    requires Unowned(db.autos, c) && !GrantsTick(db, Ticking(a), c)
    ensures Unowned(ApplyTick(db, a).autos, c)
  {
    hide Clashes, HasKey, BusyWith;
  }

  lemma NobodyAppends(db: Db, a: TickAction, c: ConvId)
    requires Unowned(db.autos, c)
    ensures NothingBackgroundLands(db.convs, ApplyTick(db, a).convs, c)
  {
    if a.AAppendAuto? && a.conv in db.convs {
      PostTickKeys(db, a.conv, Draft(a.mid, AssistantRole, a.content, Some(AutomationKey(a.source, a.token)), AutomationWriter));
    }
    hide Clashes, HasKey, BusyWith, TickKeyAt;
  }

  lemma StaysFenced(db: Db, a: Action, c: ConvId)
    requires Unowned(db.autos, c) && !GrantsTick(db, a, c)
    ensures Unowned(Apply(db, a).autos, c) && NothingBackgroundLands(db.convs, Apply(db, a).convs, c)
  {
    hide ApplyMail, ApplyWork, ApplyJob, ApplyTick, TickKeyAt, TickMove;
    match a
    case Mail(m) =>
      UnownedStaysInMail(db, m, c);
      MailTickMove(db, m);
    case Work(w) =>
      WorkLeavesAutos(db, w);
      WorkTickMove(db, w);
    case Scheduling(j) =>
      JobLeavesAutos(db, j);
      JobTickMove(db, j);
    case Ticking(t) =>
      UnownedStaysInTicks(db, t, c);
      NobodyAppends(db, t, c);
  }

  predicate NeverGrants(db: Db, history: seq<Action>, c: ConvId)
    decreases |history|
  {
    history == [] || (!GrantsTick(db, history[0], c) && NeverGrants(Apply(db, history[0]), history[1..], c))
  }

  lemma {:induction false} StaysFencedThroughout(db: Db, history: seq<Action>, c: ConvId)
    requires Unowned(db.autos, c) && NeverGrants(db, history, c)
    ensures Unowned(Exec(db, history).autos, c) && NothingBackgroundLands(db.convs, Exec(db, history).convs, c)
    decreases |history|
  {
    hide Apply, GrantsTick, TickKeyAt;
    if history != [] {
      StaysFenced(db, history[0], c);
      StaysFencedThroughout(Apply(db, history[0]), history[1..], c);
    }
  }

  lemma SentMessageFences(db: Db, user: UserId, conv: ConvId, content: string, hasFiles: bool, filesFound: bool, rawKey: string,
                          mid: MsgId, rid: RunId, now: Time)
    requires rid !in db.runs
    requires rid in SendMessage(db, user, conv, content, hasFiles, filesFound, rawKey, mid, rid, now).db.runs
    ensures var db' := SendMessage(db, user, conv, content, hasFiles, filesFound, rawKey, mid, rid, now).db;
      BusyWith(db'.runs, conv) && Unowned(db'.autos, conv)
  {
    var db' := SendMessage(db, user, conv, content, hasFiles, filesFound, rawKey, mid, rid, now).db;
    SendEffect(db, user, conv, content, hasFiles, filesFound, rawKey, mid, rid, now);
    hide SendMessage, Clashes, RunClashes, HasKey, ClientKeyOf;
    assert db'.runs[rid].conv == conv && Active(db'.runs[rid].status);
  }

  /**
   A message the user sends revokes whoever works there: through any history behind it
   in which nobody is granted the conversation's automation anew, nobody owns its tick
   and no background message lands in it. A grant needs an idle conversation.
   */
  lemma UserInputFences(db: Db, user: UserId, conv: ConvId, content: string, hasFiles: bool, filesFound: bool, rawKey: string,
                        mid: MsgId, rid: RunId, now: Time, history: seq<Action>)
    requires rid !in db.runs
    requires rid in SendMessage(db, user, conv, content, hasFiles, filesFound, rawKey, mid, rid, now).db.runs
    requires NeverGrants(SendMessage(db, user, conv, content, hasFiles, filesFound, rawKey, mid, rid, now).db, history, conv)
    ensures var sent := SendMessage(db, user, conv, content, hasFiles, filesFound, rawKey, mid, rid, now).db;
      var later := Exec(sent, history);
      && BusyWith(sent.runs, conv)
      && (forall worker, token :: !OwnsTick(later, conv, worker, token))
      && NothingBackgroundLands(sent.convs, later.convs, conv)
  {
    SentMessageFences(db, user, conv, content, hasFiles, filesFound, rawKey, mid, rid, now);
    var sent := SendMessage(db, user, conv, content, hasFiles, filesFound, rawKey, mid, rid, now).db;
    hide SendMessage, NothingBackgroundLands, Exec, NeverGrants, BusyWith;
    StaysFencedThroughout(sent, history, conv);
  }

  /**
   Of all transactions only one lands a background message in a conversation: an append
   by the worker that holds the tick, while no Run of the conversation is queued or running.
   */
  lemma BackgroundLandsOnlyWhenIdle(db: Db, a: Action, c: ConvId)
    requires Inv(db) && !NothingBackgroundLands(db.convs, Apply(db, a).convs, c)
    ensures a.Ticking? && a.tick.AAppendAuto? && a.tick.conv == c
    ensures OwnsTick(db, c, a.tick.worker, a.tick.token) && db.autos[c].enabled && !BusyWith(db.runs, c)
  {
    hide ApplyMail, ApplyWork, ApplyJob, TickKeyAt, TickMove, Inv, BusyWith, OwnsTick, AppendAutomation;
    match a
    case Mail(m) => MailTickMove(db, m);
    case Work(w) => WorkTickMove(db, w);
    case Scheduling(j) => JobTickMove(db, j);
    case Ticking(t) =>
      if t.AAppendAuto? {
        AppendNeedsAnIdleConversation(db, t.user, t.conv, t.worker, t.token, t.source, t.content, t.mid);
        if t.conv != c {
          AppendIsLocal(db, t, c);
        }
      } else {
        LeaseTicksFrom(db, t);
      }
  }

  lemma AppendIsLocal(db: Db, a: TickAction, c: ConvId)
    requires a.AAppendAuto? && a.conv != c
    ensures NothingBackgroundLands(db.convs, ApplyTick(db, a).convs, c)
  {
    hide Clashes, HasKey, BusyWith, OwnsTick, TickKeyAt;
  }

  /** In every state of the history a Run of the conversation is queued or running. */
  predicate AlwaysBusy(db: Db, history: seq<Action>, c: ConvId)
    decreases |history|
  {
    BusyWith(db.runs, c) && (history == [] || AlwaysBusy(Apply(db, history[0]), history[1..], c))
  }

  /** While a Run is queued or running nothing background lands, whoever holds leases meanwhile. */
  lemma {:induction false} PassiveWorkGoesFirst(db: Db, history: seq<Action>, c: ConvId)
    requires Inv(db) && LawfulHistory(db, history) && AlwaysBusy(db, history, c)
    ensures NothingBackgroundLands(db.convs, Exec(db, history).convs, c)
    decreases |history|
  {
    hide Inv, Apply, BusyWith, TickKeyAt;
    if history != [] {
      if !NothingBackgroundLands(db.convs, Apply(db, history[0]).convs, c) {
        BackgroundLandsOnlyWhenIdle(db, history[0], c);
      }
      ActionKeeps(db, history[0]);
      PassiveWorkGoesFirst(Apply(db, history[0]), history[1..], c);
    }
  }
}
