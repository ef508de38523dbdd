/**
 What conversations say (cloud/store.py): every writer's text is stored as it was given,
 nothing stored is ever lost or moved, and a client or a channel that repeats itself is
 answered with what its first attempt stored, however much has happened since.
 */
module MailContents {
  import opened Prelude
  import opened RunRow
  import opened StoreSpec
  import opened StoreInvariant
  import opened RunHistory
  import opened FireContents
  import Text

  /** The message stands at the end of its conversation, and no other conversation changed. */
  ghost predicate Appended(db: Db, db': Db, conv: ConvId, role: Role, content: string, mid: MsgId) {
    && conv in db.convs && conv in db'.convs && db'.convs.Keys == db.convs.Keys
    && (forall c :: c in db.convs && c != conv ==> db'.convs[c] == db.convs[c])
    && |db'.convs[conv].messages| == |db.convs[conv].messages| + 1
    && db.convs[conv].messages <= db'.convs[conv].messages
    && db'.convs[conv].nextNumber == db.convs[conv].nextNumber + 1
    && var last := db'.convs[conv].messages[|db.convs[conv].messages|];
       last.number == db.convs[conv].nextNumber && last.draft.id == mid && last.draft.role == role && last.draft.content == content
  }

  /** The Run is new, queued on this message, and the only change to the Runs. */
  ghost predicate QueuedOn(db: Db, db': Db, rid: RunId, user: UserId, conv: ConvId, mid: MsgId) {
    && rid !in db.runs && db'.runs.Keys == db.runs.Keys + {rid}
    && (forall id :: id in db.runs ==> db'.runs[id] == db.runs[id])
    && var r := db'.runs[rid];
       r.status.Queued? && r.attempt == 0 && r.user == user && r.conv == conv && r.input == mid && r.cancelRequested.None?
  }

  lemma PostAppends(db: Db, conv: ConvId, d: Draft)
    requires conv in db.convs
    ensures Appended(db, Post(db, conv, d), conv, d.role, d.content, d.id)
  {
  }

  lemma SubmitAppends(db: Db, user: UserId, conv: ConvId, d: Draft, rid: RunId, key: Option<Key>)
    requires conv in db.convs
    ensures var tx := Submit(db, user, conv, d, rid, key);
      && (tx.out.Err? ==> tx.db == db)
      && (tx.out.Ok? ==>
            tx.out.value == (d.id, rid) && Appended(db, tx.db, conv, d.role, d.content, d.id) && QueuedOn(db, tx.db, rid, user, conv, d.id))
  {
    PostAppends(db, conv, d);
    hide Appended, Clashes;
  }

  lemma SameTables(db: Db, db': Db, db'': Db, conv: ConvId, role: Role, content: string, mid: MsgId)
    requires Appended(db, db', conv, role, content, mid) && db''.convs == db'.convs
    ensures Appended(db, db'', conv, role, content, mid)
  {
  }

  // ---------- clients ----------

  /** The texts a client may use as a key: none, or up to 128 visible characters, blanks at the ends apart. */
  predicate GoodKey(raw: string) {
    var key := Text.Strip(raw);
    |key| <= 128 && forall i :: 0 <= i < |key| ==> key[i] > ' '
  }

  lemma GoodKeyIff(raw: string)
    ensures GoodKey(raw) <==> !BadKey(raw)
  {
    var key := Text.Strip(raw);
    hide Text.Strip;
    if !GoodKey(raw) && |key| <= 128 {
      var i :| 0 <= i < |key| && !(key[i] > ' ');
      assert key[i] in key && key[i] < '!';
    }
  }

  /** A key nobody used yet: the message is taken exactly if it says or shows something, to one's own conversation, under a good key. */
  lemma NewMessageIsTakenIff(db: Db, user: UserId, conv: ConvId, content: string, hasFiles: bool, filesFound: bool,
                             rawKey: string, mid: MsgId, rid: RunId, now: Time)
    requires mid !in db.messageIds && rid !in db.runs
    requires Text.Strip(rawKey) != "" ==> (user, ClientKey(Text.Strip(rawKey))) !in db.byKey
    ensures var tx := SendMessage(db, user, conv, content, hasFiles, filesFound, rawKey, mid, rid, now);
      && (tx.out.Ok? <==>
            && (!Text.AllBlank(content) || hasFiles) && (hasFiles ==> filesFound) && GoodKey(rawKey)
            && conv in db.convs && db.convs[conv].user == user)
      && (tx.out.Err? ==> tx.db == db)
      && (tx.out.Ok? ==>
            && tx.out.value == (mid, rid) && Appended(db, tx.db, conv, UserRole, content, mid)
            && QueuedOn(db, tx.db, rid, user, conv, mid))
  {
    Text.StripEmptiesBlanks(content);
    GoodKeyIff(rawKey);
    hide Text.Strip, Text.AllBlank, BadKey, GoodKey, Revoke;
    if conv in db.convs {
      var d := Draft(mid, UserRole, content, None, ClientWriter);
      SubmitAppends(db, user, conv, d, rid, ClientKeyOf(rawKey));
      assert !Clashes(db, conv, d) && !RunClashes(db, rid, user, ClientKeyOf(rawKey));
      var submitted := Submit(db, user, conv, d, rid, ClientKeyOf(rawKey));
      assert submitted.out.Ok?;
      hide Submit, Appended, QueuedOn;
      SameTables(db, submitted.db, submitted.db.(autos := Revoke(submitted.db.autos, conv, now)), conv, UserRole, content, mid);
      assert QueuedOn(db, submitted.db, rid, user, conv, mid);
      SameRuns(db, submitted.db, submitted.db.(autos := Revoke(submitted.db.autos, conv, now)), rid, user, conv, mid);
    }
  }

  lemma SameRuns(db: Db, db': Db, db'': Db, rid: RunId, user: UserId, conv: ConvId, mid: MsgId)
    requires QueuedOn(db, db', rid, user, conv, mid) && db''.runs == db'.runs
    ensures QueuedOn(db, db'', rid, user, conv, mid)
  {
  }

  /** The Run that carries a client's key, and the message it works on. */
  ghost predicate Carries(db: Db, user: UserId, conv: ConvId, key: Key, mid: MsgId, rid: RunId) {
    rid in db.runs && db.runs[rid].user == user && db.runs[rid].conv == conv && db.runs[rid].key == Some(key) && db.runs[rid].input == mid
  }

  /** Whoever was answered for a key is carried by it, first attempt or not. */
  lemma AnsweredIsCarried(db: Db, user: UserId, conv: ConvId, content: string, hasFiles: bool, filesFound: bool,
                          rawKey: string, mid: MsgId, rid: RunId, now: Time)
    requires Inv(db) && Text.Strip(rawKey) != ""
    requires SendMessage(db, user, conv, content, hasFiles, filesFound, rawKey, mid, rid, now).out.Ok?
    ensures var tx := SendMessage(db, user, conv, content, hasFiles, filesFound, rawKey, mid, rid, now);
      Carries(tx.db, user, conv, ClientKey(Text.Strip(rawKey)), tx.out.value.0, tx.out.value.1) && !BadKey(rawKey)
  {
    hide Text.Strip, BadKey, Revoke, Clashes, RowOk, ConvsOk, AllAnchored, OutputsOk, KeysKnown, JobsOk, AutosOk, AutosOwned;
    assert IndexOk(db.runs, db.byKey);
    hide Inv;
  }

  lemma CarriedStays(db: Db, history: seq<Action>, user: UserId, conv: ConvId, key: Key, mid: MsgId, rid: RunId)
    requires Inv(db) && LawfulHistory(db, history) && Carries(db, user, conv, key, mid, rid)
    ensures Carries(Exec(db, history), user, conv, key, mid, rid)
    ensures (user, key) in Exec(db, history).byKey && Exec(db, history).byKey[(user, key)] == rid
  {
    HistoryEvolves(db, history);
    HistoryKeeps(db, history);
    var later := Exec(db, history);
    assert IndexOk(later.runs, later.byKey);
    assert Evolves(db.runs[rid], later.runs[rid]);
    hide Inv, Exec, LawfulHistory, RowOk;
  }

  lemma CarriedIsAnswered(db: Db, user: UserId, conv: ConvId, other: ConvId, content: string, hasFiles: bool, filesFound: bool,
                          rawKey: string, first: (MsgId, RunId), mid: MsgId, rid: RunId, now: Time)
    requires Carries(db, user, conv, ClientKey(Text.Strip(rawKey)), first.0, first.1)
    requires var key := (user, ClientKey(Text.Strip(rawKey))); key in db.byKey && db.byKey[key] == first.1
    requires Text.Strip(rawKey) != "" && !BadKey(rawKey) && (Text.Strip(content) != "" || hasFiles)
    ensures SendMessage(db, user, other, content, hasFiles, filesFound, rawKey, mid, rid, now) ==
      if other == conv then Tx(db, Ok(first)) else Tx(db, Err(Conflict))
  {
    hide Text.Strip, BadKey, Submit, Revoke;
  }

  /**
   Once a keyed message was answered, sending anything under that key again, after any
   history, stores nothing and is answered with the same message and Run; in another
   conversation the key is refused.
   */
  lemma ResendingStoresNothing(db: Db, user: UserId, conv: ConvId, content: string, hasFiles: bool, filesFound: bool,
                               rawKey: string, mid: MsgId, rid: RunId, now: Time, history: seq<Action>, other: ConvId,
                               again: string, withFiles: bool, found: bool, raw: string, mid': MsgId, rid': RunId, now': Time)
    requires Inv(db) && Text.Strip(rawKey) != "" && Text.Strip(raw) == Text.Strip(rawKey)
    requires SendMessage(db, user, conv, content, hasFiles, filesFound, rawKey, mid, rid, now).out.Ok?
    requires LawfulHistory(SendMessage(db, user, conv, content, hasFiles, filesFound, rawKey, mid, rid, now).db, history)
    requires !Text.AllBlank(again) || withFiles
    ensures var first := SendMessage(db, user, conv, content, hasFiles, filesFound, rawKey, mid, rid, now);
      var later := Exec(first.db, history);
      var second := SendMessage(later, user, other, again, withFiles, found, raw, mid', rid', now');
      second.db == later && second.out == (if other == conv then first.out else Err(Conflict))
  {
    hide Inv, Text.Strip, Text.AllBlank, LawfulHistory, Carries, Exec, BadKey;
    var first := SendMessage(db, user, conv, content, hasFiles, filesFound, rawKey, mid, rid, now);
    hide SendMessage;
    SendingKeeps(db, user, conv, content, hasFiles, filesFound, rawKey, mid, rid, now);
    AnsweredIsCarried(db, user, conv, content, hasFiles, filesFound, rawKey, mid, rid, now);
    CarriedOn(first.db, history, user, conv, raw, rawKey, first.out.value, other, again, withFiles, found, mid', rid', now');
  }

  lemma SendingKeeps(db: Db, user: UserId, conv: ConvId, content: string, hasFiles: bool, filesFound: bool,
                     rawKey: string, mid: MsgId, rid: RunId, now: Time)
    requires Inv(db)
    ensures Inv(SendMessage(db, user, conv, content, hasFiles, filesFound, rawKey, mid, rid, now).db)
  {
    hide Inv, SendMessage;
    ActionKeeps(db, Mail(ASend(user, conv, content, hasFiles, filesFound, rawKey, mid, rid, now)));
  }

  lemma CarriedOn(db: Db, history: seq<Action>, user: UserId, conv: ConvId, raw: string, rawKey: string, first: (MsgId, RunId),
                  other: ConvId, again: string, withFiles: bool, found: bool, mid: MsgId, rid: RunId, now: Time)
    requires Inv(db) && LawfulHistory(db, history) && Carries(db, user, conv, ClientKey(Text.Strip(rawKey)), first.0, first.1)
    requires Text.Strip(rawKey) != "" && Text.Strip(raw) == Text.Strip(rawKey) && !BadKey(rawKey)
    requires !Text.AllBlank(again) || withFiles
    ensures SendMessage(Exec(db, history), user, other, again, withFiles, found, raw, mid, rid, now) ==
      if other == conv then Tx(Exec(db, history), Ok(first)) else Tx(Exec(db, history), Err(Conflict))
  {
    Text.StripEmptiesBlanks(again);
    assert BadKey(raw) == BadKey(rawKey) by { hide Text.Strip; }
    hide Inv, Text.Strip, Text.AllBlank, SendMessage, LawfulHistory, Carries, Exec, BadKey;
    CarriedStays(db, history, user, conv, ClientKey(Text.Strip(rawKey)), first.0, first.1);
    CarriedIsAnswered(Exec(db, history), user, conv, other, again, withFiles, found, raw, first, mid, rid, now);
  }

  // ---------- channels ----------

  ghost predicate InboundGrows(db: Db, db': Db) {
    forall e :: e in db.inbound ==> e in db'.inbound && db'.inbound[e] == db.inbound[e]
  }

  lemma SubmitLeavesInbound(db: Db, user: UserId, conv: ConvId, d: Draft, rid: RunId, key: Option<Key>)
    requires conv in db.convs
    ensures Submit(db, user, conv, d, rid, key).db.inbound == db.inbound
  {
    hide Clashes, RunClashes, QueuedRun;
  }

  lemma MailInboundGrows(db: Db, a: MailAction)
    ensures InboundGrows(db, ApplyMail(db, a))
  {
    hide Clashes, BadKey, Text.Strip, Submit, Clip;
    match a
    case ASend(user, conv, content, _, _, rawKey, mid, rid, _) =>
      if conv in db.convs {
        SubmitLeavesInbound(db, user, conv, Draft(mid, UserRole, content, None, ClientWriter), rid, ClientKeyOf(rawKey));
      }
    case AIngest(provider, event, link, content, _, _, mid, rid) =>
      if link.Some? && link.value.1 in db.convs {
        SubmitLeavesInbound(db, link.value.0, link.value.1, Draft(mid, UserRole, content, None, ChannelWriter), rid,
                            Some(ChannelKey(Clip(provider + ":" + event, 120))));
      }
    case _ =>
  }

  lemma WorkLeavesInbound(db: Db, a: WorkAction)
    ensures ApplyWork(db, a).inbound == db.inbound
  {
    hide Step, RunningIn, Clashes;
  }

  lemma JobLeavesInbound(db: Db, a: JobAction)
    ensures ApplyJob(db, a).inbound == db.inbound
  {
    hide Clashes, ClaimFrom, Sweep, ActiveJobs, BusyWith, HasKey, Submit;
    match a
    case ADeliverJob(jid, w, token, mid, rid) =>
      if jid in db.jobs && db.jobs[jid].conv in db.convs {
        var job := db.jobs[jid];
        SubmitLeavesInbound(db, job.user, job.conv,
                            Draft(mid, UserRole, job.prompt, Some(ScheduleInputKey(jid, token)), ScheduleWriter(jid)), rid,
                            Some(ScheduleKey(jid, token)));
      }
    case _ =>
  }

  lemma TickLeavesInbound(db: Db, a: TickAction)
    ensures ApplyTick(db, a).inbound == db.inbound
  {
    hide Clashes, BusyWith, HasKey, DisableOthers;
  }

  lemma ActionInboundGrows(db: Db, a: Action)
    ensures InboundGrows(db, Apply(db, a))
  {
    hide ApplyMail, ApplyWork, ApplyJob, ApplyTick;
    match a
    case Mail(m) => MailInboundGrows(db, m);
    case Work(w) => WorkLeavesInbound(db, w);
    case Scheduling(j) => JobLeavesInbound(db, j);
    case Ticking(t) => TickLeavesInbound(db, t);
  }

  lemma {:induction false} InboundOnlyGrows(db: Db, history: seq<Action>)
    ensures InboundGrows(db, Exec(db, history))
    decreases |history|
  {
    hide Apply;
    if history != [] {
      ActionInboundGrows(db, history[0]);
      InboundOnlyGrows(Apply(db, history[0]), history[1..]);
    }
  }

  /** What a channel brings in for the first time is stored for the linked user, and queued. */
  lemma NewEventIsStored(db: Db, provider: string, event: string, link: Option<(UserId, ConvId)>, content: string,
                         hasFiles: bool, filesFound: bool, mid: MsgId, rid: RunId)
    requires (provider, event) !in db.inbound
    ensures var tx := IngestChannel(db, provider, event, link, content, hasFiles, filesFound, mid, rid);
      && (tx.out.Err? ==> tx.db == db)
      && (tx.out.Ok? ==>
            && tx.out.value == (mid, true) && link.Some? && !Text.AllBlank(content)
            && Appended(db, tx.db, link.value.1, UserRole, content, mid)
            && QueuedOn(db, tx.db, rid, link.value.0, link.value.1, mid)
            && tx.db.inbound == db.inbound[(provider, event) := mid])
  {
    Text.StripEmptiesBlanks(content);
    hide Text.Strip, Text.AllBlank, Clip;
    if link.Some? && link.value.1 in db.convs {
      var d, key := Draft(mid, UserRole, content, None, ChannelWriter), Some(ChannelKey(Clip(provider + ":" + event, 120)));
      SubmitAppends(db, link.value.0, link.value.1, d, rid, key);
      SubmitLeavesInbound(db, link.value.0, link.value.1, d, rid, key);
      hide Submit, Appended, QueuedOn;
      var submitted := Submit(db, link.value.0, link.value.1, d, rid, key);
      if submitted.out.Ok? {
        var marked := submitted.db.(inbound := submitted.db.inbound[(provider, event) := mid]);
        SameTables(db, submitted.db, marked, link.value.1, UserRole, content, mid);
        SameRuns(db, submitted.db, marked, rid, link.value.0, link.value.1, mid);
      }
    }
  }

  /** A channel event that was answered once is answered with the same message ever after, and stores nothing again. */
  lemma EventsArriveOnce(db: Db, provider: string, event: string, link: Option<(UserId, ConvId)>, content: string,
                         hasFiles: bool, filesFound: bool, mid: MsgId, rid: RunId, history: seq<Action>,
                         link': Option<(UserId, ConvId)>, again: string, withFiles: bool, found: bool, mid': MsgId, rid': RunId)
    requires IngestChannel(db, provider, event, link, content, hasFiles, filesFound, mid, rid).out.Ok?
    requires !Text.AllBlank(again)
    ensures var first := IngestChannel(db, provider, event, link, content, hasFiles, filesFound, mid, rid);
      var later := Exec(first.db, history);
      IngestChannel(later, provider, event, link', again, withFiles, found, mid', rid') == Tx(later, Ok((first.out.value.0, false)))
  {
    var first := IngestChannel(db, provider, event, link, content, hasFiles, filesFound, mid, rid);
    if (provider, event) !in db.inbound {
      NewEventIsStored(db, provider, event, link, content, hasFiles, filesFound, mid, rid);
    }
    assert (provider, event) in first.db.inbound && first.db.inbound[(provider, event)] == first.out.value.0;
    InboundOnlyGrows(first.db, history);
    Text.StripEmptiesBlanks(again);
    hide Text.Strip, Text.AllBlank, Submit, Exec, Clip;
  }

  // ---------- the other writers ----------

  /** A push, a background task's result and an automation's message are stored as they were given, as the assistant's. */
  lemma PushedIsStored(db: Db, conv: ConvId, linked: bool, content: string, mid: MsgId, minted: Token)
    ensures var tx := PushMessage(db, conv, linked, content, mid, minted);
      && (tx.out.Err? ==> tx.db == db)
      && (tx.out.Ok? ==> linked && Appended(db, tx.db, conv, AssistantRole, content, mid) && tx.db.runs == db.runs)
  {
    if conv in db.convs {
      var d := Draft(mid, AssistantRole, content, Some(PushKey(minted)), PushWriter);
      PostAppends(db, conv, d);
      hide Appended;
      SameTables(db, Post(db, conv, d), Post(db, conv, d).(issued := db.issued + {minted}), conv, AssistantRole, content, mid);
    }
  }

  lemma AutomationMessageIsStored(db: Db, user: UserId, conv: ConvId, worker: WorkerId, token: Token, source: string,
                                  content: string, mid: MsgId)
    requires conv in db.convs && !HasKey(db.convs[conv].messages, AutomationKey(source, token))
    ensures var tx := AppendAutomation(db, user, conv, worker, token, source, content, mid);
      && (tx.out.Err? ==> tx.db == db)
      && (tx.out.Ok? ==> Appended(db, tx.db, conv, AssistantRole, content, mid)
                         && HasKey(tx.db.convs[conv].messages, AutomationKey(source, token)))
  {
    var d := Draft(mid, AssistantRole, content, Some(AutomationKey(source, token)), AutomationWriter);
    PostAppends(db, conv, d);
    KeyIsThere(db, conv, d);
    hide Appended, HasKey, BusyWith, Post;
  }

  lemma KeyIsThere(db: Db, conv: ConvId, d: Draft)
    requires conv in db.convs && d.key.Some?
    ensures HasKey(Post(db, conv, d).convs[conv].messages, d.key.value)
  {
    assert Post(db, conv, d).convs[conv].messages[|db.convs[conv].messages|].draft == d;
  }

  lemma SubagentResultIsStored(db: Db, subagent: nat, conv: ConvId, content: string, mid: MsgId)
    ensures var tx := DeliverSubagent(db, subagent, conv, content, mid);
      && (tx.out.Err? ==> tx.db == db)
      && (tx.out.Ok? ==> Appended(db, tx.db, conv, AssistantRole, content, mid)
                         && HasKey(tx.db.convs[conv].messages, SubagentKey(subagent)))
  {
    if conv in db.convs {
      var d := Draft(mid, AssistantRole, content, Some(SubagentKey(subagent)), SubagentWriter);
      PostAppends(db, conv, d);
      KeyIsThere(db, conv, d);
      hide Appended, HasKey, Post;
    }
  }

  // ---------- deliveries of fires ----------

  /** The worker holds the lease of the running fire, under its token, in a conversation of the job's user. */
  predicate MayDeliver(db: Db, jid: JobId, worker: WorkerId, token: Token) {
    && jid in db.jobs && db.jobs[jid].status.JobRunning? && db.jobs[jid].token == Some(token)
    && db.jobs[jid].owner == Some(OwnerName(worker))
    && db.jobs[jid].conv in db.convs && db.convs[db.jobs[jid].conv].user == db.jobs[jid].user
  }

  lemma OthersDoNotDeliver(db: Db, jid: JobId, worker: WorkerId, token: Token, mid: MsgId, rid: RunId)
    requires !MayDeliver(db, jid, worker, token)
    ensures var tx := DeliverJob(db, jid, worker, token, mid, rid); tx.out.Err? && tx.db == db
  {
    hide Post, Submit, HasKey, BusyWith;
  }

  /** A fresh fire of an instant job says its message exactly if its conversation has no queued or running Run. */
  lemma InstantFireLandsIff(db: Db, jid: JobId, worker: WorkerId, token: Token, mid: MsgId, rid: RunId)
    requires MayDeliver(db, jid, worker, token) && db.jobs[jid].tier.Instant? && mid !in db.messageIds
    requires !HasKey(db.convs[db.jobs[jid].conv].messages, ScheduleKey(jid, token))
    ensures var tx, job := DeliverJob(db, jid, worker, token, mid, rid), db.jobs[jid];
      if forall id :: id in db.runs && db.runs[id].conv == job.conv ==> !db.runs[id].status.Queued? && !db.runs[id].status.Running?
      then tx.out == Ok(()) && Appended(db, tx.db, job.conv, AssistantRole, job.message, mid) && tx.db.runs == db.runs
      else tx == Tx(db, Err(Busy))
  {
    var job := db.jobs[jid];
    PostAppends(db, job.conv, Draft(mid, AssistantRole, job.message, Some(ScheduleKey(jid, token)), ScheduleWriter(jid)));
    hide Appended, HasKey, Submit;
  }

  /** A fresh fire of a soft job always queues a Run on its prompt, busy or not. */
  lemma SoftFireLands(db: Db, jid: JobId, worker: WorkerId, token: Token, mid: MsgId, rid: RunId)
    requires MayDeliver(db, jid, worker, token) && db.jobs[jid].tier.Soft? && mid !in db.messageIds && rid !in db.runs
    requires (db.jobs[jid].user, ScheduleKey(jid, token)) !in db.byKey
    requires !HasKey(db.convs[db.jobs[jid].conv].messages, ScheduleInputKey(jid, token))
    ensures var tx, job := DeliverJob(db, jid, worker, token, mid, rid), db.jobs[jid];
      && tx.out == Ok(()) && Appended(db, tx.db, job.conv, UserRole, job.prompt, mid)
      && QueuedOn(db, tx.db, rid, job.user, job.conv, mid)
  {
    var job := db.jobs[jid];
    var d := Draft(mid, UserRole, job.prompt, Some(ScheduleInputKey(jid, token)), ScheduleWriter(jid));
    SubmitAppends(db, job.user, job.conv, d, rid, Some(ScheduleKey(jid, token)));
    assert !Clashes(db, job.conv, d) && !RunClashes(db, rid, job.user, Some(ScheduleKey(jid, token)));
    assert Submit(db, job.user, job.conv, d, rid, Some(ScheduleKey(jid, token))).out.Ok? by { hide Post, AddRun, QueuedRun; }
    hide Appended, QueuedOn, HasKey, Submit, BusyWith;
  }

  // ---------- nothing stored is lost ----------

  lemma {:induction false} ConversationsGrow(db: Db, history: seq<Action>)
    requires Inv(db) && FiresSay(db) && LawfulHistory(db, history)
    ensures Grows(db.convs, Exec(db, history).convs)
    decreases |history|
  {
    hide Inv, FiresSay, Apply;
    if history == [] {
      GrowsSelf(db.convs);
    } else {
      var db1 := Apply(db, history[0]);
      ActionKeepsTexts(db, history[0]);
      ActionKeeps(db, history[0]);
      assert Grows(db.convs, db1.convs) by {
        assert MessagesSay(db.convs, db.jobs) by { FiresSayMessages(db); }
        ActionTexts(db, history[0]);
      }
      ConversationsGrow(db1, history[1..]);
    }
  }

  lemma FiresSayMessages(db: Db)
    requires FiresSay(db)
    ensures MessagesSay(db.convs, db.jobs)
  {
  }

  /** From any reachable state on, every message keeps its place, its number and its text. */
  lemma MessagesAreForever(past: seq<Action>, more: seq<Action>, conv: ConvId)
    requires LawfulHistory(EMPTY_DB, past) && LawfulHistory(Exec(EMPTY_DB, past), more) && conv in Exec(EMPTY_DB, past).convs
    ensures var before, after := Exec(EMPTY_DB, past), Exec(Exec(EMPTY_DB, past), more);
      conv in after.convs && before.convs[conv].messages <= after.convs[conv].messages
  {
    hide Exec, LawfulHistory;
    NothingHappened();
    ReachableIsSound([]);
    StartSays();
    HistoryKeepsTexts(EMPTY_DB, past);
    ReachableIsSound(past);
    ConversationsGrow(Exec(EMPTY_DB, past), more);
  }

  /** A background task reports once: after a stored result, no later report of the task lands in that conversation. */
  lemma ResultsArriveOnce(past: seq<Action>, subagent: nat, conv: ConvId, content: string, mid: MsgId, more: seq<Action>,
                          again: string, mid': MsgId)
    requires LawfulHistory(EMPTY_DB, past) && DeliverSubagent(Exec(EMPTY_DB, past), subagent, conv, content, mid).out.Ok?
    requires LawfulHistory(DeliverSubagent(Exec(EMPTY_DB, past), subagent, conv, content, mid).db, more)
    ensures var later := Exec(DeliverSubagent(Exec(EMPTY_DB, past), subagent, conv, content, mid).db, more);
      DeliverSubagent(later, subagent, conv, again, mid') == Tx(later, Err(Integrity))
  {
    var db := Exec(EMPTY_DB, past);
    var a := Mail(ASubagent(subagent, conv, content, mid));
    var db' := DeliverSubagent(db, subagent, conv, content, mid).db;
    assert Apply(db, a) == db' by { hide DeliverSubagent; }
    SubagentResultIsStored(db, subagent, conv, content, mid);
    hide Exec, LawfulHistory, Apply, DeliverSubagent, Appended;
    ReachableIsSound(past);
    NothingHappened();
    ReachableIsSound([]);
    StartSays();
    HistoryKeepsTexts(EMPTY_DB, past);
    ActionKeeps(db, a);
    ActionKeepsTexts(db, a);
    ConversationsGrow(db', more);
    hide Inv, FiresSay, HasKey;
    RefusedAgain(db', Exec(db', more), subagent, conv, again, mid');
  }

  lemma RefusedAgain(db: Db, later: Db, subagent: nat, conv: ConvId, again: string, mid: MsgId)
    requires conv in db.convs && HasKey(db.convs[conv].messages, SubagentKey(subagent)) && Grows(db.convs, later.convs)
    ensures DeliverSubagent(later, subagent, conv, again, mid) == Tx(later, Err(Integrity))
  {
    var i :| 0 <= i < |db.convs[conv].messages| && db.convs[conv].messages[i].draft.key == Some(SubagentKey(subagent));
    assert later.convs[conv].messages[i] == db.convs[conv].messages[i];
  }
}
