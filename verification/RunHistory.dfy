/**
 What a Run's row, its journal and its conversation say after any history of
 transactions: cancellation dominates, endings are final, the event stream is a
 faithful journal, and output messages belong to completed Runs one to one.
 */
module RunHistory {
  import opened Prelude
  import opened RunRow
  import opened StoreSpec
  import opened StoreInvariant

  ghost predicate RowsEvolve(runs: map<RunId, Run>, runs': map<RunId, Run>) {
    forall id :: id in runs ==> id in runs' && Evolves(runs[id], runs'[id])
  }

  lemma StepEvolves(db: Db, rid: RunId, s: RowStep)
    requires RunsOk(db.runs) && rid in db.runs && Allowed(db.runs[rid], s)
    ensures RowsEvolve(db.runs, OnRun(db, rid, s).runs)
  {
    StepKeepsRow(db.runs[rid], s);
    hide Step, RowOk;
  }

  lemma RequeueEvolves(db: Db, picked: seq<RunId>, now: Time)
    requires RunsOk(db.runs)
    ensures RowsEvolve(db.runs, RequeueExpired(db, picked, now).runs)
  {
    hide RowOk, Step, ExpireRow, Evolves;
    forall id | id in db.runs
      ensures Evolves(db.runs[id], RequeueExpired(db, picked, now).runs[id])
    {
      if id in picked && Expired(db.runs[id], now) {
        ExpireIsAStep(db.runs[id], now);
        StepKeepsRow(db.runs[id], Expire(now));
      } else {
        EvolvesReflexive(db.runs[id]);
      }
    }
  }

  lemma EvolvesReflexive(r: Run)
    requires RowOk(r)
    ensures Evolves(r, r)
  {
  }

  lemma NothingEvolves(runs: map<RunId, Run>)
    requires RunsOk(runs)
    ensures RowsEvolve(runs, runs)
  {
    hide RowOk, Evolves;
    forall id | id in runs ensures Evolves(runs[id], runs[id]) {
      EvolvesReflexive(runs[id]);
    }
  }

  lemma CompleteEvolves(db: Db, rid: RunId, worker: WorkerId, mid: MsgId, content: string, now: Time)
    requires RunsOk(db.runs)
    ensures RowsEvolve(db.runs, CompleteRun(db, rid, worker, mid, content, now).db.runs)
  {
    NothingEvolves(db.runs);
    hide RowOk, Step, Clashes, Evolves;
    if OwnerError(db, rid, worker).None? {
      StepEvolves(db, rid, Complete(mid, now));
    }
  }

  /** The transactions of the owning worker other than completion. */
  lemma OwnerEvolves(db: Db, a: WorkAction)
    requires RunsOk(db.runs) && (a.AHeartbeat? || a.ACancelOwned? || a.AFail?)
    ensures RowsEvolve(db.runs, ApplyWork(db, a).runs)
  {
    NothingEvolves(db.runs);
    hide OnRun, RunsOk, RowsEvolve;
    if OwnerError(db, a.rid, a.worker).None? {
      StepEvolves(db, a.rid, if a.AHeartbeat? then Heartbeat(a.now, a.lease)
                             else if a.AFail? then Fail(a.content, a.now) else Acknowledge(a.now));
    }
  }

  lemma WorkEvolves(db: Db, a: WorkAction)
    requires RunsOk(db.runs)
    ensures RowsEvolve(db.runs, ApplyWork(db, a).runs)
  {
    NothingEvolves(db.runs);
    hide OnRun, RunsOk, RowsEvolve, CompleteRun, RequeueExpired, HeartbeatRun, CancelOwnedRun, FailRun;
    match a {
      case ARequeue(picked, now) => RequeueEvolves(db, picked, now);
      case AComplete(rid, worker, mid, content, now) => CompleteEvolves(db, rid, worker, mid, content, now);
      case AClaimRun(rid, worker, now, lease) =>
        if rid in db.runs && db.runs[rid].status.Queued? { StepEvolves(db, rid, Start(worker, now, lease)); }
      case ARequestCancel(user, rid, now) =>
        if rid in db.runs { StepEvolves(db, rid, RequestCancel(now)); }
      case ARuntime(rid, name, content) =>
        if rid in db.runs { StepEvolves(db, rid, Note(name, content)); }
      case _ => OwnerEvolves(db, a);
    }
  }

  ghost predicate OnlyAdds(runs: map<RunId, Run>, runs': map<RunId, Run>) {
    forall id :: id in runs ==> id in runs' && runs'[id] == runs[id]
  }

  lemma SubmitAdds(db: Db, user: UserId, conv: ConvId, d: Draft, rid: RunId, key: Option<Key>)
    requires conv in db.convs
    ensures OnlyAdds(db.runs, Submit(db, user, conv, d, rid, key).db.runs)
  {
    hide Clashes, QueuedRun;
  }

  /** The writers that submit Runs only add rows. */
  lemma SendAdds(db: Db, user: UserId, conv: ConvId, content: string, hasFiles: bool, filesFound: bool,
                 rawKey: string, mid: MsgId, rid: RunId, now: Time)
    ensures OnlyAdds(db.runs, SendMessage(db, user, conv, content, hasFiles, filesFound, rawKey, mid, rid, now).db.runs)
  {
    SendEffect(db, user, conv, content, hasFiles, filesFound, rawKey, mid, rid, now);
    hide SendMessage, Submit, ClientKeyOf;
    if conv in db.convs {
      SubmitAdds(db, user, conv, Draft(mid, UserRole, content, None, ClientWriter), rid, ClientKeyOf(rawKey));
    }
  }

  lemma IngestAdds(db: Db, provider: string, event: string, link: Option<(UserId, ConvId)>, content: string,
                   hasFiles: bool, filesFound: bool, mid: MsgId, rid: RunId)
    ensures OnlyAdds(db.runs, IngestChannel(db, provider, event, link, content, hasFiles, filesFound, mid, rid).db.runs)
  {
    IngestEffect(db, provider, event, link, content, hasFiles, filesFound, mid, rid);
    hide Submit, IngestChannel, Clip;
    if link.Some? && link.value.1 in db.convs {
      SubmitAdds(db, link.value.0, link.value.1, Draft(mid, UserRole, content, None, ChannelWriter), rid,
                 Some(ChannelKey(Clip(provider + ":" + event, 120))));
    }
  }

  lemma DeliverAdds(db: Db, jid: JobId, worker: WorkerId, token: Token, mid: MsgId, rid: RunId)
    ensures OnlyAdds(db.runs, DeliverJob(db, jid, worker, token, mid, rid).db.runs)
  {
    hide Submit, Clashes, HasKey, BusyWith;
    if jid in db.jobs && db.jobs[jid].conv in db.convs {
      var job := db.jobs[jid];
      SubmitAdds(db, job.user, job.conv, Draft(mid, UserRole, job.prompt, Some(ScheduleInputKey(jid, token)), ScheduleWriter(jid)),
                 rid, Some(ScheduleKey(jid, token)));
    }
  }

  lemma MailAdds(db: Db, a: MailAction)
    ensures OnlyAdds(db.runs, ApplyMail(db, a).runs)
  {
    hide SendMessage, IngestChannel, Clashes;
    match a
    case ASend(user, conv, content, hasFiles, filesFound, rawKey, mid, rid, now) =>
      SendAdds(db, user, conv, content, hasFiles, filesFound, rawKey, mid, rid, now);
    case AIngest(provider, event, link, content, hasFiles, filesFound, mid, rid) =>
      IngestAdds(db, provider, event, link, content, hasFiles, filesFound, mid, rid);
    case _ =>
  }

  lemma JobAdds(db: Db, a: JobAction)
    ensures OnlyAdds(db.runs, ApplyJob(db, a).runs)
  {
    hide DeliverJob, ClaimFrom, Sweep, ActiveJobs, OwnsFire;
    match a
    case ADeliverJob(jid, worker, token, mid, rid) => DeliverAdds(db, jid, worker, token, mid, rid);
    case _ =>
  }

  lemma TickAdds(db: Db, a: TickAction)
    ensures OnlyAdds(db.runs, ApplyTick(db, a).runs)
  {
    hide ClaimAutomation, HeartbeatAutomation, FinishAutomation, AppendAutomation, Configure;
    match a
    case AAppendAuto(user, conv, worker, token, source, content, mid) =>
      AppendLeavesRuns(db, user, conv, worker, token, source, content, mid);
    case _ => LeasesLeaveRuns(db, a);
  }

  lemma AppendLeavesRuns(db: Db, user: UserId, conv: ConvId, worker: WorkerId, token: Token, source: string,
                         content: string, mid: MsgId)
    ensures AppendAutomation(db, user, conv, worker, token, source, content, mid).db.runs == db.runs
  {
    hide Clashes, HasKey, BusyWith, OwnsTick;
  }

  lemma LeasesLeaveRuns(db: Db, a: TickAction)
    requires !a.AAppendAuto?
    ensures ApplyTick(db, a).runs == db.runs
  {
    hide BusyWith, DisableOthers, OwnsTick, TickDue;
  }

  /** One transaction changes existing rows only in the allowed direction. */
  lemma ActionEvolves(db: Db, a: Action)
    requires Inv(db)
    ensures RowsEvolve(db.runs, Apply(db, a).runs)
  {
    InvRuns(db);
    NothingEvolves(db.runs);
    hide Inv, ApplyMail, ApplyWork, ApplyJob, ApplyTick, RunsOk, Evolves;
    match a
    case Mail(m) => MailAdds(db, m);
    case Work(w) => WorkEvolves(db, w);
    case Scheduling(j) => JobAdds(db, j);
    case Ticking(t) => TickAdds(db, t);
  }

  lemma InvRuns(db: Db)
    requires Inv(db)
    ensures RunsOk(db.runs)
  {
  }

  /** So does every history, whoever takes part in it. */
  lemma {:induction false} HistoryEvolves(db: Db, history: seq<Action>)
    requires Inv(db) && LawfulHistory(db, history)
    ensures RowsEvolve(db.runs, Exec(db, history).runs)
    decreases |history|
  {
    hide Inv, Apply, Evolves;
    if history == [] {
      InvRuns(db);
      NothingEvolves(db.runs);
    } else {
      var db1 := Apply(db, history[0]);
      ActionEvolves(db, history[0]);
      ActionKeeps(db, history[0]);
      HistoryEvolves(db1, history[1..]);
      var db2 := Exec(db1, history[1..]);
      forall id | id in db.runs ensures Evolves(db.runs[id], db2.runs[id]) {
        EvolvesTransitive(db.runs[id], db1.runs[id], db2.runs[id]);
      }
    }
  }

  lemma RunIsSound(db: Db, rid: RunId)
    requires Inv(db) && rid in db.runs
    ensures RowOk(db.runs[rid])
  {
  }

  // ---------- leases ----------

  /**
   In every reachable state a Run is leased exactly while it runs, has an end time
   exactly when it has ended and an output exactly when it completed, and no two
   Runs of a conversation run at once.
   */
  lemma LeasesAreExact(history: seq<Action>)
    requires LawfulHistory(EMPTY_DB, history)
    ensures var runs := Exec(EMPTY_DB, history).runs;
      && (forall id :: id in runs ==>
            && (runs[id].status.Running? <==> runs[id].owner.Some?)
            && (runs[id].owner.Some? <==> runs[id].expires.Some?)
            && (Terminal(runs[id].status) <==> runs[id].completed.Some?)
            && (runs[id].status.Completed? <==> runs[id].output.Some?))
      && (forall a, b | a in runs && b in runs && runs[a].status.Running? && runs[b].status.Running?
            && runs[a].conv == runs[b].conv :: a == b)
  {
    hide Exec, LawfulHistory, Journaled;
    ReachableIsSound(history);
  }

  // ---------- cancellation and endings ----------

  /** A cancellation request on a running Run is recorded whenever its own user asks. */
  lemma CancelIsRecorded(db: Db, user: UserId, rid: RunId, now: Time)
    requires rid in db.runs && db.runs[rid].user == user && db.runs[rid].status.Running?
    ensures var runs := ApplyWork(db, ARequestCancel(user, rid, now)).runs;
      rid in runs && runs[rid].cancelRequested == Some(now) && runs[rid].status.Running?
  {
  }

  /**
   Cancellation dominates: whatever completes, fails, acknowledges, expires or
   restarts afterwards, the Run stays running under the same attempt or ends
   cancelled, and no conversation ever holds an output message of it.
   */
  lemma CancellationDominates(db: Db, history: seq<Action>, rid: RunId)
    requires Inv(db) && LawfulHistory(db, history)
    requires rid in db.runs && db.runs[rid].status.Running? && db.runs[rid].cancelRequested.Some?
    ensures var db' := Exec(db, history);
      && rid in db'.runs
      && (db'.runs[rid].status.Running? || db'.runs[rid].status.Cancelled?)
      && db'.runs[rid].attempt == db.runs[rid].attempt
      && db'.runs[rid].output.None?
      && forall c, i :: c in db'.convs && 0 <= i < |db'.convs[c].messages| ==>
           db'.convs[c].messages[i].draft.writer != OutputOf(rid)
  {
    hide Exec, LawfulHistory, Inv, Journaled;
    HistoryEvolves(db, history);
    HistoryKeeps(db, history);
    RunIsSound(Exec(db, history), rid);
    NoOutputNoMessage(Exec(db, history), rid);
  }

  /**
   The same from the user's side: once a cancellation of a running Run was asked for,
   no history completes it, fails it, queues it again or lets it answer.
   */
  lemma RequestedCancellationDominates(db: Db, user: UserId, rid: RunId, now: Time, history: seq<Action>)
    requires Inv(db) && rid in db.runs && db.runs[rid].user == user && db.runs[rid].status.Running?
    requires LawfulHistory(Apply(db, Work(ARequestCancel(user, rid, now))), history)
    ensures var db' := Exec(Apply(db, Work(ARequestCancel(user, rid, now))), history);
      && rid in db'.runs
      && (db'.runs[rid].status.Running? || db'.runs[rid].status.Cancelled?)
      && db'.runs[rid].output.None?
      && forall c, i :: c in db'.convs && 0 <= i < |db'.convs[c].messages| ==>
           db'.convs[c].messages[i].draft.writer != OutputOf(rid)
  {
    hide Exec, LawfulHistory, Inv;
    var asked := Work(ARequestCancel(user, rid, now));
    CancelIsRecorded(db, user, rid, now);
    ActionKeeps(db, asked);
    assert Apply(db, asked) == ApplyWork(db, asked.work);
    hide Apply, ApplyWork;
    CancellationDominates(Apply(db, asked), history, rid);
  }

  lemma NoOutputNoMessage(db: Db, rid: RunId)
    requires Inv(db) && rid in db.runs && db.runs[rid].output.None?
    ensures forall c, i :: c in db.convs && 0 <= i < |db.convs[c].messages| ==>
      db.convs[c].messages[i].draft.writer != OutputOf(rid)
  {
    hide RunsOk, OneRunning, IndexOk, ConvsOk, AllAnchored, KeysKnown, JobsOk, AutosOk, AutosOwned;
  }

  /** Ended Runs never change again, but for runtime notes appended to their stream. */
  lemma EndingsAreFinal(db: Db, history: seq<Action>, rid: RunId)
    requires Inv(db) && LawfulHistory(db, history) && rid in db.runs && Terminal(db.runs[rid].status)
    ensures rid in Exec(db, history).runs
    ensures Exec(db, history).runs[rid] == db.runs[rid].(log := Exec(db, history).runs[rid].log)
    ensures db.runs[rid].log <= Exec(db, history).runs[rid].log
  {
    hide Exec, LawfulHistory, Inv;
    HistoryEvolves(db, history);
  }

  // ---------- the journal ----------

  /**
   In every reachable state each stream is numbered 1..n, replays to the stored
   status, attempt count, cancel flag and output, and holds one terminal event
   exactly when the Run has ended.
   */
  lemma JournalIsFaithful(history: seq<Action>, rid: RunId)
    requires LawfulHistory(EMPTY_DB, history) && rid in Exec(EMPTY_DB, history).runs
    ensures var r := Exec(EMPTY_DB, history).runs[rid];
      && Numbered(r.log)
      && Replay(r.log) == Live(AccountOf(r))
      && TerminalEvents(r.log) == if Terminal(r.status) then 1 else 0
  {
    hide Exec, LawfulHistory;
    ReachableIsSound(history);
    var db := Exec(EMPTY_DB, history);
    assert RowOk(db.runs[rid]);
    LegalStreamsEndOnce(db.runs[rid].log);
  }

  // ---------- messages and outputs ----------

  ghost predicate OutputAt(c: Conversation, i: nat, rid: RunId) {
    i < |c.messages| && c.messages[i].draft.writer == OutputOf(rid)
  }

  /**
   A Run is completed exactly when its conversation holds an output message of
   it; that message is the only one anywhere, and is numbered after the input.
   */
  lemma OutputsMatchCompletions(db: Db, rid: RunId)
    requires Inv(db) && rid in db.runs
    ensures var r := db.runs[rid];
      && r.conv in db.convs
      && (r.status.Completed? <==> exists i: nat :: OutputAt(db.convs[r.conv], i, rid))
      && (forall c, i: nat :: c in db.convs && OutputAt(db.convs[c], i, rid) ==> c == r.conv)
      && (forall i: nat, j: nat :: OutputAt(db.convs[r.conv], i, rid) && OutputAt(db.convs[r.conv], j, rid) ==> i == j)
      && (forall i: nat, j: nat :: OutputAt(db.convs[r.conv], j, rid) && HasIdAt(db.convs[r.conv], i, r.input) ==>
            db.convs[r.conv].messages[i].number < db.convs[r.conv].messages[j].number)
  {
    hide IndexOk, KeysKnown, JobsOk, AutosOk, AutosOwned, Journaled, OneRunning;
    var r := db.runs[rid];
    var c := db.convs[r.conv];
    RunIsSound(db, rid);
    assert Anchored(c, rid, r);
    assert ConvOk(c);
    var i0: nat :| HasIdAt(c, i0, r.input) && (r.output.Some? ==> OutputAfter(c, i0, rid, r.output.value));
    if r.output.Some? {
      var j0: nat :| i0 < j0 && HasIdAt(c, j0, r.output.value) && c.messages[j0].draft.writer == OutputOf(rid);
      assert OutputAt(c, j0, rid);
    }
  }

  ghost predicate Carries(c: Conversation, n: int) {
    exists i :: 0 <= i < |c.messages| && c.messages[i].number == n
  }

  /** Message numbers are exactly 1..nextNumber-1 in every reachable state, and delivery keys are unique. */
  lemma MessageNumbersAreExact(history: seq<Action>, conv: ConvId)
    requires LawfulHistory(EMPTY_DB, history) && conv in Exec(EMPTY_DB, history).convs
    ensures var c := Exec(EMPTY_DB, history).convs[conv];
      && (forall n :: Carries(c, n) <==> 1 <= n < c.nextNumber)
      && (forall i, j :: 0 <= i < j < |c.messages| ==> c.messages[i].number < c.messages[j].number)
      && (forall i, j :: 0 <= i < j < |c.messages| && c.messages[i].draft.key.Some? ==>
            c.messages[i].draft.key != c.messages[j].draft.key)
  {
    hide Exec, LawfulHistory;
    ReachableIsSound(history);
    var c := Exec(EMPTY_DB, history).convs[conv];
    assert ConvOk(c);
    forall n | 1 <= n < c.nextNumber
      ensures Carries(c, n)
    {
      assert c.messages[n - 1].number == n;
    }
  }

  // ---------- the claim ----------

  /** When nothing intervenes between the read and the commit, a claim succeeds. */
  lemma CurrentReadClaims(db: Db, rid: RunId, worker: WorkerId, now: Time, lease: int)
    requires rid in Claimable(db)
    ensures ClaimRun(db, rid, worker, now, lease).out == Ok(Some(rid))
    ensures Owns(ClaimRun(db, rid, worker, now, lease).db.runs[rid], worker)
  {
  }

  /**
   The read alone does not arbitrate: two Runs of one conversation can both be
   claimable in one snapshot, and starting both would leave two running. The
   second commit is what the index refuses.
   */
  lemma SnapshotReadIsNotEnough(db: Db, first: RunId, second: RunId, w1: WorkerId, w2: WorkerId, now: Time, lease: int)
    requires first in Claimable(db) && second in Claimable(db) && first != second
    requires db.runs[first].conv == db.runs[second].conv
    ensures var db1 := ClaimRun(db, first, w1, now, lease).db;
      && second !in Claimable(db1)
      && ClaimRun(db1, second, w2, now, lease) == Tx(db1, Ok(None))
      && !OneRunning(OnRun(db1, second, Start(w2, now, lease)).runs)
  {
    var db1 := ClaimRun(db, first, w1, now, lease).db;
    assert db1.runs[first].status.Running? && db1.runs[first].conv == db.runs[second].conv;
    assert RunningIn(db1.runs, db1.runs[second].conv);
    var runs := OnRun(db1, second, Start(w2, now, lease)).runs;
    assert runs[first].status.Running? && runs[second].status.Running?;
  }
}
