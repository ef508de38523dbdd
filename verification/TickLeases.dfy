/**
 Leases on automation ticks (cloud/store.py): who gets one, how long it lasts, what the
 user's own message does to it, and what a reconfiguration leaves behind.
 */
module TickLeases {
  import opened Prelude
  import opened RunRow
  import opened StoreSpec
  import opened StoreInvariant
  import opened AutomationTicks
  import Text

  /** Enabled, past its time, leased to nobody whose lease still runs, and without passive work. */
  ghost predicate FreeToTick(db: Db, conv: ConvId, now: Time) {
    && conv in db.autos && db.autos[conv].enabled && db.autos[conv].nextTick <= now
    && (db.autos[conv].expires.Some? ==> db.autos[conv].expires.value <= now)
    && forall id :: id in db.runs && db.runs[id].conv == conv ==> !db.runs[id].status.Queued? && !db.runs[id].status.Running?
  }

  /** A tick is leased exactly when it is free, under its old token if it has one, and nothing else changes. */
  lemma TickIsLeasedIff(db: Db, conv: ConvId, worker: WorkerId, now: Time, lease: int, minted: Token)
    ensures var tx := ClaimAutomation(db, conv, worker, now, lease, minted);
      && tx.out == Ok(FreeToTick(db, conv, now))
      && (!FreeToTick(db, conv, now) ==> tx.db == db)
      && (FreeToTick(db, conv, now) ==>
            var a := db.autos[conv];
            tx.db == db.(issued := db.issued + {minted}, autos := db.autos[conv :=
              a.(owner := Some(OwnerName(worker)), expires := Some(now + (if lease < 10 then 10 else lease) * SECOND),
                 tick := if a.tick.Some? then a.tick else Some(minted))]))
  {
  }

  /** A heartbeat is accepted from the holder under the tick's token, and moves the end of the lease only. */
  lemma HeartbeatLeasesTick(db: Db, conv: ConvId, worker: WorkerId, token: Token, now: Time, lease: int)
    ensures var tx := HeartbeatAutomation(db, conv, worker, token, now, lease);
      var holds := conv in db.autos && db.autos[conv].owner == Some(OwnerName(worker)) && db.autos[conv].tick == Some(token);
      && (tx.out.Ok? <==> holds)
      && tx.db == if holds
                  then db.(autos := db.autos[conv := db.autos[conv].(expires := Some(now + (if lease < 10 then 10 else lease) * SECOND))])
                  else db
  {
  }

  /** A finished tick is given back: its token stays for a retry exactly when there was an error. */
  lemma FinishedTick(db: Db, conv: ConvId, worker: WorkerId, next: Time, error: string)
    ensures var tx := FinishAutomation(db, conv, worker, next, error);
      var holds := conv in db.autos && db.autos[conv].owner == Some(OwnerName(worker));
      && (tx.out.Ok? <==> holds)
      && (!holds ==> tx.db == db)
      && (holds ==>
            var a, a' := db.autos[conv], tx.db.autos[conv];
            && tx.db == db.(autos := db.autos[conv := a'])
            && a'.owner.None? && a'.expires.None? && a'.nextTick == next && a'.tick == (if error == "" then None else a.tick)
            && a'.lastError == (if |error| <= 500 then error else error[..500])
            && a'.enabled == a.enabled && a'.proactive == a.proactive && a'.drift == a.drift && a'.user == a.user)
  {
  }

  /** One automation's lease is revoked, if there is one: it is due at once, and its token stays. */
  ghost predicate Revoked(autos: map<ConvId, Automation>, autos': map<ConvId, Automation>, conv: ConvId, now: Time) {
    && autos'.Keys == autos.Keys
    && (forall c :: c in autos && c != conv ==> autos'[c] == autos[c])
    && (conv in autos && autos[conv].owner.None? ==> autos'[conv] == autos[conv])
    && (conv in autos && autos[conv].owner.Some? ==> autos'[conv] == autos[conv].(owner := None, expires := None, nextTick := now))
  }

  lemma RevokeRevokes(autos: map<ConvId, Automation>, conv: ConvId, now: Time)
    ensures Revoked(autos, Revoke(autos, conv, now), conv, now)
  {
  }

  /** A message the store takes from the user revokes the tick of its conversation; any other answer changes nothing. */
  lemma UserInputRevokes(db: Db, user: UserId, conv: ConvId, content: string, hasFiles: bool, filesFound: bool,
                         rawKey: string, mid: MsgId, rid: RunId, now: Time)
    ensures var db' := SendMessage(db, user, conv, content, hasFiles, filesFound, rawKey, mid, rid, now).db;
      db' == db || Revoked(db.autos, db'.autos, conv, now)
  {
    SendEffect(db, user, conv, content, hasFiles, filesFound, rawKey, mid, rid, now);
    RevokeRevokes(db.autos, conv, now);
    if conv in db.convs {
      SubmitLeavesAutos(db, user, conv, Draft(mid, UserRole, content, None, ClientWriter), rid, ClientKeyOf(rawKey));
    }
    hide SendMessage, Submit, ClientKeyOf, Revoke, Revoked;
  }

  lemma SubmitLeavesAutos(db: Db, user: UserId, conv: ConvId, d: Draft, rid: RunId, key: Option<Key>)
    requires conv in db.convs
    ensures Submit(db, user, conv, d, rid, key).db.autos == db.autos
  {
    hide Clashes, RunClashes, QueuedRun;
  }

  /** A reconfigured automation starts over, and whatever else of the user's was enabled is switched off and loses its token. */
  lemma ConfiguredColumns(db: Db, user: UserId, conv: ConvId, proactive: bool, drift: bool, now: Time)
    requires Inv(db)
    ensures var tx := Configure(db, user, conv, proactive, drift, now);
      && (tx.out.Ok? <==> conv in db.convs && db.convs[conv].user == user)
      && (tx.out.Err? ==> tx.db == db)
      && (tx.out.Ok? ==>
            && tx.db.autos.Keys == db.autos.Keys + {conv}
            && tx.db.autos[conv] == Automation(user, proactive || drift, proactive, drift, now, None, None, None, "")
            && forall c :: c in db.autos && c != conv ==>
                 tx.db.autos[c] ==
                   if db.autos[c].user == user && db.autos[c].enabled && (proactive || drift)
                   then db.autos[c].(enabled := false, proactive := false, drift := false, owner := None, expires := None, tick := None)
                   else db.autos[c])
  {
    assert AutosOwned(db.autos, db.convs);
    hide Inv;
  }

  // ---------- how long a lease lasts ----------

  predicate TickLeasedUntil(a: Automation, w: WorkerId, until: Time) {
    a.owner == Some(OwnerName(w)) && a.expires == Some(until)
  }

  /** No message of the user there, no setting of the user's, nothing more by the holder, and no claim at the end or later. */
  predicate SparesTick(a: Action, c: ConvId, user: UserId, w: WorkerId, until: Time) {
    match a
    case Mail(ASend(_, conv, _, _, _, _, _, _, _)) => conv != c
    case Ticking(AConfigure(u, conv, _, _, _)) => conv != c && u != user
    case Ticking(AClaimAuto(conv, _, now, _, _)) => conv != c || now < until
    case Ticking(AHeartbeatAuto(conv, worker, _, _, _)) => conv != c || OwnerName(worker) != OwnerName(w)
    case Ticking(AFinishAuto(conv, worker, _, _)) => conv != c || OwnerName(worker) != OwnerName(w)
    case _ => true
  }

  predicate AllSpareTick(history: seq<Action>, c: ConvId, user: UserId, w: WorkerId, until: Time) {
    forall i :: 0 <= i < |history| ==> SparesTick(history[i], c, user, w, until)
  }

  lemma SparedByMail(db: Db, a: MailAction, c: ConvId)
    requires c in db.autos && (a.ASend? ==> a.conv != c)
    ensures c in ApplyMail(db, a).autos && ApplyMail(db, a).autos[c] == db.autos[c]
  {
    hide SendMessage, Submit, IngestChannel, Clip, ClientKeyOf, PushMessage, DeliverSubagent, OpenConversation;
    match a
    case ASend(user, conv, content, hasFiles, filesFound, rawKey, mid, rid, now) =>
      UserInputRevokes(db, user, conv, content, hasFiles, filesFound, rawKey, mid, rid, now);
    case AIngest(provider, event, link, content, hasFiles, filesFound, mid, rid) =>
      IngestEffect(db, provider, event, link, content, hasFiles, filesFound, mid, rid);
      if link.Some? && link.value.1 in db.convs {
        SubmitLeavesAutos(db, link.value.0, link.value.1, Draft(mid, UserRole, content, None, ChannelWriter), rid,
                          Some(ChannelKey(Clip(provider + ":" + event, 120))));
      }
    case _ => WritersLeaveAutos(db, a);
  }

  lemma SparedByTicks(db: Db, a: TickAction, c: ConvId, w: WorkerId, until: Time)
    requires c in db.autos && TickLeasedUntil(db.autos[c], w, until) && SparesTick(Ticking(a), c, db.autos[c].user, w, until)
    ensures c in ApplyTick(db, a).autos && ApplyTick(db, a).autos[c] == db.autos[c]
  {
    hide Clashes, HasKey, BusyWith;
  }

  lemma SparedTickStep(db: Db, a: Action, c: ConvId, w: WorkerId, until: Time)
    requires c in db.autos && TickLeasedUntil(db.autos[c], w, until) && SparesTick(a, c, db.autos[c].user, w, until)
    ensures c in Apply(db, a).autos && Apply(db, a).autos[c] == db.autos[c]
  {
    hide ApplyMail, ApplyWork, ApplyJob, ApplyTick;
    match a
    case Mail(m) => SparedByMail(db, m, c);
    case Work(k) => WorkLeavesAutos(db, k);
    case Scheduling(j) => JobLeavesAutos(db, j);
    case Ticking(t) => SparedByTicks(db, t, c, w, until);
  }

  lemma {:induction false} SparedTickHolds(db: Db, history: seq<Action>, c: ConvId, w: WorkerId, until: Time)
    requires c in db.autos && TickLeasedUntil(db.autos[c], w, until) && AllSpareTick(history, c, db.autos[c].user, w, until)
    ensures c in Exec(db, history).autos && Exec(db, history).autos[c] == db.autos[c]
    decreases |history|
  {
    if history != [] {
      assert SparesTick(history[0], c, db.autos[c].user, w, until);
      SparedTickStep(db, history[0], c, w, until);
      hide Apply, SparesTick, TickLeasedUntil;
      SparedTickHolds(Apply(db, history[0]), history[1..], c, w, until);
    }
  }

  /**
   A lease on a tick lasts exactly as long as it was given for: before its end no claim
   gets the tick, from its end on one does as soon as the tick is free in every other way.
   */
  lemma TickLeasesLastExactly(db: Db, history: seq<Action>, c: ConvId, w: WorkerId, until: Time, worker: WorkerId, now: Time,
                              lease: int, minted: Token)
    requires c in db.autos && TickLeasedUntil(db.autos[c], w, until) && AllSpareTick(history, c, db.autos[c].user, w, until)
    ensures var later := Exec(db, history);
      var claimed := ClaimAutomation(later, c, worker, now, lease, minted);
      && c in later.autos && later.autos[c] == db.autos[c]
      && (now < until ==> claimed == Tx(later, Ok(false)))
      && (now >= until ==>
            (claimed.out == Ok(true) <==> db.autos[c].enabled && db.autos[c].nextTick <= now && !BusyWith(later.runs, c)))
  {
    SparedTickHolds(db, history, c, w, until);
    hide Exec, BusyWith;
  }
}
