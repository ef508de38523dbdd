/**
 One round of the Run worker (cloud/worker.py, `run_once`) against the store object,
 when nothing else happens in between: claim, renew while the executor works, then
 complete, acknowledge a cancellation, or record a failure. The round is a path of
 the worker machine in `RunWorkers`, and leaves no claimed Run running.
 */
module RunRound {
  import opened Prelude
  import opened RunRow
  import opened StoreSpec
  import opened StoreInvariant
  import opened RunHistory
  import opened RunWorkers
  import opened CloudStoreTables

  lemma {:induction false} OneMoreMove(s: System, moves: seq<Move>, m: Move)
    requires Playable(s, moves) && Possible(Play(s, moves), m)
    ensures Playable(s, moves + [m]) && Play(s, moves + [m]) == Act(Play(s, moves), m)
    decreases |moves|
  {
    hide Possible, Act;
    if moves == [] {
      assert [m][1..] == [] && [] + [m] == [m];
      assert Play(Act(s, m), []) == Act(s, m);
    } else {
      OneMoreMove(Act(s, moves[0]), moves[1..], m);
      assert (moves + [m])[1..] == moves[1..] + [m];
    }
  }

  /** A system with a single worker. */
  function Alone(db: Db, w: WorkerId, pc: Pc): System {
    System(db, map[w := pc])
  }

  lemma Only(db: Db, w: WorkerId, pc: Pc, pc': Pc)
    ensures Alone(db, w, pc).workers[w := pc'] == Alone(db, w, pc').workers
  {
  }

  // ---------- what each move of a lone worker does ----------

  lemma AfterClaim(db: Db, w: WorkerId, rid: RunId, now: Time, lease: int)
    ensures var s, m := Alone(db, w, Idle), Claim(w, rid, now, lease);
      var tx := ClaimRun(db, rid, w, now, lease);
      && Possible(s, m)
      && Act(s, m) == Alone(tx.db, w, if tx.out == Ok(Some(rid)) then Executing(rid, db.runs[rid].attempt + 1) else Idle)
      && tx.out.Ok? && (tx.out.value.Some? ==>
           tx.out.value.value == rid && rid in db.runs && rid in tx.db.runs && Owns(tx.db.runs[rid], w)
           && tx.db.runs[rid].attempt == db.runs[rid].attempt + 1)
  {
    var s, m := Alone(db, w, Idle), Claim(w, rid, now, lease);
    Only(db, w, Idle, NextPc(s, m));
  }

  lemma AfterRenewal(db: Db, w: WorkerId, rid: RunId, attempt: nat, now: Time, lease: int)
    requires rid in db.runs && Owns(db.runs[rid], w)
    ensures var s, m := Alone(db, w, Executing(rid, attempt)), Renew(w, now, lease);
      var tx := HeartbeatRun(db, rid, w, now, lease);
      && Possible(s, m) && tx.out.Ok? && rid in tx.db.runs && Owns(tx.db.runs[rid], w)
      && Act(s, m) == Alone(tx.db, w, if tx.out.value then Cancelling(rid, attempt) else Executing(rid, attempt))
  {
    var s, m := Alone(db, w, Executing(rid, attempt)), Renew(w, now, lease);
    Only(db, w, s.workers[w], NextPc(s, m));
  }

  lemma AfterCompletion(db: Db, w: WorkerId, rid: RunId, attempt: nat, mid: MsgId, content: string, now: Time)
    requires rid in db.runs && Owns(db.runs[rid], w)
    ensures var s, m := Alone(db, w, Executing(rid, attempt)), Finish(w, mid, content, now);
      var tx := CompleteRun(db, rid, w, mid, content, now);
      && Possible(s, m) && rid in tx.db.runs
      && (if tx.out.Ok? then Terminal(tx.db.runs[rid].status) else tx.db == db)
      && Act(s, m) == Alone(tx.db, w, if tx.out.Ok? then Idle else Failing(rid, attempt))
  {
    hide Clashes, Post;
    var s, m := Alone(db, w, Executing(rid, attempt)), Finish(w, mid, content, now);
    Only(db, w, s.workers[w], NextPc(s, m));
  }

  lemma AfterAcknowledgement(db: Db, w: WorkerId, rid: RunId, attempt: nat, now: Time)
    requires rid in db.runs && Owns(db.runs[rid], w)
    ensures var s, m := Alone(db, w, Cancelling(rid, attempt)), AcknowledgeCancel(w, now);
      var tx := CancelOwnedRun(db, rid, w, now);
      && Possible(s, m) && rid in tx.db.runs && tx.db.runs[rid].status.Cancelled?
      && Act(s, m) == Alone(tx.db, w, Idle)
  {
    var s, m := Alone(db, w, Cancelling(rid, attempt)), AcknowledgeCancel(w, now);
    Only(db, w, s.workers[w], NextPc(s, m));
  }

  lemma AfterFailure(db: Db, w: WorkerId, rid: RunId, attempt: nat, error: string, now: Time)
    requires rid in db.runs && Owns(db.runs[rid], w)
    ensures var s, m := Alone(db, w, Failing(rid, attempt)), RecordFailure(w, error, now);
      var tx := FailRun(db, rid, w, error, now);
      && Possible(s, m) && rid in tx.db.runs && Terminal(tx.db.runs[rid].status)
      && Act(s, m) == Alone(tx.db, w, Idle)
  {
    var s, m := Alone(db, w, Failing(rid, attempt)), RecordFailure(w, error, now);
    Only(db, w, s.workers[w], NextPc(s, m));
  }

  lemma AfterRaise(db: Db, w: WorkerId, rid: RunId, attempt: nat, cancelling: bool)
    ensures var s, m := Alone(db, w, if cancelling then Cancelling(rid, attempt) else Executing(rid, attempt)), Raise(w);
      Possible(s, m) && Act(s, m) == Alone(db, w, Failing(rid, attempt))
  {
    var s, m := Alone(db, w, if cancelling then Cancelling(rid, attempt) else Executing(rid, attempt)), Raise(w);
    Only(db, w, s.workers[w], NextPc(s, m));
  }

  // ---------- the round ----------

  /** The error path: what was raised is recorded as the Run's failure. */
  method Fail(store: CloudStore, ghost start: System, ghost past: seq<Move>, w: WorkerId, rid: RunId, ghost attempt: nat,
              error: string, now: Time) returns (ghost moves: seq<Move>)
    requires Playable(start, past) && Play(start, past) == Alone(store.View(), w, Failing(rid, attempt))
    requires rid in store.runs && Owns(store.runs[rid], w)
    modifies store
    ensures Playable(start, moves) && Play(start, moves) == Alone(store.View(), w, Idle)
    ensures rid in store.runs && Terminal(store.runs[rid].status)
  {
    hide Possible, Act, FailRun, Owns;
    AfterFailure(store.View(), w, rid, attempt, error, now);
    OneMoreMove(start, past, RecordFailure(w, error, now));
    var _ := store.FailRun(rid, w, error, now);
    moves := past + [RecordFailure(w, error, now)];
  }

  /** The executor is done: `answer` is its result, or None if it raised. */
  method Conclude(store: CloudStore, ghost start: System, ghost past: seq<Move>, w: WorkerId, rid: RunId, ghost attempt: nat,
                  answer: Option<string>, mid: MsgId, error: string, now: Time) returns (ghost moves: seq<Move>)
    requires Playable(start, past) && Play(start, past) == Alone(store.View(), w, Executing(rid, attempt))
    requires rid in store.runs && Owns(store.runs[rid], w)
    modifies store
    ensures Playable(start, moves) && Play(start, moves) == Alone(store.View(), w, Idle)
    ensures rid in store.runs && Terminal(store.runs[rid].status)
  {
    hide Possible, Act, CompleteRun, Owns;
    if answer.None? {
      AfterRaise(store.View(), w, rid, attempt, false);
      OneMoreMove(start, past, Raise(w));
      moves := Fail(store, start, past + [Raise(w)], w, rid, attempt, error, now);
      return;
    }
    AfterCompletion(store.View(), w, rid, attempt, mid, answer.value, now);
    OneMoreMove(start, past, Finish(w, mid, answer.value, now));
    moves := past + [Finish(w, mid, answer.value, now)];
    var done := store.CompleteRun(rid, w, mid, answer.value, now);
    if done.Err? {
      moves := Fail(store, start, moves, w, rid, attempt, error, now);
    }
  }

  /**
   `run_once`: claim one of the Runs the read half shows, whichever the database picks;
   `beats` are the times of the renewals while the executor works, and `stubborn` tells
   whether it raises an error of its own when it is cancelled. A Run is claimed exactly
   if one is claimable, and the claimed Run has ended when the round returns.
   */
  method RunOnce(store: CloudStore, w: WorkerId, now: Time, lease: int, beats: seq<Time>, answer: Option<string>, mid: MsgId,
                 error: string, later: Time, stubborn: bool) returns (claimed: Option<RunId>, ghost moves: seq<Move>)
    requires SystemOk(Alone(store.View(), w, Idle))
    modifies store
    ensures Playable(Alone(old(store.View()), w, Idle), moves)
    ensures Play(Alone(old(store.View()), w, Idle), moves) == Alone(store.View(), w, Idle)
    ensures SystemOk(Alone(store.View(), w, Idle))
    ensures claimed.Some? <==> old(Claimable(store.View())) != {}
    ensures claimed.Some? ==>
      && claimed.value in old(Claimable(store.View()))
      && claimed.value in store.runs && Terminal(store.runs[claimed.value].status)
    ensures claimed.None? ==> store.View() == old(store.View())
  {
    hide Possible, Act, ClaimRun, HeartbeatRun, CancelOwnedRun, Owns, SystemOk, Claimable;
    ghost var start := Alone(store.View(), w, Idle);
    moves := [];
    var candidates := store.ReadClaimable();
    if candidates == {} {
      return None, [];
    }
    var rid :| rid in candidates;
    CurrentReadClaims(store.View(), rid, w, now, lease);
    AfterClaim(store.View(), w, rid, now, lease);
    OneMoreMove(start, [], Claim(w, rid, now, lease));
    moves := [] + [Claim(w, rid, now, lease)];
    ghost var attempt := store.runs[rid].attempt + 1;
    var _ := store.CommitClaim(rid, w, now, lease);
    var i := 0;
    while i < |beats|
      invariant 0 <= i <= |beats|
      invariant Playable(start, moves) && Play(start, moves) == Alone(store.View(), w, Executing(rid, attempt))
      invariant rid in store.runs && Owns(store.runs[rid], w)
    {
      AfterRenewal(store.View(), w, rid, attempt, beats[i], lease);
      OneMoreMove(start, moves, Renew(w, beats[i], lease));
      moves := moves + [Renew(w, beats[i], lease)];
      var cancel := store.HeartbeatRun(rid, w, beats[i], lease);
      if cancel.value && stubborn {
        AfterRaise(store.View(), w, rid, attempt, true);
        OneMoreMove(start, moves, Raise(w));
        moves := Fail(store, start, moves + [Raise(w)], w, rid, attempt, error, later);
        PlayKeeps(start, moves);
        return Some(rid), moves;
      }
      if cancel.value {
        AfterAcknowledgement(store.View(), w, rid, attempt, later);
        OneMoreMove(start, moves, AcknowledgeCancel(w, later));
        moves := moves + [AcknowledgeCancel(w, later)];
        var _ := store.CancelOwnedRun(rid, w, later);
        PlayKeeps(start, moves);
        return Some(rid), moves;
      }
      i := i + 1;
    }
    moves := Conclude(store, start, moves, w, rid, attempt, answer, mid, error, later);
    PlayKeeps(start, moves);
    return Some(rid), moves;
  }
}
