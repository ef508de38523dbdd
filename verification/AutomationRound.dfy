/**
 One round of the automation worker (cloud/automation.py, `run_once`) against the
 store object, when nothing else happens in between: claim a tick, let the engine
 hand out messages through the port, finish. It is a history of store transactions,
 and what it leaves behind of the tick token depends on the error alone.
 */
module AutomationRound {
  import opened Prelude
  import opened StoreSpec
  import opened CloudStoreTables

  lemma {:induction false} OneMoreAction(db: Db, history: seq<Action>, a: Action)
    requires LawfulHistory(db, history) && Lawful(Exec(db, history), a)
    ensures LawfulHistory(db, history + [a]) && Exec(db, history + [a]) == Apply(Exec(db, history), a)
    decreases |history|
  {
    hide Apply, Lawful;
    if history == [] {
      assert [a][1..] == [] && [] + [a] == [a];
      assert Exec(Apply(db, a), []) == Apply(db, a);
    } else {
      OneMoreAction(Apply(db, history[0]), history[1..], a);
      assert (history + [a])[1..] == history[1..] + [a];
    }
  }

  /** A message the engine hands to the port, and the identifier it would get. */
  datatype Outbound = Outbound(drift: bool, content: string, mid: MsgId)

  function SourceOf(o: Outbound): string {
    if o.drift then "drift" else "proactive"
  }

  /** The lease columns and the token of one automation. */
  ghost predicate Leased(autos: map<ConvId, Automation>, conv: ConvId, worker: WorkerId, token: Token) {
    conv in autos && autos[conv].owner == Some(Clip(worker, 200)) && autos[conv].tick == Some(token)
  }

  lemma ClaimLeases(db: Db, conv: ConvId, worker: WorkerId, now: Time, lease: int, minted: Token)
    ensures var tx := ClaimAutomation(db, conv, worker, now, lease, minted);
      && tx.out.Ok?
      && (!tx.out.value ==> tx.db == db)
      && (tx.out.value ==>
            && conv in db.autos && conv in tx.db.autos && tx.db.autos[conv].tick.Some?
            && (db.autos[conv].tick.Some? ==> tx.db.autos[conv].tick == db.autos[conv].tick)
            && Leased(tx.db.autos, conv, worker, tx.db.autos[conv].tick.value))
  {
    hide BusyWith;
  }

  lemma AppendKeepsLease(db: Db, user: UserId, conv: ConvId, worker: WorkerId, token: Token, source: string, content: string, mid: MsgId)
    ensures AppendAutomation(db, user, conv, worker, token, source, content, mid).db.autos == db.autos
  {
    hide Clashes, HasKey, BusyWith;
  }

  lemma FinishReleases(db: Db, conv: ConvId, worker: WorkerId, token: Token, next: Time, error: string)
    requires Leased(db.autos, conv, worker, token)
    ensures var tx := FinishAutomation(db, conv, worker, next, error);
      && tx.out.Ok? && conv in tx.db.autos && tx.db.autos[conv].owner.None?
      && tx.db.autos[conv].tick == (if error == "" then None else Some(token))
      && tx.db.autos[conv].nextTick == next
  {
  }

  /** The port: the message goes out under the source its metadata names. */
  method Dispatch(store: CloudStore, user: UserId, conv: ConvId, worker: WorkerId, token: Token, o: Outbound)
    returns (out: Result<bool>)
    modifies store
    ensures var tx := AppendAutomation(old(store.View()), user, conv, worker, token, SourceOf(o), o.content, o.mid);
      store.View() == tx.db && out == if tx.out.Ok? then Ok(true) else Err(tx.out.error)
  {
    var source := if o.drift then "drift" else "proactive";
    var sent := store.AppendAutomationMessage(user, conv, worker, token, source, o.content, o.mid);
    return if sent.Ok? then Ok(true) else Err(sent.error);
  }

  /** The engine's messages one after the other; the first refusal is raised. */
  method ExecuteTick(store: CloudStore, ghost start: Db, ghost past: seq<Action>, user: UserId, conv: ConvId, worker: WorkerId,
                     token: Token, outbound: seq<Outbound>) returns (failed: bool, ghost history: seq<Action>)
    requires LawfulHistory(start, past) && Exec(start, past) == store.View()
    requires Leased(store.autos, conv, worker, token)
    modifies store
    ensures LawfulHistory(start, history) && Exec(start, history) == store.View()
    ensures Leased(store.autos, conv, worker, token)
  {
    hide AppendAutomation, Leased, LawfulHistory, Exec;
    failed, history := false, past;
    var i := 0;
    while i < |outbound| && !failed
      invariant 0 <= i <= |outbound|
      invariant LawfulHistory(start, history) && Exec(start, history) == store.View()
      invariant Leased(store.autos, conv, worker, token)
    {
      var o := outbound[i];
      ghost var a := Ticking(AAppendAuto(user, conv, worker, token, SourceOf(o), o.content, o.mid));
      AppendKeepsLease(store.View(), user, conv, worker, token, SourceOf(o), o.content, o.mid);
      OneMoreAction(start, history, a);
      var sent := Dispatch(store, user, conv, worker, token, o);
      history := history + [a];
      failed := sent.Err?;
      i := i + 1;
    }
  }

  /**
   `run_once`: `fault` is the summary of what the engine raised by itself, `refusal` the
   summary of a refused dispatch. When the round returns, the lease is given back, and
   the token is kept for a retry exactly if there was an error.
   */
  method RunOnce(store: CloudStore, conv: ConvId, worker: WorkerId, now: Time, lease: int, minted: Token, outbound: seq<Outbound>,
                 fault: Option<string>, refusal: string, next: Time, later: Time)
    returns (worked: bool, error: string, ghost history: seq<Action>)
    requires minted !in store.issued && refusal != "" && (fault.Some? ==> fault.value != "")
    modifies store
    ensures LawfulHistory(old(store.View()), history) && Exec(old(store.View()), history) == store.View()
    ensures !worked ==> store.View() == old(store.View())
    ensures fault.Some? && worked ==> error != ""
    ensures worked ==>
      && conv in old(store.autos) && conv in store.autos && store.autos[conv].owner.None?
      && (error == "" ==> store.autos[conv].tick.None? && store.autos[conv].nextTick == next)
      && (error != "" ==> store.autos[conv].tick.Some? && store.autos[conv].nextTick == later)
      && (error != "" && old(store.autos)[conv].tick.Some? ==> store.autos[conv].tick == old(store.autos)[conv].tick)
  {
    hide ClaimAutomation, StoreSpec.FinishAutomation, AppendAutomation, Leased, LawfulHistory, Exec;
    error := "";
    ghost var start := store.View();
    ClaimLeases(start, conv, worker, now, lease, minted);
    ghost var claim := Ticking(AClaimAuto(conv, worker, now, lease, minted));
    NothingYet(start);
    OneMoreAction(start, [], claim);
    var claimed := store.ClaimNextAutomation(conv, worker, now, lease, minted);
    history := [] + [claim];
    if !claimed.value {
      return false, "", history;
    }
    var automation := store.autos[conv];
    var token := automation.tick.value;
    var failed;
    failed, history := ExecuteTick(store, start, history, automation.user, conv, worker, token, outbound);
    if failed {
      error := refusal;
    } else if fault.Some? {
      error := fault.value;
    }
    var at := if error == "" then next else later;
    FinishReleases(store.View(), conv, worker, token, at, error);
    OneMoreAction(start, history, Ticking(AFinishAuto(conv, worker, at, error)));
    var _ := store.FinishAutomation(conv, worker, at, error);
    history := history + [Ticking(AFinishAuto(conv, worker, at, error))];
    return true, error, history;
  }

  lemma NothingYet(db: Db)
    ensures LawfulHistory(db, []) && Exec(db, []) == db
  {
  }
}
