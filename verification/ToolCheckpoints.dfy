/**
 Tool checkpoints (cloud/tool_checkpoints.py over cloud/store.py): one durable row
 per (Run, iteration, call index) fences the tool body against retries and against
 attempts that are still running somewhere after their lease was taken away. The
 checkpoint hook is the first of a chain (agent/tool_hooks/__init__.py): hooks behind
 it may rewrite the arguments, add messages, or stop the call, and errors of hooks
 after the body are swallowed. What that costs is stated exactly below.
 */
module ToolCheckpoints {
  import opened Prelude

  /** What the signature hashes: tool and canonical argument text. Hashing is taken as injective. */
  datatype Signature = Signature(tool: string, arguments: string)

  datatype Slot = Slot(run: RunId, iteration: nat, index: nat)

  /** How a call ends for the model. Only successes and failures can be recorded. */
  datatype Outcome = Success(output: string) | Failure(output: string) | Denied(output: string)

  datatype Checkpoint = Started(signature: Signature) | Finished(signature: Signature, outcome: Outcome)

  type Table = map<Slot, Checkpoint>

  datatype Answer = New | Replay(outcome: Outcome) | Ambiguous | Diverged

  /** A negative iteration or call index counts as zero. */
  function SlotOf(run: RunId, iteration: int, index: int): Slot {
    Slot(run, Max(0, iteration), Max(0, index))
  }

  function Begin(rows: Table, slot: Slot, sig: Signature): (Table, Answer) {
    if slot !in rows then (rows[slot := Started(sig)], New)
    else if rows[slot].signature != sig then (rows, Diverged)
    else if rows[slot].Started? then (rows, Ambiguous)
    else (rows, Replay(rows[slot].outcome))
  }

  function Finish(rows: Table, slot: Slot, sig: Signature, outcome: Outcome): Result<Table> {
    if outcome.Denied? then Err(Invalid)
    else if slot !in rows || rows[slot].signature != sig then Err(NotOwner)
    else Ok(rows[slot := Finished(sig, outcome)])
  }

  // ---------- the store and the hook ----------

  class CheckpointStore {
    var runs: set<RunId>
    var rows: Table

    constructor (known: set<RunId>)
      ensures runs == known && rows == map[]
    {
      runs, rows := known, map[];
    }

    method BeginToolCheckpoint(run: RunId, iteration: int, index: int, sig: Signature) returns (out: Result<Answer>)
      modifies this`rows
      ensures out.Err? <==> run !in runs
      ensures out.Err? ==> out.error == NotFound && rows == old(rows)
      ensures out.Ok? ==> (rows, out.value) == Begin(old(rows), SlotOf(run, iteration, index), sig)
    {
      if run !in runs {
        return Err(NotFound);
      }
      var slot := SlotOf(run, iteration, index);
      if slot !in rows {
        rows := rows[slot := Started(sig)];
        return Ok(New);
      }
      var checkpoint := rows[slot];
      if checkpoint.signature != sig {
        return Ok(Diverged);
      }
      if checkpoint.Started? {
        return Ok(Ambiguous);
      }
      return Ok(Replay(checkpoint.outcome));
    }

    method FinishToolCheckpoint(run: RunId, iteration: int, index: int, sig: Signature, outcome: Outcome) returns (out: Result<()>)
      modifies this`rows
      ensures var spec := Finish(old(rows), SlotOf(run, iteration, index), sig, outcome);
        if spec.Ok? then out == Ok(()) && rows == spec.value else out == Err(spec.error) && rows == old(rows)
    {
      if outcome.Denied? {
        return Err(Invalid);
      }
      var slot := SlotOf(run, iteration, index);
      if slot !in rows || rows[slot].signature != sig {
        return Err(NotOwner);
      }
      rows := rows[slot := Finished(rows[slot].signature, outcome)];
      return Ok(());
    }
  }

  /** What the hook tells the tool loop before a call. */
  datatype Decision = Proceed | UseRecorded(outcome: Outcome) | Abort

  function Decide(a: Answer): Decision {
    match a
    case New => Proceed
    case Replay(outcome) => UseRecorded(outcome)
    case _ => Abort
  }

  /** The hook before a call: the body may run only on Proceed. */
  method PreToolUse(store: CheckpointStore, run: RunId, iteration: int, index: int, tool: string, arguments: string)
    returns (out: Result<Decision>)
    modifies store`rows
    ensures out.Err? <==> run !in store.runs
    ensures out == Ok(Proceed) <==> run in store.runs && SlotOf(run, iteration, index) !in old(store.rows)
    ensures forall outcome :: out == Ok(UseRecorded(outcome)) <==>
      && run in store.runs && SlotOf(run, iteration, index) in old(store.rows)
      && old(store.rows)[SlotOf(run, iteration, index)] == Finished(Signature(tool, arguments), outcome)
    ensures out.Ok? ==>
      && store.rows == Begin(old(store.rows), SlotOf(run, iteration, index), Signature(tool, arguments)).0
      && out.value == Decide(Begin(old(store.rows), SlotOf(run, iteration, index), Signature(tool, arguments)).1)
  {
    var answer := store.BeginToolCheckpoint(run, iteration, index, Signature(tool, arguments));
    if answer.Err? {
      return Err(answer.error);
    }
    return Ok(Decide(answer.value));
  }

  /**
   The hook after a call, with the arguments the body ran with: what the body produced
   becomes the recorded outcome, or, under another signature, nothing is recorded.
   */
  method PostToolUse(store: CheckpointStore, run: RunId, iteration: int, index: int, tool: string, arguments: string,
                     succeeded: bool, result: string) returns (out: Result<()>)
    modifies store`rows
    ensures var slot, outcome := SlotOf(run, iteration, index), if succeeded then Success(result) else Failure(result);
      var spec := Finish(old(store.rows), slot, Signature(tool, arguments), outcome);
      && (out.Ok? <==> slot in old(store.rows) && old(store.rows)[slot].signature == Signature(tool, arguments))
      && (out.Ok? ==> store.rows == spec.value && Begin(store.rows, slot, Signature(tool, arguments)).1 == Replay(outcome))
      && (out.Err? ==> store.rows == old(store.rows))
  {
    out := store.FinishToolCheckpoint(run, iteration, index, Signature(tool, arguments),
                                      if succeeded then Success(result) else Failure(result));
  }

  // ---------- attempts ----------

  datatype Call = Call(iteration: int, index: int, signature: Signature)

  /** A call and what the model was shown for it. */
  datatype Entry = Entry(call: Call, outcome: Outcome)

  /**
   Where an attempt stands with its present call: granted by the checkpoint and on its
   way through later hooks, with the arguments and messages they left; the body run;
   the checkpoint's post hook run. `Gone` covers crashes and aborts.
   */
  datatype Pc =
    | Thinking
    | Granted(call: Call, arguments: string, extra: seq<string>)
    | Ran(call: Call, arguments: string, extra: seq<string>, outcome: Outcome)
    | Settled(call: Call, arguments: string, extra: seq<string>, outcome: Outcome, recorded: bool)
    | Gone

  /**
   How an entry came about: from the record; by the body, under these arguments, with
   these messages added by hooks; by a later hook that stopped the granted call; or
   because the checkpoint's own pre hook raised, so that the slot was never asked for.
   */
  datatype How =
    | Replayed
    | Performed(arguments: string, extra: seq<string>, outcome: Outcome, recorded: bool)
    | Intercepted
    | Unasked

  /** One attempt at a Run: what its model has seen, how it came about, and where it stands. */
  datatype Attempt = Attempt(run: RunId, transcript: seq<Entry>, hows: seq<How>, pc: Pc)

  datatype Execution = Execution(slot: Slot, signature: Signature, outcome: Outcome)

  /**
   `bodies` records every time a tool body ran, in order; `grants` which attempt, at
   which entry of its transcript, was answered "new" for a slot. Both are history only.
   */
  datatype World = World(rows: Table, attempts: map<nat, Attempt>, bodies: seq<Execution>, grants: map<Slot, (nat, nat)>)

  /** What each attempt asks for next, given what it has seen; attempts may disagree. */
  type Brain = (nat, seq<Entry>) -> Call

  datatype Step =
    | Arrive(a: nat, run: RunId)
    | Ask(a: nat)
    | AskRaises(a: nat, error: string)
    | PassHook(a: nat, arguments: string, extra: seq<string>)
    | Intercept(a: nat, outcome: Outcome)
    | Execute(a: nat, outcome: Outcome)
    | Record(a: nat, reached: bool)
    | Return(a: nat, extra: seq<string>)
    | Vanish(a: nat)

  function Place(run: RunId, c: Call): Slot {
    SlotOf(run, c.iteration, c.index)
  }

  function JoinLines(lines: seq<string>): string {
    if lines == [] then "" else if |lines| == 1 then lines[0] else JoinLines(lines[..|lines| - 1]) + "\n" + lines[|lines| - 1]
  }

  /** Messages of hooks are appended to what the model is shown, not to what is recorded. */
  function WithExtra(o: Outcome, extra: seq<string>): Outcome {
    if extra == [] then o
    else o.(output := o.output + "\n\n" + JoinLines(extra))
  }

  lemma ExtraShows(o: Outcome, extra: seq<string>)
    ensures WithExtra(o, extra) == o <==> extra == []
  {
    if extra != [] {
      assert |WithExtra(o, extra).output| > |o.output|;
    }
  }

  predicate Enabled(w: World, s: Step) {
    match s
    case Arrive(a, _) => a !in w.attempts
    case Vanish(a) => a in w.attempts
    case _ =>
      s.a in w.attempts &&
      var pc := w.attempts[s.a].pc;
      match s
      case Ask(_) => pc.Thinking?
      case AskRaises(_, _) => pc.Thinking?
      case PassHook(_, _, _) => pc.Granted?
      case Intercept(_, _) => pc.Granted?
      case Execute(_, outcome) => pc.Granted? && !outcome.Denied?
      case Record(_, _) => pc.Ran?
      case Return(_, _) => pc.Settled?
      case _ => true
  }

  function Told(me: Attempt, call: Call, outcome: Outcome, how: How): Attempt {
    me.(transcript := me.transcript + [Entry(call, outcome)], hows := me.hows + [how], pc := Thinking)
  }

  function TakeAsk(w: World, a: nat, call: Call): World
    requires a in w.attempts
  {
    var me := w.attempts[a];
    var slot := Place(me.run, call);
    var began := Begin(w.rows, slot, call.signature);
    match began.1
    case New =>
      World(began.0, w.attempts[a := me.(pc := Granted(call, call.signature.arguments, []))], w.bodies,
            w.grants[slot := (a, |me.transcript|)])
    case Replay(outcome) => w.(attempts := w.attempts[a := Told(me, call, outcome, Replayed)])
    case _ => w.(attempts := w.attempts[a := me.(pc := Gone)])
  }

  /** The signature the body of a granted call runs under. */
  function Actual(pc: Pc): Signature
    requires pc.Granted? || pc.Ran? || pc.Settled?
  {
    Signature(pc.call.signature.tool, pc.arguments)
  }

  function TakeExecute(w: World, a: nat, outcome: Outcome): World
    requires a in w.attempts && w.attempts[a].pc.Granted?
  {
    var me := w.attempts[a];
    w.(attempts := w.attempts[a := me.(pc := Ran(me.pc.call, me.pc.arguments, me.pc.extra, outcome))],
       bodies := w.bodies + [Execution(Place(me.run, me.pc.call), Actual(me.pc), outcome)])
  }

  /** `reached` tells whether the store could be reached at all; any refusal is swallowed by the executor. */
  function TakeRecord(w: World, a: nat, reached: bool): World
    requires a in w.attempts && w.attempts[a].pc.Ran?
  {
    var me := w.attempts[a];
    var finished := Finish(w.rows, Place(me.run, me.pc.call), Actual(me.pc), me.pc.outcome);
    var recorded := reached && finished.Ok?;
    w.(rows := if recorded then finished.value else w.rows,
       attempts := w.attempts[a := me.(pc := Settled(me.pc.call, me.pc.arguments, me.pc.extra, me.pc.outcome, recorded))])
  }

  function TakeReturn(w: World, a: nat, extra: seq<string>): World
    requires a in w.attempts && w.attempts[a].pc.Settled?
  {
    var me := w.attempts[a];
    var all := me.pc.extra + extra;
    w.(attempts := w.attempts[a := Told(me, me.pc.call, WithExtra(me.pc.outcome, all),
                                        Performed(me.pc.arguments, all, me.pc.outcome, me.pc.recorded))])
  }

  function Take(w: World, s: Step, brain: Brain): World
    requires Enabled(w, s)
  {
    match s
    case Arrive(a, run) => w.(attempts := w.attempts[a := Attempt(run, [], [], Thinking)])
    case Ask(a) => TakeAsk(w, a, brain(a, w.attempts[a].transcript))
    case AskRaises(a, error) =>
      var me := w.attempts[a];
      w.(attempts := w.attempts[a := Told(me, brain(a, me.transcript), Failure(error), Unasked)])
    case PassHook(a, arguments, extra) =>
      var me := w.attempts[a];
      w.(attempts := w.attempts[a := me.(pc := Granted(me.pc.call, arguments, me.pc.extra + extra))])
    case Intercept(a, outcome) =>
      var me := w.attempts[a];
      w.(attempts := w.attempts[a := Told(me, me.pc.call, WithExtra(outcome, me.pc.extra), Intercepted)])
    case Execute(a, outcome) => TakeExecute(w, a, outcome)
    case Record(a, reached) => TakeRecord(w, a, reached)
    case Return(a, extra) => TakeReturn(w, a, extra)
    case Vanish(a) => w.(attempts := w.attempts[a := w.attempts[a].(pc := Gone)])
  }

  predicate Runs(w: World, steps: seq<Step>, brain: Brain)
    decreases |steps|
  {
    steps == [] || (Enabled(w, steps[0]) && Runs(Take(w, steps[0], brain), steps[1..], brain))
  }

  function Final(w: World, steps: seq<Step>, brain: Brain): World
    requires Runs(w, steps, brain)
    decreases |steps|
  {
    if steps == [] then w else Final(Take(w, steps[0], brain), steps[1..], brain)
  }

  const FRESH_WORLD: World := World(map[], map[], [], map[])

  // ---------- the invariant ----------

  predicate HasRun(bodies: seq<Execution>, slot: Slot) {
    exists i :: 0 <= i < |bodies| && bodies[i].slot == slot
  }

  ghost predicate AtMostOnce(bodies: seq<Execution>) {
    forall i, j :: 0 <= i < j < |bodies| ==> bodies[i].slot != bodies[j].slot
  }

  /** Bodies ran only at slots with a row, and a finished row carries what the one execution of its slot produced. */
  ghost predicate RowsTruthful(rows: Table, bodies: seq<Execution>) {
    && (forall i :: 0 <= i < |bodies| ==> bodies[i].slot in rows)
    && (forall s :: s in rows && rows[s].Finished? ==> Execution(s, rows[s].signature, rows[s].outcome) in bodies)
  }

  ghost predicate Owned(w: World, slot: Slot, a: nat, i: nat) {
    slot in w.rows && slot in w.grants && w.grants[slot] == (a, i)
  }

  /** The row of a slot whose grantee's outcome was recorded, or not. */
  function RowAfter(sig: Signature, outcome: Outcome, recorded: bool): Checkpoint {
    if recorded then Finished(sig, outcome) else Started(sig)
  }

  ghost predicate EntryOk(w: World, a: nat, i: nat, slot: Slot, e: Entry, how: How) {
    match how
    case Replayed => slot in w.rows && w.rows[slot] == Finished(e.call.signature, e.outcome)
    case Performed(arguments, extra, outcome, recorded) =>
      && Owned(w, slot, a, i) && w.rows[slot] == RowAfter(e.call.signature, outcome, recorded)
      && e.outcome == WithExtra(outcome, extra)
      && Execution(slot, Signature(e.call.signature.tool, arguments), outcome) in w.bodies
      && (recorded ==> arguments == e.call.signature.arguments)
    case Intercepted => Owned(w, slot, a, i) && w.rows[slot] == Started(e.call.signature) && !HasRun(w.bodies, slot)
    case Unasked => true
  }

  ghost predicate EntriesOk(w: World, a: nat, me: Attempt) {
    && |me.hows| == |me.transcript|
    && forall i :: 0 <= i < |me.transcript| ==>
         EntryOk(w, a, i, Place(me.run, me.transcript[i].call), me.transcript[i], me.hows[i])
  }

  ghost predicate PcOk(w: World, a: nat, me: Attempt) {
    me.pc.Granted? || me.pc.Ran? || me.pc.Settled? ==>
      var slot := Place(me.run, me.pc.call);
      && Owned(w, slot, a, |me.transcript|)
      && w.rows[slot] == (if me.pc.Settled? then RowAfter(me.pc.call.signature, me.pc.outcome, me.pc.recorded)
                          else Started(me.pc.call.signature))
      && (if me.pc.Granted? then !HasRun(w.bodies, slot) else Execution(slot, Actual(me.pc), me.pc.outcome) in w.bodies)
      && (me.pc.Ran? ==> !me.pc.outcome.Denied?)
      && (me.pc.Settled? && me.pc.recorded ==> me.pc.arguments == me.pc.call.signature.arguments)
  }

  ghost predicate WorldOk(w: World) {
    && AtMostOnce(w.bodies)
    && RowsTruthful(w.rows, w.bodies)
    && (forall a :: a in w.attempts ==> EntriesOk(w, a, w.attempts[a]) && PcOk(w, a, w.attempts[a]))
  }

  // ---------- steps keep it ----------

  /** Two worlds agree everywhere but at one slot. */
  ghost predicate OnlyAt(w: World, w': World, slot: Slot) {
    && (forall x :: x != slot ==> (x in w.rows <==> x in w'.rows) && (x in w.grants <==> x in w'.grants))
    && (forall x :: x != slot && x in w.rows ==> w'.rows[x] == w.rows[x])
    && (forall x :: x != slot && x in w.grants ==> w'.grants[x] == w.grants[x])
    && (forall x :: x != slot ==> (HasRun(w.bodies, x) <==> HasRun(w'.bodies, x)))
    && (forall e :: e in w.bodies ==> e in w'.bodies)
  }

  /** Entries do not depend on a slot nobody was granted, nor on one that is granted to a later entry and unfinished. */
  ghost predicate NoEntryAt(w: World, slot: Slot, a: nat, length: nat) {
    slot !in w.rows || (w.rows[slot].Started? && slot in w.grants && (w.grants[slot].0 != a || w.grants[slot].1 == length))
  }

  lemma EntriesStay(w: World, w': World, slot: Slot, a: nat, me: Attempt)
    requires EntriesOk(w, a, me) && OnlyAt(w, w', slot) && NoEntryAt(w, slot, a, |me.transcript|)
    ensures EntriesOk(w', a, me)
  {
    forall i | 0 <= i < |me.transcript|
      ensures EntryOk(w', a, i, Place(me.run, me.transcript[i].call), me.transcript[i], me.hows[i])
    {
      EntryStays(w, w', slot, a, i, Place(me.run, me.transcript[i].call), me.transcript[i], me.hows[i], |me.transcript|);
    }
    hide EntryOk;
  }

  lemma EntryStays(w: World, w': World, slot: Slot, a: nat, i: nat, at: Slot, e: Entry, how: How, length: nat)
    requires EntryOk(w, a, i, at, e, how) && i < length && OnlyAt(w, w', slot) && NoEntryAt(w, slot, a, length)
    ensures EntryOk(w', a, i, at, e, how)
  {
    assert at == slot ==> how.Unasked?;
    hide HasRun, WithExtra;
  }

  lemma PcStays(w: World, w': World, slot: Slot, a: nat, me: Attempt)
    requires PcOk(w, a, me) && OnlyAt(w, w', slot)
    requires slot !in w.rows || (slot in w.grants && w.grants[slot].0 != a)
    ensures PcOk(w', a, me)
  {
    hide HasRun;
  }

  /** A step of one attempt at one slot keeps all the others. */
  lemma OthersStay(w: World, w': World, slot: Slot, a: nat)
    requires WorldOk(w) && OnlyAt(w, w', slot)
    requires slot !in w.rows || (w.rows[slot].Started? && slot in w.grants && w.grants[slot].0 == a)
    ensures forall b :: b in w.attempts && b != a ==> EntriesOk(w', b, w.attempts[b]) && PcOk(w', b, w.attempts[b])
  {
    forall b | b in w.attempts && b != a ensures EntriesOk(w', b, w.attempts[b]) && PcOk(w', b, w.attempts[b]) {
      EntriesStay(w, w', slot, b, w.attempts[b]);
      PcStays(w, w', slot, b, w.attempts[b]);
    }
  }

  /** A step that changes only the mover keeps everybody else. */
  lemma MoverOnly(w: World, a: nat, me: Attempt)
    requires WorldOk(w) && (a in w.attempts || me.transcript == [])
    requires var w' := w.(attempts := w.attempts[a := me]); EntriesOk(w', a, me) && PcOk(w', a, me)
    ensures WorldOk(w.(attempts := w.attempts[a := me]))
  {
    var w' := w.(attempts := w.attempts[a := me]);
    forall b | b in w'.attempts ensures EntriesOk(w', b, w'.attempts[b]) && PcOk(w', b, w'.attempts[b]) {
      if b != a {
        SameStore(w, w', b, w.attempts[b]);
      }
    }
    hide EntriesOk, PcOk;
  }

  lemma SameStore(w: World, w': World, b: nat, me: Attempt)
    requires w'.rows == w.rows && w'.bodies == w.bodies && w'.grants == w.grants
    ensures EntriesOk(w, b, me) ==> EntriesOk(w', b, me)
    ensures PcOk(w, b, me) ==> PcOk(w', b, me)
  {
    hide HasRun;
  }

  /** One more entry, and the attempt thinks again. */
  lemma ToldKeeps(w: World, a: nat, call: Call, outcome: Outcome, how: How)
    requires WorldOk(w) && a in w.attempts
    requires EntryOk(w, a, |w.attempts[a].transcript|, Place(w.attempts[a].run, call), Entry(call, outcome), how)
    ensures WorldOk(w.(attempts := w.attempts[a := Told(w.attempts[a], call, outcome, how)]))
  {
    var me := w.attempts[a];
    var told := Told(me, call, outcome, how);
    var w' := w.(attempts := w.attempts[a := told]);
    assert EntriesOk(w, a, me);
    forall i | 0 <= i < |told.transcript|
      ensures EntryOk(w', a, i, Place(told.run, told.transcript[i].call), told.transcript[i], told.hows[i])
    {
      SameEntry(w, w', a, i, Place(told.run, told.transcript[i].call), told.transcript[i], told.hows[i]);
      if i < |me.transcript| {
        assert told.transcript[i] == me.transcript[i] && told.hows[i] == me.hows[i];
      }
    }
    hide EntryOk;
    MoverOnly(w, a, told);
  }

  lemma SameEntry(w: World, w': World, a: nat, i: nat, slot: Slot, e: Entry, how: How)
    requires w'.rows == w.rows && w'.bodies == w.bodies && w'.grants == w.grants
    ensures EntryOk(w, a, i, slot, e, how) ==> EntryOk(w', a, i, slot, e, how)
  {
    hide HasRun;
  }

  lemma GrantKeeps(w: World, a: nat, call: Call)
    requires WorldOk(w) && a in w.attempts && w.attempts[a].pc.Thinking?
    requires Place(w.attempts[a].run, call) !in w.rows
    ensures WorldOk(TakeAsk(w, a, call))
  {
    var me := w.attempts[a];
    var slot := Place(me.run, call);
    var w' := TakeAsk(w, a, call);
    assert !HasRun(w.bodies, slot);
    assert OnlyAt(w, w', slot);
    OthersStay(w, w', slot, a);
    EntriesStay(w, w', slot, a, me);
    var now := w'.attempts[a];
    assert EntriesOk(w', a, now) by { SameEntries(w', a, me, now); }
    assert PcOk(w', a, now);
    hide EntriesOk, PcOk, OnlyAt, HasRun;
  }

  lemma SameEntries(w: World, a: nat, me: Attempt, now: Attempt)
    requires EntriesOk(w, a, me) && now.run == me.run && now.transcript == me.transcript && now.hows == me.hows
    ensures EntriesOk(w, a, now)
  {
    hide EntryOk;
  }

  lemma AskKeeps(w: World, a: nat, call: Call)
    requires WorldOk(w) && a in w.attempts && w.attempts[a].pc.Thinking?
    ensures WorldOk(TakeAsk(w, a, call))
  {
    var me := w.attempts[a];
    var slot := Place(me.run, call);
    if slot !in w.rows {
      GrantKeeps(w, a, call);
    } else if w.rows[slot].signature == call.signature && w.rows[slot].Finished? {
      ToldKeeps(w, a, call, w.rows[slot].outcome, Replayed);
    } else {
      var gone := me.(pc := Gone);
      var w' := w.(attempts := w.attempts[a := gone]);
      MovedOn(w, w', a, me, gone);
      hide WorldOk;
      MoverOnly(w, a, gone);
    }
  }

  lemma MovedOn(w: World, w': World, a: nat, me: Attempt, now: Attempt)
    requires WorldOk(w) && a in w.attempts && me == w.attempts[a]
    requires w'.rows == w.rows && w'.bodies == w.bodies && w'.grants == w.grants
    requires now.run == me.run && now.transcript == me.transcript && now.hows == me.hows
    ensures EntriesOk(w', a, now)
    ensures now.pc.Gone? || now.pc.Thinking? ==> PcOk(w', a, now)
  {
    SameStore(w, w', a, me);
    SameEntries(w', a, me, now);
    hide EntriesOk;
  }

  lemma PassKeeps(w: World, a: nat, arguments: string, extra: seq<string>, brain: Brain)
    requires WorldOk(w) && Enabled(w, PassHook(a, arguments, extra))
    ensures WorldOk(Take(w, PassHook(a, arguments, extra), brain))
  {
    var me := w.attempts[a];
    var now := me.(pc := Granted(me.pc.call, arguments, me.pc.extra + extra));
    var w' := w.(attempts := w.attempts[a := now]);
    MovedOn(w, w', a, me, now);
    assert PcOk(w, a, me);
    MoverOnly(w, a, now);
  }

  lemma ExecuteKeeps(w: World, a: nat, outcome: Outcome, brain: Brain)
    requires WorldOk(w) && Enabled(w, Execute(a, outcome))
    ensures WorldOk(TakeExecute(w, a, outcome))
  {
    var me := w.attempts[a];
    var slot := Place(me.run, me.pc.call);
    var w' := TakeExecute(w, a, outcome);
    var x := Execution(slot, Actual(me.pc), outcome);
    assert PcOk(w, a, me);
    BodyKeepsRows(w.rows, w.bodies, x);
    OneMoreBody(w, w', x);
    OthersStay(w, w', slot, a);
    EntriesStay(w, w', slot, a, me);
    SameEntries(w', a, me, w'.attempts[a]);
    assert w'.bodies[|w.bodies|] == x;
    assert PcOk(w', a, w'.attempts[a]);
    hide EntriesOk, PcOk, OnlyAt, RowsTruthful, AtMostOnce;
  }

  lemma OneMoreBody(w: World, w': World, x: Execution)
    requires w'.rows == w.rows && w'.grants == w.grants && w'.bodies == w.bodies + [x]
    ensures OnlyAt(w, w', x.slot)
  {
    forall y | y != x.slot && HasRun(w.bodies, y) ensures HasRun(w'.bodies, y) {
      var i :| 0 <= i < |w.bodies| && w.bodies[i].slot == y;
      assert w'.bodies[i].slot == y;
    }
  }

  lemma BodyKeepsRows(rows: Table, bodies: seq<Execution>, x: Execution)
    requires RowsTruthful(rows, bodies) && AtMostOnce(bodies) && !HasRun(bodies, x.slot) && x.slot in rows
    ensures RowsTruthful(rows, bodies + [x]) && AtMostOnce(bodies + [x])
  {
    forall e | e in bodies ensures e in bodies + [x] { }
  }

  lemma RecordKeeps(w: World, a: nat, reached: bool)
    requires WorldOk(w) && Enabled(w, Record(a, reached))
    ensures WorldOk(TakeRecord(w, a, reached))
  {
    var me := w.attempts[a];
    var slot := Place(me.run, me.pc.call);
    var w' := TakeRecord(w, a, reached);
    assert PcOk(w, a, me);
    assert OnlyAt(w, w', slot);
    OthersStay(w, w', slot, a);
    EntriesStay(w, w', slot, a, me);
    SameEntries(w', a, me, w'.attempts[a]);
    assert PcOk(w', a, w'.attempts[a]);
    assert RowsTruthful(w'.rows, w'.bodies);
    hide EntriesOk, PcOk, OnlyAt, RowsTruthful, AtMostOnce, HasRun;
  }

  lemma ReturnKeeps(w: World, a: nat, extra: seq<string>)
    requires WorldOk(w) && a in w.attempts && w.attempts[a].pc.Settled?
    ensures WorldOk(TakeReturn(w, a, extra))
  {
    var pc := w.attempts[a].pc;
    assert PcOk(w, a, w.attempts[a]);
    ToldKeeps(w, a, pc.call, WithExtra(pc.outcome, pc.extra + extra), Performed(pc.arguments, pc.extra + extra, pc.outcome, pc.recorded));
  }

  lemma InterceptKeeps(w: World, a: nat, outcome: Outcome, brain: Brain)
    requires WorldOk(w) && Enabled(w, Intercept(a, outcome))
    ensures WorldOk(Take(w, Intercept(a, outcome), brain))
  {
    assert PcOk(w, a, w.attempts[a]);
    ToldKeeps(w, a, w.attempts[a].pc.call, WithExtra(outcome, w.attempts[a].pc.extra), Intercepted);
  }

  lemma LeaveKeeps(w: World, s: Step, brain: Brain)
    requires WorldOk(w) && Enabled(w, s) && (s.Arrive? || s.Vanish? || s.AskRaises?)
    ensures WorldOk(Take(w, s, brain))
  {
    match s
    case Arrive(a, run) =>
      var me := Attempt(run, [], [], Thinking);
      MoverOnly(w, a, me);
    case AskRaises(a, error) => ToldKeeps(w, a, brain(a, w.attempts[a].transcript), Failure(error), Unasked);
    case Vanish(a) =>
      var gone := w.attempts[a].(pc := Gone);
      MovedOn(w, w.(attempts := w.attempts[a := gone]), a, w.attempts[a], gone);
      hide WorldOk;
      MoverOnly(w, a, gone);
  }

  lemma StepKeeps(w: World, s: Step, brain: Brain)
    requires WorldOk(w) && Enabled(w, s)
    ensures WorldOk(Take(w, s, brain))
  {
    hide WorldOk, TakeAsk, TakeExecute, TakeRecord, TakeReturn;
    match s
    case Ask(a) => AskKeeps(w, a, brain(a, w.attempts[a].transcript));
    case PassHook(a, arguments, extra) => PassKeeps(w, a, arguments, extra, brain);
    case Intercept(a, outcome) => InterceptKeeps(w, a, outcome, brain);
    case Execute(a, outcome) => ExecuteKeeps(w, a, outcome, brain);
    case Record(a, reached) => RecordKeeps(w, a, reached);
    case Return(a, extra) => ReturnKeeps(w, a, extra);
    case _ => LeaveKeeps(w, s, brain);
  }

  /**
   Over any interleaving of attempts, crashes, aborts and interfering hooks, a slot's
   body runs at most once, and rows and transcripts are what the invariant says.
   */
  lemma {:induction false} ToolBodiesRunAtMostOnce(w: World, steps: seq<Step>, brain: Brain)
    requires WorldOk(w) && Runs(w, steps, brain)
    ensures WorldOk(Final(w, steps, brain)) && AtMostOnce(Final(w, steps, brain).bodies)
    decreases |steps|
  {
    hide WorldOk, Take, Enabled;
    if steps != [] {
      StepKeeps(w, steps[0], brain);
      ToolBodiesRunAtMostOnce(Take(w, steps[0], brain), steps[1..], brain);
    } else {
      SoundIsAtMostOnce(w);
    }
  }

  lemma SoundIsAtMostOnce(w: World)
    requires WorldOk(w)
    ensures AtMostOnce(w.bodies)
  {
  }

  // ---------- recording ----------

  /**
   Recording succeeds if and only if the store is reached and no later hook left other
   arguments than those the slot was granted for.
   */
  lemma RecordingSucceedsIff(w: World, a: nat, reached: bool, brain: Brain)
    requires WorldOk(w) && Enabled(w, Record(a, reached))
    ensures var me := w.attempts[a];
      var after := Take(w, Record(a, reached), brain);
      && after.attempts[a].pc.recorded <==> reached && me.pc.arguments == me.pc.call.signature.arguments
    ensures var me := w.attempts[a];
      var after := Take(w, Record(a, reached), brain);
      after.rows == if after.attempts[a].pc.recorded
                    then w.rows[Place(me.run, me.pc.call) := Finished(me.pc.call.signature, me.pc.outcome)] else w.rows
  {
    assert PcOk(w, a, w.attempts[a]);
  }

  /** A rewriting hook, concretely: the checkpoint grants a call, the next hook rewrites it, the body runs, the record is refused. */
  function RewritingRun(run: RunId, rewritten: string, output: string): seq<Step> {
    [Arrive(0, run), Ask(0), PassHook(0, rewritten, []), Execute(0, Success(output)), Record(0, true), Return(0, [])]
  }

  /** The model has seen the outcome, no row records it, and a retry that asks the same is turned away. */
  lemma RewrittenCallIsNotRecorded(run: RunId, granted: string, rewritten: string, output: string, brain: Brain)
    requires granted != rewritten
    requires brain(0, []) == brain(1, []) == Call(0, 0, Signature("tool", granted))
    ensures var call := Call(0, 0, Signature("tool", granted));
      Runs(FRESH_WORLD, RewritingRun(run, rewritten, output), brain) &&
      var w := Final(FRESH_WORLD, RewritingRun(run, rewritten, output), brain);
      && w.attempts.Keys == {0} && w.attempts[0].transcript == [Entry(call, Success(output))]
      && w.rows == map[Place(run, call) := Started(call.signature)]
      && w.bodies == [Execution(Place(run, call), Signature("tool", rewritten), Success(output))]
      && Runs(w, [Arrive(1, run), Ask(1)], brain)
      && var later := Final(w, [Arrive(1, run), Ask(1)], brain);
      1 in later.attempts && later.attempts[1].pc.Gone? && later.attempts[1].transcript == []
  {
    var call := Call(0, 0, Signature("tool", granted));
    var steps := RewritingRun(run, rewritten, output);
    var w3 := GrantThenRewrite(run, granted, rewritten, brain);
    var w6 := RunThenRefuse(w3, call, run, rewritten, output, brain);
    hide Runs, Final, Take, Enabled;
    var first, second: seq<Step> := [Arrive(0, run), Ask(0), PassHook(0, rewritten, [])],
      [Execute(0, Success(output)), Record(0, true), Return(0, [])];
    FinalSplits(FRESH_WORLD, first, second, brain);
    assert first + second == steps;
    RetryIsTurnedAway(w6, call, run, brain);
  }

  lemma GrantThenRewrite(run: RunId, granted: string, rewritten: string, brain: Brain) returns (w: World)
    requires brain(0, []) == Call(0, 0, Signature("tool", granted))
    ensures var steps := [Arrive(0, run), Ask(0), PassHook(0, rewritten, [])];
      Runs(FRESH_WORLD, steps, brain) && w == Final(FRESH_WORLD, steps, brain)
    ensures var call := Call(0, 0, Signature("tool", granted));
      w == World(map[Place(run, call) := Started(call.signature)],
                 map[0 := Attempt(run, [], [], Granted(call, rewritten, []))], [], map[Place(run, call) := (0, 0)])
  {
    var call := Call(0, 0, Signature("tool", granted));
    var w1 := Take(FRESH_WORLD, Arrive(0, run), brain);
    assert w1.attempts == map[0 := Attempt(run, [], [], Thinking)];
    var w2 := Take(w1, Ask(0), brain);
    assert w2.attempts == map[0 := Attempt(run, [], [], Granted(call, granted, []))];
    w := Take(w2, PassHook(0, rewritten, []), brain);
    var none: seq<string> := [];
    assert none + none == none;
    assert w.attempts == map[0 := Attempt(run, [], [], Granted(call, rewritten, []))];
    hide Take, Enabled, Place;
    ThreeSteps(FRESH_WORLD, Arrive(0, run), Ask(0), PassHook(0, rewritten, []), brain);
  }

  lemma RunThenRefuse(w: World, call: Call, run: RunId, rewritten: string, output: string, brain: Brain) returns (w': World)
    requires rewritten != call.signature.arguments
    requires w == World(map[Place(run, call) := Started(call.signature)],
                        map[0 := Attempt(run, [], [], Granted(call, rewritten, []))], [], map[Place(run, call) := (0, 0)])
    ensures var steps := [Execute(0, Success(output)), Record(0, true), Return(0, [])];
      Runs(w, steps, brain) && w' == Final(w, steps, brain)
    ensures w'.rows == w.rows && w'.attempts.Keys == {0} && w'.attempts[0].transcript == [Entry(call, Success(output))]
    ensures w'.bodies == [Execution(Place(run, call), Signature(call.signature.tool, rewritten), Success(output))]
  {
    var w1 := Take(w, Execute(0, Success(output)), brain);
    assert w1.attempts == map[0 := Attempt(run, [], [], Ran(call, rewritten, [], Success(output)))];
    var w2 := Take(w1, Record(0, true), brain);
    assert w2.attempts == map[0 := Attempt(run, [], [], Settled(call, rewritten, [], Success(output), false))];
    w' := Take(w2, Return(0, []), brain);
    assert w'.attempts[0].transcript == [Entry(call, Success(output))];
    hide Take, Enabled, Place;
    ThreeSteps(w, Execute(0, Success(output)), Record(0, true), Return(0, []), brain);
  }

  lemma ThreeSteps(w: World, x: Step, y: Step, z: Step, brain: Brain)
    requires Enabled(w, x) && Enabled(Take(w, x, brain), y) && Enabled(Take(Take(w, x, brain), y, brain), z)
    ensures Runs(w, [x, y, z], brain) && Final(w, [x, y, z], brain) == Take(Take(Take(w, x, brain), y, brain), z, brain)
  {
    hide Take, Enabled;
    var w1 := Take(w, x, brain);
    OneStep(w, x, brain);
    OneStep(w1, y, brain);
    OneStep(Take(w1, y, brain), z, brain);
    FinalSplits(w, [x], [y], brain);
    FinalSplits(w, [x] + [y], [z], brain);
    assert [x] + [y] + [z] == [x, y, z];
  }

  lemma OneStep(w: World, s: Step, brain: Brain)
    requires Enabled(w, s)
    ensures Runs(w, [s], brain) && Final(w, [s], brain) == Take(w, s, brain)
  {
    hide Take, Enabled;
    var w1 := Take(w, s, brain);
    assert [s][1..] == [] && Runs(w1, [], brain) && Final(w1, [], brain) == w1;
  }

  lemma {:induction false} FinalSplits(w: World, steps: seq<Step>, more: seq<Step>, brain: Brain)
    requires Runs(w, steps, brain) && Runs(Final(w, steps, brain), more, brain)
    ensures Runs(w, steps + more, brain) && Final(w, steps + more, brain) == Final(Final(w, steps, brain), more, brain)
    decreases |steps|
  {
    hide Take, Enabled;
    if steps == [] {
      assert steps + more == more;
    } else {
      FinalSplits(Take(w, steps[0], brain), steps[1..], more, brain);
      assert (steps + more)[1..] == steps[1..] + more;
    }
  }

  /** Behind an unfinished slot nobody else gets on. */
  lemma RetryIsTurnedAway(w: World, call: Call, run: RunId, brain: Brain)
    requires 1 !in w.attempts && brain(1, []) == call
    requires Place(run, call) in w.rows && w.rows[Place(run, call)].Started?
    ensures Runs(w, [Arrive(1, run), Ask(1)], brain)
    ensures var later := Final(w, [Arrive(1, run), Ask(1)], brain);
      1 in later.attempts && later.attempts[1] == Attempt(run, [], [], Gone)
  {
    var w1 := Take(w, Arrive(1, run), brain);
    var w2 := Take(w1, Ask(1), brain);
    assert w2.attempts[1] == Attempt(run, [], [], Gone);
    hide Take, Enabled, Place;
    OneStep(w, Arrive(1, run), brain);
    OneStep(w1, Ask(1), brain);
    FinalSplits(w, [Arrive(1, run)], [Ask(1)], brain);
    assert [Arrive(1, run)] + [Ask(1)] == [Arrive(1, run), Ask(1)];
  }

  // ---------- what attempts see ----------

  /** What the store has recorded for a slot. */
  function Recorded(rows: Table, slot: Slot): Option<Outcome> {
    if slot in rows && rows[slot].Finished? then Some(rows[slot].outcome) else None
  }

  /**
   The first `n` entries of an attempt that is never interrupted, where the tool at a
   slot answers as `answers` says; none if it comes to a slot without an answer.
   */
  function Solo(brain: Brain, a: nat, run: RunId, answers: Slot -> Option<Outcome>, n: nat): (t: Option<seq<Entry>>)
    ensures t.Some? ==> |t.value| == n
  {
    if n == 0 then Some([])
    else
      var before := Solo(brain, a, run, answers, n - 1);
      if before.None? then None
      else
        var call := brain(a, before.value);
        var answer := answers(Place(run, call));
        if answer.None? then None else Some(before.value + [Entry(call, answer.value)])
  }

  /** Each call in a transcript is the one the attempt's model asks for after what came before. */
  ghost predicate Follows(brain: Brain, a: nat, t: seq<Entry>) {
    forall i :: 0 <= i < |t| ==> t[i].call == brain(a, t[..i])
  }

  ghost predicate Follower(brain: Brain, a: nat, me: Attempt) {
    && Follows(brain, a, me.transcript)
    && (me.pc.Granted? || me.pc.Ran? || me.pc.Settled? ==> me.pc.call == brain(a, me.transcript))
  }

  ghost predicate AllFollow(w: World, brain: Brain) {
    forall a :: a in w.attempts ==> Follower(brain, a, w.attempts[a])
  }

  lemma FollowsGrows(brain: Brain, a: nat, t: seq<Entry>, e: Entry)
    requires Follows(brain, a, t) && e.call == brain(a, t)
    ensures Follows(brain, a, t + [e])
  {
    forall i | 0 <= i < |t + [e]| ensures (t + [e])[i].call == brain(a, (t + [e])[..i]) {
      assert (t + [e])[..i] == if i < |t| then t[..i] else t;
    }
  }

  lemma MoverFollows(w: World, s: Step, brain: Brain)
    requires AllFollow(w, brain) && Enabled(w, s)
    ensures s.a in Take(w, s, brain).attempts && Follower(brain, s.a, Take(w, s, brain).attempts[s.a])
  {
    hide Begin, Finish, Place, WithExtra;
    if !s.Arrive? {
      var me := w.attempts[s.a];
      assert Follower(brain, s.a, me);
      forall e: Entry | e.call == brain(s.a, me.transcript) ensures Follows(brain, s.a, me.transcript + [e]) {
        FollowsGrows(brain, s.a, me.transcript, e);
      }
      hide Follows, AllFollow;
    }
  }

  lemma OthersAreLeftAlone(w: World, s: Step, brain: Brain, b: nat)
    requires Enabled(w, s) && b != s.a
    ensures b in Take(w, s, brain).attempts <==> b in w.attempts
    ensures b in w.attempts ==> Take(w, s, brain).attempts[b] == w.attempts[b]
  {
    hide Begin, Finish, Place, WithExtra;
  }

  lemma StepFollows(w: World, s: Step, brain: Brain)
    requires AllFollow(w, brain) && Enabled(w, s)
    ensures AllFollow(Take(w, s, brain), brain)
  {
    hide Take, Enabled, Follower;
    MoverFollows(w, s, brain);
    forall b | b in Take(w, s, brain).attempts ensures Follower(brain, b, Take(w, s, brain).attempts[b]) {
      if b != s.a {
        OthersAreLeftAlone(w, s, brain, b);
      }
    }
  }

  lemma {:induction false} EveryoneFollows(w: World, steps: seq<Step>, brain: Brain)
    requires AllFollow(w, brain) && Runs(w, steps, brain)
    ensures AllFollow(Final(w, steps, brain), brain)
    decreases |steps|
  {
    hide AllFollow, Take, Enabled;
    if steps != [] {
      StepFollows(w, steps[0], brain);
      EveryoneFollows(Take(w, steps[0], brain), steps[1..], brain);
    }
  }

  lemma {:induction false} SoloIff(brain: Brain, a: nat, run: RunId, answers: Slot -> Option<Outcome>, t: seq<Entry>)
    requires Follows(brain, a, t)
    ensures Solo(brain, a, run, answers, |t|) == Some(t) <==>
      forall i :: 0 <= i < |t| ==> answers(Place(run, t[i].call)) == Some(t[i].outcome)
    decreases |t|
  {
    if t != [] {
      var n := |t| - 1;
      forall i | 0 <= i < n ensures t[..n][i].call == brain(a, t[..n][..i]) {
        assert t[..n][..i] == t[..i];
      }
      SoloIff(brain, a, run, answers, t[..n]);
      assert t == t[..n] + [t[n]];
      var before := Solo(brain, a, run, answers, n);
      if Solo(brain, a, run, answers, n + 1) == Some(t) {
        assert before.value == t[..n];
        assert forall i :: 0 <= i < n ==> t[..n][i] == t[i];
      }
    }
  }

  /**
   An entry was left undisturbed: it came from the record, or the body ran under the
   arguments granted, no hook added to what the model saw, and the outcome was recorded.
   A stopped call was not, nor one for which the checkpoint itself raised.
   */
  predicate Undisturbed(e: Entry, how: How) {
    match how
    case Replayed => true
    case Performed(arguments, extra, _, kept) => arguments == e.call.signature.arguments && extra == [] && kept
    case _ => false
  }

  lemma EntryShowsRecordIff(w: World, a: nat, i: nat, slot: Slot, e: Entry, how: How)
    requires EntryOk(w, a, i, slot, e, how) && !how.Unasked?
    ensures Recorded(w.rows, slot) == Some(e.outcome) <==> Undisturbed(e, how)
  {
    if how.Performed? {
      ExtraShows(how.outcome, how.extra);
    }
    hide HasRun, WithExtra;
  }

  lemma FreshIsSound(brain: Brain)
    ensures WorldOk(FRESH_WORLD) && AllFollow(FRESH_WORLD, brain)
  {
  }

  lemma ReachableAttempt(steps: seq<Step>, brain: Brain, a: nat)
    requires Runs(FRESH_WORLD, steps, brain) && a in Final(FRESH_WORLD, steps, brain).attempts
    ensures var w := Final(FRESH_WORLD, steps, brain);
      WorldOk(w) && EntriesOk(w, a, w.attempts[a]) && Follows(brain, a, w.attempts[a].transcript)
  {
    hide Take, Enabled;
    FreshIsSound(brain);
    ToolBodiesRunAtMostOnce(FRESH_WORLD, steps, brain);
    EveryoneFollows(FRESH_WORLD, steps, brain);
    hide Runs, Final, EntriesOk, Follows, PcOk;
    assert Follower(brain, a, Final(FRESH_WORLD, steps, brain).attempts[a]);
  }

  /** The error the model was shown because the checkpoint raised happens to be what somebody recorded at the slot. */
  predicate Coincides(e: Entry, how: How, recorded: Option<Outcome>) {
    how.Unasked? && recorded == Some(e.outcome)
  }

  /** The general form: entries for which the checkpoint raised agree with a crash-free run by chance only. */
  lemma RaisesAgreeByChanceOnly(steps: seq<Step>, brain: Brain, a: nat)
    requires Runs(FRESH_WORLD, steps, brain) && a in Final(FRESH_WORLD, steps, brain).attempts
    ensures var w := Final(FRESH_WORLD, steps, brain);
      var me := w.attempts[a];
      |me.hows| == |me.transcript| &&
      (Solo(brain, a, me.run, slot => Recorded(w.rows, slot), |me.transcript|) == Some(me.transcript) <==>
       forall i :: 0 <= i < |me.transcript| ==>
         || Undisturbed(me.transcript[i], me.hows[i])
         || Coincides(me.transcript[i], me.hows[i], Recorded(w.rows, Place(me.run, me.transcript[i].call))))
  {
    ReachableAttempt(steps, brain, a);
    hide Take, Enabled, Runs, Final;
    var w := Final(FRESH_WORLD, steps, brain);
    var me := w.attempts[a];
    SoloIff(brain, a, me.run, slot => Recorded(w.rows, slot), me.transcript);
    forall i | 0 <= i < |me.transcript|
      ensures Recorded(w.rows, Place(me.run, me.transcript[i].call)) == Some(me.transcript[i].outcome) <==>
        || Undisturbed(me.transcript[i], me.hows[i])
        || Coincides(me.transcript[i], me.hows[i], Recorded(w.rows, Place(me.run, me.transcript[i].call)))
    {
      if !me.hows[i].Unasked? {
        EntryShowsRecordIff(w, a, i, Place(me.run, me.transcript[i].call), me.transcript[i], me.hows[i]);
      }
    }
    hide Follows, Recorded, Undisturbed, Coincides, EntryOk, PcOk;
  }

  /**
   Whatever crashed before it and whoever still runs beside it, an attempt whose
   checkpoint hook never raised has seen exactly what one uninterrupted attempt with the
   same model would see, the tools answering as recorded, if and only if every entry was
   left undisturbed.
   */
  lemma SeesOneCrashFreeRunIff(steps: seq<Step>, brain: Brain, a: nat)
    requires Runs(FRESH_WORLD, steps, brain) && a in Final(FRESH_WORLD, steps, brain).attempts
    requires forall how :: how in Final(FRESH_WORLD, steps, brain).attempts[a].hows ==> !how.Unasked?
    ensures var w := Final(FRESH_WORLD, steps, brain);
      var me := w.attempts[a];
      |me.hows| == |me.transcript| &&
      (Solo(brain, a, me.run, slot => Recorded(w.rows, slot), |me.transcript|) == Some(me.transcript) <==>
       forall i :: 0 <= i < |me.transcript| ==> Undisturbed(me.transcript[i], me.hows[i]))
  {
    RaisesAgreeByChanceOnly(steps, brain, a);
    hide Runs, Final, Solo, Recorded, Undisturbed;
    var me := Final(FRESH_WORLD, steps, brain).attempts[a];
    assert forall i :: 0 <= i < |me.hows| ==> me.hows[i] in me.hows;
  }

  /**
   Where a seen outcome comes from. Replayed and performed entries show, up to messages
   added by hooks, what the one execution of their slot produced; where a later hook
   stopped a granted call, no body ever ran.
   */
  lemma SeenOutcomesHaveSources(steps: seq<Step>, brain: Brain, a: nat, i: nat)
    requires Runs(FRESH_WORLD, steps, brain) && a in Final(FRESH_WORLD, steps, brain).attempts
    requires i < |Final(FRESH_WORLD, steps, brain).attempts[a].transcript|
    ensures var w := Final(FRESH_WORLD, steps, brain);
      var me, entry := w.attempts[a], w.attempts[a].transcript[i];
      && |me.hows| == |me.transcript|
      && (me.hows[i].Replayed? || me.hows[i].Performed? ==>
            exists k :: 0 <= k < |w.bodies| && w.bodies[k].slot == Place(me.run, entry.call)
              && entry.outcome == WithExtra(w.bodies[k].outcome, if me.hows[i].Performed? then me.hows[i].extra else [])
              && forall m :: 0 <= m < |w.bodies| && m != k ==> w.bodies[m].slot != Place(me.run, entry.call))
      && (me.hows[i].Intercepted? ==> forall m :: 0 <= m < |w.bodies| ==> w.bodies[m].slot != Place(me.run, entry.call))
  {
    ReachableAttempt(steps, brain, a);
    hide Take, Enabled, Runs, Final;
    var w := Final(FRESH_WORLD, steps, brain);
    var me := w.attempts[a];
    var entry, how := me.transcript[i], me.hows[i];
    var slot := Place(me.run, entry.call);
    assert EntryOk(w, a, i, slot, entry, how);
    if how.Replayed? || how.Performed? {
      var x := if how.Replayed? then Execution(slot, entry.call.signature, entry.outcome)
               else Execution(slot, Signature(entry.call.signature.tool, how.arguments), how.outcome);
      assert x in w.bodies;
      var k :| 0 <= k < |w.bodies| && w.bodies[k] == x;
      forall m | 0 <= m < |w.bodies| && m != k ensures w.bodies[m].slot != slot {
        assert m < k || k < m;
      }
    }
  }

  // ---------- retries ----------

  function ExtraOf(how: How): seq<string> {
    if how.Performed? then how.extra else []
  }

  /** Two attempts that show the same call at the same slot show the same outcome just when no hook added to either. */
  lemma SameSlotAgreesIff(w: World, a: nat, b: nat, i: nat, slot: Slot, x: Entry, y: Entry, how: How, other: How)
    requires EntryOk(w, a, i, slot, x, how) && EntryOk(w, b, i, slot, y, other)
    requires a != b && x.call == y.call && !how.Unasked? && !other.Unasked?
    ensures x.outcome == y.outcome <==> ExtraOf(how) == [] && ExtraOf(other) == []
  {
    if how.Performed? {
      ExtraShows(how.outcome, how.extra);
    }
    if other.Performed? {
      ExtraShows(other.outcome, other.extra);
    }
    hide HasRun, WithExtra;
  }

  /**
   A retry whose model decides alike, compared with the attempt it replaces, as far as
   both got and as long as neither's checkpoint hook raised: they have seen the same
   if and only if no later hook added messages for either. Rewritten and stopped calls
   cannot make them differ, for behind those the retry is turned away.
   */
  lemma RetriesAgreeIff(steps: seq<Step>, brain: Brain, a: nat, b: nat)
    requires Runs(FRESH_WORLD, steps, brain) && a != b
    requires a in Final(FRESH_WORLD, steps, brain).attempts && b in Final(FRESH_WORLD, steps, brain).attempts
    requires Final(FRESH_WORLD, steps, brain).attempts[a].run == Final(FRESH_WORLD, steps, brain).attempts[b].run
    requires forall t :: brain(a, t) == brain(b, t)
    requires var w := Final(FRESH_WORLD, steps, brain);
      |w.attempts[a].transcript| <= |w.attempts[b].transcript|
      && (forall how :: how in w.attempts[a].hows || how in w.attempts[b].hows ==> !how.Unasked?)
    ensures var me, other := Final(FRESH_WORLD, steps, brain).attempts[a], Final(FRESH_WORLD, steps, brain).attempts[b];
      |me.hows| == |me.transcript| && |other.hows| == |other.transcript| &&
      (me.transcript <= other.transcript <==>
       forall i :: 0 <= i < |me.transcript| ==> ExtraOf(me.hows[i]) == [] && ExtraOf(other.hows[i]) == [])
  {
    ReachableAttempt(steps, brain, a);
    ReachableAttempt(steps, brain, b);
    hide Take, Enabled, Runs, Final;
    var w := Final(FRESH_WORLD, steps, brain);
    var me, other := w.attempts[a], w.attempts[b];
    if forall i :: 0 <= i < |me.transcript| ==> ExtraOf(me.hows[i]) == [] && ExtraOf(other.hows[i]) == [] {
      AgreeUpTo(w, brain, a, b, me, other, |me.transcript|);
      assert me.transcript[..|me.transcript|] == me.transcript;
    }
    if me.transcript <= other.transcript {
      forall i | 0 <= i < |me.transcript| ensures ExtraOf(me.hows[i]) == [] && ExtraOf(other.hows[i]) == [] {
        assert me.transcript[i] == other.transcript[i] && me.hows[i] in me.hows && other.hows[i] in other.hows;
        SameSlotAgreesIff(w, a, b, i, Place(me.run, me.transcript[i].call), me.transcript[i], other.transcript[i],
                          me.hows[i], other.hows[i]);
      }
    }
  }

  /** A hook behind the body that adds a message, and a retry. */
  function AnnotatedRun(run: RunId, output: string, note: string): seq<Step> {
    [Arrive(0, run), Ask(0), Execute(0, Success(output))] + [Record(0, true), Return(0, [note]), Arrive(1, run)] + [Ask(1)]
  }

  /** Concretely: the first attempt is shown the note, the retry the bare record, and so they differ. */
  lemma NoteMakesRetriesDiffer(run: RunId, call: Call, output: string, note: string, brain: Brain)
    requires brain(0, []) == brain(1, []) == call
    ensures Runs(FRESH_WORLD, AnnotatedRun(run, output, note), brain)
    ensures var w := Final(FRESH_WORLD, AnnotatedRun(run, output, note), brain);
      && w.attempts.Keys == {0, 1}
      && w.attempts[0].transcript == [Entry(call, Success(output + "\n\n" + note))]
      && w.attempts[1].transcript == [Entry(call, Success(output))]
      && w.attempts[0].transcript != w.attempts[1].transcript
  {
    var first, second: seq<Step> := [Arrive(0, run), Ask(0), Execute(0, Success(output))],
      [Record(0, true), Return(0, [note]), Arrive(1, run)];
    var w3 := GrantThenRun(run, call, output, brain);
    var w6 := RecordThenAnnotate(w3, run, call, output, note, brain);
    var w7 := ReplayForRetry(w6, run, call, output, brain);
    hide Runs, Final, Take, Enabled;
    FinalSplits(FRESH_WORLD, first, second, brain);
    FinalSplits(FRESH_WORLD, first + second, [Ask(1)], brain);
    assert |output + "\n\n" + note| > |output|;
  }

  lemma GrantThenRun(run: RunId, call: Call, output: string, brain: Brain) returns (w: World)
    requires brain(0, []) == call
    ensures var steps := [Arrive(0, run), Ask(0), Execute(0, Success(output))];
      Runs(FRESH_WORLD, steps, brain) && w == Final(FRESH_WORLD, steps, brain)
    ensures w.rows == map[Place(run, call) := Started(call.signature)]
    ensures w.attempts == map[0 := Attempt(run, [], [], Ran(call, call.signature.arguments, [], Success(output)))]
  {
    var w1 := Take(FRESH_WORLD, Arrive(0, run), brain);
    assert w1.attempts == map[0 := Attempt(run, [], [], Thinking)];
    var w2 := Take(w1, Ask(0), brain);
    assert w2.attempts == map[0 := Attempt(run, [], [], Granted(call, call.signature.arguments, []))];
    w := Take(w2, Execute(0, Success(output)), brain);
    assert w.attempts == map[0 := Attempt(run, [], [], Ran(call, call.signature.arguments, [], Success(output)))];
    hide Take, Enabled, Place;
    ThreeSteps(FRESH_WORLD, Arrive(0, run), Ask(0), Execute(0, Success(output)), brain);
  }

  lemma RecordThenAnnotate(w: World, run: RunId, call: Call, output: string, note: string, brain: Brain) returns (w': World)
    requires w.rows == map[Place(run, call) := Started(call.signature)]
    requires w.attempts == map[0 := Attempt(run, [], [], Ran(call, call.signature.arguments, [], Success(output)))]
    ensures var steps := [Record(0, true), Return(0, [note]), Arrive(1, run)];
      Runs(w, steps, brain) && w' == Final(w, steps, brain)
    ensures w'.rows == map[Place(run, call) := Finished(call.signature, Success(output))] && w'.attempts.Keys == {0, 1}
    ensures w'.attempts[0].transcript == [Entry(call, Success(output + "\n\n" + note))]
    ensures w'.attempts[1] == Attempt(run, [], [], Thinking)
  {
    var arguments := call.signature.arguments;
    assert Signature(call.signature.tool, arguments) == call.signature;
    var w1 := Take(w, Record(0, true), brain);
    assert w1.attempts == map[0 := Attempt(run, [], [], Settled(call, arguments, [], Success(output), true))];
    assert [] + [note] == [note] && WithExtra(Success(output), [note]) == Success(output + "\n\n" + note);
    var w2 := Take(w1, Return(0, [note]), brain);
    assert w2.attempts[0].transcript == [Entry(call, Success(output + "\n\n" + note))] && w2.attempts.Keys == {0};
    w' := Take(w2, Arrive(1, run), brain);
    hide Take, Enabled, Place, WithExtra;
    ThreeSteps(w, Record(0, true), Return(0, [note]), Arrive(1, run), brain);
  }

  lemma ReplayForRetry(w: World, run: RunId, call: Call, output: string, brain: Brain) returns (w': World)
    requires w.rows == map[Place(run, call) := Finished(call.signature, Success(output))] && brain(1, []) == call
    requires w.attempts.Keys == {0, 1} && w.attempts[1] == Attempt(run, [], [], Thinking)
    ensures Runs(w, [Ask(1)], brain) && w' == Final(w, [Ask(1)], brain)
    ensures w'.attempts.Keys == {0, 1} && w'.attempts[0] == w.attempts[0]
    ensures w'.attempts[1].transcript == [Entry(call, Success(output))]
  {
    w' := Take(w, Ask(1), brain);
    assert [] + [Entry(call, Success(output))] == [Entry(call, Success(output))];
    OneStep(w, Ask(1), brain);
  }

  lemma {:induction false} AgreeUpTo(w: World, brain: Brain, a: nat, b: nat, me: Attempt, other: Attempt, n: nat)
    requires EntriesOk(w, a, me) && EntriesOk(w, b, other) && a != b && me.run == other.run
    requires Follows(brain, a, me.transcript) && Follows(brain, b, other.transcript) && forall t :: brain(a, t) == brain(b, t)
    requires n <= |me.transcript| <= |other.transcript|
    requires forall how :: how in me.hows || how in other.hows ==> !how.Unasked?
    requires forall i :: 0 <= i < n ==> ExtraOf(me.hows[i]) == [] && ExtraOf(other.hows[i]) == []
    ensures me.transcript[..n] == other.transcript[..n]
    decreases n
  {
    if n > 0 {
      AgreeUpTo(w, brain, a, b, me, other, n - 1);
      var i := n - 1;
      assert me.transcript[i].call == brain(a, me.transcript[..i]) && other.transcript[i].call == brain(b, other.transcript[..i]);
      assert me.hows[i] in me.hows && other.hows[i] in other.hows;
      SameSlotAgreesIff(w, a, b, i, Place(me.run, me.transcript[i].call), me.transcript[i], other.transcript[i],
                        me.hows[i], other.hows[i]);
      assert me.transcript[..n] == me.transcript[..i] + [me.transcript[i]];
      assert other.transcript[..n] == other.transcript[..i] + [other.transcript[i]];
    }
  }
}
