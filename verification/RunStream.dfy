/**
 The stream coalescer (cloud/run_stream.py): model output arrives in small pieces,
 is buffered per Run, and is written to the Run's event stream when the buffer is
 full, the iteration changes, a tool starts, or a timer fires. Appends to the
 store are taken to succeed.
 */
module RunStream {
  import opened Prelude

  datatype Buffer = Buffer(iteration: int, content: string)

  type TimerId = nat

  datatype StreamEvent =
    | Delta(run: RunId, iteration: int, content: string)
    | ToolStarted(run: RunId, tool: string, iteration: int)
    | ToolCompleted(run: RunId, tool: string, iteration: int, status: string)

  /** `alive` are the timer tasks that were neither cancelled nor finished; `log` is what the store holds. */
  datatype Bridge = Bridge(limit: nat, buffers: map<RunId, Buffer>, timers: map<RunId, TimerId>,
                           alive: set<TimerId>, nextTimer: TimerId, log: seq<StreamEvent>)

  /** Takes the buffer and the timer of a Run away, cancels the timer, and writes what was buffered. */
  function Flush(b: Bridge, run: RunId): Bridge {
    b.(buffers := b.buffers - {run},
       timers := b.timers - {run},
       alive := if run in b.timers then b.alive - {b.timers[run]} else b.alive,
       log := if run in b.buffers && b.buffers[run].content != ""
              then b.log + [Delta(run, b.buffers[run].iteration, b.buffers[run].content)] else b.log)
  }

  function Put(b: Bridge, run: RunId, iteration: int, text: string): Bridge {
    var held := if run in b.buffers then b.buffers[run] else Buffer(iteration, "");
    b.(buffers := b.buffers[run := held.(content := held.content + text)])
  }

  /** Full buffers go out at once; the others get a timer unless one is registered. */
  function Settle(b: Bridge, run: RunId): Bridge
    requires run in b.buffers
  {
    if |b.buffers[run].content| >= b.limit then Flush(b, run)
    else if run !in b.timers then
      b.(timers := b.timers[run := b.nextTimer], alive := b.alive + {b.nextTimer}, nextTimer := b.nextTimer + 1)
    else b
  }

  function Switch(b: Bridge, run: RunId, iteration: int): Bridge {
    if run in b.buffers && b.buffers[run].iteration != iteration then Flush(b, run) else b
  }

  function Accept(b: Bridge, run: RunId, iteration: int, text: string): Bridge {
    Settle(Put(Switch(b, run, iteration), run, iteration, text), run)
  }

  function Expire(b: Bridge, timer: TimerId, run: RunId): Bridge {
    var f := Flush(b, run);
    f.(alive := f.alive - {timer})
  }

  // ---------- the object ----------

  class DurableRunStreamBridge {
    const flushChars: nat
    var buffers: map<RunId, Buffer>
    var timers: map<RunId, TimerId>
    var alive: set<TimerId>
    var nextTimer: TimerId
    var log: seq<StreamEvent>

    function View(): Bridge
      reads this
    {
      Bridge(flushChars, buffers, timers, alive, nextTimer, log)
    }

    constructor (chars: int)
      ensures View() == Bridge(Max(32, chars), map[], map[], {}, 0, [])
    {
      flushChars := Max(32, chars);
      buffers, timers, alive, nextTimer, log := map[], map[], {}, 0, [];
    }

    method FlushLocked(run: RunId)
      modifies this
      ensures View() == Flush(old(View()), run)
    {
      if run in timers {
        alive := alive - {timers[run]};
        timers := timers - {run};
      }
      if run !in buffers {
        return;
      }
      var buffer := buffers[run];
      buffers := buffers - {run};
      if buffer.content != "" {
        log := log + [Delta(run, buffer.iteration, buffer.content)];
      }
    }

    /** Empty pieces and chats that are no Run are ignored. */
    method OnDelta(target: Option<RunId>, iteration: int, text: string)
      modifies this
      ensures View() == if text == "" || target.None? then old(View()) else Accept(old(View()), target.value, iteration, text)
    {
      if text == "" || target.None? {
        return;
      }
      var run := target.value;
      if run in buffers && buffers[run].iteration != iteration {
        FlushLocked(run);
      }
      if run !in buffers {
        buffers := buffers[run := Buffer(iteration, "")];
      }
      buffers := buffers[run := buffers[run].(content := buffers[run].content + text)];
      if |buffers[run].content| >= flushChars {
        FlushLocked(run);
      } else if run !in timers {
        timers := timers[run := nextTimer];
        alive := alive + {nextTimer};
        nextTimer := nextTimer + 1;
      }
    }

    method OnToolStarted(target: Option<RunId>, tool: string, iteration: int)
      modifies this
      ensures View() == if target.None? then old(View()) else
        var f := Flush(old(View()), target.value); f.(log := f.log + [ToolStarted(target.value, tool, iteration)])
    {
      if target.Some? {
        FlushLocked(target.value);
        log := log + [ToolStarted(target.value, tool, iteration)];
      }
    }

    method OnToolCompleted(target: Option<RunId>, tool: string, iteration: int, status: string)
      modifies this`log
      ensures log == if target.None? then old(log) else old(log) + [ToolCompleted(target.value, tool, iteration, status)]
    {
      if target.Some? {
        log := log + [ToolCompleted(target.value, tool, iteration, status)];
      }
    }

    /** A timer wakes up and flushes; the flush leaves no registration of the Run for it to clear afterwards. */
    method DelayedFlush(timer: TimerId, run: RunId)
      modifies this
      ensures View() == Expire(old(View()), timer, run)
    {
      FlushLocked(run);
      assert run !in timers;
      alive := alive - {timer};
    }

    /** Shutdown: flush every buffer, then cancel the timers that are left. */
    method Close(open: seq<RunId>)
      requires forall r :: r in open <==> r in buffers
      modifies this
      ensures buffers == map[] && forall r :: r in timers ==> timers[r] !in alive
      ensures forall r :: Output(View(), r) == Output(old(View()), r)
    {
      ghost var before := View();
      var i := 0;
      while i < |open|
        invariant 0 <= i <= |open|
        invariant forall r :: r in buffers ==> r in open[i..]
        invariant forall r :: Output(View(), r) == Output(before, r)
      {
        ghost var b := View();
        FlushLocked(open[i]);
        forall r ensures Output(View(), r) == Output(b, r) {
          FlushConserves(b, open[i], r);
        }
        i := i + 1;
      }
      alive := alive - timers.Values;
    }
  }

  // ---------- what is conserved ----------

  type Mark = (int, char)

  /** The characters of a text, each marked with the iteration that produced it. */
  function Marks(iteration: int, text: string): seq<Mark> {
    seq(|text|, i requires 0 <= i < |text| => (iteration, text[i]))
  }

  /** All output of a Run that the store holds. */
  function Tagged(log: seq<StreamEvent>, run: RunId): seq<Mark> {
    if log == [] then []
    else
      var e := log[|log| - 1];
      Tagged(log[..|log| - 1], run) + if e.Delta? && e.run == run then Marks(e.iteration, e.content) else []
  }

  function Live(buffers: map<RunId, Buffer>, run: RunId): seq<Mark> {
    if run in buffers then Marks(buffers[run].iteration, buffers[run].content) else []
  }

  /** Stored output of a Run followed by what is still buffered for it. */
  function Output(b: Bridge, run: RunId): seq<Mark> {
    Tagged(b.log, run) + Live(b.buffers, run)
  }

  lemma FlushConserves(b: Bridge, run: RunId, r: RunId)
    ensures Output(Flush(b, run), r) == Output(b, r)
  {
    var f := Flush(b, run);
    if f.log != b.log {
      assert f.log[..|f.log| - 1] == b.log;
    }
  }

  lemma MarksConcat(iteration: int, a: string, b: string)
    ensures Marks(iteration, a + b) == Marks(iteration, a) + Marks(iteration, b)
  {
  }

  lemma PutAppends(b: Bridge, run: RunId, iteration: int, text: string, r: RunId)
    requires run in b.buffers ==> b.buffers[run].iteration == iteration
    ensures var p := Put(b, run, iteration, text);
      p.log == b.log && Live(p.buffers, r) == Live(b.buffers, r) + if r == run then Marks(iteration, text) else []
  {
    if run in b.buffers {
      MarksConcat(iteration, b.buffers[run].content, text);
    }
    assert "" + text == text;
  }

  lemma PutConserves(b: Bridge, run: RunId, iteration: int, text: string, r: RunId)
    requires run in b.buffers ==> b.buffers[run].iteration == iteration
    ensures Output(Put(b, run, iteration, text), r) == Output(b, r) + if r == run then Marks(iteration, text) else []
  {
    hide Put, Live, Tagged, Marks;
    PutAppends(b, run, iteration, text, r);
    Associate(Tagged(b.log, r), Live(b.buffers, r), if r == run then Marks(iteration, text) else []);
  }

  lemma Associate(a: seq<Mark>, b: seq<Mark>, c: seq<Mark>)
    ensures a + (b + c) == a + b + c
  {
  }

  /** An accepted piece appears once, at the end, in its own Run only. */
  lemma AcceptConserves(b: Bridge, run: RunId, iteration: int, text: string, r: RunId)
    ensures Output(Accept(b, run, iteration, text), r) == Output(b, r) + if r == run then Marks(iteration, text) else []
  {
    var s := Switch(b, run, iteration);
    var p := Put(s, run, iteration, text);
    hide Output, Marks;
    SwitchedIteration(b, run, iteration);
    FlushConserves(b, run, r);
    FlushConserves(p, run, r);
    PutConserves(s, run, iteration, text, r);
    hide Flush;
    assert Output(Settle(p, run), r) == Output(p, r) by {
      SameTextsSameOutput(p, Settle(p, run), r);
    }
  }

  lemma SameTextsSameOutput(b: Bridge, c: Bridge, r: RunId)
    ensures b.log == c.log && b.buffers == c.buffers ==> Output(b, r) == Output(c, r)
  {
  }

  lemma SwitchedIteration(b: Bridge, run: RunId, iteration: int)
    ensures var s := Switch(b, run, iteration); run in s.buffers ==> s.buffers[run].iteration == iteration
  {
  }

  /** What a Run has buffered from this iteration. */
  function HeldFrom(b: Bridge, run: RunId, iteration: int): string {
    if run in b.buffers && b.buffers[run].iteration == iteration then b.buffers[run].content else ""
  }

  /** What a Run has buffered from another iteration, as the event it becomes. */
  function Leftover(b: Bridge, run: RunId, iteration: int): seq<StreamEvent> {
    if run in b.buffers && b.buffers[run].iteration != iteration && b.buffers[run].content != ""
    then [Delta(run, b.buffers[run].iteration, b.buffers[run].content)] else []
  }

  /**
   What a piece makes the bridge write: output left over from another iteration, and its
   own iteration's output as one event just when that reaches the limit. Otherwise the
   piece waits, with a timer.
   */
  lemma WritesOnlyWhenDue(b: Bridge, run: RunId, iteration: int, text: string)
    requires text != ""
    ensures var a, held := Accept(b, run, iteration, text), HeldFrom(b, run, iteration) + text;
      if |held| >= b.limit
      then a.log == b.log + Leftover(b, run, iteration) + [Delta(run, iteration, held)] && run !in a.buffers && run !in a.timers
      else a.log == b.log + Leftover(b, run, iteration) && run in a.buffers && a.buffers[run] == Buffer(iteration, held) && run in a.timers
  {
    var s := Switch(b, run, iteration);
    assert s.log == b.log + Leftover(b, run, iteration);
    assert HeldFrom(s, run, iteration) == HeldFrom(b, run, iteration);
    var p := Put(s, run, iteration, text);
    assert p.log == s.log && p.buffers[run] == Buffer(iteration, HeldFrom(b, run, iteration) + text);
    hide Switch, Put, Leftover, HeldFrom;
  }

  // ---------- runs of the bridge ----------

  /** A tool call that flushed but has not written its event yet, with how much output had been accepted then. */
  datatype Opening = Opening(run: RunId, tool: string, iteration: int, accepted: nat)

  /** A written tool start: where it stands in the log, and how much output had been accepted when the tool started. */
  datatype Begun = Begun(position: nat, opening: Opening)

  datatype World = World(bridge: Bridge, started: map<TimerId, RunId>, accepted: map<RunId, seq<Mark>>,
                         openings: seq<Opening>, begun: seq<Begun>)

  datatype Step =
    | Piece(run: RunId, iteration: int, text: string)
    | ToolFlush(run: RunId, tool: string, iteration: int)
    | ToolWrite(k: nat)
    | ToolEnds(run: RunId, tool: string, iteration: int, status: string)
    | TimerFires(timer: TimerId)

  function Accepted(w: World, run: RunId): seq<Mark> {
    if run in w.accepted then w.accepted[run] else []
  }

  /** Any timer ever started may fire, even one that was cancelled: nothing below depends on cancellation being prompt. */
  predicate Enabled(w: World, s: Step) {
    match s
    case Piece(_, _, text) => text != ""
    case ToolWrite(k) => k < |w.openings|
    case TimerFires(timer) => timer in w.started
    case _ => true
  }

  function Take(w: World, s: Step): World
    requires Enabled(w, s)
  {
    match s
    case Piece(run, iteration, text) =>
      var b := Accept(w.bridge, run, iteration, text);
      w.(bridge := b,
         started := if b.nextTimer != w.bridge.nextTimer then w.started[w.bridge.nextTimer := run] else w.started,
         accepted := w.accepted[run := Accepted(w, run) + Marks(iteration, text)])
    case ToolFlush(run, tool, iteration) =>
      w.(bridge := Flush(w.bridge, run), openings := w.openings + [Opening(run, tool, iteration, |Accepted(w, run)|)])
    case ToolWrite(k) =>
      var o := w.openings[k];
      w.(bridge := w.bridge.(log := w.bridge.log + [ToolStarted(o.run, o.tool, o.iteration)]),
         openings := w.openings[..k] + w.openings[k + 1..],
         begun := w.begun + [Begun(|w.bridge.log|, o)])
    case ToolEnds(run, tool, iteration, status) =>
      w.(bridge := w.bridge.(log := w.bridge.log + [ToolCompleted(run, tool, iteration, status)]))
    case TimerFires(timer) => w.(bridge := Expire(w.bridge, timer, w.started[timer]))
  }

  predicate Runs(w: World, steps: seq<Step>)
    decreases |steps|
  {
    steps == [] || (Enabled(w, steps[0]) && Runs(Take(w, steps[0]), steps[1..]))
  }

  function Final(w: World, steps: seq<Step>): World
    requires Runs(w, steps)
    decreases |steps|
  {
    if steps == [] then w else Final(Take(w, steps[0]), steps[1..])
  }

  function Start(chars: int): World {
    World(Bridge(Max(32, chars), map[], map[], {}, 0, []), map[], map[], [], [])
  }

  /** Stored output followed by the live buffer is all output accepted, in order and with its iterations. */
  ghost predicate Conserved(w: World) {
    forall r :: Output(w.bridge, r) == Accepted(w, r)
  }

  /** A buffer is never empty or full, and a registered, living timer of the same Run will flush it. */
  ghost predicate Attended(b: Bridge, started: map<TimerId, RunId>) {
    && b.limit >= 32
    && (forall r :: r in b.buffers ==> 0 < |b.buffers[r].content| < b.limit && r in b.timers)
    && (forall r :: r in b.timers ==> b.timers[r] in b.alive && b.timers[r] in started && started[b.timers[r]] == r)
    && (forall t :: t in started ==> t < b.nextTimer)
  }

  /** When a tool start is written, all output accepted before the tool started is already stored in front of it. */
  ghost predicate ToolsAfterOutput(log: seq<StreamEvent>, openings: seq<Opening>, begun: seq<Begun>) {
    && (forall i :: 0 <= i < |openings| ==> openings[i].accepted <= |Tagged(log, openings[i].run)|)
    && (forall i :: 0 <= i < |begun| ==>
          && begun[i].position < |log|
          && log[begun[i].position] == ToolStarted(begun[i].opening.run, begun[i].opening.tool, begun[i].opening.iteration)
          && begun[i].opening.accepted <= |Tagged(log[..begun[i].position], begun[i].opening.run)|)
  }

  ghost predicate WorldOk(w: World) {
    && Conserved(w) && Attended(w.bridge, w.started)
    && ToolsAfterOutput(w.bridge.log, w.openings, w.begun)
  }

  lemma {:induction false} StoredOutputGrows(log: seq<StreamEvent>, more: seq<StreamEvent>, r: RunId)
    ensures Tagged(log, r) <= Tagged(log + more, r)
    ensures (forall i :: 0 <= i < |more| ==> !more[i].Delta?) ==> Tagged(log + more, r) == Tagged(log, r)
    decreases |more|
  {
    if more == [] {
      assert log + more == log;
    } else {
      var n := |more| - 1;
      StoredOutputGrows(log, more[..n], r);
      assert (log + more)[..|log + more| - 1] == log + more[..n];
    }
  }

  lemma LogGrowthKeepsTools(log: seq<StreamEvent>, more: seq<StreamEvent>, openings: seq<Opening>, begun: seq<Begun>)
    requires ToolsAfterOutput(log, openings, begun)
    ensures ToolsAfterOutput(log + more, openings, begun)
  {
    forall i | 0 <= i < |openings| ensures openings[i].accepted <= |Tagged(log + more, openings[i].run)| {
      StoredOutputGrows(log, more, openings[i].run);
    }
    hide Tagged;
    forall i | 0 <= i < |begun| ensures (log + more)[..begun[i].position] == log[..begun[i].position] { }
  }

  lemma AcceptGrowsLog(b: Bridge, run: RunId, iteration: int, text: string) returns (more: seq<StreamEvent>)
    ensures Accept(b, run, iteration, text).log == b.log + more
  {
    var a := Accept(b, run, iteration, text);
    more := a.log[|b.log|..];
  }

  lemma PieceKeeps(w: World, run: RunId, iteration: int, text: string)
    requires WorldOk(w) && text != ""
    ensures WorldOk(Take(w, Piece(run, iteration, text)))
  {
    var w' := Take(w, Piece(run, iteration, text));
    forall r ensures Output(w'.bridge, r) == Accepted(w', r) {
      AcceptConserves(w.bridge, run, iteration, text, r);
    }
    var more := AcceptGrowsLog(w.bridge, run, iteration, text);
    LogGrowthKeepsTools(w.bridge.log, more, w.openings, w.begun);
    AcceptAttends(w.bridge, w.started, run, iteration, text);
  }

  lemma AcceptAttends(b: Bridge, started: map<TimerId, RunId>, run: RunId, iteration: int, text: string)
    requires Attended(b, started) && text != ""
    ensures var a := Accept(b, run, iteration, text);
      Attended(a, if a.nextTimer != b.nextTimer then started[b.nextTimer := run] else started)
  {
  }

  lemma FlushKeeps(w: World, run: RunId)
    requires WorldOk(w)
    ensures var w' := w.(bridge := Flush(w.bridge, run));
      WorldOk(w') && Tagged(w'.bridge.log, run) == Accepted(w', run) && run !in w'.bridge.buffers
  {
    var w' := w.(bridge := Flush(w.bridge, run));
    forall r ensures Output(w'.bridge, r) == Accepted(w', r) {
      FlushConserves(w.bridge, run, r);
    }
    var more := w'.bridge.log[|w.bridge.log|..];
    assert w'.bridge.log == w.bridge.log + more;
    LogGrowthKeepsTools(w.bridge.log, more, w.openings, w.begun);
  }

  lemma ToolFlushKeeps(w: World, run: RunId, tool: string, iteration: int)
    requires WorldOk(w)
    ensures WorldOk(Take(w, ToolFlush(run, tool, iteration)))
  {
    FlushKeeps(w, run);
    var o := Opening(run, tool, iteration, |Accepted(w, run)|);
    OpeningsGrow(Flush(w.bridge, run).log, w.openings, w.begun, o);
    hide Flush, Tagged, Output, ToolsAfterOutput, Attended;
  }

  lemma OpeningsGrow(log: seq<StreamEvent>, openings: seq<Opening>, begun: seq<Begun>, o: Opening)
    requires ToolsAfterOutput(log, openings, begun)
    ensures o.accepted <= |Tagged(log, o.run)| ==> ToolsAfterOutput(log, openings + [o], begun)
  {
    hide Tagged;
  }

  lemma ToolWriteKeeps(w: World, k: nat)
    requires WorldOk(w) && k < |w.openings|
    ensures WorldOk(Take(w, ToolWrite(k)))
  {
    var o := w.openings[k];
    var e := ToolStarted(o.run, o.tool, o.iteration);
    var log := w.bridge.log;
    assert o.accepted <= |Tagged(log, o.run)|;
    assert (log + [e])[..|log|] == log;
    EventKeeps(w, e);
    hide Tagged, Live;
    BegunGrows(log + [e], w.openings, w.begun, k, Begun(|log|, o));
    hide ToolsAfterOutput;
  }

  lemma BegunGrows(log: seq<StreamEvent>, openings: seq<Opening>, begun: seq<Begun>, k: nat, b: Begun)
    requires ToolsAfterOutput(log, openings, begun) && k < |openings|
    requires b.position < |log| && log[b.position] == ToolStarted(b.opening.run, b.opening.tool, b.opening.iteration)
    requires b.opening.accepted <= |Tagged(log[..b.position], b.opening.run)|
    ensures ToolsAfterOutput(log, openings[..k] + openings[k + 1..], begun + [b])
  {
    hide Tagged;
  }

  /** Appending a tool event changes no output. */
  lemma EventKeeps(w: World, e: StreamEvent)
    requires WorldOk(w) && !e.Delta?
    ensures WorldOk(w.(bridge := w.bridge.(log := w.bridge.log + [e])))
  {
    var b := w.bridge.(log := w.bridge.log + [e]);
    forall r ensures Output(b, r) == Output(w.bridge, r) {
      StoredOutputGrows(w.bridge.log, [e], r);
    }
    LogGrowthKeepsTools(w.bridge.log, [e], w.openings, w.begun);
  }

  lemma StepKeeps(w: World, s: Step)
    requires WorldOk(w) && Enabled(w, s)
    ensures WorldOk(Take(w, s))
  {
    hide WorldOk, Flush, Accept, Expire;
    match s
    case Piece(run, iteration, text) => PieceKeeps(w, run, iteration, text);
    case ToolFlush(run, tool, iteration) => ToolFlushKeeps(w, run, tool, iteration);
    case ToolWrite(k) => ToolWriteKeeps(w, k);
    case ToolEnds(run, tool, iteration, status) => EventKeeps(w, ToolCompleted(run, tool, iteration, status));
    case TimerFires(timer) => ExpireKeeps(w, timer);
  }

  lemma DroppingATimerKeeps(w: World, timer: TimerId)
    requires WorldOk(w) && timer in w.started && w.started[timer] !in w.bridge.timers
    ensures WorldOk(w.(bridge := w.bridge.(alive := w.bridge.alive - {timer})))
  {
    var b := w.bridge.(alive := w.bridge.alive - {timer});
    forall r ensures Output(b, r) == Output(w.bridge, r) {
      SameTextsSameOutput(w.bridge, b, r);
    }
    hide Output, ToolsAfterOutput;
  }

  lemma ExpireKeeps(w: World, timer: TimerId)
    requires WorldOk(w) && Enabled(w, TimerFires(timer))
    ensures WorldOk(Take(w, TimerFires(timer)))
  {
    var run := w.started[timer];
    FlushKeeps(w, run);
    assert run !in Flush(w.bridge, run).timers;
    hide WorldOk, Flush;
    DroppingATimerKeeps(w.(bridge := Flush(w.bridge, run)), timer);
  }

  /** Over any order of output, tools and timers: nothing is lost, duplicated, reordered or mixed, and no buffer is forgotten. */
  lemma {:induction false} RunKeeps(w: World, steps: seq<Step>)
    requires WorldOk(w) && Runs(w, steps)
    ensures WorldOk(Final(w, steps))
    decreases |steps|
  {
    if steps != [] {
      StepKeeps(w, steps[0]);
      RunKeeps(Take(w, steps[0]), steps[1..]);
    }
  }

  lemma StartIsOk(chars: int)
    ensures WorldOk(Start(chars))
  {
  }

  /** Once every living timer has fired or been cancelled, all accepted output is stored. */
  lemma QuietMeansStored(chars: int, steps: seq<Step>, r: RunId)
    requires Runs(Start(chars), steps) && Final(Start(chars), steps).bridge.alive == {}
    ensures Tagged(Final(Start(chars), steps).bridge.log, r) == Accepted(Final(Start(chars), steps), r)
  {
    StartIsOk(chars);
    RunKeeps(Start(chars), steps);
    hide Tagged;
    var w := Final(Start(chars), steps);
    assert w.bridge.timers == map[] by {
      forall q ensures q !in w.bridge.timers { }
    }
  }

  /** A tool start in the stream stands behind every piece of output accepted before the tool started. */
  lemma OutputPrecedesTools(chars: int, steps: seq<Step>, i: nat)
    requires Runs(Start(chars), steps) && i < |Final(Start(chars), steps).begun|
    ensures var w := Final(Start(chars), steps);
      var o := w.begun[i];
      && o.position <= |w.bridge.log| && o.opening.accepted <= |Accepted(w, o.opening.run)|
      && Accepted(w, o.opening.run)[..o.opening.accepted] <= Tagged(w.bridge.log[..o.position], o.opening.run)
  {
    StartIsOk(chars);
    RunKeeps(Start(chars), steps);
    var w := Final(Start(chars), steps);
    var o := w.begun[i];
    StoredOutputGrows(w.bridge.log[..o.position], w.bridge.log[o.position..], o.opening.run);
    assert w.bridge.log[..o.position] + w.bridge.log[o.position..] == w.bridge.log;
    hide Tagged, Live;
    assert Output(w.bridge, o.opening.run) == Accepted(w, o.opening.run);
  }
}
