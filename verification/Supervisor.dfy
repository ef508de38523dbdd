/**
 The supervising half of the restart handshake (agent/supervisor.py): which lines
 of a child's private pipe count as a commit, how a child is awaited, and when a
 new generation is started.
 */
module Supervisor {
  import opened Prelude
  import Restart
  import Text

  const RESTART_EXIT := 75
  const FAILURE_EXIT := 70

  /** The JSON objects the pipe carries, as far as they are looked at; reading JSON is left to `parse`. */
  datatype Record = Record(kind: string, boot: string, nonce: string, request: string)
  type Parser = string -> Option<Record>

  predicate IsBreak(c: char) {
    c == '\n' || c == '\r'
  }

  function RunLength(s: string): (n: nat)
    ensures n <= |s| && forall i :: 0 <= i < n ==> !IsBreak(s[i])
    ensures n < |s| ==> IsBreak(s[n])
  {
    if s == "" || IsBreak(s[0]) then 0 else 1 + RunLength(s[1..])
  }

  /** The lines of a payload that are not empty. */
  function Lines(s: string): seq<string>
    decreases |s|
  {
    if s == "" then []
    else if IsBreak(s[0]) then Lines(s[1..])
    else [s[..RunLength(s)]] + Lines(s[RunLength(s)..])
  }

  predicate Genuine(r: Record, boot: string, nonce: string) {
    r.kind == "restart_commit" && r.boot == boot && r.nonce == nonce && "restart_" <= r.request
  }

  predicate GenuineLine(line: string, parse: Parser, boot: string, nonce: string) {
    parse(line).Some? && Genuine(parse(line).value, boot, nonce)
  }

  predicate ValidCommit(payload: string, parse: Parser, boot: string, nonce: string) {
    |Lines(payload)| == 1 && GenuineLine(Lines(payload)[0], parse, boot, nonce)
  }

  // ---------- one child ----------

  /** One round of the polling loop: whether the child still runs, what the pipe had, the readiness file, the clock. */
  datatype Poll = Poll(running: bool, chunk: string, readiness: Option<(string, int, string)>, clock: Time)

  datatype ChildResult = ChildResult(exitCode: int, ready: bool, commitValid: bool)

  function Received(polls: seq<Poll>): string {
    if polls == [] then "" else Received(polls[..|polls| - 1]) + polls[|polls| - 1].chunk
  }

  predicate ShowsReady(p: Poll, boot: string, pid: int) {
    p.readiness == Some((boot, pid, "ready"))
  }

  /** The rounds in which the child still ran, and then the one after its exit. */
  predicate Observed(polls: seq<Poll>) {
    |polls| > 0 && forall i :: 0 <= i < |polls| ==> (polls[i].running <==> i < |polls| - 1)
  }

  predicate SeenReady(polls: seq<Poll>, boot: string, pid: int) {
    exists i :: 0 <= i < |polls| && ShowsReady(polls[i], boot, pid)
  }

  /** The child was not yet ready in some round at or after the deadline: it is terminated. */
  predicate TooLate(polls: seq<Poll>, boot: string, pid: int, deadline: Time) {
    exists i :: 0 <= i < |polls| && polls[i].running && deadline <= polls[i].clock
      && forall j :: 0 <= j <= i ==> !ShowsReady(polls[j], boot, pid)
  }

  /**
   One generation: its boot id and nonce, the stop signals around it, and what is
   observed of its child.
   */
  datatype Life = Life(boot: string, nonce: string, stopBefore: bool, spawnBlocked: bool, stopAtSpawn: bool, stopDuring: bool,
                       pid: int, deadline: Time, polls: seq<Poll>, exitCode: int)

  /** The generation gets as far as awaiting its child. */
  predicate Awaited(l: Life) {
    !l.stopBefore && !l.spawnBlocked && !l.stopAtSpawn
  }

  /** What awaiting the child is to report. */
  function ResultOf(l: Life, parse: Parser): ChildResult {
    if TooLate(l.polls, l.boot, l.pid, l.deadline) then ChildResult(FAILURE_EXIT, false, false)
    else ChildResult(l.exitCode, SeenReady(l.polls, l.boot, l.pid), ValidCommit(Received(l.polls), parse, l.boot, l.nonce))
  }

  /** The polling loop of `_wait_child` over the observations it makes. */
  method WaitChild(l: Life, parse: Parser) returns (result: ChildResult)
    requires Observed(l.polls)
    ensures result == ResultOf(l, parse)
  {
    var polls := l.polls;
    var ready := false;
    var buffer := "";
    var i := 0;
    while polls[i].running
      invariant 0 <= i < |polls| && (i == |polls| - 1 <==> !polls[i].running)
      invariant buffer == Received(polls[..i])
      invariant ready <==> exists j :: 0 <= j < i && ShowsReady(polls[j], l.boot, l.pid)
      invariant forall k :: 0 <= k < i && l.deadline <= polls[k].clock ==> exists j :: 0 <= j <= k && ShowsReady(polls[j], l.boot, l.pid)
      decreases |polls| - i
    {
      buffer := buffer + polls[i].chunk;
      assert polls[..i + 1][..i] == polls[..i];
      if !ready {
        ready := ShowsReady(polls[i], l.boot, l.pid);
        if !ready && polls[i].clock >= l.deadline {
          return ChildResult(FAILURE_EXIT, false, false);
        }
      }
      i := i + 1;
    }
    buffer := buffer + polls[i].chunk;
    assert polls[..i + 1] == polls && polls[..i + 1][..i] == polls[..i];
    if !ready {
      ready := ShowsReady(polls[i], l.boot, l.pid);
    }
    return ChildResult(l.exitCode, ready, ValidCommit(buffer, parse, l.boot, l.nonce));
  }

  // ---------- generations ----------

  predicate Renewed(l: Life, parse: Parser) {
    && Awaited(l) && !l.stopDuring
    && ResultOf(l, parse) == ChildResult(RESTART_EXIT, true, true)
  }

  function PortableExit(code: int): int {
    if code >= 0 then code else 128 + -code
  }

  /** What the supervisor returns with when a life is its last. */
  function Verdict(l: Life, parse: Parser): int {
    if !Awaited(l) || l.stopDuring then 0
    else if ResultOf(l, parse).exitCode != RESTART_EXIT then PortableExit(ResultOf(l, parse).exitCode)
    else FAILURE_EXIT
  }

  /**
   The generation loop over a script of lives. It starts the next life only when the
   one before was renewed, and otherwise ends at once with that life's verdict;
   None means that the script ran out while the supervisor was still running.
   */
  method RunSupervisor(lives: seq<Life>, parse: Parser) returns (code: Option<int>, begun: nat)
    requires forall g :: 0 <= g < |lives| && Awaited(lives[g]) ==> Observed(lives[g].polls)
    ensures begun <= |lives|
    ensures forall g :: 0 <= g < begun - 1 ==> Renewed(lives[g], parse)
    ensures code.Some? ==> 0 < begun && !Renewed(lives[begun - 1], parse) && code.value == Verdict(lives[begun - 1], parse)
    ensures code.None? ==> begun == |lives| && forall g :: 0 <= g < begun ==> Renewed(lives[g], parse)
    ensures forall g :: 0 <= g < begun - 1 ==> OwnEvidence(lives[g], parse)
    ensures forall g, h :: 0 <= g < h < begun - 1 && lives[g].boot != lives[h].boot ==>
      Received(lives[g].polls) != Received(lives[h].polls)
  {
    EvidenceIsOwn(lives, parse);
    hide ResultOf, OwnEvidence, Received;
    begun := 0;
    while begun < |lives|
      invariant begun <= |lives|
      invariant forall g :: 0 <= g < begun ==> Renewed(lives[g], parse)
    {
      var life := lives[begun];
      begun := begun + 1;
      if life.stopBefore {
        return Some(0), begun;
      }
      if life.spawnBlocked {
        return Some(0), begun;
      }
      if life.stopAtSpawn {
        return Some(0), begun;
      }
      var result := WaitChild(life, parse);
      if life.stopDuring {
        return Some(0), begun;
      }
      if result.exitCode != RESTART_EXIT {
        return Some(PortableExit(result.exitCode)), begun;
      }
      if !result.ready || !result.commitValid {
        return Some(FAILURE_EXIT), begun;
      }
    }
    return None, begun;
  }

  /**
   The exit code in plain numbers: zero when stopped; otherwise the child's own, with 128
   added to the number of the signal that killed it; and 70 for a child that was not
   ready in time, or that asked for a restart without the proof for it.
   */
  lemma VerdictInNumbers(l: Life, parse: Parser)
    requires !Renewed(l, parse)
    ensures var late := TooLate(l.polls, l.boot, l.pid, l.deadline);
      && (l.stopBefore || l.spawnBlocked || l.stopAtSpawn || l.stopDuring ==> Verdict(l, parse) == 0)
      && (Awaited(l) && !l.stopDuring && (late || l.exitCode == 75) ==> Verdict(l, parse) == 70)
      && (Awaited(l) && !l.stopDuring && !late && l.exitCode != 75 && l.exitCode >= 0 ==> Verdict(l, parse) == l.exitCode)
      && (Awaited(l) && !l.stopDuring && !late && l.exitCode < 0 ==> Verdict(l, parse) == 128 - l.exitCode)
  {
    hide TooLate, Received, SeenReady, ValidCommit;
  }

  /**
   The evidence for a generation is its own: a round that showed the readiness of its own
   boot and pid, and one line in its pipe, genuine for its own boot and nonce.
   */
  ghost predicate OwnEvidence(l: Life, parse: Parser) {
    && (exists i :: 0 <= i < |l.polls| && l.polls[i].readiness == Some((l.boot, l.pid, "ready")))
    && (exists line :: Lines(Received(l.polls)) == [line] && GenuineLine(line, parse, l.boot, l.nonce))
  }

  /** Renewed generations have their own evidence, and no two of different boots can show the same payload. */
  lemma EvidenceIsOwn(lives: seq<Life>, parse: Parser)
    ensures forall g :: 0 <= g < |lives| && Renewed(lives[g], parse) ==> OwnEvidence(lives[g], parse)
    ensures forall g, h | 0 <= g < h < |lives| && Renewed(lives[g], parse) && Renewed(lives[h], parse)
      && lives[g].boot != lives[h].boot :: Received(lives[g].polls) != Received(lives[h].polls)
  {
    hide Received, TooLate, SeenReady, Lines, GenuineLine;
    forall g | 0 <= g < |lives| && Renewed(lives[g], parse) ensures OwnEvidence(lives[g], parse) {
      RenewalIsItsOwn(lives[g], parse);
    }
    forall g, h | 0 <= g < h < |lives| && Renewed(lives[g], parse) && Renewed(lives[h], parse) && lives[g].boot != lives[h].boot
      ensures Received(lives[g].polls) != Received(lives[h].polls)
    {
      CommitsAreNotTransferable(Received(lives[g].polls), parse, lives[g].boot, lives[g].nonce, lives[h].boot, lives[h].nonce);
    }
  }

  /**
   What renews a generation is its own: some round showed the readiness of its own boot
   and pid, before the deadline had passed unready, its child exited with the restart
   code, and its pipe held one line, genuine for its own boot and nonce.
   */
  lemma RenewalIsItsOwn(l: Life, parse: Parser)
    ensures Renewed(l, parse) <==>
      && Awaited(l) && !l.stopDuring && l.exitCode == RESTART_EXIT
      && !TooLate(l.polls, l.boot, l.pid, l.deadline)
      && (exists i :: 0 <= i < |l.polls| && l.polls[i].readiness == Some((l.boot, l.pid, "ready")))
      && (exists line :: Lines(Received(l.polls)) == [line] && GenuineLine(line, parse, l.boot, l.nonce))
  {
    hide TooLate, Received, Lines, GenuineLine;
    var lines := Lines(Received(l.polls));
    if |lines| == 1 {
      assert lines == [lines[0]];
    }
    assert SeenReady(l.polls, l.boot, l.pid) <==>
      exists i :: 0 <= i < |l.polls| && l.polls[i].readiness == Some((l.boot, l.pid, "ready"));
  }

  /** A commit of one generation is worth nothing to another: with another boot or nonce the same payload is refused. */
  lemma CommitsAreNotTransferable(payload: string, parse: Parser, boot: string, nonce: string, boot': string, nonce': string)
    requires ValidCommit(payload, parse, boot, nonce) && (boot' != boot || nonce' != nonce)
    ensures !ValidCommit(payload, parse, boot', nonce')
  {
    hide Lines;
  }

  // ---------- what a child's writes leave in the pipe ----------

  /** The text of one frame, without its line end. */
  type Renderer = Restart.Request -> string

  /** How much of a frame's text is in the pipe: a torn write leaves at most all but the line end. */
  function Part(f: Restart.Frame, render: Renderer): string {
    match f.write
    case Whole => render(f.request)
    case Torn(part) => if part < |render(f.request)| then render(f.request)[..part] else render(f.request)
    case Refused => ""
  }

  function PipeText(pipe: seq<Restart.Frame>, render: Renderer): string {
    if pipe == [] then ""
    else
      var f := pipe[|pipe| - 1];
      PipeText(pipe[..|pipe| - 1], render) + Part(f, render) + if f.write.Whole? then "\n" else ""
  }

  predicate NoneWhole(pipe: seq<Restart.Frame>) {
    forall k :: 0 <= k < |pipe| ==> !pipe[k].write.Whole?
  }

  /** Every frame is of this boot; frames are text in one line. */
  ghost predicate OfBoot(pipe: seq<Restart.Frame>, boot: string) {
    forall k :: 0 <= k < |pipe| ==> pipe[k].request.boot == boot
  }

  /** A frame of which only the line end is missing. */
  predicate LacksOnlyLineEnd(f: Restart.Frame, render: Renderer) {
    f.write.Torn? && |render(f.request)| <= f.write.part
  }

  /** Rendered frames are single lines that parse back to this boot's commit record. */
  ghost predicate Faithful(render: Renderer, parse: Parser, boot: string, nonce: string) {
    forall r: Restart.Request :: r.boot == boot ==>
      render(r) != "" && (forall c :: c in render(r) ==> !IsBreak(c)) && GenuineLine(render(r), parse, boot, nonce)
  }

  /**
   Fragments are not taken for frames: text that torn writes left is not genuine in
   front of a whole frame, and alone only if one write was torn of just its line end.
   */
  ghost predicate Unambiguous(render: Renderer, parse: Parser, boot: string, nonce: string) {
    forall torn: seq<Restart.Frame> | OfBoot(torn, boot) && NoneWhole(torn) && PipeText(torn, render) != "" ::
      && (forall r: Restart.Request :: r.boot == boot ==> !GenuineLine(PipeText(torn, render) + render(r), parse, boot, nonce))
      && (GenuineLine(PipeText(torn, render), parse, boot, nonce) ==>
            exists k :: 0 <= k < |torn| && LacksOnlyLineEnd(torn[k], render))
  }

  lemma OneLine(line: string)
    requires line != "" && forall c :: c in line ==> !IsBreak(c)
    ensures Lines(line + "\n") == [line] && Lines(line) == [line]
  {
    LineAlone(line);
    var s := line + "\n";
    var n := RunLength(s);
    assert s[0] == line[0] && line[0] in line;
    forall i | 0 <= i < |line| ensures !IsBreak(s[i]) {
      assert line[i] in line;
    }
    assert IsBreak(s[|line|]) && n == |line|;
    assert s[..n] == line && s[n..] == "\n";
    assert Lines("\n") == Lines("\n"[1..]) == [];
  }

  lemma LineAlone(line: string)
    requires line != "" && forall c :: c in line ==> !IsBreak(c)
    ensures Lines(line) == [line]
  {
    forall i | 0 <= i < |line| ensures !IsBreak(line[i]) {
      assert line[i] in line;
    }
    assert RunLength(line) == |line| && line[..|line|] == line && line[|line|..] == "";
  }

  /** Torn writes leave no line end. */
  lemma {:induction false} TornTextIsOneLine(torn: seq<Restart.Frame>, render: Renderer, parse: Parser, boot: string, nonce: string)
    requires OfBoot(torn, boot) && NoneWhole(torn) && Faithful(render, parse, boot, nonce)
    ensures forall c :: c in PipeText(torn, render) ==> !IsBreak(c)
  {
    if torn != [] {
      var n := |torn| - 1;
      TornTextIsOneLine(torn[..n], render, parse, boot, nonce);
      assert forall c :: c in Part(torn[n], render) ==> c in render(torn[n].request);
    }
  }

  /** A pipe with torn writes only is valid just if their text is genuine. */
  lemma TornPipeValid(torn: seq<Restart.Frame>, render: Renderer, parse: Parser, boot: string, nonce: string)
    requires OfBoot(torn, boot) && NoneWhole(torn) && Faithful(render, parse, boot, nonce)
    ensures ValidCommit(PipeText(torn, render), parse, boot, nonce) <==>
      PipeText(torn, render) != "" && GenuineLine(PipeText(torn, render), parse, boot, nonce)
  {
    TornTextIsOneLine(torn, render, parse, boot, nonce);
    if PipeText(torn, render) != "" {
      LineAlone(PipeText(torn, render));
    }
    assert Lines("") == [];
    hide Lines, PipeText, Genuine;
  }

  /** A pipe that ends with a whole frame is valid just if what stands in front of it is nothing. */
  lemma WholePipeValid(torn: seq<Restart.Frame>, last: Restart.Frame, render: Renderer, parse: Parser, boot: string, nonce: string)
    requires OfBoot(torn, boot) && NoneWhole(torn) && last.write.Whole? && last.request.boot == boot
    requires Faithful(render, parse, boot, nonce) && Unambiguous(render, parse, boot, nonce)
    ensures ValidCommit(PipeText(torn + [last], render), parse, boot, nonce) <==> PipeText(torn, render) == ""
  {
    var line := PipeText(torn, render) + render(last.request);
    assert (torn + [last])[..|torn|] == torn;
    assert PipeText(torn + [last], render) == line + "\n";
    TornTextIsOneLine(torn, render, parse, boot, nonce);
    OneLine(line);
    if PipeText(torn, render) == "" {
      assert line == render(last.request);
    }
    hide Lines, PipeText, Genuine;
  }

  /** Nothing in the pipe but the line end: no write left a character. */
  lemma {:induction false} EmptyTextIff(torn: seq<Restart.Frame>, render: Renderer)
    requires NoneWhole(torn)
    ensures PipeText(torn, render) == "" <==> forall k :: 0 <= k < |torn| ==> Part(torn[k], render) == ""
  {
    if torn != [] {
      var n := |torn| - 1;
      EmptyTextIff(torn[..n], render);
      assert forall k :: 0 <= k < n ==> torn[..n][k] == torn[k];
    }
  }

  // ---------- both halves together ----------

  lemma {:induction false} WholeFramesAreCounted(pipe: seq<Restart.Frame>)
    ensures Restart.WholeFrames(pipe) == 0 <==> NoneWhole(pipe)
  {
    if pipe != [] {
      WholeFramesAreCounted(pipe[..|pipe| - 1]);
    }
  }

  lemma FrameOfBoot(c: Restart.Coordinator, e: Restart.Event)
    requires Restart.CoordinatorOk(c) && OfBoot(c.pipe, c.boot)
    ensures Restart.Apply(c, e).boot == c.boot && OfBoot(Restart.Apply(c, e).pipe, c.boot)
  {
    Restart.OnlyPendingIsWritten(c, e);
    hide Restart.Apply;
  }

  lemma {:induction false} FramesAreOfBoot(c: Restart.Coordinator, events: seq<Restart.Event>)
    requires Restart.CoordinatorOk(c) && Restart.Plausible(c, events) && OfBoot(c.pipe, c.boot)
    ensures Restart.Play(c, events).boot == c.boot && OfBoot(Restart.Play(c, events).pipe, c.boot)
    decreases |events|
  {
    if events != [] {
      Restart.EventKeeps(c, events[0]);
      FrameOfBoot(c, events[0]);
      hide Restart.CoordinatorOk, Restart.Apply, Restart.Possible, OfBoot;
      FramesAreOfBoot(Restart.Apply(c, events[0]), events[1..]);
    }
  }

  /** What the pipe of a child looks like, committed or not. */
  lemma PipeShape(boot: string, events: seq<Restart.Event>)
    requires Restart.Plausible(Restart.Fresh(boot, true), events)
    ensures var c := Restart.Play(Restart.Fresh(boot, true), events);
      && OfBoot(c.pipe, boot)
      && (!c.phase.Committed? ==> NoneWhole(c.pipe))
      && (c.phase.Committed? ==> c.pipe != [] && NoneWhole(c.pipe[..|c.pipe| - 1]) && c.pipe[|c.pipe| - 1].write.Whole?)
  {
    Restart.FreshIsOk(boot, true);
    Restart.RunKeeps(Restart.Fresh(boot, true), events);
    FramesAreOfBoot(Restart.Fresh(boot, true), events);
    var c := Restart.Play(Restart.Fresh(boot, true), events);
    WholeFramesAreCounted(c.pipe);
    if c.pipe != [] {
      WholeFramesAreCounted(c.pipe[..|c.pipe| - 1]);
    }
  }

  /**
   When a committed child is honoured: its pipe is valid if and only if every write that
   was torn before the commit left no character at all.
   */
  lemma CommitIsHonouredIff(boot: string, nonce: string, events: seq<Restart.Event>, render: Renderer, parse: Parser)
    requires Restart.Plausible(Restart.Fresh(boot, true), events)
    requires Faithful(render, parse, boot, nonce) && Unambiguous(render, parse, boot, nonce)
    requires Restart.Play(Restart.Fresh(boot, true), events).phase.Committed?
    ensures var c := Restart.Play(Restart.Fresh(boot, true), events);
      ValidCommit(PipeText(c.pipe, render), parse, boot, nonce) <==>
      forall k :: 0 <= k < |c.pipe| && !c.pipe[k].write.Whole? ==> Part(c.pipe[k], render) == ""
  {
    hide Restart.Play, Restart.Plausible, Restart.Fresh, Faithful, Unambiguous, ValidCommit, PipeText, Part;
    PipeShape(boot, events);
    var c := Restart.Play(Restart.Fresh(boot, true), events);
    var torn, last := c.pipe[..|c.pipe| - 1], c.pipe[|c.pipe| - 1];
    assert torn + [last] == c.pipe;
    WholePipeValid(torn, last, render, parse, boot, nonce);
    EmptyTextIff(torn, render);
    assert forall k :: 0 <= k < |torn| ==> torn[k] == c.pipe[k];
  }

  /**
   When an accepted pipe means a commit: the coordinator of a child whose pipe is valid
   is committed if and only if no write was torn of just its line end.
   */
  lemma AcceptedMeansCommittedIff(boot: string, nonce: string, events: seq<Restart.Event>, render: Renderer, parse: Parser)
    requires Restart.Plausible(Restart.Fresh(boot, true), events)
    requires Faithful(render, parse, boot, nonce) && Unambiguous(render, parse, boot, nonce)
    requires ValidCommit(PipeText(Restart.Play(Restart.Fresh(boot, true), events).pipe, render), parse, boot, nonce)
    ensures var c := Restart.Play(Restart.Fresh(boot, true), events);
      c.phase.Committed? <==> forall k :: 0 <= k < |c.pipe| ==> !LacksOnlyLineEnd(c.pipe[k], render)
  {
    PipeShape(boot, events);
    var c := Restart.Play(Restart.Fresh(boot, true), events);
    if c.phase.Committed? {
      CommitIsHonouredIff(boot, nonce, events, render, parse);
      hide Restart.Play, Unambiguous, Lines, PipeText;
      forall k | 0 <= k < |c.pipe| ensures !LacksOnlyLineEnd(c.pipe[k], render) {
      }
    } else {
      hide Restart.Play, Lines;
      TornPipeValid(c.pipe, render, parse, boot, nonce);
    }
  }

  /**
   Safety across the two processes: if the supervisor renews a child whose pipe holds
   what the child's coordinator wrote, then some turn that armed a restart had completed
   and its reply had been delivered.
   */
  lemma RenewalWasEarned(life: Life, events: seq<Restart.Event>, render: Renderer, parse: Parser)
    requires Restart.Plausible(Restart.Fresh(life.boot, true), events)
    requires Received(life.polls) == PipeText(Restart.Play(Restart.Fresh(life.boot, true), events).pipe, render)
    requires Renewed(life, parse)
    ensures exists r: Restart.Request :: Restart.Earned(r, events)
  {
    var c := Restart.Play(Restart.Fresh(life.boot, true), events);
    Restart.OneEarnedFramePerBoot(life.boot, true, events);
    hide Restart.Play, Restart.Earned, TooLate, SeenReady;
    assert Lines("") == [];
    if c.pipe != [] {
      assert Restart.Earned(c.pipe[0].request, events);
    }
  }

  /** Progress: a committed child that was ready in time and exits with the restart code is renewed just when no torn write left a trace. */
  lemma CommittedChildIsRenewedIff(life: Life, events: seq<Restart.Event>, render: Renderer, parse: Parser)
    requires Restart.Plausible(Restart.Fresh(life.boot, true), events)
    requires Faithful(render, parse, life.boot, life.nonce) && Unambiguous(render, parse, life.boot, life.nonce)
    requires Received(life.polls) == PipeText(Restart.Play(Restart.Fresh(life.boot, true), events).pipe, render)
    requires Restart.Play(Restart.Fresh(life.boot, true), events).phase.Committed?
    requires Awaited(life) && !life.stopDuring && life.exitCode == RESTART_EXIT
    requires SeenReady(life.polls, life.boot, life.pid) && !TooLate(life.polls, life.boot, life.pid, life.deadline)
    ensures Renewed(life, parse) <==>
      var c := Restart.Play(Restart.Fresh(life.boot, true), events);
      forall k :: 0 <= k < |c.pipe| && !c.pipe[k].write.Whole? ==> Part(c.pipe[k], render) == ""
  {
    CommitIsHonouredIff(life.boot, life.nonce, events, render, parse);
    hide Restart.Play, Faithful, Unambiguous, ValidCommit, PipeText, Part, TooLate, SeenReady, Received;
  }

  // ---------- runs at which the simple claims fail ----------

  /** A turn arms a restart, completes and is delivered; then the coordinator writes its frame. */
  function Attempt(turn: string, reason: string, id: nat, write: Restart.Write): seq<Restart.Event> {
    [Restart.ArmCall(true, turn, true, reason, true, id, id), Restart.Terminal(turn, true, Restart.Refused),
     Restart.Delivery(turn, write)]
  }

  lemma OneAttempt(c: Restart.Coordinator, turn: string, reason: string, id: nat, write: Restart.Write)
    requires c.supervised && c.pending.None? && !c.phase.Committed? && id !in c.issued && id !in c.watchdogs
    requires turn != "" && 1 <= |Text.Strip(reason)| <= 300 && !write.Refused?
    ensures Restart.Plausible(c, Attempt(turn, reason, id, write))
    ensures var after := Restart.Play(c, Attempt(turn, reason, id, write));
      && after.pipe == c.pipe + [Restart.Frame(Restart.Request(id, c.boot, turn, Text.Strip(reason)), write)]
      && after.phase == (if write.Whole? then Restart.Committed else Restart.Cancelled)
      && (after.pending.None? <==> write.Torn?) && after.supervised && after.boot == c.boot
      && after.issued == c.issued + {id} && after.watchdogs == c.watchdogs[id := id]
  {
    hide Text.Strip;
    var events := Attempt(turn, reason, id, write);
    var c1 := Restart.Apply(c, events[0]);
    var c2 := Restart.Apply(c1, events[1]);
    var c3 := Restart.Apply(c2, events[2]);
    assert c1 == Restart.Arm(c, turn, Text.Strip(reason), id, id);
    assert c2 == c1.(turnDone := true, phase := Restart.WaitingDelivery);
    assert Restart.Possible(c, events[0]) && Restart.Possible(c1, events[1]) && Restart.Possible(c2, events[2]);
    hide Restart.Apply, Restart.Possible;
    assert events[1..] == [events[1], events[2]] && events[1..][1..] == [events[2]] && [events[2]][1..] == [];
    assert Restart.Play(c3, []) == c3 && Restart.Plausible(c3, []);
    assert Restart.Play(c2, [events[2]]) == c3 && Restart.Plausible(c2, [events[2]]);
    assert Restart.Play(c1, events[1..]) == c3 && Restart.Plausible(c1, events[1..]);
  }

  lemma {:induction false} PlaysCompose(c: Restart.Coordinator, events: seq<Restart.Event>, more: seq<Restart.Event>)
    requires Restart.Plausible(c, events) && Restart.Plausible(Restart.Play(c, events), more)
    ensures Restart.Plausible(c, events + more) && Restart.Play(c, events + more) == Restart.Play(Restart.Play(c, events), more)
    decreases |events|
  {
    hide Restart.Apply, Restart.Possible;
    if events == [] {
      assert events + more == more;
    } else {
      PlaysCompose(Restart.Apply(c, events[0]), events[1..], more);
      assert (events + more)[1..] == events[1..] + more;
    }
  }

  function TornThenWhole(reason: string, part: nat): seq<Restart.Event> {
    Attempt("first", reason, 0, Restart.Torn(part)) + Attempt("second", reason, 1, Restart.Whole)
  }

  lemma TornThenWholePlays(boot: string, reason: string, part: nat)
    requires 1 <= |Text.Strip(reason)| <= 300
    ensures Restart.Plausible(Restart.Fresh(boot, true), TornThenWhole(reason, part))
    ensures var c := Restart.Play(Restart.Fresh(boot, true), TornThenWhole(reason, part));
      c.phase.Committed? && |c.pipe| == 2 && c.pipe[0].write == Restart.Torn(part) && c.pipe[0].request.boot == boot
  {
    var start := Restart.Fresh(boot, true);
    var first, second := Attempt("first", reason, 0, Restart.Torn(part)), Attempt("second", reason, 1, Restart.Whole);
    hide Text.Strip, Attempt, Restart.Play, Restart.Plausible;
    OneAttempt(start, "first", reason, 0, Restart.Torn(part));
    OneAttempt(Restart.Play(start, first), "second", reason, 1, Restart.Whole);
    PlaysCompose(start, first, second);
  }

  /** A frame torn after at least one character, then a whole one: the coordinator is committed, its pipe is refused. */
  lemma TornThenWholeIsRefused(boot: string, nonce: string, reason: string, part: nat, render: Renderer, parse: Parser)
    requires part > 0 && 1 <= |Text.Strip(reason)| <= 300
    requires Faithful(render, parse, boot, nonce) && Unambiguous(render, parse, boot, nonce)
    ensures var events := TornThenWhole(reason, part);
      && Restart.Plausible(Restart.Fresh(boot, true), events)
      && var c := Restart.Play(Restart.Fresh(boot, true), events);
      c.phase.Committed? && !ValidCommit(PipeText(c.pipe, render), parse, boot, nonce)
  {
    hide Restart.Play, Restart.Plausible, Restart.Fresh, Unambiguous, ValidCommit, PipeText, Text.Strip, TornThenWhole, GenuineLine;
    TornThenWholePlays(boot, reason, part);
    CommitIsHonouredIff(boot, nonce, TornThenWhole(reason, part), render, parse);
    var c := Restart.Play(Restart.Fresh(boot, true), TornThenWhole(reason, part));
    assert render(c.pipe[0].request) != "";
    assert Part(c.pipe[0], render) != "";
  }

  lemma TornAttemptPlays(boot: string, reason: string, part: nat)
    requires 1 <= |Text.Strip(reason)| <= 300
    ensures var events := Attempt("only", reason, 0, Restart.Torn(part));
      && Restart.Plausible(Restart.Fresh(boot, true), events)
      && var c := Restart.Play(Restart.Fresh(boot, true), events);
      && c.phase.Cancelled? && c.pending.None?
      && c.pipe == [Restart.Frame(Restart.Request(0, boot, "only", Text.Strip(reason)), Restart.Torn(part))]
  {
    hide Text.Strip, Attempt, Restart.Play, Restart.Plausible;
    OneAttempt(Restart.Fresh(boot, true), "only", reason, 0, Restart.Torn(part));
  }

  lemma OneTornFrame(r: Restart.Request, part: nat, render: Renderer)
    requires |render(r)| <= part
    ensures PipeText([Restart.Frame(r, Restart.Torn(part))], render) == render(r)
  {
    var pipe := [Restart.Frame(r, Restart.Torn(part))];
    assert pipe[..0] == [] && PipeText([], render) == "";
    assert "" + render(r) + "" == render(r);
  }

  /** A frame torn of just its line end: the coordinator gave up and resumed admission, yet its pipe is accepted. */
  lemma FrameWithoutLineEndIsAccepted(boot: string, nonce: string, reason: string, part: nat, render: Renderer, parse: Parser)
    requires 1 <= |Text.Strip(reason)| <= 300 && Faithful(render, parse, boot, nonce)
    requires |render(Restart.Request(0, boot, "only", Text.Strip(reason)))| <= part
    ensures var events := Attempt("only", reason, 0, Restart.Torn(part));
      && Restart.Plausible(Restart.Fresh(boot, true), events)
      && var c := Restart.Play(Restart.Fresh(boot, true), events);
      c.phase.Cancelled? && c.pending.None? && ValidCommit(PipeText(c.pipe, render), parse, boot, nonce)
  {
    hide Restart.Play, Restart.Plausible, Restart.Fresh, Text.Strip, Attempt, Lines, PipeText, GenuineLine;
    TornAttemptPlays(boot, reason, part);
    var r := Restart.Request(0, boot, "only", Text.Strip(reason));
    OneTornFrame(r, part, render);
    LineAlone(render(r));
  }

  // ---------- where fragments cannot be mistaken ----------

  /** A flat object: one brace at each end and none within, as every frame is written. */
  predicate FlatObject(s: string) {
    |s| >= 2 && s[0] == '{' && s[|s| - 1] == '}' && forall i :: 0 < i < |s| - 1 ==> s[i] != '{' && s[i] != '}'
  }

  lemma {:induction false} FragmentsOpenAtStart(torn: seq<Restart.Frame>, render: Renderer, boot: string)
    requires OfBoot(torn, boot) && NoneWhole(torn) && forall r: Restart.Request :: r.boot == boot ==> FlatObject(render(r))
    ensures PipeText(torn, render) != "" ==> PipeText(torn, render)[0] == '{'
  {
    if torn != [] {
      var n := |torn| - 1;
      FragmentsOpenAtStart(torn[..n], render, boot);
      assert Part(torn[n], render) != "" ==> Part(torn[n], render)[0] == render(torn[n].request)[0];
    }
  }

  /** If the text of fragments is one flat object, it is one frame without its line end. */
  lemma {:induction false} FlatFragmentsAreOneFrame(torn: seq<Restart.Frame>, render: Renderer, boot: string)
    requires OfBoot(torn, boot) && NoneWhole(torn) && forall r: Restart.Request :: r.boot == boot ==> FlatObject(render(r))
    requires FlatObject(PipeText(torn, render))
    ensures exists k :: 0 <= k < |torn| && LacksOnlyLineEnd(torn[k], render)
  {
    var n := |torn| - 1;
    var front, part := PipeText(torn[..n], render), Part(torn[n], render);
    var text := PipeText(torn, render);
    assert text == front + part;
    if part == "" {
      assert front == text;
      FlatFragmentsAreOneFrame(torn[..n], render, boot);
      var k :| 0 <= k < n && LacksOnlyLineEnd(torn[..n][k], render);
      assert torn[k] == torn[..n][k];
    } else {
      FragmentsOpenAtStart(torn[..n], render, boot);
      assert text[|front|] == part[0] == '{';
      assert front == "";
      assert text == part && part[|part| - 1] == '}';
      assert LacksOnlyLineEnd(torn[n], render);
    }
  }

  /** A parser that reads flat objects only, and frames written as flat objects, leave no ambiguity. */
  lemma FlatFramesAreUnambiguous(render: Renderer, parse: Parser, boot: string, nonce: string)
    requires forall r: Restart.Request :: r.boot == boot ==> FlatObject(render(r))
    requires forall s: string :: parse(s).Some? ==> FlatObject(s)
    ensures Unambiguous(render, parse, boot, nonce)
  {
    forall torn: seq<Restart.Frame> | OfBoot(torn, boot) && NoneWhole(torn) && PipeText(torn, render) != ""
      ensures forall r: Restart.Request :: r.boot == boot ==> !GenuineLine(PipeText(torn, render) + render(r), parse, boot, nonce)
      ensures GenuineLine(PipeText(torn, render), parse, boot, nonce) ==> exists k :: 0 <= k < |torn| && LacksOnlyLineEnd(torn[k], render)
    {
      FragmentsOpenAtStart(torn, render, boot);
      forall r: Restart.Request | r.boot == boot ensures !FlatObject(PipeText(torn, render) + render(r)) {
        var text := PipeText(torn, render) + render(r);
        assert text[|PipeText(torn, render)|] == render(r)[0] == '{';
      }
      if FlatObject(PipeText(torn, render)) {
        FlatFragmentsAreOneFrame(torn, render, boot);
      }
    }
  }
}
