/**
 The ledger of pending memory facts (cloud/markdown_memory.py): appended to a text
 document, taken over into a snapshot for processing, then committed (forgotten as
 done) or rolled back. Facts are the non-blank lines without trailing blanks.
 One user's documents; transactions are serialised.
 */
module PendingLedger {
  import opened Prelude
  import opened Text

  // ---------- facts ----------

  function FirstBreak(s: string): (n: nat)
    ensures n <= |s| && (n < |s| ==> s[n] == '\n') && forall i :: 0 <= i < n ==> s[i] != '\n'
  {
    if s == "" || s[0] == '\n' then 0 else 1 + FirstBreak(s[1..])
  }

  /** The fact on one line, if there is one. */
  function OnLine(line: string): seq<string> {
    if RStrip(line) == "" then [] else [RStrip(line)]
  }

  function Facts(s: string): seq<string>
    decreases |s|
  {
    var n := FirstBreak(s);
    OnLine(s[..n]) + if n < |s| then Facts(s[n + 1..]) else []
  }

  ghost predicate BreaksAt(s: string, n: nat) {
    n <= |s| && (n < |s| ==> s[n] == '\n') && forall i :: 0 <= i < n ==> s[i] != '\n'
  }

  lemma FactsAt(s: string, n: nat)
    requires BreaksAt(s, n)
    ensures n < |s| ==> Facts(s) == OnLine(s[..n]) + Facts(s[n + 1..])
    ensures n == |s| ==> Facts(s) == OnLine(s)
  {
    hide *;
    FirstBreakAt(s, n);
    FactsFromBreak(s);
    if n == |s| {
      assert s[..n] == s;
      assert OnLine(s) + [] == OnLine(s);
    }
  }

  lemma FactsFromBreak(s: string)
    ensures var n := FirstBreak(s); Facts(s) == OnLine(s[..n]) + if n < |s| then Facts(s[n + 1..]) else []
  {
    hide OnLine, FirstBreak;
  }

  lemma FirstBreakAt(s: string, n: nat)
    requires BreaksAt(s, n)
    ensures FirstBreak(s) == n
  {
  }

  lemma NoFactsInNothing()
    ensures Facts("") == []
  {
    FactsAt("", 0);
  }

  /** Text joined by a line break has the facts of its parts, in order. */
  lemma {:induction false} FactsOfJoined(a: string, b: string)
    ensures Facts(a + "\n" + b) == Facts(a) + Facts(b)
    decreases |a|
  {
    var n := FirstBreak(a);
    var whole := a + "\n" + b;
    hide Facts, OnLine, FirstBreak;
    FactsAt(a, n);
    FactsAt(whole, n);
    if n < |a| {
      assert whole[..n] == a[..n] && whole[n + 1..] == a[n + 1..] + "\n" + b;
      FactsOfJoined(a[n + 1..], b);
      Associate(OnLine(a[..n]), Facts(a[n + 1..]), Facts(b));
    } else {
      assert whole[..n] == a && whole[n + 1..] == b;
    }
  }

  lemma Associate(a: seq<string>, b: seq<string>, c: seq<string>)
    ensures a + (b + c) == a + b + c
  {
  }

  lemma BlankEndsNoLine(line: string, c: char)
    requires IsBlank(c)
    ensures OnLine(line + [c]) == OnLine(line)
  {
    var whole := line + [c];
    assert whole[..|whole| - 1] == line && whole[|whole| - 1] == c;
    assert RStrip(whole) == RStrip(line);
  }

  lemma {:induction false} TrailingBlankAddsNothing(s: string, c: char)
    requires IsBlank(c)
    ensures Facts(s + [c]) == Facts(s)
    decreases |s|
  {
    hide Facts, OnLine, FirstBreak, IsBlank;
    if c == '\n' {
      FactsOfJoined(s, "");
      assert s + [c] == s + "\n" + "";
      NoFactsInNothing();
    } else {
      var n := FirstBreak(s);
      var whole := s + [c];
      FactsAt(s, n);
      FactsAt(whole, if n < |s| then n else |whole|);
      if n < |s| {
        TrailingBlankAddsNothing(s[n + 1..], c);
        assert whole[..n] == s[..n] && whole[n + 1..] == s[n + 1..] + [c];
      } else {
        BlankEndsNoLine(s, c);
      }
    }
  }

  lemma {:induction false} FactsOfTrimmed(s: string)
    ensures Facts(RStrip(s)) == Facts(s)
    decreases |s|
  {
    hide Facts, OnLine, IsBlank;
    if s != "" && IsBlank(s[|s| - 1]) {
      var front := s[..|s| - 1];
      assert RStrip(s) == RStrip(front);
      FactsOfTrimmed(front);
      TrailingBlankAddsNothing(front, s[|s| - 1]);
      assert s == front + [s[|s| - 1]];
    }
  }

  lemma FactsOfBlank(s: string)
    requires AllBlank(s)
    ensures Facts(s) == []
  {
    FactsOfTrimmed(s);
    BlanksTrimToNothing(s);
    NoFactsInNothing();
  }

  // ---------- documents ----------

  /** The two documents of a user and the (source, kind) pairs already appended. */
  datatype Profile = Profile(pending: Option<string>, snapshot: Option<string>, applied: set<(string, string)>)

  function TextOf(doc: Option<string>): string {
    if doc.Some? then doc.value else ""
  }

  function Appended(doc: Option<string>, text: string): string {
    var prefix := RStrip(TextOf(doc));
    if prefix != "" then prefix + "\n" + (RStrip(text) + "\n") else RStrip(text) + "\n"
  }

  function Merged(snapshot: string, pending: Option<string>): string {
    if Strip(TextOf(pending)) != "" then RStrip(snapshot) + "\n" + TextOf(pending) else RStrip(snapshot)
  }

  function Append(p: Profile, facts: string): Profile {
    if Strip(facts) == "" then p else p.(pending := Some(Appended(p.pending, Strip(facts))))
  }

  function AppendOnce(p: Profile, facts: string, source: string, kind: string): (Profile, bool) {
    var key := (Strip(source), Strip(kind));
    if Strip(facts) == "" || key.0 == "" || key.1 == "" || key in p.applied then (p, false)
    else (p.(pending := Some(Appended(p.pending, Strip(facts))), applied := p.applied + {key}), true)
  }

  function Snapshot(p: Profile): (Profile, string) {
    var pending := if TextOf(p.snapshot) != "" then Some(Merged(p.snapshot.value, p.pending)) else p.pending;
    if TextOf(pending) == "" then (p.(pending := pending), "")
    else (p.(pending := Some(""), snapshot := pending), pending.value)
  }

  function Commit(p: Profile): Profile {
    p.(snapshot := None)
  }

  function Rollback(p: Profile): Profile {
    if p.snapshot.None? then p else p.(pending := Some(Merged(p.snapshot.value, p.pending)), snapshot := None)
  }

  // ---------- the object ----------

  class MarkdownStore {
    var pending: Option<string>
    var snapshot: Option<string>
    var applied: set<(string, string)>

    function View(): Profile
      reads this
    {
      Profile(pending, snapshot, applied)
    }

    constructor ()
      ensures View() == Profile(None, None, {})
    {
      pending, snapshot, applied := None, None, {};
    }

    method AppendToPending(text: string)
      modifies this`pending
      ensures pending == Some(Appended(old(pending), text))
    {
      if pending.None? {
        pending := Some(RStrip(text) + "\n");
      } else {
        var prefix := RStrip(pending.value);
        var line := RStrip(text) + "\n";
        pending := Some(if prefix != "" then prefix + "\n" + line else line);
      }
    }

    method AppendPending(facts: string)
      modifies this`pending
      ensures View() == Append(old(View()), facts)
    {
      var text := Strip(facts);
      if text != "" {
        AppendToPending(text);
      }
    }

    method AppendPendingOnce(facts: string, sourceRef: string, kind: string) returns (done: bool)
      modifies this`pending, this`applied
      ensures (View(), done) == AppendOnce(old(View()), facts, sourceRef, kind)
    {
      hide Strip, Appended;
      var text, source, appendKind := Strip(facts), Strip(sourceRef), Strip(kind);
      if text == "" || source == "" || appendKind == "" {
        return false;
      }
      if (source, appendKind) in applied {
        return false;
      }
      AppendToPending(text);
      applied := applied + {(source, appendKind)};
      return true;
    }

    method SnapshotPending() returns (content: string)
      modifies this`pending, this`snapshot
      ensures (View(), content) == Snapshot(old(View()))
    {
      StripEmptiesBlanks("");
      hide RStrip, Strip;
      if snapshot.Some? && snapshot.value != "" {
        var merged := RStrip(snapshot.value);
        if pending.Some? && Strip(pending.value) != "" {
          merged := merged + "\n" + pending.value;
        }
        pending := Some(merged);
      }
      if pending.None? || pending.value == "" {
        return "";
      }
      content := pending.value;
      snapshot := Some(content);
      pending := Some("");
    }

    method CommitPendingSnapshot()
      modifies this`snapshot
      ensures View() == Commit(old(View()))
    {
      snapshot := None;
    }

    method RollbackPendingSnapshot()
      modifies this`pending, this`snapshot
      ensures View() == Rollback(old(View()))
    {
      StripEmptiesBlanks("");
      hide RStrip, Strip;
      if snapshot.None? {
        return;
      }
      var merged := RStrip(snapshot.value);
      if pending.Some? && Strip(pending.value) != "" {
        merged := merged + "\n" + pending.value;
      }
      pending := Some(merged);
      snapshot := None;
    }
  }

  // ---------- the ledger ----------

  /** `appended` and `committed` list facts in order; `sources` lists the keys for which an append was accepted. */
  datatype Ledger = Ledger(profile: Profile, appended: seq<string>, committed: seq<string>, sources: seq<(string, string)>)

  datatype Step =
    | DoAppend(facts: string)
    | DoAppendOnce(facts: string, source: string, kind: string)
    | DoSnapshot
    | DoCommit
    | DoRollback

  function Take(l: Ledger, s: Step): Ledger {
    match s
    case DoAppend(facts) => l.(profile := Append(l.profile, facts), appended := l.appended + Facts(Strip(facts)))
    case DoAppendOnce(facts, source, kind) =>
      var done := AppendOnce(l.profile, facts, source, kind);
      if done.1 then Ledger(done.0, l.appended + Facts(Strip(facts)), l.committed, l.sources + [(Strip(source), Strip(kind))])
      else l.(profile := done.0)
    case DoSnapshot => l.(profile := Snapshot(l.profile).0)
    case DoCommit => l.(profile := Commit(l.profile), committed := l.committed + Facts(TextOf(l.profile.snapshot)))
    case DoRollback => l.(profile := Rollback(l.profile))
  }

  function Play(l: Ledger, steps: seq<Step>): Ledger
    decreases |steps|
  {
    if steps == [] then l else Play(Take(l, steps[0]), steps[1..])
  }

  const BLANK_LEDGER: Ledger := Ledger(Profile(None, None, {}), [], [], [])

  /** Every fact ever appended is committed, in the snapshot, or pending: once, in this order. */
  ghost predicate Balanced(l: Ledger) {
    l.appended == l.committed + Facts(TextOf(l.profile.snapshot)) + Facts(TextOf(l.profile.pending))
  }

  /** An accepted (source, kind) is remembered, and accepted once. */
  ghost predicate SourcesOnce(l: Ledger) {
    && (forall k :: k in l.sources <==> k in l.profile.applied)
    && (forall i, j :: 0 <= i < j < |l.sources| ==> l.sources[i] != l.sources[j])
  }

  lemma AppendAddsFacts(doc: Option<string>, text: string)
    ensures Facts(Appended(doc, text)) == Facts(TextOf(doc)) + Facts(text)
  {
    hide Facts, RStrip, IsBlank;
    FactsOfTrimmed(TextOf(doc));
    FactsOfTrimmed(text);
    assert IsBlank('\n') by { BreaksAreBlank(); }
    TrailingBlankAddsNothing(RStrip(text), '\n');
    FactsOfJoined(RStrip(TextOf(doc)), RStrip(text) + "\n");
    NoFactsInNothing();
  }

  lemma BreaksAreBlank()
    ensures IsBlank('\n')
  {
  }

  lemma MergeKeepsFacts(snapshot: string, pending: Option<string>)
    ensures Facts(Merged(snapshot, pending)) == Facts(snapshot) + Facts(TextOf(pending))
  {
    hide Facts, RStrip, Strip, IsBlank;
    FactsOfTrimmed(snapshot);
    FactsOfJoined(RStrip(snapshot), TextOf(pending));
    if Strip(TextOf(pending)) == "" {
      StripEmptiesBlanks(TextOf(pending));
      FactsOfBlank(TextOf(pending));
    }
  }

  lemma StepKeepsBalance(l: Ledger, s: Step)
    requires Balanced(l)
    ensures Balanced(Take(l, s))
  {
    hide Facts, Strip, Appended, Merged;
    NoFactsInNothing();
    match s
    case DoAppend(facts) => AppendAddsFacts(l.profile.pending, Strip(facts));
    case DoAppendOnce(facts, source, kind) => AppendAddsFacts(l.profile.pending, Strip(facts));
    case _ => MergeKeepsFacts(TextOf(l.profile.snapshot), l.profile.pending);
  }

  lemma BlankIsSound()
    ensures Balanced(BLANK_LEDGER) && SourcesOnce(BLANK_LEDGER)
  {
    NoFactsInNothing();
  }

  /** Conservation over any sequence of appends, snapshots (also over a left-over one), rollbacks and commits. */
  lemma {:induction false} NothingIsLost(l: Ledger, steps: seq<Step>)
    requires Balanced(l)
    ensures Balanced(Play(l, steps))
    decreases |steps|
  {
    if steps != [] {
      StepKeepsBalance(l, steps[0]);
      NothingIsLost(Take(l, steps[0]), steps[1..]);
    }
  }

  lemma StepKeepsSources(l: Ledger, s: Step)
    requires SourcesOnce(l)
    ensures SourcesOnce(Take(l, s))
  {
    hide Strip, Appended, Merged, Facts;
  }

  /** Over any run, each (source, kind) is accepted at most once, and never again afterwards. */
  lemma {:induction false} EachSourceOnce(l: Ledger, steps: seq<Step>)
    requires SourcesOnce(l)
    ensures SourcesOnce(Play(l, steps))
    decreases |steps|
  {
    hide Strip, Append, Appended, Merged, Facts, Snapshot, Rollback;
    if steps != [] {
      StepKeepsSources(l, steps[0]);
      hide SourcesOnce;
      EachSourceOnce(Take(l, steps[0]), steps[1..]);
    }
  }

  /** From the first append on: nothing is lost, and no source counts twice. */
  lemma LedgerFromTheStart(steps: seq<Step>)
    ensures Balanced(Play(BLANK_LEDGER, steps)) && SourcesOnce(Play(BLANK_LEDGER, steps))
  {
    hide Balanced, SourcesOnce;
    BlankIsSound();
    NothingIsLost(BLANK_LEDGER, steps);
    EachSourceOnce(BLANK_LEDGER, steps);
  }

  /** An append that names this source and kind, apart from blanks, and has something to say. */
  predicate Names(s: Step, source: string, kind: string) {
    s.DoAppendOnce? && !AllBlank(s.facts) && Strip(s.source) == Strip(source) && Strip(s.kind) == Strip(kind)
  }

  ghost predicate NamedIn(steps: seq<Step>, source: string, kind: string) {
    exists s :: s in steps && Names(s, source, kind)
  }

  lemma AppliedAfter(p: Profile, facts: string, source: string, kind: string)
    ensures var key := (Strip(source), Strip(kind));
      AppendOnce(p, facts, source, kind).0.applied ==
      (if Strip(facts) == "" || key.0 == "" || key.1 == "" then p.applied else p.applied + {key})
  {
    hide Strip, Appended;
  }

  lemma AppendNames(p: Profile, s: Step, source: string, kind: string)
    requires s.DoAppendOnce? && !AllBlank(source) && !AllBlank(kind)
    ensures var key := (Strip(source), Strip(kind));
      key in AppendOnce(p, s.facts, s.source, s.kind).0.applied <==> key in p.applied || Names(s, source, kind)
  {
    hide Strip, AllBlank, Appended, AppendOnce;
    StripEmptiesBlanks(source);
    StripEmptiesBlanks(kind);
    StripEmptiesBlanks(s.facts);
    AppliedAfter(p, s.facts, s.source, s.kind);
  }

  lemma OthersApplyNothing(l: Ledger, s: Step)
    requires !s.DoAppendOnce?
    ensures Take(l, s).profile.applied == l.profile.applied
  {
    hide Strip, Appended, Merged, Facts, RStrip;
  }

  lemma StepNames(l: Ledger, s: Step, source: string, kind: string)
    requires !AllBlank(source) && !AllBlank(kind)
    ensures var key := (Strip(source), Strip(kind));
      key in Take(l, s).profile.applied <==> key in l.profile.applied || Names(s, source, kind)
  {
    if s.DoAppendOnce? {
      AppendNames(l.profile, s, source, kind);
      assert Take(l, s).profile == AppendOnce(l.profile, s.facts, s.source, s.kind).0 by {
        hide AppendOnce, Strip, Facts;
      }
    } else {
      OthersApplyNothing(l, s);
    }
    hide AppendOnce, Take, Strip, AllBlank, RStrip, LStrip;
  }

  lemma {:induction false} AppliedWereNamed(l: Ledger, steps: seq<Step>, source: string, kind: string)
    requires !AllBlank(source) && !AllBlank(kind)
    ensures var key := (Strip(source), Strip(kind));
      key in Play(l, steps).profile.applied <==> key in l.profile.applied || NamedIn(steps, source, kind)
    decreases |steps|
  {
    hide Strip, AllBlank, Take, Names;
    if steps != [] {
      StepNames(l, steps[0], source, kind);
      AppliedWereNamed(Take(l, steps[0]), steps[1..], source, kind);
      assert steps == [steps[0]] + steps[1..];
    }
  }

  /**
   Which appends are accepted after any run: those with facts, a source and a kind to
   them, unless an earlier one with facts named the same source and the same kind. One
   source under another kind, or one kind under another source, is accepted.
   */
  lemma AcceptedIff(steps: seq<Step>, facts: string, source: string, kind: string)
    ensures AppendOnce(Play(BLANK_LEDGER, steps).profile, facts, source, kind).1 <==>
      !AllBlank(facts) && !AllBlank(source) && !AllBlank(kind) && !NamedIn(steps, source, kind)
  {
    StripEmptiesBlanks(facts);
    StripEmptiesBlanks(source);
    StripEmptiesBlanks(kind);
    if !AllBlank(source) && !AllBlank(kind) {
      AppliedWereNamed(BLANK_LEDGER, steps, source, kind);
    }
    hide Strip, AllBlank, Play, NamedIn, Appended;
  }

  /** What a snapshot hands out for processing is exactly what a later commit will count as done. */
  lemma SnapshotIsWhatCommits(l: Ledger)
    requires Snapshot(l.profile).1 != ""
    ensures Take(Take(l, DoSnapshot), DoCommit).committed == l.committed + Facts(Snapshot(l.profile).1)
    ensures Facts(Snapshot(l.profile).1) == Facts(TextOf(l.profile.snapshot)) + Facts(TextOf(l.profile.pending))
  {
    hide Facts, Merged, Strip, RStrip;
    NoFactsInNothing();
    MergeKeepsFacts(TextOf(l.profile.snapshot), l.profile.pending);
  }

  /** A rolled-back snapshot leaves the pending facts as if it had never been taken. */
  lemma RollbackUndoesSnapshot(p: Profile)
    ensures var q := Rollback(Snapshot(p).0);
      Facts(TextOf(q.pending)) == Facts(TextOf(p.snapshot)) + Facts(TextOf(p.pending)) && TextOf(q.snapshot) == ""
  {
    hide Facts, Merged, Strip, RStrip;
    NoFactsInNothing();
    MergeKeepsFacts(TextOf(p.snapshot), p.pending);
    var q := Snapshot(p).0;
    MergeKeepsFacts(TextOf(q.snapshot), q.pending);
  }
}
