/**
 What ends up injected (memory2/retriever.py), in the configuration's own terms: which
 hits are eligible for which section, who is left out and why, and how a section reads.
 */
module InjectionRules {
  import opened Prelude
  import opened RankFusion
  import opened InjectionBlock
  import Text

  /** A forced rule, or a hit that reaches the threshold of its kind. */
  predicate Eligible(c: Config, h: Hit, k: Class)
    requires h.score.Some?
  {
    var forced := c.guard && h.kind == "procedure" && h.tool != "";
    match k
    case Forced => forced
    case Norm => !forced && h.kind in {"procedure", "preference"} && h.score.value >= c.threshold(h.kind)
    case Story => h.kind in {"event", "profile"} && h.score.value >= c.threshold(h.kind)
  }

  /** How many hits of each section there may be. */
  predicate AtCap(c: Config, k: Class, n: nat) {
    (k.Forced? ==> n == c.maxForced) && (k.Norm? ==> n == c.maxNorm) && (k.Story? ==> n == c.maxStory)
  }

  /** The selected hits of one class. */
  function Best(c: Config, items: seq<Hit>, k: Class): seq<Hit>
    requires forall h :: h in items ==> h.score.Some?
  {
    FirstFew(OfClass(c, ByScore(items), k), Cap(c, k))
  }

  lemma ClassIsEligibility(c: Config, h: Hit, k: Class)
    requires h.score.Some?
    ensures ClassOf(c, h) == Some(k) <==> Eligible(c, h, k)
  {
  }

  lemma {:induction false} OfClassHolds(c: Config, hits: seq<Hit>, k: Class, h: Hit)
    ensures h in OfClass(c, hits, k) <==> h in hits && ClassOf(c, h) == Some(k)
  {
    hide ClassOf;
    if hits != [] {
      var n := |hits| - 1;
      OfClassHolds(c, hits[..n], k, h);
      assert hits == hits[..n] + [hits[n]];
    }
  }

  ghost predicate Falling(hits: seq<Hit>) {
    forall i, j :: 0 <= i < j < |hits| ==> hits[i].score.Some? && hits[j].score.Some? && hits[i].score.value >= hits[j].score.value
  }

  lemma {:induction false} OfClassFalls(c: Config, hits: seq<Hit>, k: Class)
    requires Falling(hits) && forall h :: h in hits ==> h.score.Some?
    ensures Falling(OfClass(c, hits, k))
  {
    if hits != [] {
      var n := |hits| - 1;
      OfClassFalls(c, hits[..n], k);
      var before := OfClass(c, hits[..n], k);
      forall i | 0 <= i < |before| ensures before[i].score.Some? && before[i].score.value >= hits[n].score.value {
        OfClassHolds(c, hits[..n], k, before[i]);
        assert before[i] in hits[..n];
      }
    }
    hide ClassOf;
  }

  lemma SortedFalls(items: seq<Hit>)
    requires forall h :: h in items ==> h.score.Some?
    ensures Falling(ByScore(items)) && forall h :: h in ByScore(items) <==> h in items
  {
    ByScoreIsStable(items, 0.0);
    SameMembers(items);
    var sorted := ByScore(items);
    hide ByScore;
    assert forall i :: 0 <= i < |sorted| ==> sorted[i] in sorted;
  }

  lemma FirstFewHold(hits: seq<Hit>, n: nat, h: Hit)
    requires Falling(hits) && h in hits && h.score.Some?
    ensures h !in FirstFew(hits, n) ==>
      |FirstFew(hits, n)| == n && forall x :: x in FirstFew(hits, n) ==> x.score.Some? && x.score.value >= h.score.value
  {
    var at :| 0 <= at < |hits| && hits[at] == h;
    if n <= at {
      var few := FirstFew(hits, n);
      forall x | x in few ensures x.score.Some? && x.score.value >= h.score.value {
        var i :| 0 <= i < |few| && few[i] == x;
        assert hits[i] == x;
      }
    } else {
      assert FirstFew(hits, n)[at] == h;
    }
  }

  /**
   Who is selected: only eligible hits; and an eligible one is left out only if its class
   is full, with hits that score no less.
   */
  lemma SelectedIff(c: Config, items: seq<Hit>, k: Class, h: Hit)
    requires (forall x :: x in items ==> x.score.Some?) && h in items
    ensures var best := Best(c, items, k);
      && (h in best ==> Eligible(c, h, k))
      && (Eligible(c, h, k) && h !in best ==>
            AtCap(c, k, |best|) && forall x :: x in best ==> x.score.Some? && x.score.value >= h.score.value)
  {
    SortedFalls(items);
    var sorted := ByScore(items);
    hide ByScore;
    OfClassFalls(c, sorted, k);
    OfClassHolds(c, sorted, k, h);
    ClassIsEligibility(c, h, k);
    hide ClassOf, OfClass, Falling, Eligible;
    if h in OfClass(c, sorted, k) {
      FirstFewHold(OfClass(c, sorted, k), Cap(c, k), h);
    }
  }

  /** No section holds more than its cap, and nothing that was not a hit. */
  lemma SelectionIsBounded(c: Config, items: seq<Hit>, k: Class)
    requires forall x :: x in items ==> x.score.Some?
    ensures forall h :: h in Best(c, items, k) ==> h in items
    ensures exists n: nat :: AtCap(c, k, n) && |Best(c, items, k)| <= n
  {
    SortedFalls(items);
    forall h | h in Best(c, items, k) ensures h in items {
      OfClassHolds(c, ByScore(items), k, h);
    }
    assert AtCap(c, k, Cap(c, k));
    hide ByScore, OfClass;
  }

  /** The retriever's selection is the best of the three classes, whatever order they were met in. */
  lemma SelectionIsBest(c: Config, items: seq<Hit>, format: Hit -> string, s: Sections, h: Hit)
    requires forall x :: x in items ==> x.score.Some?
    requires ClassDone(c, ByScore(items), s.selected, s.forced, format, Forced)
    requires ClassDone(c, ByScore(items), s.selected, s.norms, format, Norm)
    requires ClassDone(c, ByScore(items), s.selected, s.stories, format, Story)
    requires forall x :: x in s.selected ==> ClassOf(c, x).Some?
    ensures h in s.selected <==> h in Best(c, items, Forced) || h in Best(c, items, Norm) || h in Best(c, items, Story)
  {
    hide ClassOf, ByScore, LinesOf;
    OfClassHolds(c, s.selected, Forced, h);
    OfClassHolds(c, s.selected, Norm, h);
    OfClassHolds(c, s.selected, Story, h);
    hide OfClass, FirstFew;
    if h in s.selected {
      match ClassOf(c, h).value
      case Forced => assert ClassOf(c, h) == Some(Forced);
      case Norm => assert ClassOf(c, h) == Some(Norm);
      case Story => assert ClassOf(c, h) == Some(Story);
    }
  }

  /** However low the caps are configured, one eligible rule of each kind gets in, and the text may have two hundred characters. */
  lemma AtLeastOne(guard: bool, maxForced: int, maxNorm: int, maxStory: int, threshold: string -> real, maxChars: int,
                   items: seq<Hit>, k: Class, h: Hit)
    requires (forall x :: x in items ==> x.score.Some?) && h in items
    requires Eligible(Configured(guard, maxForced, maxNorm, maxStory, threshold, maxChars), h, k) && (k.Story? ==> maxStory > 0)
    ensures var c := Configured(guard, maxForced, maxNorm, maxStory, threshold, maxChars);
      Best(c, items, k) != [] && c.maxChars >= 200 && (maxChars >= 200 ==> c.maxChars == maxChars)
  {
    var c := Configured(guard, maxForced, maxNorm, maxStory, threshold, maxChars);
    SelectedIff(c, items, k, h);
    hide Best, Eligible;
  }

  // ---------- lines and sections ----------

  ghost predicate LineOf(hits: seq<Hit>, format: Hit -> string, l: Line) {
    exists h :: h in hits && !Text.AllBlank(h.summary) && l == Line(h.id, format(h))
  }

  lemma OneWritten(h: Hit, format: Hit -> string, l: Line)
    ensures l in Written(h, format) <==> !Text.AllBlank(h.summary) && l == Line(h.id, format(h))
  {
    Text.StripEmptiesBlanks(h.summary);
    hide Text.Strip, Text.AllBlank;
  }

  /** A section has a line for each of its hits with a summary, and no other. */
  lemma {:induction false} LinesAreWritten(hits: seq<Hit>, format: Hit -> string, l: Line)
    ensures l in LinesOf(hits, format) <==> LineOf(hits, format, l)
  {
    hide Written, Text.AllBlank;
    if hits != [] {
      var n := |hits| - 1;
      LinesAreWritten(hits[..n], format, l);
      OneWritten(hits[n], format, l);
      assert hits == hits[..n] + [hits[n]];
      assert LinesOf(hits, format) == LinesOf(hits[..n], format) + Written(hits[n], format);
      hide LinesOf;
    }
  }

  /** The lines of a text, split at line ends. */
  function SplitLines(s: string): (r: seq<string>)
    ensures r != []
  {
    if s == "" then [""]
    else
      var n := |s| - 1;
      var before := SplitLines(s[..n]);
      if s[n] == '\n' then before + [""] else before[..|before| - 1] + [before[|before| - 1] + [s[n]]]
  }

  lemma {:induction false} FlatIsOneLine(before: string, s: string)
    requires '\n' !in s
    ensures var r := SplitLines(before); SplitLines(before + s) == r[..|r| - 1] + [r[|r| - 1] + s]
    decreases |s|
  {
    if s == "" {
      assert before + s == before && forall x: string :: x + s == x;
    } else {
      var n := |s| - 1;
      FlatIsOneLine(before, s[..n]);
      assert (before + s)[..|before + s| - 1] == before + s[..n] && s == s[..n] + [s[n]];
      var r := SplitLines(before);
      assert r[|r| - 1] + s == (r[|r| - 1] + s[..n]) + [s[n]];
    }
  }

  lemma LineEnds(before: string)
    ensures SplitLines(before + "\n") == SplitLines(before) + [""]
  {
    assert (before + "\n")[..|before + "\n"| - 1] == before;
  }

  lemma HeadLine(header: string)
    requires '\n' !in header
    ensures SplitLines(header + "\n") == [header] + [""]
  {
    FlatIsOneLine("", header);
    LineEnds(header);
    assert "" + header == header && SplitLines("") == [""];
    hide SplitLines;
  }

  /** A flat line behind a line end is a line of its own. */
  lemma NewLine(before: string, lines: seq<string>, s: string)
    requires SplitLines(before) == lines + [""] && '\n' !in s
    ensures SplitLines(before + s) == lines + [s]
  {
    FlatIsOneLine(before, s);
    hide SplitLines;
    assert "" + s == s && (lines + [""])[..|lines|] == lines;
  }

  lemma {:induction false} JoinedLines(header: string, lines: seq<string>)
    requires '\n' !in header && lines != [] && forall l :: l in lines ==> '\n' !in l
    ensures SplitLines(header + "\n" + Join(lines, "\n")) == [header] + lines
    decreases |lines|
  {
    hide SplitLines;
    var n := |lines| - 1;
    var start := header + "\n";
    assert lines[n] in lines && lines == lines[..n] + [lines[n]];
    if n == 0 {
      HeadLine(header);
      NewLine(start, [header], lines[0]);
    } else {
      JoinedLines(header, lines[..n]);
      var before := start + Join(lines[..n], "\n");
      LineEnds(before);
      NewLine(before + "\n", [header] + lines[..n], lines[n]);
      assert start + Join(lines, "\n") == before + "\n" + lines[n];
      assert [header] + lines[..n] + [lines[n]] == [header] + lines;
      hide Join;
    }
  }

  /** A section reads back: its heading, then its lines in order; its ids are those of its lines. */
  lemma SectionReadsBack(title: string, lines: seq<Line>)
    requires '\n' !in title && lines != [] && forall l :: l in lines ==> '\n' !in l.text
    ensures |PartOf(title + "\n", lines)| == 1
    ensures SplitLines(PartOf(title + "\n", lines)[0].text) == [title] + Texts(lines)
    ensures forall id :: id in PartOf(title + "\n", lines)[0].ids <==> id != "" && exists l :: l in lines && l.id == id
  {
    JoinedLines(title, Texts(lines));
    forall id ensures id in IdsOn(lines) <==> id != "" && exists l :: l in lines && l.id == id {
      IdsOfLines(lines, id);
    }
    hide SplitLines, Join, IdsOn;
  }

  lemma {:induction false} IdsOfLines(lines: seq<Line>, id: string)
    ensures id in IdsOn(lines) <==> id != "" && exists l :: l in lines && l.id == id
  {
    if lines != [] {
      var n := |lines| - 1;
      IdsOfLines(lines[..n], id);
      assert lines == lines[..n] + [lines[n]];
    }
  }

  /** The part reads back as this title over these lines. */
  ghost predicate ReadsAs(p: Part, title: string, lines: seq<Line>) {
    SplitLines(p.text) == [title] + Texts(lines)
  }

  predicate FlatLines(lines: seq<Line>) {
    forall l :: l in lines ==> '\n' !in l.text
  }

  lemma FlatTogether(a: string, b: string)
    requires '\n' !in a && '\n' !in b
    ensures '\n' !in a + b
  {
  }

  lemma FirstTitlesAreFlat()
    ensures '\n' !in FORCED_TITLE && '\n' !in NORM_TITLE
  {
  }

  lemma StoryOpeningIsFlat()
    ensures '\n' !in StoryOpening()
  {
  }

  lemma StoryNatureIsFlat()
    ensures '\n' !in StoryNature()
  {
  }

  lemma StoryCautionIsFlat()
    ensures '\n' !in StoryCaution()
  {
  }

  lemma StoryExampleIsFlat()
    ensures '\n' !in StoryExample()
  {
  }

  lemma StoryTitleIsFlat()
    ensures '\n' !in StoryTitle()
  {
    StoryOpeningIsFlat();
    StoryNatureIsFlat();
    StoryCautionIsFlat();
    StoryExampleIsFlat();
    hide StoryOpening, StoryNature, StoryCaution, StoryExample;
    FlatTogether(StoryOpening(), StoryNature());
    FlatTogether(StoryOpening() + StoryNature(), StoryCaution());
    FlatTogether(StoryOpening() + StoryNature() + StoryCaution(), StoryExample());
  }

  /** The sections stand in the order forced, norms, history, each under its own title; an empty one is not there. */
  lemma SectionsStandInOrder(s: Sections)
    requires FlatLines(s.forced) && FlatLines(s.norms) && FlatLines(s.stories)
    ensures var parts := BuildParts(s);
      var n := if s.forced != [] then 1 else 0;
      var m := n + if s.norms != [] then 1 else 0;
      && |parts| == m + (if s.stories != [] then 1 else 0)
      && (s.forced != [] ==> ReadsAs(parts[0], FORCED_TITLE, s.forced))
      && (s.norms != [] ==> ReadsAs(parts[n], NORM_TITLE, s.norms))
      && (s.stories != [] ==> ReadsAs(parts[m], StoryTitle(), s.stories))
  {
    FirstTitlesAreFlat();
    StoryTitleIsFlat();
    hide StoryTitle;
    if s.forced != [] {
      SectionReadsBack(FORCED_TITLE, s.forced);
    }
    if s.norms != [] {
      SectionReadsBack(NORM_TITLE, s.norms);
    }
    if s.stories != [] {
      SectionReadsBack(StoryTitle(), s.stories);
    }
    hide SplitLines, Join, IdsOn, Texts;
  }

  // ---------- the budget ----------

  /** A forced section that comes first is in the text, however long it is. */
  lemma {:induction false} ForcedIsAlwaysThere(parts: seq<Part>, limit: nat, n: nat)
    requires 0 < n <= |parts|
    ensures var taken := Taken(parts, true, limit, n); taken != [] && taken[0] == parts[0]
  {
    hide Joined;
    if n > 1 {
      ForcedIsAlwaysThere(parts, limit, n - 1);
    }
  }

  /** Sections are taken or dropped one by one, in their order. */
  lemma TakenOneByOne(parts: seq<Part>, hasForced: bool, limit: nat, n: nat)
    requires n < |parts|
    ensures var before, after := Taken(parts, hasForced, limit, n), Taken(parts, hasForced, limit, n + 1);
      after == before || after == before + [parts[n]]
  {
    hide Joined;
  }
}
