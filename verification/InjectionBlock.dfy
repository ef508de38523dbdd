/**
 From ranked hits to the text injected into the prompt (memory2/retriever.py):
 selection with a cap per class, one section per class, and a greedy character
 budget. How a single line is written is left to `format`.
 */
module InjectionBlock {
  import opened Prelude
  import opened RankFusion
  import Text

  datatype Class = Forced | Norm | Story

  datatype Config = Config(guard: bool, maxForced: nat, maxNorm: nat, maxStory: nat, threshold: string -> real, maxChars: nat)

  const FORCED_TITLE := "## 【强制约束】记忆规则（必须执行）"
  const NORM_TITLE := "## 【流程规范】用户偏好与规则"

  function StoryOpening(): string {
    "## 【相关历史】你与当前用户的过往对话"
  }

  function StoryNature(): string {
    "（来自记忆检索，时间戳可信，可直接引用，不得自行否定；"
  }

  function StoryCaution(): string {
    "数字/金额/地名等具体值以记录为准，不得用常识替换；可根据上下文合理推断，"
  }

  function StoryExample(): string {
    "如去某城市探望姐姐可推断姐姐住在该城市）"
  }

  function StoryTitle(): string {
    StoryOpening() + StoryNature() + StoryCaution() + StoryExample()
  }

  const FORCED_HEADER := FORCED_TITLE + "\n"
  const NORM_HEADER := NORM_TITLE + "\n"
  const STORY_HEADER := StoryTitle() + "\n"

  /** The configured values after the constructor's clamping. */
  function Configured(guard: bool, maxForced: int, maxNorm: int, maxStory: int, threshold: string -> real, maxChars: int): Config {
    Config(guard, Max(1, maxForced), Max(1, maxNorm), Max(0, maxStory), threshold, Max(200, maxChars))
  }

  /** The class a hit is eligible for, if any. */
  function ClassOf(c: Config, h: Hit): Option<Class> {
    if c.guard && h.kind == "procedure" && h.tool != "" then Some(Forced)
    else if h.score.None? || h.score.value < c.threshold(h.kind) then None
    else if h.kind == "procedure" || h.kind == "preference" then Some(Norm)
    else if h.kind == "event" || h.kind == "profile" then Some(Story)
    else None
  }

  function Cap(c: Config, k: Class): nat {
    match k
    case Forced => c.maxForced
    case Norm => c.maxNorm
    case Story => c.maxStory
  }

  /** The hits eligible for one class, in order. */
  function OfClass(c: Config, hits: seq<Hit>, k: Class): seq<Hit> {
    if hits == [] then []
    else
      var n := |hits| - 1;
      OfClass(c, hits[..n], k) + if ClassOf(c, hits[n]) == Some(k) then [hits[n]] else []
  }

  function FirstFew(hits: seq<Hit>, n: nat): seq<Hit> {
    if n < |hits| then hits[..n] else hits
  }

  datatype Line = Line(id: string, text: string)

  /** The line of one hit; a hit without a summary has none. */
  function Written(h: Hit, format: Hit -> string): seq<Line> {
    if Text.Strip(h.summary) != "" then [Line(h.id, format(h))] else []
  }

  /** The lines of a section: hits with a summary, written out. */
  function LinesOf(hits: seq<Hit>, format: Hit -> string): seq<Line> {
    if hits == [] then []
    else
      var n := |hits| - 1;
      LinesOf(hits[..n], format) + Written(hits[n], format)
  }

  lemma OfClassGrows(c: Config, hits: seq<Hit>, h: Hit, k: Class)
    ensures OfClass(c, hits + [h], k) == OfClass(c, hits, k) + if ClassOf(c, h) == Some(k) then [h] else []
  {
    assert (hits + [h])[..|hits|] == hits;
  }

  lemma LinesGrow(hits: seq<Hit>, h: Hit, format: Hit -> string)
    ensures LinesOf(hits + [h], format) == LinesOf(hits, format) + Written(h, format)
  {
    assert (hits + [h])[..|hits|] == hits;
  }

  datatype Sections = Sections(selected: seq<Hit>, forced: seq<Line>, norms: seq<Line>, stories: seq<Line>)

  /** The selection holds the best of one class up to its cap, and the lines of just those. */
  ghost predicate ClassDone(c: Config, seen: seq<Hit>, selected: seq<Hit>, lines: seq<Line>, format: Hit -> string, k: Class) {
    && OfClass(c, selected, k) == FirstFew(OfClass(c, seen, k), Cap(c, k))
    && lines == LinesOf(OfClass(c, selected, k), format)
  }

  /** What looking at one more hit does to one class. */
  lemma LookAt(c: Config, seen: seq<Hit>, selected: seq<Hit>, lines: seq<Line>, format: Hit -> string, h: Hit, k: Class)
    requires ClassDone(c, seen, selected, lines, format, k)
    ensures |OfClass(c, selected + [h], k)| == |OfClass(c, selected, k)| + if ClassOf(c, h) == Some(k) then 1 else 0
    ensures ClassOf(c, h) != Some(k) ==>
      ClassDone(c, seen + [h], selected, lines, format, k) && ClassDone(c, seen + [h], selected + [h], lines, format, k)
    ensures ClassOf(c, h) == Some(k) ==>
      if |OfClass(c, selected, k)| >= Cap(c, k) then ClassDone(c, seen + [h], selected, lines, format, k)
      else ClassDone(c, seen + [h], selected + [h], lines + Written(h, format), format, k)
  {
    OfClassGrows(c, seen, h, k);
    OfClassGrows(c, selected, h, k);
    LinesGrow(OfClass(c, selected, k), h, format);
    hide OfClass, LinesOf, ClassOf, Text.Strip, Cap;
  }

  lemma NothingDone(c: Config, format: Hit -> string)
    ensures forall k :: ClassDone(c, [], [], [], format, k) && OfClass(c, [], k) == []
  {
  }

  /**
   `_select_injection_sections`: of every class the best hits up to its cap, no more and
   no others, and each section holds just the lines of the hits selected for it. Raises
   when a hit has no score to sort by.
   */
  method SelectSections(c: Config, items: seq<Hit>, format: Hit -> string) returns (out: Option<Sections>)
    ensures out.Some? <==> forall h :: h in items ==> h.score.Some?
    ensures out.Some? ==>
      var s := out.value;
      && ClassDone(c, ByScore(items), s.selected, s.forced, format, Forced)
      && ClassDone(c, ByScore(items), s.selected, s.norms, format, Norm)
      && ClassDone(c, ByScore(items), s.selected, s.stories, format, Story)
      && forall h :: h in s.selected ==> ClassOf(c, h).Some?
  {
    if exists h :: h in items && h.score.None? {
      return None;
    }
    var s := SelectSorted(c, ByScore(items), format);
    return Some(s);
  }

  /** The selection loop, over hits with the best first. */
  method SelectSorted(c: Config, sorted: seq<Hit>, format: Hit -> string) returns (s: Sections)
    ensures ClassDone(c, sorted, s.selected, s.forced, format, Forced)
    ensures ClassDone(c, sorted, s.selected, s.norms, format, Norm)
    ensures ClassDone(c, sorted, s.selected, s.stories, format, Story)
    ensures forall h :: h in s.selected ==> ClassOf(c, h).Some?
  {
    NothingDone(c, format);
    hide ClassDone, OfClass, ClassOf, Written;
    assert sorted[..0] == [];
    var selected: seq<Hit> := [];
    var forced, norms, stories := [], [], [];
    var forcedCount, normCount, storyCount := 0, 0, 0;
    var i := 0;
    while i < |sorted|
      invariant 0 <= i <= |sorted|
      invariant ClassDone(c, sorted[..i], selected, forced, format, Forced) && forcedCount == |OfClass(c, selected, Forced)|
      invariant ClassDone(c, sorted[..i], selected, norms, format, Norm) && normCount == |OfClass(c, selected, Norm)|
      invariant ClassDone(c, sorted[..i], selected, stories, format, Story) && storyCount == |OfClass(c, selected, Story)|
      invariant forall h :: h in selected ==> ClassOf(c, h).Some?
    {
      var item := sorted[i];
      assert sorted[..i + 1] == sorted[..i] + [item];
      LookAt(c, sorted[..i], selected, forced, format, item, Forced);
      LookAt(c, sorted[..i], selected, norms, format, item, Norm);
      LookAt(c, sorted[..i], selected, stories, format, item, Story);
      i := i + 1;
      var kind := ClassOf(c, item);
      if kind.None? {
        continue;
      }
      if kind.value.Forced? {
        if forcedCount >= c.maxForced {
          continue;
        }
        forcedCount := forcedCount + 1;
        forced := forced + Written(item, format);
      } else if kind.value.Norm? {
        if normCount >= c.maxNorm {
          continue;
        }
        normCount := normCount + 1;
        norms := norms + Written(item, format);
      } else {
        if storyCount >= c.maxStory {
          continue;
        }
        storyCount := storyCount + 1;
        stories := stories + Written(item, format);
      }
      selected := selected + [item];
    }
    assert sorted[..i] == sorted;
    return Sections(selected, forced, norms, stories);
  }

  // ---------- sections ----------

  function Join(parts: seq<string>, gap: string): string {
    if parts == [] then ""
    else if |parts| == 1 then parts[0]
    else Join(parts[..|parts| - 1], gap) + gap + parts[|parts| - 1]
  }

  datatype Part = Part(text: string, ids: seq<string>)

  function Texts(lines: seq<Line>): seq<string> {
    seq(|lines|, i requires 0 <= i < |lines| => lines[i].text)
  }

  /** The ids of lines that have one. */
  function IdsOn(lines: seq<Line>): seq<string> {
    if lines == [] then []
    else
      var n := |lines| - 1;
      IdsOn(lines[..n]) + if lines[n].id != "" then [lines[n].id] else []
  }

  function PartOf(header: string, lines: seq<Line>): seq<Part> {
    if lines == [] then [] else [Part(header + Join(Texts(lines), "\n"), IdsOn(lines))]
  }

  /** Sections without lines do not appear. */
  function BuildParts(s: Sections): seq<Part> {
    PartOf(FORCED_HEADER, s.forced) + PartOf(NORM_HEADER, s.norms) + PartOf(STORY_HEADER, s.stories)
  }

  // ---------- the budget ----------

  function PartTexts(parts: seq<Part>): seq<string> {
    seq(|parts|, i requires 0 <= i < |parts| => parts[i].text)
  }

  function Joined(parts: seq<Part>): string {
    Join(PartTexts(parts), "\n\n")
  }

  /** Which of the first `n` parts the greedy budget takes: a leading forced part always, any other while the text fits. */
  function Taken(parts: seq<Part>, hasForced: bool, limit: nat, n: nat): seq<Part>
    requires n <= |parts|
  {
    if n == 0 then []
    else
      var before := Taken(parts, hasForced, limit, n - 1);
      if |Joined(before + [parts[n - 1]])| <= limit || (n == 1 && hasForced) then before + [parts[n - 1]] else before
  }

  lemma JoinedGrows(parts: seq<Part>, p: Part)
    ensures |Joined(parts + [p])| == |Joined(parts)| + |p.text| + if parts == [] then 0 else 2
  {
    var after := PartTexts(parts + [p]);
    assert after == PartTexts(parts) + [p.text];
    if parts != [] {
      assert after[..|after| - 1] == PartTexts(parts);
    }
  }

  /** First occurrences only. */
  function Distinct(ids: seq<string>): seq<string> {
    if ids == [] then []
    else
      var n := |ids| - 1;
      var d := Distinct(ids[..n]);
      if ids[n] in d then d else d + [ids[n]]
  }

  lemma {:induction false} DistinctIsASet(ids: seq<string>)
    ensures forall x :: x in Distinct(ids) <==> x in ids
    ensures forall i, j :: 0 <= i < j < |Distinct(ids)| ==> Distinct(ids)[i] != Distinct(ids)[j]
  {
    if ids != [] {
      var n := |ids| - 1;
      DistinctIsASet(ids[..n]);
      assert ids == ids[..n] + [ids[n]];
    }
  }

  function NonEmpty(ids: seq<string>): seq<string> {
    if ids == [] then []
    else NonEmpty(ids[..|ids| - 1]) + if ids[|ids| - 1] != "" then [ids[|ids| - 1]] else []
  }

  function AllIds(parts: seq<Part>): seq<string> {
    if parts == [] then []
    else AllIds(parts[..|parts| - 1]) + NonEmpty(parts[|parts| - 1].ids)
  }

  lemma OneMoreId(past: seq<string>, ids: seq<string>, i: nat)
    requires i < |ids|
    ensures var d := Distinct(past + NonEmpty(ids[..i]));
      Distinct(past + NonEmpty(ids[..i + 1])) == if ids[i] != "" && ids[i] !in d then d + [ids[i]] else d
  {
    assert ids[..i + 1][..i] == ids[..i];
    var before, after := past + NonEmpty(ids[..i]), past + NonEmpty(ids[..i + 1]);
    if ids[i] != "" {
      assert after == before + [ids[i]] && after[..|after| - 1] == before;
    } else {
      assert after == before;
    }
  }

  /** Adds the ids of one part that were not there yet. */
  method AddIds(ghost past: seq<string>, injected: seq<string>, ids: seq<string>) returns (out: seq<string>)
    requires injected == Distinct(past)
    ensures out == Distinct(past + NonEmpty(ids))
  {
    out := injected;
    var i := 0;
    assert ids[..0] == [] && past + NonEmpty([]) == past;
    while i < |ids|
      invariant 0 <= i <= |ids|
      invariant out == Distinct(past + NonEmpty(ids[..i]))
    {
      OneMoreId(past, ids, i);
      hide Distinct, NonEmpty;
      if ids[i] != "" && ids[i] !in out {
        out := out + [ids[i]];
      }
      i := i + 1;
    }
    assert ids[..i] == ids;
  }

  lemma NothingTaken(parts: seq<Part>, hasForced: bool, limit: nat)
    ensures Taken(parts, hasForced, limit, 0) == [] && Distinct(AllIds([])) == [] && Joined([]) == ""
  {
  }

  lemma OneMorePart(parts: seq<Part>, hasForced: bool, limit: nat, i: nat)
    requires i < |parts|
    ensures var before := Taken(parts, hasForced, limit, i);
      var length := |Joined(before)| + |parts[i].text| + if before == [] then 0 else 2;
      && Taken(parts, hasForced, limit, i + 1)
         == (if length <= limit || (i == 0 && hasForced) then before + [parts[i]] else before)
      && |Joined(before + [parts[i]])| == length
      && AllIds(before + [parts[i]]) == AllIds(before) + NonEmpty(parts[i].ids)
  {
    var before := Taken(parts, hasForced, limit, i);
    JoinedGrows(before, parts[i]);
    assert (before + [parts[i]])[..|before|] == before;
  }

  /** `_apply_char_budget`: the running total is the length of the joined text at every step. */
  method ApplyCharBudget(parts: seq<Part>, hasForced: bool, limit: nat) returns (text: string, ids: seq<string>)
    ensures text == Joined(Taken(parts, hasForced, limit, |parts|))
    ensures ids == Distinct(AllIds(Taken(parts, hasForced, limit, |parts|)))
  {
    var finals: seq<Part> := [];
    ids := [];
    var total := 0;
    var i := 0;
    hide Taken, Joined, AllIds, Distinct, NonEmpty;
    assert Taken(parts, hasForced, limit, 0) == [] && Distinct(AllIds([])) == [] && Joined([]) == "" by {
      NothingTaken(parts, hasForced, limit);
    }
    while i < |parts|
      invariant 0 <= i <= |parts|
      invariant finals == Taken(parts, hasForced, limit, i) && total == |Joined(finals)|
      invariant ids == Distinct(AllIds(finals))
    {
      OneMorePart(parts, hasForced, limit, i);
      var addLen := |parts[i].text| + if finals != [] then 2 else 0;
      var isForced := i == 0 && hasForced;
      if total + addLen <= limit || isForced {
        ids := AddIds(AllIds(finals), ids, parts[i].ids);
        finals := finals + [parts[i]];
        total := total + addLen;
      }
      i := i + 1;
    }
    text := Joined(finals);
  }

  /** The text never exceeds the limit, except that a forced section longer than that is kept, alone. */
  lemma {:induction false} BudgetHolds(parts: seq<Part>, hasForced: bool, limit: nat, n: nat)
    requires n <= |parts|
    ensures var taken := Taken(parts, hasForced, limit, n);
      && |Joined(taken)| <= Max(limit, if hasForced && n > 0 then |parts[0].text| else 0)
      && (|Joined(taken)| > limit ==> taken == [parts[0]])
  {
    if n > 0 {
      BudgetHolds(parts, hasForced, limit, n - 1);
      var before := Taken(parts, hasForced, limit, n - 1);
      JoinedGrows(before, parts[n - 1]);
      assert Joined([]) == "" && [] + [parts[0]] == [parts[0]];
      hide Joined;
    }
  }

  /** Greedy is maximal: a part left out would not even fit behind the final text. */
  lemma {:induction false} NothingThatFitsIsDropped(parts: seq<Part>, hasForced: bool, limit: nat, n: nat, i: nat)
    requires i < n <= |parts|
    ensures var taken := Taken(parts, hasForced, limit, n);
      parts[i] in taken || |Joined(taken + [parts[i]])| > limit
  {
    var before := Taken(parts, hasForced, limit, n - 1);
    if i < n - 1 {
      NothingThatFitsIsDropped(parts, hasForced, limit, n - 1, i);
      JoinedGrows(before, parts[i]);
      JoinedGrows(before, parts[n - 1]);
      JoinedGrows(before + [parts[n - 1]], parts[i]);
    }
    hide Joined;
  }

  /** An id is reported exactly if it is a non-empty id of an included section. */
  lemma {:induction false} ReportedIds(taken: seq<Part>, id: string)
    ensures id in AllIds(taken) <==> id != "" && exists p :: p in taken && id in p.ids
  {
    if taken != [] {
      var n := |taken| - 1;
      ReportedIds(taken[..n], id);
      NonEmptyKeeps(taken[n].ids, id);
      assert taken == taken[..n] + [taken[n]];
    }
  }

  lemma {:induction false} NonEmptyKeeps(ids: seq<string>, id: string)
    ensures id in NonEmpty(ids) <==> id in ids && id != ""
  {
    if ids != [] {
      NonEmptyKeeps(ids[..|ids| - 1], id);
      assert ids == ids[..|ids| - 1] + [ids[|ids| - 1]];
    }
  }

  // ---------- the whole block ----------

  /** The lines a class contributes: its best hits up to the cap, those that have a summary. */
  function Section(c: Config, items: seq<Hit>, k: Class, format: Hit -> string): seq<Line>
    requires forall h :: h in items ==> h.score.Some?
  {
    LinesOf(FirstFew(OfClass(c, ByScore(items), k), Cap(c, k)), format)
  }

  function PartsOf(c: Config, items: seq<Hit>, format: Hit -> string): seq<Part>
    requires forall h :: h in items ==> h.score.Some?
  {
    BuildParts(Sections([], Section(c, items, Forced, format), Section(c, items, Norm, format), Section(c, items, Story, format)))
  }

  /** The parts that end up in the block. */
  function Included(c: Config, items: seq<Hit>, format: Hit -> string): seq<Part>
    requires forall h :: h in items ==> h.score.Some?
  {
    var parts := PartsOf(c, items, format);
    Taken(parts, Section(c, items, Forced, format) != [], c.maxChars, |parts|)
  }

  /**
   `build_injection_block`: the greedy text over the sections, never longer than the
   limit or the forced section, with the ids of the sections it contains, each once.
   */
  method BuildInjectionBlock(c: Config, items: seq<Hit>, format: Hit -> string) returns (out: Option<(string, seq<string>)>)
    ensures out.Some? <==> forall h :: h in items ==> h.score.Some?
    ensures out.Some? ==>
      var (text, ids) := out.value;
      && text == Joined(Included(c, items, format))
      && |text| <= Max(c.maxChars, if Section(c, items, Forced, format) != [] then |PartsOf(c, items, format)[0].text| else 0)
      && (forall id :: id in ids <==> id != "" && exists p :: p in Included(c, items, format) && id in p.ids)
      && (forall i, j :: 0 <= i < j < |ids| ==> ids[i] != ids[j])
  {
    hide Taken, Joined, AllIds, Distinct, ByScore, ClassOf, LinesOf;
    var selection := SelectSections(c, items, format);
    if selection.None? {
      return None;
    }
    var s := selection.value;
    SectionsMatch(c, items, format, s);
    if s.selected == [] {
      NothingTaken([], false, c.maxChars);
      return Some(("", []));
    }
    var parts := BuildParts(s);
    hide BuildParts;
    var hasForced := s.forced != [];
    var text, ids := ApplyCharBudget(parts, hasForced, c.maxChars);
    BudgetHolds(parts, hasForced, c.maxChars, |parts|);
    ghost var taken := Taken(parts, hasForced, c.maxChars, |parts|);
    forall id ensures id in AllIds(taken) <==> id != "" && exists p :: p in taken && id in p.ids {
      ReportedIds(taken, id);
    }
    DistinctIsASet(AllIds(taken));
    return Some((text, ids));
  }

  lemma SectionsMatch(c: Config, items: seq<Hit>, format: Hit -> string, s: Sections)
    requires forall h :: h in items ==> h.score.Some?
    requires ClassDone(c, ByScore(items), s.selected, s.forced, format, Forced)
    requires ClassDone(c, ByScore(items), s.selected, s.norms, format, Norm)
    requires ClassDone(c, ByScore(items), s.selected, s.stories, format, Story)
    ensures BuildParts(s) == PartsOf(c, items, format) && s.forced == Section(c, items, Forced, format)
    ensures s.forced != [] ==> PartsOf(c, items, format) != []
    ensures s.selected == [] ==> PartsOf(c, items, format) == [] && s.forced == []
  {
    hide ByScore, ClassOf;
  }

  /** No class ever contributes more lines than its cap allows. */
  lemma CapsHold(c: Config, items: seq<Hit>, k: Class, format: Hit -> string)
    requires forall h :: h in items ==> h.score.Some?
    ensures |Section(c, items, k, format)| <= Cap(c, k)
  {
    hide ByScore, ClassOf, LinesOf;
    AtMostOneLineEach(FirstFew(OfClass(c, ByScore(items), k), Cap(c, k)), format);
  }

  lemma {:induction false} AtMostOneLineEach(hits: seq<Hit>, format: Hit -> string)
    ensures |LinesOf(hits, format)| <= |hits|
  {
    if hits != [] {
      AtMostOneLineEach(hits[..|hits| - 1], format);
    }
  }
}
