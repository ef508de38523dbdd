/**
 Reciprocal-rank fusion of the vector and the keyword lane (memory2/retriever.py).
 Scores are real numbers: floating-point rounding is not part of this model.
 */
module RankFusion {
  import opened Prelude

  /** A memory hit as far as ranking and selection look at it; `tool` is the tool a procedure demands, or empty. */
  datatype Hit = Hit(id: string, score: Option<real>, keywordScore: Option<real>, kind: string, summary: string, tool: string)

  const K: int := 60
  const KEYWORD_WEIGHT: real := 0.5

  // ---------- order on ids ----------

  predicate LexLess(a: string, b: string) {
    b != "" && (a == "" || a[0] < b[0] || (a[0] == b[0] && LexLess(a[1..], b[1..])))
  }

  lemma {:induction false} LexIsTotal(a: string, b: string)
    ensures a != b ==> LexLess(a, b) || LexLess(b, a)
    ensures !(LexLess(a, b) && LexLess(b, a)) && !LexLess(a, a)
  {
    if a != "" {
      LexIsTotal(a[1..], a[1..]);
      if b != "" && a[0] == b[0] {
        LexIsTotal(a[1..], b[1..]);
        assert a == [a[0]] + a[1..] && b == [b[0]] + b[1..];
      }
    }
  }

  lemma {:induction false} LexIsTransitive(a: string, b: string, c: string)
    requires LexLess(a, b) && LexLess(b, c)
    ensures LexLess(a, c)
  {
    if a != "" && a[0] == b[0] == c[0] {
      LexIsTransitive(a[1..], b[1..], c[1..]);
    }
  }

  // ---------- scored candidates ----------

  datatype Scored = Scored(id: string, rrf: real, score: real)

  /** The final order: higher fused score, then higher score, then smaller id. */
  predicate Before(a: Scored, b: Scored) {
    a.rrf > b.rrf || (a.rrf == b.rrf && (a.score > b.score || (a.score == b.score && LexLess(a.id, b.id))))
  }

  lemma BeforeIsTotal(a: Scored, b: Scored)
    ensures a.id != b.id ==> Before(a, b) || Before(b, a)
    ensures !(Before(a, b) && Before(b, a))
  {
    LexIsTotal(a.id, b.id);
  }

  lemma BeforeIsTransitive(a: Scored, b: Scored, c: Scored)
    requires Before(a, b) && Before(b, c)
    ensures Before(a, c)
  {
    if LexLess(a.id, b.id) && LexLess(b.id, c.id) {
      LexIsTransitive(a.id, b.id, c.id);
    }
  }

  ghost predicate InOrder(s: seq<Scored>) {
    forall i, j :: 0 <= i < j < |s| ==> Before(s[i], s[j])
  }

  ghost predicate DistinctIds(s: seq<Scored>) {
    forall i, j :: 0 <= i < j < |s| ==> s[i].id != s[j].id
  }

  /** `r` is the best `n` of `all`, in order. */
  ghost predicate IsTop(r: seq<Scored>, all: set<Scored>, n: nat) {
    && |r| == (if n < |all| then n else |all|)
    && InOrder(r)
    && (forall x :: x in r ==> x in all)
    && (forall x, y :: x in all && x !in r && y in r ==> Before(y, x))
  }

  ghost predicate OnePerId(all: set<Scored>) {
    forall x, y :: x in all && y in all && x.id == y.id ==> x == y
  }

  lemma TopIsLeast(r: seq<Scored>, all: set<Scored>, n: nat, i: nat, y: Scored)
    requires IsTop(r, all, n) && i < |r| && y in all && y !in r[..i] && y != r[i]
    ensures Before(r[i], y)
  {
    if y in r {
      var j :| 0 <= j < |r| && r[j] == y;
      assert forall m :: 0 <= m < i ==> r[..i][m] == r[m] && r[m] != y;
    }
  }

  /** There is only one top-n list: no tie survives, so no enumeration order can show. */
  lemma {:induction false} TopIsUnique(r: seq<Scored>, q: seq<Scored>, all: set<Scored>, n: nat, i: nat)
    requires IsTop(r, all, n) && IsTop(q, all, n) && OnePerId(all) && i <= |r|
    ensures |q| == |r| && r[..i] == q[..i]
  {
    if i > 0 {
      TopIsUnique(r, q, all, n, i - 1);
      var x, y := r[i - 1], q[i - 1];
      if x != y {
        NotInOwnPrefix(q, i - 1);
        NotInOwnPrefix(r, i - 1);
        TopIsLeast(r, all, n, i - 1, y);
        TopIsLeast(q, all, n, i - 1, x);
        BeforeIsTotal(x, y);
      }
      assert r[..i] == r[..i - 1] + [x] && q[..i] == q[..i - 1] + [y];
    }
  }

  lemma NotInOwnPrefix(r: seq<Scored>, i: nat)
    requires InOrder(r) && i < |r|
    ensures r[i] !in r[..i]
  {
    BeforeIsTotal(r[i], r[i]);
    assert forall j :: 0 <= j < i ==> r[..i][j] == r[j] && Before(r[j], r[i]);
  }

  // ---------- sorting ----------

  function Insert(x: Scored, s: seq<Scored>): seq<Scored> {
    if s == [] || Before(x, s[0]) then [x] + s else [s[0]] + Insert(x, s[1..])
  }

  /** Any sort will do: the order is total. */
  function Sort(s: seq<Scored>): seq<Scored> {
    if s == [] then [] else Insert(s[0], Sort(s[1..]))
  }

  ghost function Elements(s: seq<Scored>): set<Scored> {
    set x | x in s
  }

  lemma {:induction false} InsertSorts(x: Scored, s: seq<Scored>)
    requires InOrder(s) && forall y :: y in s ==> y.id != x.id
    ensures InOrder(Insert(x, s)) && Elements(Insert(x, s)) == {x} + Elements(s) && |Insert(x, s)| == |s| + 1
  {
    if s != [] && !Before(x, s[0]) {
      BeforeIsTotal(x, s[0]);
      InsertSorts(x, s[1..]);
      var t := Insert(x, s[1..]);
      assert Elements(s) == {s[0]} + Elements(s[1..]);
      forall j | 0 <= j < |t| ensures Before(s[0], t[j]) {
        assert t[j] in Elements(t);
        if t[j] != x {
          var k :| 0 <= k < |s[1..]| && s[1..][k] == t[j];
          assert s[k + 1] == t[j];
        }
      }
    } else if s != [] {
      forall j | 0 < j < |s| ensures Before(x, s[j]) {
        BeforeIsTransitive(x, s[0], s[j]);
      }
    }
  }

  lemma {:induction false} SortSorts(s: seq<Scored>)
    requires DistinctIds(s)
    ensures InOrder(Sort(s)) && Elements(Sort(s)) == Elements(s) && |Sort(s)| == |s|
  {
    if s != [] {
      SortSorts(s[1..]);
      forall y | y in Sort(s[1..]) ensures y.id != s[0].id {
        assert y in Elements(s[1..]);
        var k :| 0 <= k < |s[1..]| && s[1..][k] == y;
        assert s[k + 1] == y;
      }
      InsertSorts(s[0], Sort(s[1..]));
      assert Elements(s) == {s[0]} + Elements(s[1..]);
    }
  }

  lemma {:induction false} ElementCount(s: seq<Scored>)
    requires DistinctIds(s)
    ensures |Elements(s)| == |s|
  {
    if s != [] {
      ElementCount(s[1..]);
      forall k | 0 <= k < |s[1..]| ensures s[1..][k] != s[0] {
        assert s[1..][k].id == s[k + 1].id != s[0].id;
      }
      assert Elements(s) == {s[0]} + Elements(s[1..]);
    }
  }

  lemma CutIsTop(s: seq<Scored>, n: nat)
    requires DistinctIds(s)
    ensures var t := Sort(s); IsTop(if n < |t| then t[..n] else t, Elements(s), n)
  {
    hide Before, Sort;
    SortSorts(s);
    ElementCount(s);
    var t := Sort(s);
    var r := if n < |t| then t[..n] else t;
    forall x | x in r ensures x in Elements(s) {
      assert x in t;
      assert x in Elements(t);
    }
    forall x, y | x in Elements(s) && x !in r && y in r ensures Before(y, x) {
      assert x in Elements(t);
      var i :| 0 <= i < |t| && t[i] == x;
      var j :| 0 <= j < |r| && r[j] == y;
      assert t[j] == y;
      assert forall m :: 0 <= m < |r| ==> r[m] == t[m] && r[m] != x;
    }
  }

  // ---------- lanes ----------

  ghost function Ids(items: seq<Hit>): set<string> {
    set i | 0 <= i < |items| :: items[i].id
  }

  /** One plus the index of the first hit with this id. */
  function RankIn(items: seq<Hit>, id: string): (r: Option<nat>)
    ensures r.Some? <==> id in Ids(items)
    ensures r.Some? ==> 0 < r.value <= |items| && items[r.value - 1].id == id && forall j :: 0 <= j < r.value - 1 ==> items[j].id != id
  {
    if items == [] then None
    else
      var n := |items| - 1;
      var before := RankIn(items[..n], id);
      if before.Some? then before else if items[n].id == id then Some(n + 1) else None
  }

  function LastOf(items: seq<Hit>, id: string): (h: Option<Hit>)
    ensures h.Some? <==> id in Ids(items)
    ensures h.Some? ==> h.value in items && h.value.id == id
  {
    if items == [] then None
    else
      var n := |items| - 1;
      if items[n].id == id then Some(items[n]) else LastOf(items[..n], id)
  }

  /** A keyword-only hit gets a score: its own, else its keyword score. */
  function Normal(h: Hit): Hit {
    if h.score.Some? then h else h.(score := h.keywordScore)
  }

  predicate VectorOk(h: Hit) {
    h.id != "" && h.score.Some?
  }

  predicate KeywordOk(h: Hit) {
    h.id != "" && Normal(h).score.Some?
  }

  /** The hit that represents an id: the last vector hit, or the last keyword hit. */
  function Chosen(vector: seq<Hit>, keyword: seq<Hit>, id: string): (h: Hit)
    requires id in Ids(vector) + Ids(keyword)
    ensures h.id == id
  {
    if LastOf(vector, id).Some? then LastOf(vector, id).value else Normal(LastOf(keyword, id).value)
  }

  function InsertByScore(h: Hit, s: seq<Hit>): seq<Hit>
    requires h.score.Some? && forall x :: x in s ==> x.score.Some?
  {
    if s == [] || h.score.value >= s[0].score.value then [h] + s else [s[0]] + InsertByScore(h, s[1..])
  }

  /** The library's stable sort, highest score first: later hits go behind earlier ones of the same score. */
  function ByScore(items: seq<Hit>): (r: seq<Hit>)
    requires forall h :: h in items ==> h.score.Some?
    ensures multiset(r) == multiset(items) && forall h :: h in r ==> h.score.Some?
  {
    if items == [] then []
    else
      InsertKeeps(items[0], ByScore(items[1..]));
      assert items == [items[0]] + items[1..];
      InsertByScore(items[0], ByScore(items[1..]))
  }

  lemma {:induction false} InsertKeeps(h: Hit, s: seq<Hit>)
    requires h.score.Some? && forall x :: x in s ==> x.score.Some?
    ensures multiset(InsertByScore(h, s)) == multiset([h]) + multiset(s)
    ensures forall x :: x in InsertByScore(h, s) <==> x == h || x in s
  {
    if s != [] && h.score.value < s[0].score.value {
      InsertKeeps(h, s[1..]);
      assert s == [s[0]] + s[1..];
    }
  }

  ghost predicate Descending(s: seq<Hit>)
    requires forall h :: h in s ==> h.score.Some?
  {
    forall i, j :: 0 <= i < j < |s| ==> s[i].score.value >= s[j].score.value
  }

  /** The hits with one score, in order. */
  function WithScore(s: seq<Hit>, v: real): seq<Hit> {
    if s == [] then []
    else (if s[0].score == Some(v) then [s[0]] else []) + WithScore(s[1..], v)
  }

  lemma {:induction false} InsertDescends(h: Hit, s: seq<Hit>)
    requires h.score.Some? && (forall x :: x in s ==> x.score.Some?) && Descending(s)
    ensures forall x :: x in InsertByScore(h, s) ==> x.score.Some?
    ensures Descending(InsertByScore(h, s))
  {
    InsertKeeps(h, s);
    if s != [] && h.score.value < s[0].score.value {
      InsertDescends(h, s[1..]);
      InsertKeeps(h, s[1..]);
      var t := InsertByScore(h, s[1..]);
      forall j | 0 <= j < |t| ensures s[0].score.value >= t[j].score.value {
        assert t[j] in t;
      }
    }
  }

  lemma WithScoreSplits(h: Hit, s: seq<Hit>, v: real)
    ensures WithScore([h] + s, v) == (if h.score == Some(v) then [h] else []) + WithScore(s, v)
  {
    assert ([h] + s)[1..] == s;
  }

  lemma {:induction false} InsertIsStable(h: Hit, s: seq<Hit>, v: real)
    requires h.score.Some? && (forall x :: x in s ==> x.score.Some?)
    ensures WithScore(InsertByScore(h, s), v) == (if h.score == Some(v) then [h] else []) + WithScore(s, v)
  {
    hide WithScore;
    if s != [] && h.score.value < s[0].score.value {
      InsertIsStable(h, s[1..], v);
      WithScoreSplits(s[0], s[1..], v);
      WithScoreSplits(s[0], InsertByScore(h, s[1..]), v);
      assert s == [s[0]] + s[1..];
    } else {
      WithScoreSplits(h, s, v);
    }
  }

  /** The vector lane is ranked by score, and hits of equal score keep their order. */
  lemma {:induction false} ByScoreIsStable(items: seq<Hit>, v: real)
    requires forall h :: h in items ==> h.score.Some?
    ensures Descending(ByScore(items)) && WithScore(ByScore(items), v) == WithScore(items, v)
  {
    if items != [] {
      ByScoreIsStable(items[1..], v);
      InsertDescends(items[0], ByScore(items[1..]));
      InsertIsStable(items[0], ByScore(items[1..]), v);
    }
  }

  // ---------- fusion ----------

  function Share(rank: Option<nat>, weight: real): real {
    if rank.None? then 0.0 else weight / (K + rank.value) as real
  }

  function Rrf(vectorRank: Option<nat>, keywordRank: Option<nat>): real {
    Share(vectorRank, 1.0) + Share(keywordRank, KEYWORD_WEIGHT)
  }

  ghost predicate LanesOk(vector: seq<Hit>, keyword: seq<Hit>) {
    (forall h :: h in vector ==> VectorOk(h)) && (forall h :: h in keyword ==> KeywordOk(h))
  }

  ghost function ScoredOf(vector: seq<Hit>, keyword: seq<Hit>, id: string): Scored
    requires LanesOk(vector, keyword) && id in Ids(vector) + Ids(keyword)
  {
    var chosen := Chosen(vector, keyword, id);
    Scored(id, Rrf(RankIn(ByScore(vector), id), RankIn(keyword, id)), chosen.score.value)
  }

  ghost function Candidates(vector: seq<Hit>, keyword: seq<Hit>): set<Scored>
    requires LanesOk(vector, keyword)
  {
    set id | id in Ids(vector) + Ids(keyword) :: ScoredOf(vector, keyword, id)
  }

  lemma CandidatesAreDistinct(vector: seq<Hit>, keyword: seq<Hit>)
    requires LanesOk(vector, keyword)
    ensures OnePerId(Candidates(vector, keyword))
  {
  }

  /** `order` is the order in which the set of ids happens to be walked. */
  ghost predicate Walks(order: seq<string>, ids: set<string>) {
    && (forall id :: id in order <==> id in ids)
    && (forall i, j :: 0 <= i < j < |order| ==> order[i] != order[j])
  }

  datatype Fused = Fused(hit: Hit, rrf: real)

  function Key(f: Fused): Scored {
    Scored(f.hit.id, f.rrf, if f.hit.score.Some? then f.hit.score.value else 0.0)
  }

  function Keys(fs: seq<Fused>): seq<Scored> {
    seq(|fs|, i requires 0 <= i < |fs| => Key(fs[i]))
  }

  /** One pass over a lane: the first rank of each id; refused when a hit has no id. */
  method FirstRanks(items: seq<Hit>) returns (out: Option<map<string, nat>>)
    ensures out.Some? <==> forall h :: h in items ==> h.id != ""
    ensures out.Some? ==> forall id :: RankIn(items, id) == Looked(out.value, id)
  {
    var rank: map<string, nat> := map[];
    var i := 0;
    while i < |items|
      invariant 0 <= i <= |items|
      invariant forall j :: 0 <= j < i ==> items[j].id != ""
      invariant forall id :: RankIn(items[..i], id) == Looked(rank, id)
    {
      if items[i].id == "" {
        assert items[i] in items;
        return None;
      }
      assert items[..i + 1][..i] == items[..i];
      if items[i].id !in rank {
        rank := rank[items[i].id := i + 1];
      }
      i := i + 1;
    }
    assert items[..i] == items;
    return Some(rank);
  }

  function Held(chosen: map<string, Hit>, id: string): Option<Hit> {
    if id in chosen then Some(chosen[id]) else None
  }

  function NormalLast(keyword: seq<Hit>, id: string): Option<Hit> {
    var last := LastOf(keyword, id);
    if last.Some? then Some(Normal(last.value)) else None
  }

  function Over(last: Option<Hit>, base: Option<Hit>): Option<Hit> {
    if last.Some? then last else base
  }

  /** The last hit of each id; vector hits replace keyword hits. */
  method Represent(vector: seq<Hit>, keyword: seq<Hit>) returns (chosen: map<string, Hit>)
    ensures forall id :: id in chosen <==> id in Ids(vector) + Ids(keyword)
    ensures forall id :: id in chosen ==> chosen[id] == Chosen(vector, keyword, id)
  {
    chosen := map[];
    var i := 0;
    while i < |keyword|
      invariant 0 <= i <= |keyword|
      invariant forall id :: Held(chosen, id) == NormalLast(keyword[..i], id)
    {
      ghost var before := chosen;
      chosen := chosen[keyword[i].id := Normal(keyword[i])];
      forall id ensures Held(chosen, id) == NormalLast(keyword[..i + 1], id) {
        assert keyword[..i + 1][..i] == keyword[..i] && Held(before, id) == NormalLast(keyword[..i], id);
      }
      i := i + 1;
    }
    assert keyword[..i] == keyword;
    i := 0;
    while i < |vector|
      invariant 0 <= i <= |vector|
      invariant forall id :: Held(chosen, id) == Over(LastOf(vector[..i], id), NormalLast(keyword, id))
    {
      assert vector[..i + 1][..i] == vector[..i];
      chosen := chosen[vector[i].id := vector[i]];
      i := i + 1;
    }
    assert vector[..i] == vector;
    assert forall id :: id in chosen <==> Held(chosen, id).Some?;
  }

  /**
   `_rrf_merge`: refused exactly when a hit lacks its id or its score; otherwise the
   unique top-n of the union of both lanes, each entry being the chosen hit of its id.
   */
  method RrfMerge(vector: seq<Hit>, keyword: seq<Hit>, topN: nat, order: seq<string>) returns (out: Result<seq<Fused>>)
    requires Walks(order, Ids(vector) + Ids(keyword))
    ensures out.Ok? <==> LanesOk(vector, keyword)
    ensures out.Ok? ==> IsTop(Keys(out.value), Candidates(vector, keyword), topN)
    ensures out.Ok? ==> forall f :: f in out.value ==>
      f.hit.id in Ids(vector) + Ids(keyword) && f.hit == Chosen(vector, keyword, f.hit.id)
  {
    if exists h :: h in vector && h.score.None? {
      return Err(Invalid);
    }
    var vectorRank := FirstRanks(ByScore(vector));
    var keywordRank := FirstRanks(keyword);
    SameMembers(vector);
    if vectorRank.None? || keywordRank.None? || exists h :: h in keyword && Normal(h).score.None? {
      return Err(Invalid);
    }
    assert LanesOk(vector, keyword);
    var chosen := Represent(vector, keyword);
    var scored := ScoreAll(vector, keyword, order, vectorRank.value, keywordRank.value, chosen);
    ScoresCover(vector, keyword, order, scored);
    CutIsTop(scored, topN);
    var sorted := Sort(scored);
    var top := if topN < |sorted| then sorted[..topN] else sorted;
    var result := Dress(vector, keyword, top, chosen);
    return Ok(result);
  }

  lemma SameMembers(items: seq<Hit>)
    requires forall h :: h in items ==> h.score.Some?
    ensures forall h :: h in ByScore(items) <==> h in items
  {
    assert forall h :: h in ByScore(items) <==> h in multiset(ByScore(items));
    assert forall h :: h in items <==> h in multiset(items);
  }

  lemma ChosenHaveScores(vector: seq<Hit>, keyword: seq<Hit>)
    requires LanesOk(vector, keyword)
    ensures forall id :: id in Ids(vector) + Ids(keyword) ==> Chosen(vector, keyword, id).score.Some?
  {
  }

  method ScoreAll(vector: seq<Hit>, keyword: seq<Hit>, order: seq<string>, vectorRank: map<string, nat>,
                  keywordRank: map<string, nat>, chosen: map<string, Hit>) returns (scored: seq<Scored>)
    requires LanesOk(vector, keyword) && Walks(order, Ids(vector) + Ids(keyword))
    requires forall id :: RankIn(ByScore(vector), id) == Looked(vectorRank, id)
    requires forall id :: RankIn(keyword, id) == Looked(keywordRank, id)
    requires forall id :: id in chosen <==> id in Ids(vector) + Ids(keyword)
    requires forall id :: id in chosen ==> chosen[id] == Chosen(vector, keyword, id)
    ensures |scored| == |order| && forall i :: 0 <= i < |order| ==> scored[i] == ScoredOf(vector, keyword, order[i])
  {
    hide Rrf, Chosen, RankIn, ByScore;
    assert forall id :: id in chosen ==> chosen[id].score.Some? by { ChosenHaveScores(vector, keyword); }
    scored := [];
    var i := 0;
    while i < |order|
      invariant 0 <= i <= |order| && |scored| == i
      invariant forall j :: 0 <= j < i ==> scored[j] == ScoredOf(vector, keyword, order[j])
    {
      assert order[i] in order;
      var rrf := ScoreOne(order[i], vectorRank, keywordRank);
      assert chosen[order[i]].score.Some?;
      scored := scored + [Scored(order[i], rrf, chosen[order[i]].score.value)];
      i := i + 1;
    }
  }

  function Looked(rank: map<string, nat>, id: string): Option<nat> {
    if id in rank then Some(rank[id]) else None
  }

  /** The fused score of one id, summed lane by lane. */
  method ScoreOne(id: string, vectorRank: map<string, nat>, keywordRank: map<string, nat>) returns (rrf: real)
    ensures rrf == Rrf(Looked(vectorRank, id), Looked(keywordRank, id))
  {
    rrf := 0.0;
    if id in vectorRank {
      rrf := rrf + 1.0 / (K + vectorRank[id]) as real;
    }
    if id in keywordRank {
      rrf := rrf + KEYWORD_WEIGHT / (K + keywordRank[id]) as real;
    }
  }

  lemma ScoresCover(vector: seq<Hit>, keyword: seq<Hit>, order: seq<string>, scored: seq<Scored>)
    requires LanesOk(vector, keyword) && Walks(order, Ids(vector) + Ids(keyword))
    requires |scored| == |order| && forall i :: 0 <= i < |order| ==> order[i] in order && scored[i] == ScoredOf(vector, keyword, order[i])
    ensures DistinctIds(scored) && Elements(scored) == Candidates(vector, keyword)
  {
    hide Rrf, Chosen;
    forall x | x in Candidates(vector, keyword) ensures x in scored {
      var id :| id in Ids(vector) + Ids(keyword) && x == ScoredOf(vector, keyword, id);
      assert id in order;
      var i :| 0 <= i < |order| && order[i] == id;
      assert scored[i] == x;
    }
  }

  method Dress(vector: seq<Hit>, keyword: seq<Hit>, top: seq<Scored>, chosen: map<string, Hit>) returns (result: seq<Fused>)
    requires LanesOk(vector, keyword)
    requires forall x :: x in top ==> x in Candidates(vector, keyword)
    requires forall id :: id in chosen <==> id in Ids(vector) + Ids(keyword)
    requires forall id :: id in chosen ==> chosen[id] == Chosen(vector, keyword, id)
    ensures Keys(result) == top
    ensures forall f :: f in result ==> f.hit.id in Ids(vector) + Ids(keyword) && f.hit == Chosen(vector, keyword, f.hit.id)
  {
    result := [];
    var i := 0;
    while i < |top|
      invariant 0 <= i <= |top| && |result| == i
      invariant forall j :: 0 <= j < i ==> Key(result[j]) == top[j]
      invariant forall f :: f in result ==> f.hit.id in Ids(vector) + Ids(keyword) && f.hit == Chosen(vector, keyword, f.hit.id)
    {
      assert top[i] in top;
      result := result + [Fused(chosen[top[i].id], top[i].rrf)];
      i := i + 1;
    }
  }

  /** However the set of candidate ids is walked, the fused list is the same. */
  lemma OrderDoesNotShow(vector: seq<Hit>, keyword: seq<Hit>, topN: nat, a: seq<Fused>, b: seq<Fused>)
    requires LanesOk(vector, keyword)
    requires IsTop(Keys(a), Candidates(vector, keyword), topN) && IsTop(Keys(b), Candidates(vector, keyword), topN)
    requires forall f :: f in a + b ==> f.hit.id in Ids(vector) + Ids(keyword) && f.hit == Chosen(vector, keyword, f.hit.id)
    ensures a == b
  {
    CandidatesAreDistinct(vector, keyword);
    TopIsUnique(Keys(a), Keys(b), Candidates(vector, keyword), topN, |a|);
    hide Chosen, IsTop;
    forall i | 0 <= i < |a| ensures a[i] == b[i] {
      assert a[i] in a + b && b[i] in a + b;
      assert Keys(a)[..|a|][i] == Keys(b)[..|a|][i];
    }
  }

  /** No worse: ranked, and not behind; an unranked candidate is behind every ranked one. */
  predicate NoWorse(a: Option<nat>, b: Option<nat>) {
    b.None? || (a.Some? && a.value <= b.value)
  }

  lemma BetterRankWeighsMore(a: Option<nat>, b: Option<nat>, weight: real)
    requires weight > 0.0 && NoWorse(a, b)
    ensures Share(a, weight) >= Share(b, weight)
    ensures a != b ==> Share(a, weight) > Share(b, weight)
  {
    if a.Some? && b.Some? && a != b {
      SmallerDivisorIsMore(weight, (K + a.value) as real, (K + b.value) as real);
    } else if a.Some? {
      SmallerDivisorIsMore(weight, (K + a.value) as real, (K + a.value + 1) as real);
    }
  }

  lemma SmallerDivisorIsMore(weight: real, p: real, q: real)
    requires weight > 0.0 && 0.0 < p < q
    ensures weight / p > weight / q > 0.0
  {
    var a, b := weight / p, weight / q;
    assert a * p == weight && b * q == weight;
    assert b > 0.0;
    assert b * p < b * q;
    assert a * p > b * p;
  }

  /** A candidate no worse in both lanes and better in one comes first, whatever the scores and ids. */
  lemma Dominance(vector: seq<Hit>, keyword: seq<Hit>, x: string, y: string)
    requires LanesOk(vector, keyword) && x in Ids(vector) + Ids(keyword) && y in Ids(vector) + Ids(keyword)
    requires NoWorse(RankIn(ByScore(vector), x), RankIn(ByScore(vector), y)) && NoWorse(RankIn(keyword, x), RankIn(keyword, y))
    requires RankIn(ByScore(vector), x) != RankIn(ByScore(vector), y) || RankIn(keyword, x) != RankIn(keyword, y)
    ensures Before(ScoredOf(vector, keyword, x), ScoredOf(vector, keyword, y))
  {
    BetterRankWeighsMore(RankIn(ByScore(vector), x), RankIn(ByScore(vector), y), 1.0);
    BetterRankWeighsMore(RankIn(keyword, x), RankIn(keyword, y), KEYWORD_WEIGHT);
  }

  // ---------- one hit per memory ----------

  /** Two hits of one id can be told apart only by their scores. */
  predicate Comparable(a: Hit, b: Hit) {
    a.id == b.id ==> a.score.Some? && b.score.Some?
  }

  /** `best` is the hit at `at`: above every earlier hit of its id, and not below any later one. */
  ghost predicate BestAt(hits: seq<Hit>, best: Hit, at: nat) {
    && at < |hits| && hits[at] == best
    && forall j :: 0 <= j < |hits| && j != at && hits[j].id == best.id ==>
         && best.score.Some? && hits[j].score.Some? && hits[j].score.value <= best.score.value
         && (j < at ==> hits[j].score.value < best.score.value)
  }

  ghost predicate Champion(hits: seq<Hit>, best: Hit) {
    exists at :: BestAt(hits, best, at)
  }

  /** What has been remembered of the hits so far. */
  ghost predicate Remembers(hits: seq<Hit>, seen: map<string, Hit>) {
    && (forall id :: id in seen <==> id in Ids(hits))
    && (forall id :: id in seen ==> seen[id].id == id && Champion(hits, seen[id]))
  }

  /**
   `_remember_vector_hit`: a better hit replaces the remembered one, a tie does not.
   Raises when the hit has no id, or must be compared and a score is missing.
   */
  method RememberVectorHit(ghost past: seq<Hit>, seen: map<string, Hit>, hit: Hit) returns (out: Option<map<string, Hit>>)
    requires Remembers(past, seen)
    ensures out.None? <==> hit.id == "" || (hit.id in seen && !Comparable(seen[hit.id], hit))
    ensures out.Some? ==> Remembers(past + [hit], out.value) && out.value.Keys == seen.Keys + {hit.id}
  {
    if hit.id == "" {
      return None;
    }
    if hit.id !in seen {
      RememberNew(past, hit, seen);
      return Some(seen[hit.id := hit]);
    }
    if hit.score.None? || seen[hit.id].score.None? {
      return None;
    }
    RememberAgain(past, hit, seen);
    hide Champion, Ids;
    if hit.score.value > seen[hit.id].score.value {
      return Some(seen[hit.id := hit]);
    }
    return Some(seen);
  }

  lemma IdsGrow(past: seq<Hit>, hit: Hit)
    ensures Ids(past + [hit]) == Ids(past) + {hit.id}
  {
    var all := past + [hit];
    forall id ensures id in Ids(all) <==> id in Ids(past) + {hit.id} {
      if id in Ids(past) {
        var i :| 0 <= i < |past| && past[i].id == id;
        assert all[i].id == id;
      }
      assert all[|past|].id == hit.id;
    }
  }

  lemma OthersStay(past: seq<Hit>, hit: Hit, best: Hit)
    requires Champion(past, best)
    requires best.id == hit.id ==> best.score.Some? && hit.score.Some? && hit.score.value <= best.score.value
    ensures Champion(past + [hit], best)
  {
    var at :| BestAt(past, best, at);
    assert BestAt(past + [hit], best, at);
  }

  lemma RememberNew(past: seq<Hit>, hit: Hit, seen: map<string, Hit>)
    requires Remembers(past, seen) && hit.id !in seen
    ensures Remembers(past + [hit], seen[hit.id := hit])
  {
    IdsGrow(past, hit);
    assert forall j :: 0 <= j < |past| ==> past[j].id in Ids(past);
    assert BestAt(past + [hit], hit, |past|);
    forall id | id in seen ensures Champion(past + [hit], seen[id]) {
      OthersStay(past, hit, seen[id]);
    }
    hide BestAt, Ids;
  }

  lemma RememberAgain(past: seq<Hit>, hit: Hit, seen: map<string, Hit>)
    requires Remembers(past, seen) && hit.id in seen && hit.score.Some? && seen[hit.id].score.Some?
    ensures Remembers(past + [hit], if hit.score.value > seen[hit.id].score.value then seen[hit.id := hit] else seen)
  {
    IdsGrow(past, hit);
    forall id | id in seen && (id != hit.id || hit.score.value <= seen[id].score.value) ensures Champion(past + [hit], seen[id]) {
      OthersStay(past, hit, seen[id]);
    }
    if hit.score.value > seen[hit.id].score.value {
      var at :| BestAt(past, seen[hit.id], at);
      assert BestAt(past + [hit], hit, |past|);
    }
    hide BestAt, Ids;
  }

  /** No hit without an id, and no two hits of one id that cannot be compared. */
  ghost predicate Mergeable(hits: seq<Hit>) {
    && (forall i :: 0 <= i < |hits| ==> hits[i].id != "")
    && (forall i, j :: 0 <= i < j < |hits| ==> Comparable(hits[i], hits[j]))
  }

  lemma RememberedAreComparable(hits: seq<Hit>, seen: map<string, Hit>, i: nat, j: nat)
    requires Remembers(hits, seen) && i < j < |hits|
    ensures Comparable(hits[i], hits[j])
  {
    if hits[i].id == hits[j].id {
      assert hits[i].id in Ids(hits);
      var at :| BestAt(hits, seen[hits[i].id], at);
    }
  }

  lemma NothingRemembered(hits: seq<Hit>)
    requires hits == []
    ensures Remembers(hits, map[])
  {
  }

  lemma RememberedIsMergeable(hits: seq<Hit>, seen: map<string, Hit>)
    requires Remembers(hits, seen) && forall i :: 0 <= i < |hits| ==> hits[i].id != ""
    ensures Mergeable(hits) && seen.Keys == Ids(hits)
  {
    forall a, b | 0 <= a < b < |hits| ensures Comparable(hits[a], hits[b]) {
      RememberedAreComparable(hits, seen, a, b);
    }
  }

  /** All vector lanes: an entry per id in order of first appearance, each with its best hit; raises when hits cannot be merged. */
  method RememberBest(hits: seq<Hit>) returns (out: Option<(seq<string>, map<string, Hit>)>)
    ensures out.Some? <==> Mergeable(hits)
    ensures out.Some? ==> Walks(out.value.0, Ids(hits)) && Remembers(hits, out.value.1)
  {
    hide Remembers, Comparable, Mergeable;
    var seen: map<string, Hit> := map[];
    var order: seq<string> := [];
    var i := 0;
    assert Remembers(hits[..0], seen) by { NothingRemembered(hits[..0]); }
    while i < |hits|
      invariant 0 <= i <= |hits|
      invariant Walks(order, seen.Keys) && Remembers(hits[..i], seen)
      invariant forall j :: 0 <= j < i ==> hits[j].id != ""
    {
      assert hits[..i + 1] == hits[..i] + [hits[i]];
      var next := RememberVectorHit(hits[..i], seen, hits[i]);
      if next.None? {
        RefusedMeansUnmergeable(hits, seen, i);
        return None;
      }
      if hits[i].id !in seen {
        order := order + [hits[i].id];
      }
      seen := next.value;
      i := i + 1;
    }
    assert hits[..i] == hits;
    RememberedIsMergeable(hits, seen);
    return Some((order, seen));
  }

  lemma RefusedMeansUnmergeable(hits: seq<Hit>, seen: map<string, Hit>, i: nat)
    requires i < |hits| && Remembers(hits[..i], seen)
    requires hits[i].id == "" || (hits[i].id in seen && !Comparable(seen[hits[i].id], hits[i]))
    ensures !Mergeable(hits)
  {
    if hits[i].id == "" {
      return;
    }
    assert Champion(hits[..i], seen[hits[i].id]);
    var at: nat :| BestAt(hits[..i], seen[hits[i].id], at);
    assert hits[at] == seen[hits[i].id] && at < i;
  }
}
