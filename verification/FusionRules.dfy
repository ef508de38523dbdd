/**
 What the fused list of memory2/retriever.py says in plain numbers: which hit stands for
 an id, how its score is summed, how ties are broken, and when one lane beats the other.
 */
module FusionRules {
  import opened Prelude
  import opened RankFusion

  /** Alike up to `i`, and smaller there. */
  predicate SmallerAt(a: string, b: string, i: nat) {
    i < |a| && i < |b| && a[..i] == b[..i] && a[i] < b[i]
  }

  /** Code point order: a proper prefix, or a smaller character at the first difference. */
  ghost predicate DictionaryOrder(a: string, b: string) {
    (|a| < |b| && a == b[..|a|]) || exists i: nat :: SmallerAt(a, b, i)
  }

  lemma LaterDifference(a: string, b: string, i: nat)
    requires SmallerAt(a, b, i) && i > 0
    ensures a[0] == b[0]
  {
    assert a[..i][0] == b[..i][0];
  }

  lemma {:induction false} LexIsDictionaryOrder(a: string, b: string)
    ensures LexLess(a, b) <==> DictionaryOrder(a, b)
  {
    if a != "" && b != "" && a[0] == b[0] {
      LexIsDictionaryOrder(a[1..], b[1..]);
      ShiftedOrder(a, b);
    } else if a != "" && b != "" {
      assert |a| < |b| ==> b[..|a|][0] == b[0];
      assert a[0] < b[0] ==> SmallerAt(a, b, 0);
      forall i: nat | SmallerAt(a, b, i) ensures i == 0 {
        if i > 0 {
          LaterDifference(a, b, i);
        }
      }
    }
  }

  lemma ShiftedPlace(a: string, b: string, i: nat)
    requires a != "" && b != "" && a[0] == b[0]
    ensures SmallerAt(a, b, i + 1) <==> SmallerAt(a[1..], b[1..], i)
  {
    var c, d := a[1..], b[1..];
    if i < |c| && i < |d| {
      assert a[..i + 1] == [a[0]] + c[..i] && b[..i + 1] == [b[0]] + d[..i];
    }
  }

  lemma ShiftedOrder(a: string, b: string)
    requires a != "" && b != "" && a[0] == b[0]
    ensures DictionaryOrder(a, b) <==> DictionaryOrder(a[1..], b[1..])
  {
    var c, d := a[1..], b[1..];
    if |a| < |b| {
      assert b[..|a|] == [b[0]] + d[..|c|] && a == [a[0]] + c;
    }
    forall i: nat ensures SmallerAt(a, b, i + 1) <==> SmallerAt(c, d, i) {
      ShiftedPlace(a, b, i);
    }
    forall i: nat | SmallerAt(a, b, i) ensures i > 0 && SmallerAt(c, d, i - 1) {
      if i > 0 {
        ShiftedPlace(a, b, i - 1);
      }
    }
  }

  // ---------- which hit stands for an id ----------

  ghost predicate LastWithItsId(items: seq<Hit>, h: Hit) {
    exists i :: 0 <= i < |items| && items[i] == h && forall j :: i < j < |items| ==> items[j].id != h.id
  }

  lemma {:induction false} LastOfIsLast(items: seq<Hit>, id: string)
    requires LastOf(items, id).Some?
    ensures LastWithItsId(items, LastOf(items, id).value)
  {
    var n := |items| - 1;
    if items[n].id != id {
      LastOfIsLast(items[..n], id);
      assert items == items[..n] + [items[n]];
      LastStaysLast(items[..n], items[n], LastOf(items, id).value);
    } else {
      assert items[n] == LastOf(items, id).value;
    }
  }

  lemma LastStaysLast(items: seq<Hit>, other: Hit, h: Hit)
    requires LastWithItsId(items, h) && other.id != h.id
    ensures LastWithItsId(items + [other], h)
  {
    var i :| 0 <= i < |items| && items[i] == h && forall j :: i < j < |items| ==> items[j].id != h.id;
    assert (items + [other])[i] == h;
  }

  /** The last vector hit of the id, as it is; without one, the last keyword hit, scored by its own score or else its keyword score. */
  ghost predicate StandsFor(vector: seq<Hit>, keyword: seq<Hit>, h: Hit) {
    if h.id in Ids(vector) then LastWithItsId(vector, h)
    else exists k :: LastWithItsId(keyword, k) && h == k.(score := if k.score.Some? then k.score else k.keywordScore)
  }

  // ---------- the fused score ----------

  /** One over sixty plus the rank by vector score, and half of that for the place in the keyword lane. */
  ghost predicate FusedScore(vectorRank: Option<nat>, keywordRank: Option<nat>, rrf: real) {
    match (vectorRank, keywordRank)
    case (Some(p), Some(q)) => rrf == 1.0 / (60 + p) as real + 0.5 / (60 + q) as real
    case (Some(p), None) => rrf == 1.0 / (60 + p) as real
    case (None, Some(q)) => rrf == 0.5 / (60 + q) as real
    case (None, None) => rrf == 0.0
  }

  lemma RrfInNumbers(vectorRank: Option<nat>, keywordRank: Option<nat>)
    ensures FusedScore(vectorRank, keywordRank, Rrf(vectorRank, keywordRank))
  {
  }

  ghost predicate Ahead(x: Fused, y: Fused)
    requires x.hit.score.Some? && y.hit.score.Some?
  {
    var a, b := x.hit.score.value, y.hit.score.value;
    x.rrf > y.rrf || (x.rrf == y.rrf && (a > b || (a == b && DictionaryOrder(x.hit.id, y.hit.id))))
  }

  /** The method's answer. */
  ghost predicate FusedAnswer(vector: seq<Hit>, keyword: seq<Hit>, topN: nat, fused: seq<Fused>) {
    && LanesOk(vector, keyword)
    && IsTop(Keys(fused), Candidates(vector, keyword), topN)
    && forall f :: f in fused ==> f.hit.id in Ids(vector) + Ids(keyword) && f.hit == Chosen(vector, keyword, f.hit.id)
  }

  lemma EntryInNumbers(vector: seq<Hit>, keyword: seq<Hit>, topN: nat, fused: seq<Fused>, i: nat)
    requires FusedAnswer(vector, keyword, topN, fused) && i < |fused|
    ensures var f := fused[i];
      && f.hit.score.Some? && StandsFor(vector, keyword, f.hit)
      && FusedScore(RankIn(ByScore(vector), f.hit.id), RankIn(keyword, f.hit.id), f.rrf)
  {
    var f := fused[i];
    assert f in fused && Keys(fused)[i] == Key(f) && Keys(fused)[i] in Keys(fused);
    if f.hit.id in Ids(vector) {
      LastOfIsLast(vector, f.hit.id);
    } else {
      LastOfIsLast(keyword, f.hit.id);
      assert f.hit == Normal(LastOf(keyword, f.hit.id).value);
    }
    RrfInNumbers(RankIn(ByScore(vector), f.hit.id), RankIn(keyword, f.hit.id));
    hide ByScore, FusedScore, Rrf, LastWithItsId;
  }

  /**
   The fused list in plain numbers: every entry is the hit that stands for its id, scored
   by its two ranks; entries follow each other by fused score, then score, then id.
   */
  lemma FusedListInNumbers(vector: seq<Hit>, keyword: seq<Hit>, topN: nat, fused: seq<Fused>)
    requires FusedAnswer(vector, keyword, topN, fused)
    ensures forall i :: 0 <= i < |fused| ==>
      && fused[i].hit.score.Some? && StandsFor(vector, keyword, fused[i].hit)
      && FusedScore(RankIn(ByScore(vector), fused[i].hit.id), RankIn(keyword, fused[i].hit.id), fused[i].rrf)
    ensures forall i, j :: 0 <= i < j < |fused| ==>
      fused[i].hit.score.Some? && fused[j].hit.score.Some? && Ahead(fused[i], fused[j])
  {
    hide ByScore, FusedScore, StandsFor, DictionaryOrder, Candidates;
    forall i | 0 <= i < |fused|
      ensures fused[i].hit.score.Some? && StandsFor(vector, keyword, fused[i].hit)
      ensures FusedScore(RankIn(ByScore(vector), fused[i].hit.id), RankIn(keyword, fused[i].hit.id), fused[i].rrf)
    {
      EntryInNumbers(vector, keyword, topN, fused, i);
    }
    forall i, j | 0 <= i < j < |fused| ensures Ahead(fused[i], fused[j]) {
      LexIsDictionaryOrder(fused[i].hit.id, fused[j].hit.id);
      assert Before(Keys(fused)[i], Keys(fused)[j]);
    }
  }

  /** A hit of the vector lane alone beats one of the keyword lane alone exactly when its rank is below sixty plus twice the other's. */
  lemma VectorBeatsKeywordIff(p: nat, q: nat)
    requires p > 0 && q > 0
    ensures Rrf(Some(p), None) > Rrf(None, Some(q)) <==> p < 60 + 2 * q
    ensures Rrf(Some(p), None) == Rrf(None, Some(q)) <==> p == 60 + 2 * q
  {
    var a, b := Rrf(Some(p), None), Rrf(None, Some(q));
    assert a == 1.0 / (60 + p) as real && b == 0.5 / (60 + q) as real;
    Quotients(1.0, (60 + p) as real, 0.5, (60 + q) as real);
  }

  lemma Quotients(x: real, p: real, y: real, q: real)
    requires p > 0.0 && q > 0.0
    ensures x / p > y / q <==> x * q > y * p
    ensures x / p == y / q <==> x * q == y * p
  {
    var a, b := x / p, y / q;
    assert a * p == x && b * q == y;
    assert x * q == a * (p * q) && y * p == b * (p * q) && p * q > 0.0;
    if a > b {
      assert (a - b) * (p * q) > 0.0;
    } else if a < b {
      assert (b - a) * (p * q) > 0.0;
    }
  }

  /** Being found by both lanes beats being found by one of them at the same rank. */
  lemma BothLanesBeatOne(p: nat, q: nat)
    requires p > 0 && q > 0
    ensures Rrf(Some(p), Some(q)) > Rrf(Some(p), None) && Rrf(Some(p), Some(q)) > Rrf(None, Some(q))
  {
    BetterRankWeighsMore(Some(p), None, 1.0);
    BetterRankWeighsMore(Some(q), None, KEYWORD_WEIGHT);
  }
}
