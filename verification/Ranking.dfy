/**
 Choosing the best candidate for a place (scripts/util/mergeCLC_SGC.py:733-856, 1461-1466).

 Text, distance and neural scores are given; what is modelled is how they are combined, ranked,
 cut to sixteen, ranked again and turned into links.  Python's sort is stable also in reverse.
 */
module Ranking {
  import opened Wrappers

  // ---------------------------------------------------------------- scores

  datatype Weights = Weights(spatial: real, name: real, code: real)

  datatype Parts = Parts(spatial: real, lexical: real, prefix: real, region: bool)

  predicate Unit(x: real) {
    0.0 <= x <= 1.0
  }

  predicate UnitParts(p: Parts) {
    Unit(p.spatial) && Unit(p.lexical) && Unit(p.prefix)
  }

  function Min1(x: real): real {
    if x < 1.0 then x else 1.0
  }

  function Weighed(part: real, weight: real): real {
    part * weight
  }

  function Score(w: Weights, p: Parts): real {
    var region := if p.region then 0.02 else 0.0;
    Min1(Weighed(p.spatial, w.spatial) + Weighed(p.lexical, w.name) + Weighed(p.prefix, w.code) + region)
  }

  function Combined(score: real, neural: real): real {
    score * 0.78 + Clamp((neural + 1.0) / 2.0) * 0.22
  }

  function Clamp(x: real): real {
    if x < 0.0 then 0.0 else Min1(x)
  }

  predicate Positive(w: Weights) {
    w.spatial >= 0.0 && w.name >= 0.0 && w.code >= 0.0
  }

  lemma Grows(a: real, b: real, k: real)
    requires 0.0 <= a <= b && k >= 0.0
    ensures 0.0 <= Weighed(a, k) <= Weighed(b, k)
  {
  }

  /** Scores stay between 0 and 1, and no part that gets better makes the score worse. */
  lemma ScoreIsMonotone(w: Weights, p: Parts, q: Parts, neural: real)
    requires Positive(w) && UnitParts(p) && UnitParts(q)
    requires p.spatial <= q.spatial && p.lexical <= q.lexical && p.prefix <= q.prefix && (p.region ==> q.region)
    ensures Unit(Score(w, p)) && Score(w, p) <= Score(w, q)
    ensures Unit(Combined(Score(w, p), neural))
    ensures Combined(Score(w, p), neural) <= Combined(Score(w, q), neural)
  {
    hide Weighed;
    Grows(p.spatial, q.spatial, w.spatial);
    Grows(p.lexical, q.lexical, w.name);
    Grows(p.prefix, q.prefix, w.code);
  }

  /** Up to 1, a score is what its parts contribute: each its weight, and a shared region 0.02. */
  lemma ScoreAddsUp(w: Weights, p: Parts, d: real)
    ensures Score(w, Parts(0.0, 0.0, 0.0, false)) == 0.0
    ensures var q := p.(spatial := p.spatial + d);
            Score(w, p) < 1.0 && Score(w, q) < 1.0 ==> Score(w, q) - Score(w, p) == d * w.spatial
    ensures var q := p.(lexical := p.lexical + d);
            Score(w, p) < 1.0 && Score(w, q) < 1.0 ==> Score(w, q) - Score(w, p) == d * w.name
    ensures var q := p.(prefix := p.prefix + d);
            Score(w, p) < 1.0 && Score(w, q) < 1.0 ==> Score(w, q) - Score(w, p) == d * w.code
    ensures var (far, near) := (p.(region := false), p.(region := true));
            Score(w, near) < 1.0 ==> Score(w, near) - Score(w, far) == 0.02
    ensures Score(w, p) <= 1.0
  {
  }

  lemma ClampedShare(n: real)
    ensures Clamp((n + 1.0) / 2.0) == if n < -1.0 then 0.0 else if n > 1.0 then 1.0 else (n + 1.0) / 2.0
  {
  }

  /** A reranker has a share of 0.22; its scale from -1 to 1 is mapped to that of the scores. */
  lemma RerankerHasAShare(s: real, n: real)
    ensures -1.0 <= n <= 1.0 ==> Combined(s, n) == 0.78 * s + 0.11 * (n + 1.0)
    ensures n < -1.0 ==> Combined(s, n) == 0.78 * s
    ensures n > 1.0 ==> Combined(s, n) == 0.78 * s + 0.22
  {
    ClampedShare(n);
    var c := Clamp((n + 1.0) / 2.0);
    hide Clamp;
    assert Combined(s, n) == s * 0.78 + c * 0.22;
  }

  // ---------------------------------------------------------------- stable sorting

  /** A candidate by its number, and its score. */
  datatype Ranked = Ranked(candidate: nat, score: real)

  /** Behind everything that scores at least as much. */
  function Insert(rows: seq<Ranked>, r: Ranked): seq<Ranked>
    decreases |rows|
  {
    if rows == [] || rows[|rows| - 1].score >= r.score then rows + [r]
    else Insert(rows[..|rows| - 1], r) + [rows[|rows| - 1]]
  }

  /** A stable sort by descending score. */
  function Sorted(rows: seq<Ranked>): seq<Ranked>
    decreases |rows|
  {
    if rows == [] then [] else Insert(Sorted(rows[..|rows| - 1]), rows[|rows| - 1])
  }

  predicate Before(a: Ranked, b: Ranked) {
    a.score > b.score || (a.score == b.score && a.candidate < b.candidate)
  }

  /** Descending, and ties in the order of the candidates. */
  predicate InRankOrder(rows: seq<Ranked>) {
    forall i, j | 0 <= i < j < |rows| :: Before(rows[i], rows[j])
  }

  lemma {:induction false} InsertPermutes(rows: seq<Ranked>, r: Ranked)
    ensures multiset(Insert(rows, r)) == multiset(rows) + multiset{r}
    ensures forall x :: x in Insert(rows, r) <==> x in rows || x == r
    decreases |rows|
  {
    if rows != [] && rows[|rows| - 1].score < r.score {
      InsertPermutes(rows[..|rows| - 1], r);
      assert rows == rows[..|rows| - 1] + [rows[|rows| - 1]];
    }
  }

  lemma RankAtEnd(rows: seq<Ranked>, last: Ranked)
    requires InRankOrder(rows) && forall x :: x in rows ==> Before(x, last)
    ensures InRankOrder(rows + [last])
  {
    hide Before;
  }

  lemma {:induction false} InsertRanks(rows: seq<Ranked>, r: Ranked)
    requires InRankOrder(rows) && forall i | 0 <= i < |rows| :: rows[i].candidate < r.candidate
    ensures InRankOrder(Insert(rows, r))
    decreases |rows|
  {
    if rows == [] || rows[|rows| - 1].score >= r.score {
      forall x | x in rows
        ensures Before(x, r)
      {
        var i :| 0 <= i < |rows| && rows[i] == x;
        assert i < |rows| - 1 ==> Before(rows[i], rows[|rows| - 1]);
      }
      RankAtEnd(rows, r);
    } else {
      var front, last := rows[..|rows| - 1], rows[|rows| - 1];
      InsertRanks(front, r);
      InsertPermutes(front, r);
      forall x | x in Insert(front, r)
        ensures Before(x, last)
      {
        if x in front {
          var i :| 0 <= i < |front| && front[i] == x;
          assert Before(rows[i], rows[|rows| - 1]);
        }
      }
      hide Insert;
      RankAtEnd(Insert(front, r), last);
    }
  }

  /** The candidates are numbered in order. */
  predicate Numbered(rows: seq<Ranked>) {
    forall i | 0 <= i < |rows| :: rows[i].candidate == i
  }

  lemma {:induction false} SortRanks(rows: seq<Ranked>)
    requires Numbered(rows)
    ensures InRankOrder(Sorted(rows)) && multiset(Sorted(rows)) == multiset(rows)
    ensures forall x :: x in Sorted(rows) <==> x in rows
    decreases |rows|
  {
    if rows != [] {
      var front, last := rows[..|rows| - 1], rows[|rows| - 1];
      SortRanks(front);
      assert rows == front + [last];
      forall i | 0 <= i < |Sorted(front)|
        ensures Sorted(front)[i].candidate < last.candidate
      {
        assert Sorted(front)[i] in front;
      }
      InsertRanks(Sorted(front), last);
      InsertPermutes(Sorted(front), last);
    }
  }

  lemma LengthOfSorted(rows: seq<Ranked>)
    requires Numbered(rows)
    ensures |Sorted(rows)| == |rows|
  {
    SortRanks(rows);
    assert |multiset(Sorted(rows))| == |multiset(rows)|;
  }

  // ---------------------------------------------------------------- the shortlist

  const SHORTLIST := 16

  function Scored(scores: seq<real>): (rows: seq<Ranked>)
    ensures |rows| == |scores| && Numbered(rows)
    ensures forall i | 0 <= i < |scores| :: rows[i].score == scores[i]
  {
    seq(|scores|, i requires 0 <= i < |scores| => Ranked(i, scores[i]))
  }

  function Shortlist(scores: seq<real>): seq<Ranked> {
    var s := Sorted(Scored(scores));
    if |s| <= SHORTLIST then s else s[..SHORTLIST]
  }

  /** Nothing left off the list scores more than anything on it. */
  lemma ShortlistIsBest(scores: seq<real>, c: nat)
    requires c < |scores|
    ensures |Shortlist(scores)| == if |scores| <= 16 then |scores| else 16
    ensures InRankOrder(Shortlist(scores))
    ensures Ranked(c, scores[c]) in Shortlist(scores)
            || forall i | 0 <= i < |Shortlist(scores)| :: Before(Shortlist(scores)[i], Ranked(c, scores[c]))
  {
    var rows := Scored(scores);
    SortRanks(rows);
    LengthOfSorted(rows);
    var s := Sorted(rows);
    assert rows[c] in s;
    var k :| 0 <= k < |s| && s[k] == rows[c];
    hide Sorted, Scored;
    if k < SHORTLIST {
      assert Shortlist(scores)[k] == rows[c];
    }
  }

  /** `score_candidates`, of which the callers keep the first: with a reranker the shortlist is
      ranked again by the combined score. */
  function Best(scores: seq<real>, neural: Option<nat -> real>): nat
    requires scores != []
  {
    var list := Shortlist(scores);
    if list == [] then 0
    else if neural.None? then list[0].candidate
    else
      var again := Sorted(Scored(Rescored(list, neural.value)));
      if again == [] || again[0].candidate >= |list| then 0 else list[again[0].candidate].candidate
  }

  function Rescored(list: seq<Ranked>, neural: nat -> real): (scores: seq<real>)
    ensures |scores| == |list|
    ensures forall i | 0 <= i < |list| :: scores[i] == Combined(list[i].score, neural(list[i].candidate))
  {
    seq(|list|, i requires 0 <= i < |list| => Combined(list[i].score, neural(list[i].candidate)))
  }

  lemma FirstIsBest(scores: seq<real>)
    requires scores != []
    ensures var s := Sorted(Scored(scores));
            && |s| == |scores| && s[0].candidate < |scores| && s[0].score == scores[s[0].candidate]
            && forall j | 0 <= j < |scores| && j != s[0].candidate :: Before(s[0], Ranked(j, scores[j]))
  {
    var rows := Scored(scores);
    SortRanks(rows);
    LengthOfSorted(rows);
    var s := Sorted(rows);
    assert s[0] in rows;
    hide Sorted, Scored;
    forall j | 0 <= j < |scores| && j != s[0].candidate
      ensures Before(s[0], Ranked(j, scores[j]))
    {
      assert rows[j] in s;
      var k :| 0 <= k < |s| && s[k] == rows[j];
    }
  }

  /** Without a reranker the winner is the first of the highest scores.  With one it is of the
      shortlist and has the highest combined score there, and is the first of these. */
  lemma BestWins(scores: seq<real>, neural: Option<nat -> real>, j: nat)
    requires scores != [] && j < |scores|
    ensures Best(scores, neural) < |scores|
    ensures neural.None? ==>
              var b := Best(scores, neural); b == j || Before(Ranked(b, scores[b]), Ranked(j, scores[j]))
    ensures neural.Some? ==>
              var b := Best(scores, neural);
              && Ranked(b, scores[b]) in Shortlist(scores)
              && (b != j && Ranked(j, scores[j]) in Shortlist(scores) ==>
                    || Combined(scores[b], neural.value(b)) > Combined(scores[j], neural.value(j))
                    || (Combined(scores[b], neural.value(b)) == Combined(scores[j], neural.value(j))
                        && Before(Ranked(b, scores[b]), Ranked(j, scores[j]))))
  {
    FirstIsBest(scores);
    ShortlistIsBest(scores, j);
    var list := Shortlist(scores);
    ListIsScored(scores);
    if neural.Some? {
      var again := Rescored(list, neural.value);
      FirstIsBest(again);
      var top := Sorted(Scored(again))[0].candidate;
      assert Best(scores, neural) == list[top].candidate;
      if Ranked(j, scores[j]) in list {
        var k :| 0 <= k < |list| && list[k] == Ranked(j, scores[j]);
        hide Sorted, Scored, Shortlist, Combined;
        assert again[k] == Combined(scores[j], neural.value(j));
        assert k != top ==> Before(Ranked(top, again[top]), Ranked(k, again[k]));
        assert k > top ==> Before(list[top], list[k]);
      }
    }
    hide Sorted, Scored, Shortlist, Combined;
  }

  lemma ListIsScored(scores: seq<real>)
    ensures forall i | 0 <= i < |Shortlist(scores)| ::
              Shortlist(scores)[i].candidate < |scores|
              && Shortlist(scores)[i].score == scores[Shortlist(scores)[i].candidate]
  {
    var rows := Scored(scores);
    SortRanks(rows);
    hide Sorted, Scored;
    forall i | 0 <= i < |Shortlist(scores)|
      ensures Shortlist(scores)[i] in rows
    {
      assert Shortlist(scores)[i] in Sorted(rows);
    }
  }

  // ---------------------------------------------------------------- links

  datatype Item = Item(code: string, region: string)

  /** How the scores of an item's candidates come about. */
  type Scorer = (Item, seq<Item>) -> seq<real>

  datatype Link = Link(from: string, to: string, exact: bool)

  /** Later entries of a dictionary by code replace earlier ones. */
  function ByCode(items: seq<Item>, code: string): (r: Option<Item>)
    ensures r.Some? ==> r.value in items && r.value.code == code
    ensures r.None? ==> forall i | 0 <= i < |items| :: items[i].code != code
    decreases |items|
  {
    if items == [] then None
    else if items[|items| - 1].code == code then Some(items[|items| - 1])
    else ByCode(items[..|items| - 1], code)
  }

  function OfRegion(items: seq<Item>, region: string): (r: seq<Item>)
    ensures forall x :: x in r <==> x in items && x.region == region
    decreases |items|
  {
    if items == [] then []
    else
      var front, last := OfRegion(items[..|items| - 1], region), items[|items| - 1];
      assert items == items[..|items| - 1] + [last];
      if last.region == region then front + [last] else front
  }

  function CandidatesFor(clc: seq<Item>, item: Item): (c: seq<Item>)
    ensures forall x :: x in c ==> x in clc
    ensures c == [] <==> clc == []
  {
    var regional := OfRegion(clc, item.region);
    if item.region != "" && regional != [] then regional else clc
  }

  /** The zones an item may be linked to: those of its region, if it has a region with zones. */
  predicate IsCandidate(clc: seq<Item>, item: Item, zone: Item) {
    item.region != "" && (exists i :: 0 <= i < |clc| && clc[i].region == item.region) ==> zone.region == item.region
  }

  /** All candidates, in the order of the zones. */
  ghost predicate AreCandidates(clc: seq<Item>, item: Item, c: seq<Item>) {
    exists from: seq<nat> :: AreFrom(clc, item, c, from)
  }

  predicate AreFrom(clc: seq<Item>, item: Item, c: seq<Item>, from: seq<nat>) {
    && |from| == |c| && (forall i, j | 0 <= i < j < |from| :: from[i] < from[j])
    && (forall k | 0 <= k < |from| :: from[k] < |clc| && c[k] == clc[from[k]] && IsCandidate(clc, item, c[k]))
    && (forall i | 0 <= i < |clc| && IsCandidate(clc, item, clc[i]) :: i in from)
  }

  lemma {:induction false} RegionIsFrom(items: seq<Item>, region: string) returns (from: seq<nat>)
    ensures var r := OfRegion(items, region);
            && |from| == |r| && (forall i, j | 0 <= i < j < |from| :: from[i] < from[j])
            && (forall k | 0 <= k < |from| :: from[k] < |items| && r[k] == items[from[k]])
            && (forall i | 0 <= i < |items| && items[i].region == region :: i in from)
    decreases |items|
  {
    if items == [] {
      return [];
    }
    var n := |items| - 1;
    from := RegionIsFrom(items[..n], region);
    ghost var before := from;
    if items[n].region == region {
      from := from + [n];
      assert from[|before|] == n;
    }
    forall i | 0 <= i < |items| && items[i].region == region
      ensures i in from
    {
      if i < n {
        assert items[..n][i] == items[i];
        assert i in before;
      }
    }
  }

  lemma RegionIsThere(items: seq<Item>, i: nat)
    requires i < |items|
    ensures OfRegion(items, items[i].region) != []
  {
    assert items[i] in OfRegion(items, items[i].region);
  }

  lemma CandidatesAre(clc: seq<Item>, item: Item)
    ensures AreCandidates(clc, item, CandidatesFor(clc, item))
  {
    var regional := OfRegion(clc, item.region);
    var from: seq<nat>;
    if item.region != "" && regional != [] {
      from := RegionIsFrom(clc, item.region);
      assert clc[from[0]].region == item.region by { assert regional[0] in regional; }
      forall k | 0 <= k < |regional|
        ensures regional[k].region == item.region
      {
        assert regional[k] in regional;
      }
    } else {
      from := seq(|clc|, i => i);
      forall i | 0 <= i < |clc| && clc[i].region == item.region
        ensures item.region == ""
      {
        RegionIsThere(clc, i);
      }
      forall i | 0 <= i < |clc|
        ensures i in from
      {
        assert from[i] == i;
      }
    }
    hide OfRegion;
    assert AreFrom(clc, item, CandidatesFor(clc, item), from);
  }

  /** One item: the zone with its own code, or else the winner among its region's zones. */
  ghost predicate LinkOk(clc: seq<Item>, scorer: Scorer, neural: Option<nat -> real>, item: Item, l: Link) {
    && l.from == item.code
    && (if HasCode(clc, item.code) then l.exact && l.to == item.code
        else !l.exact && exists c :: AreCandidates(clc, item, c) && Wins(scorer(item, c), c, neural, l.to))
  }

  predicate Wins(scores: seq<real>, c: seq<Item>, neural: Option<nat -> real>, code: string) {
    |scores| == |c| != 0 && Best(scores, neural) < |c| && code == c[Best(scores, neural)].code
  }

  predicate HasCode(items: seq<Item>, code: string) {
    exists i :: 0 <= i < |items| && items[i].code == code
  }

  lemma CodeIsThere(clc: seq<Item>, code: string)
    ensures HasCode(clc, code) <==> ByCode(clc, code).Some?
  {
    if ByCode(clc, code).Some? {
      var zone := ByCode(clc, code).value;
      var i :| 0 <= i < |clc| && clc[i] == zone;
    }
  }

  lemma WinnerIsLinked(clc: seq<Item>, scorer: Scorer, neural: Option<nat -> real>, item: Item)
    requires clc != [] && !HasCode(clc, item.code) && |scorer(item, CandidatesFor(clc, item))| == |CandidatesFor(clc, item)|
    ensures var c := CandidatesFor(clc, item);
            var best := Best(scorer(item, c), neural);
            && best < |c| && LinkOk(clc, scorer, neural, item, Link(item.code, c[best].code, false))
            && HasCode(clc, c[best].code)
  {
    var c := CandidatesFor(clc, item);
    CandidatesAre(clc, item);
    var scores := scorer(item, c);
    BestWins(scores, neural, 0);
    hide Best, CandidatesFor, AreCandidates;
    var best := Best(scores, neural);
    assert c[best] in c;
    var i :| 0 <= i < |clc| && clc[i] == c[best];
    assert Wins(scores, c, neural, c[best].code);
  }

  lemma OwnCodeIsLinked(clc: seq<Item>, scorer: Scorer, neural: Option<nat -> real>, item: Item)
    requires HasCode(clc, item.code)
    ensures LinkOk(clc, scorer, neural, item, Link(item.code, item.code, true))
  {
  }

  /** `match_sgc_to_clc`: one link for every item as soon as there is a zone, in order. */
  method MatchSgcToClc(sgc: seq<Item>, clc: seq<Item>, scorer: Scorer, neural: Option<nat -> real>)
    returns (links: seq<Link>)
    requires forall item, c :: |scorer(item, c)| == |c|
    ensures clc == [] ==> links == []
    ensures clc != [] ==> |links| == |sgc| && forall i | 0 <= i < |sgc| :: LinkOk(clc, scorer, neural, sgc[i], links[i])
    ensures forall i | 0 <= i < |links| :: HasCode(clc, links[i].to)
  {
    hide ByCode, CandidatesFor, Best, AreCandidates, Wins, HasCode, LinkOk;
    links := [];
    var i := 0;
    while i < |sgc|
      invariant 0 <= i <= |sgc|
      invariant clc == [] ==> links == []
      invariant clc != [] ==> |links| == i && forall k | 0 <= k < i :: LinkOk(clc, scorer, neural, sgc[k], links[k])
      invariant forall k | 0 <= k < |links| :: HasCode(clc, links[k].to)
    {
      var item := sgc[i];
      var target := ByCode(clc, item.code);
      CodeIsThere(clc, item.code);
      if target.Some? {
        OwnCodeIsLinked(clc, scorer, neural, item);
        links := links + [Link(item.code, target.value.code, true)];
      } else {
        var candidates := CandidatesFor(clc, item);
        var scores := scorer(item, candidates);
        if scores != [] {
          WinnerIsLinked(clc, scorer, neural, item);
          links := links + [Link(item.code, candidates[Best(scores, neural)].code, false)];
        }
      }
      i := i + 1;
    }
  }
}
