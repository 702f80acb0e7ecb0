/** Reciprocal Rank Fusion as the re-ranker runs it when no re-ranking model is used or the model
    fails: every candidate at 1-based rank r contributes 1/(60 + r) to the score of its id, the
    candidates are sorted by that score (stable, descending), every input gets the score written
    into its `rerank_score`, and the sorted list is cut to top_k. */
module Fusion {
  import opened Common
  import opened PyValue
  import opened Candidates

  /** The RRF damping constant. */
  const K: nat := 60

  /** What one occurrence at 1-based rank `rank` contributes. */
  function Contribution(rank: nat): (r: real)
    ensures r > 0.0
  {
    1.0 / ((K + rank) as real)
  }

  /** A later rank contributes strictly less. */
  lemma ContributionDecreases(a: nat, b: nat)
    requires a < b
    ensures Contribution(a) > Contribution(b)
  {
    var x, y := (K + a) as real, (K + b) as real;
    var u, v := Contribution(a), Contribution(b);
    assert u * x == 1.0 && v * y == 1.0;
    assert u * v * y == u;
    assert u * v * x == v;
    assert u - v == u * v * (y - x);
    assert u * v > 0.0;
  }

  /** The key the accumulation loop files the candidate at `rank` under: its id, else `str(rank)`. */
  function AccumKey(c: Candidate, rank: nat): string {
    match c.id
    case Some(s) => s
    case None => Decimal(rank)
  }

  /** The key the sort and the score write look the candidate up under: its id, else "". */
  function LookupKey(c: Candidate): string {
    c.id.GetOr("")
  }

  /** The score dictionary after the accumulation loop has seen rs at ranks 1..|rs|. */
  function Accumulate(rs: seq<Candidate>): map<string, real> {
    if rs == [] then map[]
    else
      var m := Accumulate(rs[..|rs| - 1]);
      var key := AccumKey(rs[|rs| - 1], |rs|);
      m[key := (if key in m then m[key] else 0.0) + Contribution(|rs|)]
  }

  /** The sum of 1/(60 + r) over every rank r whose candidate is filed under `key`. */
  function RankSum(rs: seq<Candidate>, key: string): real {
    if rs == [] then 0.0
    else RankSum(rs[..|rs| - 1], key) + (if AccumKey(rs[|rs| - 1], |rs|) == key then Contribution(|rs|) else 0.0)
  }

  ghost predicate Occurs(rs: seq<Candidate>, key: string) {
    exists i :: 0 <= i < |rs| && AccumKey(rs[i], i + 1) == key
  }

  /** The dictionary holds exactly the keys that occur, each with its rank sum. */
  lemma {:induction false} AccumulateIsRankSum(rs: seq<Candidate>, key: string)
    ensures key in Accumulate(rs) <==> Occurs(rs, key)
    ensures key in Accumulate(rs) ==> Accumulate(rs)[key] == RankSum(rs, key)
    ensures key !in Accumulate(rs) ==> RankSum(rs, key) == 0.0
    decreases |rs|
  {
    if rs != [] {
      var init := rs[..|rs| - 1];
      AccumulateIsRankSum(init, key);
      if Occurs(init, key) {
        var i :| 0 <= i < |init| && AccumKey(init[i], i + 1) == key;
        assert rs[i] == init[i];
      }
      if Occurs(rs, key) {
        var i :| 0 <= i < |rs| && AccumKey(rs[i], i + 1) == key;
        if i < |init| {
          assert init[i] == rs[i];
        }
      }
    }
  }

  /** A key filed at exactly one rank gets exactly that rank's contribution. */
  lemma {:induction false} RankSumSingle(rs: seq<Candidate>, key: string, i: nat)
    requires i < |rs| && AccumKey(rs[i], i + 1) == key
    requires forall j :: 0 <= j < |rs| && j != i ==> AccumKey(rs[j], j + 1) != key
    ensures RankSum(rs, key) == Contribution(i + 1)
    decreases |rs|
  {
    var init := rs[..|rs| - 1];
    if i == |rs| - 1 {
      assert forall j :: 0 <= j < |init| ==> init[j] == rs[j];
      AccumulateIsRankSum(init, key);
    } else {
      RankSumSingle(init, key, i);
    }
  }

  /** `rrf_scores.get(x.get("id", ""), 0.0)`: the sort key, which is also the score written. */
  function SortKey(scores: map<string, real>, c: Candidate): real {
    var key := LookupKey(c);
    if key in scores then scores[key] else 0.0
  }

  /** The sort key of every input position. */
  function RrfKeys(rs: seq<Candidate>): (keys: seq<real>)
    ensures |keys| == |rs|
    ensures forall i :: 0 <= i < |rs| ==> keys[i] == SortKey(Accumulate(rs), rs[i])
  {
    var scores := Accumulate(rs);
    seq(|rs|, i requires 0 <= i < |rs| => SortKey(scores, rs[i]))
  }

  /** Position p comes before position q in a stable sort by descending key. */
  predicate Before(keys: seq<real>, p: nat, q: nat) {
    p < |keys| && q < |keys| && (keys[p] > keys[q] || (keys[p] == keys[q] && p < q))
  }

  function Insert(keys: seq<real>, p: nat, s: seq<nat>): seq<nat> {
    if s == [] || Before(keys, p, s[0]) then [p] + s
    else [s[0]] + Insert(keys, p, s[1..])
  }

  /** Inserting a position adds exactly that position. */
  lemma {:induction false} InsertPermutes(keys: seq<real>, p: nat, s: seq<nat>)
    ensures multiset(Insert(keys, p, s)) == multiset(s) + multiset{p}
    decreases |s|
  {
    if s != [] && !Before(keys, p, s[0]) {
      assert s == [s[0]] + s[1..];
      InsertPermutes(keys, p, s[1..]);
    }
  }

  /** Sorting positions by insertion: the order `sorted(..., reverse=True)` produces. */
  function SortPositions(keys: seq<real>, ps: seq<nat>): seq<nat> {
    if ps == [] then []
    else Insert(keys, ps[0], SortPositions(keys, ps[1..]))
  }

  /** Sorting rearranges the positions: neither loses nor adds any. */
  lemma {:induction false} SortPositionsPermutes(keys: seq<real>, ps: seq<nat>)
    ensures multiset(SortPositions(keys, ps)) == multiset(ps)
    decreases |ps|
  {
    if ps != [] {
      assert ps == [ps[0]] + ps[1..];
      SortPositionsPermutes(keys, ps[1..]);
      InsertPermutes(keys, ps[0], SortPositions(keys, ps[1..]));
    }
  }

  lemma InRange(x: nat, n: nat)
    ensures x in multiset(Range(0, n)) <==> x < n
  {
    if x < n {
      assert Range(0, n)[x] == x;
    }
  }

  /** The order in which the sort lists the input positions: a permutation of 0..|keys|-1. */
  function StableOrder(keys: seq<real>): (order: seq<nat>)
    ensures multiset(order) == multiset(Range(0, |keys|))
    ensures |order| == |keys|
    ensures forall i :: 0 <= i < |order| ==> order[i] < |keys|
  {
    var order := SortPositions(keys, Range(0, |keys|));
    SortPositionsPermutes(keys, Range(0, |keys|));
    assert |order| == |multiset(order)| == |multiset(Range(0, |keys|))| == |keys|;
    assert forall i :: 0 <= i < |order| ==> order[i] < |keys| by {
      forall i | 0 <= i < |order| ensures order[i] < |keys| {
        assert order[i] in multiset(order);
        InRange(order[i], |keys|);
      }
    }
    order
  }

  ghost predicate Ordered(keys: seq<real>, s: seq<nat>) {
    forall i, j :: 0 <= i < j < |s| ==> Before(keys, s[i], s[j])
  }

  lemma {:induction false} InsertOrdered(keys: seq<real>, p: nat, s: seq<nat>)
    requires p < |keys| && p !in s && Ordered(keys, s)
    requires forall x :: x in s ==> x < |keys|
    ensures Ordered(keys, Insert(keys, p, s))
    decreases |s|
  {
    if s == [] || Before(keys, p, s[0]) {
      var r := [p] + s;
      forall i, j | 0 <= i < j < |r| ensures Before(keys, r[i], r[j]) {
        if i == 0 && j > 1 {
          assert Before(keys, s[0], s[j - 1]);
        }
      }
    } else {
      assert s[0] in s;
      assert Before(keys, s[0], p);
      InsertOrdered(keys, p, s[1..]);
      var t := Insert(keys, p, s[1..]);
      HeadBeforeInserted(keys, p, s);
      var r := [s[0]] + t;
      forall i, j | 0 <= i < j < |r| ensures Before(keys, r[i], r[j]) {
        if i > 0 {
          assert r[i] == t[i - 1] && r[j] == t[j - 1];
        }
      }
    }
  }

  /** The head of an ordered list that ranks before p ranks before everything p is inserted into. */
  lemma HeadBeforeInserted(keys: seq<real>, p: nat, s: seq<nat>)
    requires s != [] && Before(keys, s[0], p) && Ordered(keys, s)
    ensures forall j :: 0 <= j < |Insert(keys, p, s[1..])| ==> Before(keys, s[0], Insert(keys, p, s[1..])[j])
  {
    var t := Insert(keys, p, s[1..]);
    InsertPermutes(keys, p, s[1..]);
    forall j | 0 <= j < |t| ensures Before(keys, s[0], t[j]) {
      assert t[j] in multiset(t);
      if t[j] != p {
        assert t[j] in multiset(s[1..]);
        var k :| 0 <= k < |s[1..]| && s[1..][k] == t[j];
        assert s[k + 1] == t[j];
      }
    }
  }

  lemma {:induction false} SortPositionsOrdered(keys: seq<real>, ps: seq<nat>)
    requires forall i :: 0 <= i < |ps| ==> ps[i] < |keys|
    requires forall i, j :: 0 <= i < j < |ps| ==> ps[i] != ps[j]
    ensures Ordered(keys, SortPositions(keys, ps))
    decreases |ps|
  {
    if ps != [] {
      var rest := SortPositions(keys, ps[1..]);
      SortPositionsOrdered(keys, ps[1..]);
      SortPositionsPermutes(keys, ps[1..]);
      forall x | x in rest ensures x < |keys| && x != ps[0] {
        assert x in multiset(rest);
        assert x in multiset(ps[1..]);
      }
      InsertOrdered(keys, ps[0], rest);
    }
  }

  /** The sort lists positions by descending key, equal keys in input order. */
  lemma StableOrderOrdered(keys: seq<real>)
    ensures Ordered(keys, StableOrder(keys))
  {
    SortPositionsOrdered(keys, Range(0, |keys|));
  }

  lemma RangeStep(lo: nat, hi: nat)
    requires lo < hi
    ensures Range(lo, hi) == [lo] + Range(lo + 1, hi)
  {
  }

  lemma SortPositionsStep(keys: seq<real>, p: nat, ps: seq<nat>)
    ensures SortPositions(keys, [p] + ps) == Insert(keys, p, SortPositions(keys, ps))
  {
    assert ([p] + ps)[0] == p && ([p] + ps)[1..] == ps;
  }

  lemma InsertAtFront(keys: seq<real>, p: nat, s: seq<nat>)
    requires s == [] || Before(keys, p, s[0])
    ensures Insert(keys, p, s) == [p] + s
  {
  }

  /** The key at position i is at least the next one. */
  predicate DescendsAt(keys: seq<real>, i: nat) {
    i + 1 < |keys| ==> keys[i] >= keys[i + 1]
  }

  /** Keys that already descend leave the positions where they are. */
  lemma {:induction false} SortedKeysKeepOrder(keys: seq<real>, lo: nat)
    requires lo <= |keys|
    requires forall i :: lo <= i < |keys| ==> DescendsAt(keys, i)
    ensures SortPositions(keys, Range(lo, |keys|)) == Range(lo, |keys|)
    decreases |keys| - lo
  {
    if lo < |keys| {
      var rest := Range(lo + 1, |keys|);
      RangeStep(lo, |keys|);
      SortedKeysKeepOrder(keys, lo + 1);
      SortPositionsStep(keys, lo, rest);
      if rest != [] {
        assert rest[0] == lo + 1 && DescendsAt(keys, lo);
        assert Before(keys, lo, rest[0]);
      }
      InsertAtFront(keys, lo, rest);
    }
  }

  /** The inputs after the score write: each carries its sort key as `rerank_score`. */
  function Scored(rs: seq<Candidate>): (r: seq<Candidate>)
    ensures |r| == |rs|
    ensures forall i :: 0 <= i < |rs| ==> r[i].rerankScore == Some(JNum(RrfKeys(rs)[i]))
    ensures forall i :: 0 <= i < |rs| ==> r[i] == rs[i].(rerankScore := r[i].rerankScore)
  {
    var keys := RrfKeys(rs);
    seq(|rs|, i requires 0 <= i < |rs| => rs[i].(rerankScore := Some(JNum(keys[i]))))
  }

  /** The candidates at the given positions, in that order. */
  function Arrange(xs: seq<Candidate>, order: seq<nat>): (r: seq<Candidate>)
    requires forall i :: 0 <= i < |order| ==> order[i] < |xs|
    ensures |r| == |order| && forall i :: 0 <= i < |order| ==> r[i] == xs[order[i]]
  {
    seq(|order|, i requires 0 <= i < |order| => xs[order[i]])
  }

  /** What `_rerank_with_rrf(results, top_k)` returns. */
  function RrfOutput(rs: seq<Candidate>, topK: int): seq<Candidate> {
    Take(Arrange(Scored(rs), StableOrder(RrfKeys(rs))), topK)
  }

  /** The output is the head of the ranking: scores descend, equal scores keep input order,
      no position appears twice, every position left out ranks after every position kept, and
      its length is min(top_k, n) for top_k >= 0. */
  lemma RrfRanking(rs: seq<Candidate>, topK: int) returns (order: seq<nat>)
    ensures |order| == |RrfOutput(rs, topK)|
    ensures topK >= 0 ==> |order| == Min(topK, |rs|)
    ensures forall i :: 0 <= i < |order| ==> order[i] < |rs| && RrfOutput(rs, topK)[i] == Scored(rs)[order[i]]
    ensures forall i, j :: 0 <= i < j < |order| ==> Before(RrfKeys(rs), order[i], order[j])
    ensures forall i, p :: 0 <= i < |order| && 0 <= p < |rs| && p !in order ==> Before(RrfKeys(rs), order[i], p)
  {
    var keys := RrfKeys(rs);
    var full := StableOrder(keys);
    var out := Arrange(Scored(rs), full);
    StableOrderOrdered(keys);
    var n := |RrfOutput(rs, topK)|;
    assert RrfOutput(rs, topK) == out[..n];
    order := full[..n];
    assert forall i :: 0 <= i < n ==> order[i] == full[i];
    KeptBeforeLeftOut(keys, full, n);
  }

  /** In a sorted permutation of the positions, every position among the first n ranks before
      every position outside them. */
  lemma KeptBeforeLeftOut(keys: seq<real>, full: seq<nat>, n: nat)
    requires Ordered(keys, full) && multiset(full) == multiset(Range(0, |keys|)) && n <= |full|
    ensures forall i, p :: 0 <= i < n && 0 <= p < |keys| && p !in full[..n] ==> Before(keys, full[i], p)
  {
    assert forall k :: 0 <= k < n ==> full[..n][k] == full[k];
    forall i, p | 0 <= i < n && 0 <= p < |keys| && p !in full[..n] ensures Before(keys, full[i], p) {
      var k := PositionOf(keys, full, p);
    }
  }

  /** Every position has its place in a permutation of the positions. */
  lemma PositionOf(keys: seq<real>, full: seq<nat>, p: nat) returns (k: nat)
    requires multiset(full) == multiset(Range(0, |keys|)) && p < |keys|
    ensures k < |full| && full[k] == p
  {
    InRange(p, |keys|);
    assert p in multiset(full);
    k :| 0 <= k < |full| && full[k] == p;
  }

  /** Every candidate with an id is scored with the rank sum of that id over the whole input. */
  lemma ScoreOfId(rs: seq<Candidate>, i: nat)
    requires i < |rs| && rs[i].id.Some?
    ensures Scored(rs)[i].rerankScore == Some(JNum(RankSum(rs, rs[i].id.value)))
  {
    AccumulateIsRankSum(rs, rs[i].id.value);
  }

  /** A candidate without an id is scored 0.0 unless some candidate has the id "": its contribution
      was filed under `str(rank)` but it is looked up under "". */
  lemma ScoreWithoutId(rs: seq<Candidate>, i: nat)
    requires i < |rs| && rs[i].id.None?
    requires forall j :: 0 <= j < |rs| ==> rs[j].id != Some("")
    ensures Scored(rs)[i].rerankScore == Some(JNum(0.0))
  {
    forall j | 0 <= j < |rs| ensures AccumKey(rs[j], j + 1) != "" {
      if rs[j].id.None? {
        assert |Decimal(j + 1)| >= 1;
      }
    }
    AccumulateIsRankSum(rs, "");
  }

  predicate DistinctIds(rs: seq<Candidate>) {
    (forall i :: 0 <= i < |rs| ==> rs[i].id.Some?)
    && (forall i, j :: 0 <= i < j < |rs| ==> rs[i].id != rs[j].id)
  }

  /** With distinct ids the candidate at rank r scores 1/(60 + r). */
  lemma DistinctIdsScores(rs: seq<Candidate>)
    requires DistinctIds(rs)
    ensures forall i :: 0 <= i < |rs| ==> RrfKeys(rs)[i] == Contribution(i + 1)
  {
    forall i | 0 <= i < |rs| ensures RrfKeys(rs)[i] == Contribution(i + 1) {
      ScoreOfId(rs, i);
      RankSumSingle(rs, rs[i].id.value, i);
    }
  }

  /** With distinct ids the candidate at rank r scores 1/(60 + r) and the output is the first top_k
      inputs in their original order. */
  lemma DistinctIdsKeepOrder(rs: seq<Candidate>, topK: int)
    requires DistinctIds(rs)
    ensures forall i :: 0 <= i < |rs| ==> Scored(rs)[i].rerankScore == Some(JNum(Contribution(i + 1)))
    ensures RrfOutput(rs, topK) == Take(Scored(rs), topK)
  {
    DistinctIdsScores(rs);
    DistinctIdsSortNothing(rs);
  }

  /** With distinct ids the sort leaves every scored candidate where it is. */
  lemma DistinctIdsSortNothing(rs: seq<Candidate>)
    requires DistinctIds(rs)
    ensures Arrange(Scored(rs), StableOrder(RrfKeys(rs))) == Scored(rs)
  {
    var keys := RrfKeys(rs);
    DistinctIdsScores(rs);
    forall i | 0 <= i < |keys| ensures DescendsAt(keys, i) {
      if i + 1 < |keys| {
        ContributionDecreases(i + 1, i + 2);
      }
    }
    SortedKeysKeepOrder(keys, 0);
    assert StableOrder(keys) == Range(0, |rs|);
  }

  /** The accumulation loop of `_rerank_with_rrf`: the score dictionary it builds. */
  method AccumulateScores(results: array<Candidate>) returns (scores: map<string, real>)
    ensures scores == Accumulate(results[..])
  {
    scores := map[];
    var rank := 1;
    while rank <= results.Length
      invariant 1 <= rank <= results.Length + 1
      invariant scores == Accumulate(results[..rank - 1])
    {
      var docId := match results[rank - 1].id case Some(s) => s case None => Decimal(rank);
      var rrfScore := 1.0 / ((K + rank) as real);
      assert results[..rank][..rank - 1] == results[..rank - 1];
      if docId in scores {
        scores := scores[docId := scores[docId] + rrfScore];
      } else {
        scores := scores[docId := rrfScore];
      }
      rank := rank + 1;
    }
    assert results[..results.Length] == results[..];
  }

  /** The write loop of `_rerank_with_rrf`: walking the sorted order, every input gets the
      score its id looks up, and nothing else about it changes. */
  method WriteScores(results: array<Candidate>, order: seq<nat>, scores: map<string, real>)
    requires multiset(order) == multiset(Range(0, results.Length))
    modifies results
    ensures forall p :: 0 <= p < results.Length ==>
      results[p] == old(results[p]).(rerankScore := Some(JNum(SortKey(scores, old(results[p])))))
  {
    ghost var input := results[..];
    ghost var done: set<nat> := {};
    var i := 0;
    while i < |order|
      invariant 0 <= i <= |order|
      invariant forall q :: q in done <==> q in order[..i]
      invariant forall p :: 0 <= p < results.Length ==>
        results[p] == (if p in done
                       then input[p].(rerankScore := Some(JNum(SortKey(scores, input[p]))))
                       else input[p])
    {
      var p := order[i];
      assert p in multiset(order);
      InRange(p, results.Length);
      results[p] := results[p].(rerankScore := Some(JNum(SortKey(scores, results[p]))));
      assert order[..i + 1] == order[..i] + [p];
      done := done + {p};
      i := i + 1;
    }
    assert order[..i] == order;
    forall p | 0 <= p < results.Length
      ensures p in done
    {
      InRange(p, results.Length);
      assert p in multiset(order);
    }
  }

  /** `_rerank_with_rrf`: accumulates the scores, sorts, writes `rerank_score` into every input
      (also those cut away) and returns the first top_k of the sorted list. */
  method RerankWithRrf(results: array<Candidate>, topK: int) returns (out: seq<Candidate>)
    modifies results
    ensures results[..] == Scored(old(results[..]))
    ensures out == RrfOutput(old(results[..]), topK)
  {
    var scores := AccumulateScores(results);
    var keys := seq(results.Length, i requires 0 <= i < results.Length reads results => SortKey(scores, results[i]));
    assert keys == RrfKeys(results[..]);
    var order := StableOrder(keys);
    ghost var input := results[..];
    WriteScores(results, order, scores);
    assert results[..] == Scored(input);
    out := Take(Arrange(results[..], order), topK);
  }
}
