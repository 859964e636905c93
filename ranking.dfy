/** `RANK() OVER (ORDER BY value DESC)` over a scope of keyed rows, as the ranking
    queries of database/database.py use it (standard competition ranking: ties share
    a rank, and the rank after a tie skips the tied positions). */
module Ranks {
  import opened Ordering

  /** One row of a ranking query: the scope key (a user or a channel), its value
      (exp or SUM(exp)) and its rank. */
  datatype RankedRow = RankedRow(key: nat, value: nat, rank: nat)

  /** Keys of the scope whose value is strictly greater than that of k. */
  function Outranking(scores: map<nat, nat>, k: nat): set<nat>
    requires k in scores
  {
    set j | j in scores && scores[j] > scores[k]
  }

  lemma SubsetCard(a: set<nat>, b: set<nat>)
    requires a <= b
    ensures |a| <= |b|
    ensures a < b ==> |a| < |b|
  {
    assert b == a + (b - a);
    assert a !! (b - a);
    if a < b {
      var x :| x in b - a;
      assert |b - a| >= |{x}|;
    }
  }

  lemma OutrankingBound(scores: map<nat, nat>, k: nat)
    requires k in scores
    ensures |Outranking(scores, k)| < |scores|
  {
    SubsetCard(Outranking(scores, k), scores.Keys);
  }

  /** The rank of k: one plus the number of rows with a strictly greater value. */
  function RankOf(scores: map<nat, nat>, k: nat): (r: nat)
    requires k in scores
    ensures 1 <= r <= |scores|
  {
    OutrankingBound(scores, k);
    1 + |Outranking(scores, k)|
  }

  /** A greater value never ranks behind a smaller one; a strictly greater value ranks strictly ahead. */
  lemma RankMonotone(scores: map<nat, nat>, a: nat, b: nat)
    requires a in scores && b in scores
    ensures scores[a] >= scores[b] ==> RankOf(scores, a) <= RankOf(scores, b)
    ensures scores[a] > scores[b] ==> RankOf(scores, a) < RankOf(scores, b)
  {
    var above, belowA := Outranking(scores, a), Outranking(scores, b);
    if scores[a] >= scores[b] {
      SubsetCard(above, belowA);
    }
    if scores[a] > scores[b] {
      assert a in belowA && a !in above;
    }
  }

  /** Rows with equal values share their rank. */
  lemma RankTie(scores: map<nat, nat>, a: nat, b: nat)
    requires a in scores && b in scores && scores[a] == scores[b]
    ensures RankOf(scores, a) == RankOf(scores, b)
  {
    RankMonotone(scores, a, b);
    RankMonotone(scores, b, a);
  }

  /** r holds one row per key of the scope, value descending, each with its RANK(). */
  predicate IsRanking(scores: map<nat, nat>, r: seq<RankedRow>)
  {
    && |r| == |scores|
    && (forall i | 0 <= i < |r| ::
          r[i].key in scores && r[i].value == scores[r[i].key] && r[i].rank == RankOf(scores, r[i].key))
    && (forall k | k in scores :: RankedRow(k, scores[k], RankOf(scores, k)) in r)
    && (forall i, j | 0 <= i < j < |r| ::
          r[i].key != r[j].key && r[i].value >= r[j].value && r[i].rank <= r[j].rank)
  }

  /** Attaches its rank to each row of an ordered listing. */
  function WithRanks(scores: map<nat, nat>, o: seq<(nat, nat)>): (r: seq<RankedRow>)
    requires forall i | 0 <= i < |o| :: o[i].0 in scores
    ensures |r| == |o|
    ensures forall i | 0 <= i < |o| :: r[i] == RankedRow(o[i].0, o[i].1, RankOf(scores, o[i].0))
  {
    seq(|o|, i requires 0 <= i < |o| => RankedRow(o[i].0, o[i].1, RankOf(scores, o[i].0)))
  }

  lemma WithRanksIsRanking(scores: map<nat, nat>, o: seq<(nat, nat)>)
    requires ListsInOrder(scores, true, o)
    ensures IsRanking(scores, WithRanks(scores, o))
  {
    var r := WithRanks(scores, o);
    forall k | k in scores ensures RankedRow(k, scores[k], RankOf(scores, k)) in r {
      var i :| 0 <= i < |o| && o[i] == (k, scores[k]);
      assert r[i] == RankedRow(k, scores[k], RankOf(scores, k));
    }
    forall i, j | 0 <= i < j < |r| ensures r[i].key != r[j].key && r[i].value >= r[j].value && r[i].rank <= r[j].rank {
      assert Before(true, o[i], o[j]);
      RankMonotone(scores, o[i].0, o[j].0);
    }
  }

  /** The rows of a ranking query (`RANK() OVER (ORDER BY value DESC) ... ORDER BY value DESC`). */
  function Ranking(scores: map<nat, nat>): (r: seq<RankedRow>)
    ensures IsRanking(scores, r)
  {
    var o := Ordered(scores, true);
    OrderedListsInOrder(scores, true);
    WithRanksIsRanking(scores, o);
    WithRanks(scores, o)
  }

  /** Keys of a list of ranked rows. */
  function KeysOf(s: seq<RankedRow>): set<nat>
  {
    set p | p in s :: p.key
  }

  lemma {:induction false} KeysOfDistinct(s: seq<RankedRow>)
    requires forall i, j | 0 <= i < j < |s| :: s[i].key != s[j].key
    ensures |KeysOf(s)| == |s|
  {
    if s != [] {
      var rest := s[1..];
      assert forall i, j | 0 <= i < j < |rest| :: rest[i].key != rest[j].key by {
        forall i, j | 0 <= i < j < |rest| ensures rest[i].key != rest[j].key {
          assert rest[i] == s[i + 1] && rest[j] == s[j + 1];
        }
      }
      KeysOfDistinct(rest);
      assert KeysOf(s) == {s[0].key} + KeysOf(rest) by {
        assert s == [s[0]] + rest;
      }
      assert s[0].key !in KeysOf(rest) by {
        forall p | p in rest ensures p.key != s[0].key {
          var i :| 0 <= i < |rest| && rest[i] == p;
          assert s[i + 1] == p;
        }
      }
    }
  }

  /** In a ranking, a row with a strictly greater value than row i lies before it. */
  lemma GreaterComesFirst(r: seq<RankedRow>, i: nat, p: nat)
    requires i < |r| && p < |r|
    requires forall a, b | 0 <= a < b < |r| :: r[a].value >= r[b].value
    requires r[p].value > r[i].value
    ensures p < i
  {
  }

  lemma OutrankersComeFirst(scores: map<nat, nat>, r: seq<RankedRow>, i: nat)
    requires IsRanking(scores, r)
    requires i < |r|
    ensures Outranking(scores, r[i].key) <= KeysOf(r[..i])
  {
    forall j | j in Outranking(scores, r[i].key) ensures j in KeysOf(r[..i]) {
      var p :| 0 <= p < |r| && r[p] == RankedRow(j, scores[j], RankOf(scores, j));
      GreaterComesFirst(r, i, p);
      assert r[p] == r[..i][p];
    }
  }

  lemma EarlierRowsOutrank(scores: map<nat, nat>, r: seq<RankedRow>, i: nat)
    requires forall a | 0 <= a < |r| :: r[a].key in scores && r[a].value == scores[r[a].key]
    requires forall a, b | 0 <= a < b < |r| :: r[a].value >= r[b].value
    requires i < |r|
    requires i == 0 || r[i - 1].value > r[i].value
    ensures KeysOf(r[..i]) <= Outranking(scores, r[i].key)
  {
    var before := r[..i];
    var above := Outranking(scores, r[i].key);
    forall q | q in before ensures q.key in above {
      var p :| 0 <= p < i && before[p] == q;
      assert r[p] == q;
      assert r[p].value >= r[i - 1].value;
      assert scores[q.key] > scores[r[i].key];
    }
  }

  /** Competition ranking: a row whose value is strictly below that of the row before
      it (or the first row) is ranked by its position, so the first rank is 1 and the
      rank after a tie skips the tied positions. */
  lemma RankAtPosition(scores: map<nat, nat>, r: seq<RankedRow>, i: nat)
    requires IsRanking(scores, r)
    requires i < |r|
    requires i == 0 || r[i - 1].value > r[i].value
    ensures r[i].rank == i + 1
  {
    OutrankersComeFirst(scores, r, i);
    EarlierRowsOutrank(scores, r, i);
    assert Outranking(scores, r[i].key) == KeysOf(r[..i]);
    KeysOfDistinct(r[..i]);
  }
}
