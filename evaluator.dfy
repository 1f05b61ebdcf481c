/**
 * The evaluator: score every agent output against the query, rank the outputs by
 * score (highest first, ties in arrival order), and report the best one, the
 * combined text and the ranking.
 *
 * Scores are integers in units of 1/400 of the source's score: the length term
 * `min(1.0, len/400)` becomes `min(400, len)` and the keyword bonus `0.5` becomes
 * `200`. These are the real-number values of the source's formula; its double
 * rounding, which can break a tie in the last bit, is not modelled.
 */
module Evaluator {
  import opened Wrappers
  import opened PyString
  import opened BaseAgent

  /** One unit of the source's score. */
  const Unit: int := 400
  const Bonus: int := 200
  const MaxScore: int := 800

  /** `any(w in text.lower() for w in query.lower().split())`. */
  predicate Matches(text: string, query: string) {
    AnyOccurs(Lower(text), Split(Lower(query)))
  }

  /** `simple_score(text, query)`, times 400. */
  function Score(text: string, query: string): (s: int)
    ensures text == [] ==> s == 0
    ensures text != [] ==>
      s == (if |text| < Unit then |text| else Unit) + (if Matches(text, query) then Bonus else 0)
    ensures 0 <= s <= Unit + Bonus
  {
    if text == [] then 0
    else
      var base := if |text| < Unit then |text| else Unit;
      var s := base + (if Matches(text, query) then Bonus else 0);
      if s < 0 then 0 else if s > MaxScore then MaxScore else s
  }

  /** A query made only of whitespace has no words, so it never earns the bonus. */
  lemma BlankQueryNoBonus(text: string, query: string)
    requires AllSpace(query)
    ensures !Matches(text, query)
    ensures Score(text, query) == if |text| < Unit then |text| else Unit
  {
    assert AllSpace(Lower(query));
    SplitAllSpace(Lower(query));
  }

  /** A longer output never scores lower than a shorter one with the same keyword verdict. */
  lemma ScoreMonotone(t1: string, t2: string, query: string)
    requires |t1| <= |t2|
    requires Matches(t1, query) == Matches(t2, query)
    ensures Score(t1, query) <= Score(t2, query)
  {
  }

  /** A query word found in the output, in any letter case, earns the bonus. */
  lemma WordEarnsBonus(text: string, query: string, w: string)
    requires w in Split(Lower(query))
    requires Occurs(Lower(text), w)
    ensures Score(text, query) >= Bonus
  {
    SplitTokens(Lower(query));
    var i :| 0 <= i < |Split(Lower(query))| && Split(Lower(query))[i] == w;
  }

  // ---------------------------------------------------------------------------
  // Ranking

  /** An entry of the `scores` list: the score, the arrival position and the result. */
  datatype Scored = Scored(score: int, pos: nat, result: AgentResult)

  /** The order `scores.sort(key=score, reverse=True)` produces: score descending, then arrival. */
  predicate Before(a: Scored, b: Scored) {
    a.score > b.score || (a.score == b.score && a.pos < b.pos)
  }

  predicate Ranked(s: seq<Scored>) {
    forall i, j :: 0 <= i < j < |s| ==> Before(s[i], s[j])
  }

  predicate Arrival(s: seq<Scored>) {
    forall i, j :: 0 <= i < j < |s| ==> s[i].pos < s[j].pos
  }

  /** Puts `x`, which arrived before every element of `s`, in front of the first one not scoring higher. */
  function Insert(x: Scored, s: seq<Scored>): seq<Scored>
    decreases |s|
  {
    if s == [] || s[0].score <= x.score then [x] + s
    else [s[0]] + Insert(x, s[1..])
  }

  /** The stable descending sort `list.sort(key=..., reverse=True)`. */
  function SortDesc(s: seq<Scored>): seq<Scored>
    decreases |s|
  {
    if s == [] then [] else Insert(s[0], SortDesc(s[1..]))
  }

  lemma {:induction false} InsertPermutes(x: Scored, s: seq<Scored>)
    ensures multiset(Insert(x, s)) == multiset(s) + multiset{x}
    decreases |s|
  {
    if s == [] || s[0].score <= x.score {
    } else {
      InsertPermutes(x, s[1..]);
      assert s == [s[0]] + s[1..];
    }
  }

  lemma {:induction false} InsertRanked(x: Scored, s: seq<Scored>)
    ensures Ranked(s) && (forall y :: y in s ==> x.pos < y.pos) ==> Ranked(Insert(x, s))
    decreases |s|
  {
    if Ranked(s) && (forall y :: y in s ==> x.pos < y.pos) {
      if s == [] || s[0].score <= x.score {
        var r := Insert(x, s);
        forall i, j | 0 <= i < j < |r| ensures Before(r[i], r[j]) {
          if i > 0 {
            assert r[i] == s[i - 1] && r[j] == s[j - 1];
          } else {
            assert r[j] == s[j - 1] && r[j] in s;
            assert s[j - 1].score <= s[0].score || j - 1 == 0;
          }
        }
      } else {
        InsertRanked(x, s[1..]);
        InsertPermutes(x, s[1..]);
        var r := Insert(x, s);
        assert r == [s[0]] + Insert(x, s[1..]);
        forall j | 0 < j < |r| ensures Before(r[0], r[j]) {
          assert r[j] in multiset(Insert(x, s[1..]));
          assert r[j] == x || r[j] in s[1..];
        }
      }
    }
  }

  /** The sort permutes its input. */
  lemma {:induction false} SortPermutes(s: seq<Scored>)
    ensures multiset(SortDesc(s)) == multiset(s)
    ensures |SortDesc(s)| == |s|
    decreases |s|
  {
    if s != [] {
      SortPermutes(s[1..]);
      InsertPermutes(s[0], SortDesc(s[1..]));
      assert s == [s[0]] + s[1..];
    }
  }

  /**
   * On entries listed in arrival order, the sort orders by score, highest first,
   * and keeps equal scores in arrival order.
   */
  lemma {:induction false} SortRanks(s: seq<Scored>)
    ensures Arrival(s) ==> Ranked(SortDesc(s))
    decreases |s|
  {
    if s != [] && Arrival(s) {
      SortRanks(s[1..]);
      SortPermutes(s[1..]);
      forall y | y in SortDesc(s[1..]) ensures s[0].pos < y.pos {
        assert y in multiset(s[1..]);
        var k :| 0 <= k < |s[1..]| && s[1..][k] == y;
        assert s[k + 1] == y;
      }
      InsertRanked(s[0], SortDesc(s[1..]));
    }
  }

  // ---------------------------------------------------------------------------
  // The evaluation

  /** The evaluator's verdict: `best` (`{}` when there are no results), `combined`, `ranked`. */
  datatype Evaluation = Evaluation(best: Option<AgentResult>, combined: string, ranked: seq<(int, string)>)

  /** The `scores` list the loop builds: `(simple_score(output, query), r)` in arrival order. */
  function Scores(query: string, results: seq<AgentResult>): (s: seq<Scored>)
    decreases |results|
  {
    if results == [] then []
    else
      var n := |results| - 1;
      Scores(query, results[..n]) + [Scored(Score(results[n].output, query), n, results[n])]
  }

  /** Each result, as its `[role]` header followed by its output. */
  function Entry(r: AgentResult): string {
    "[" + r.role + "]\n" + r.output
  }

  function Entries(s: seq<Scored>): seq<string> {
    seq(|s|, i requires 0 <= i < |s| => Entry(s[i].result))
  }

  function Roles(s: seq<Scored>): seq<(int, string)> {
    seq(|s|, i requires 0 <= i < |s| => (s[i].score, s[i].result.role))
  }

  /** What `evaluate(query, results)` returns. */
  function EvaluationOf(query: string, results: seq<AgentResult>): Evaluation {
    var s := SortDesc(Scores(query, results));
    Evaluation(if s == [] then None else Some(s[0].result), Join("\n\n", Entries(s)), Roles(s))
  }

  lemma {:induction false} ScoresShape(query: string, results: seq<AgentResult>)
    ensures |Scores(query, results)| == |results|
    ensures forall i :: 0 <= i < |results| ==>
      Scores(query, results)[i] == Scored(Score(results[i].output, query), i, results[i])
    decreases |results|
  {
    if results != [] {
      var n := |results| - 1;
      ScoresShape(query, results[..n]);
      forall i | 0 <= i < n ensures results[..n][i] == results[i] { }
    }
  }

  /**
   * Every ranked entry is some result carrying its own score, the ranking holds each
   * result exactly once, and it is ordered by score with ties in arrival order.
   */
  lemma RankingCorrect(query: string, results: seq<AgentResult>)
    ensures var s := SortDesc(Scores(query, results));
      && multiset(s) == multiset(Scores(query, results))
      && Ranked(s)
      && (forall e :: e in s ==>
            e.pos < |results| && e.result == results[e.pos] && e.score == Score(e.result.output, query))
  {
    var sc := Scores(query, results);
    ScoresShape(query, results);
    SortPermutes(sc);
    SortRanks(sc);
    forall e | e in SortDesc(sc)
      ensures e.pos < |results| && e.result == results[e.pos] && e.score == Score(e.result.output, query)
    {
      assert e in multiset(sc);
    }
  }

  /**
   * `best` is `{}` exactly when there are no results; otherwise it is a result whose
   * score no other result beats, and no earlier result ties with it.
   */
  lemma BestIsTopScore(query: string, results: seq<AgentResult>)
    ensures EvaluationOf(query, results).best.None? <==> results == []
    ensures results != [] ==>
      exists k :: 0 <= k < |results| && EvaluationOf(query, results).best == Some(results[k])
        && (forall i :: 0 <= i < |results| ==> Score(results[i].output, query) <= Score(results[k].output, query))
        && (forall i :: 0 <= i < k ==> Score(results[i].output, query) < Score(results[k].output, query))
  {
    var sc := Scores(query, results);
    var s := SortDesc(sc);
    ScoresShape(query, results);
    SortPermutes(sc);
    RankingCorrect(query, results);
    if results != [] {
      var k := s[0].pos;
      assert s[0] in s;
      forall i | 0 <= i < |results|
        ensures Score(results[i].output, query) <= Score(results[k].output, query)
        ensures i < k ==> Score(results[i].output, query) < Score(results[k].output, query)
      {
        assert sc[i] in multiset(s);
        var j :| 0 <= j < |s| && s[j] == sc[i];
        assert j == 0 || Before(s[0], s[j]);
      }
    }
  }

  /** With no results, nothing is best, nothing is combined and nothing is ranked. */
  lemma NoResults(query: string)
    ensures EvaluationOf(query, []) == Evaluation(None, "", [])
  {
  }

  /**
   * `EvaluatorAgent.evaluate`: the scoring loop, then the sort, then the three
   * fields built from the sorted list.
   */
  method Evaluate(query: string, results: seq<AgentResult>) returns (e: Evaluation)
    ensures e == EvaluationOf(query, results)
    ensures |e.ranked| == |results|
  {
    var scores: seq<Scored> := [];
    var i := 0;
    while i < |results|
      invariant 0 <= i <= |results|
      invariant scores == Scores(query, results[..i])
    {
      assert results[..i + 1][..i] == results[..i];
      scores := scores + [Scored(Score(results[i].output, query), i, results[i])];
      i := i + 1;
    }
    assert results[..i] == results;
    var sorted := SortDesc(scores);
    SortPermutes(scores);
    ScoresShape(query, results);
    var best := if sorted == [] then None else Some(sorted[0].result);
    e := Evaluation(best, Join("\n\n", Entries(sorted)), Roles(sorted));
  }
}
