/** The deterministic score and the stable top-N ranking. */
module Ranking {
  import opened Collections
  import opened IssueAnalysis
  import opened Sorting

  datatype Weights = Weights(
    blocker: int, critical: int, high: int, otherPriority: int,
    perDay: int, daysCap: int,
    perDependent: int, dependentsCap: int,
    dueWithin7: int, dueWithin14: int,
    flagged: int)

  function Min(a: int, b: int): int {
    if a <= b then a else b
  }

  function Max(a: int, b: int): int {
    if a >= b then a else b
  }

  /** The priority table; an unknown or absent priority gets the default weight. */
  function PriorityScore(w: Weights, priority: Option<string>): int {
    if priority == Some("Blocker") then w.blocker
    else if priority == Some("Critical") then w.critical
    else if priority == Some("High") then w.high
    else w.otherPriority
  }

  function DueScore(w: Weights, dueDate: Option<Stamp>, today: int): int {
    if dueDate.None? || dueDate.value.text == "" || dueDate.value.day.None? then 0
    else
      var days := dueDate.value.day.value - today;
      if days < 0 then 0 else if days <= 7 then w.dueWithin7 else if days <= 14 then w.dueWithin14 else 0
  }

  function ScoreOf(w: Weights, a: BlockerAnalysis, today: int): int {
    PriorityScore(w, a.priority)
    + Min(a.daysBlocked * w.perDay, w.daysCap)
    + Min(|a.dependents| * w.perDependent, w.dependentsCap)
    + DueScore(w, a.dueDate, today)
    + (if a.flagged then w.flagged else 0)
  }

  function Scored(w: Weights, a: BlockerAnalysis, today: int): BlockerAnalysis {
    a.(score := ScoreOf(w, a, today))
  }

  method Score(w: Weights, a: BlockerAnalysis, today: int) returns (scored: BlockerAnalysis)
    ensures scored == Scored(w, a, today)
  {
    var total := 0;
    total := total + PriorityScore(w, a.priority);
    total := total + Min(a.daysBlocked * w.perDay, w.daysCap);
    total := total + Min(|a.dependents| * w.perDependent, w.dependentsCap);
    if a.dueDate.Some? && a.dueDate.value.text != "" {
      match a.dueDate.value.day
      case Some(due) =>
        var daysUntilDue := due - today;
        if daysUntilDue >= 0 {
          if daysUntilDue <= 7 {
            total := total + w.dueWithin7;
          } else if daysUntilDue <= 14 {
            total := total + w.dueWithin14;
          }
        }
      case None =>
    }
    if a.flagged {
      total := total + w.flagged;
    }
    scored := a.(score := total);
  }

  ghost predicate NonNegative(w: Weights) {
    && w.blocker >= 0 && w.critical >= 0 && w.high >= 0 && w.otherPriority >= 0
    && w.perDay >= 0 && w.daysCap >= 0 && w.perDependent >= 0 && w.dependentsCap >= 0
    && w.dueWithin7 >= 0 && w.dueWithin14 >= 0 && w.flagged >= 0
  }

  /** The sum of the largest contributions. */
  function HighestScore(w: Weights): int {
    Max(Max(w.blocker, w.critical), Max(w.high, w.otherPriority)) + w.daysCap + w.dependentsCap
    + Max(w.dueWithin7, w.dueWithin14) + w.flagged
  }

  lemma MinProduct(n: int, per: int, cap: int)
    requires n >= 0 && per >= 0 && cap >= 0
    ensures 0 <= Min(n * per, cap) <= cap
  {
    assert n * per >= 0;
  }

  /** With non-negative weights a score lies between zero and the sum of the component maxima. */
  lemma {:induction false} ScoreBounds(w: Weights, a: BlockerAnalysis, today: int)
    requires NonNegative(w) && a.daysBlocked >= 0
    ensures 0 <= ScoreOf(w, a, today) <= HighestScore(w)
  {
    MinProduct(a.daysBlocked, w.perDay, w.daysCap);
    MinProduct(|a.dependents|, w.perDependent, w.dependentsCap);
    hide Min;
  }

  /** An issue that could not be analysed scores what an issue of unknown priority scores. */
  lemma DegradedScore(w: Weights, key: string, reason: string, today: int)
    requires w.daysCap >= 0 && w.dependentsCap >= 0
    ensures ScoreOf(w, Degraded(key, reason), today) == w.otherPriority
    ensures Degraded(key, reason).issueKey == key && Degraded(key, reason).blockedReason == Unavailable(reason)
  {
  }

  // ----- The ranking

  function ScoreKey(): BlockerAnalysis -> int {
    (a: BlockerAnalysis) => a.score
  }

  function ScoreAll(w: Weights, xs: seq<BlockerAnalysis>, today: int): (r: seq<BlockerAnalysis>)
    ensures |r| == |xs|
    ensures forall i :: 0 <= i < |xs| ==> r[i] == Scored(w, xs[i], today)
  {
    seq(|xs|, i requires 0 <= i < |xs| => Scored(w, xs[i], today))
  }

  /** Score everything, sort by score, keep the first n (a Python slice). */
  function Rank(w: Weights, xs: seq<BlockerAnalysis>, today: int, n: int): seq<BlockerAnalysis> {
    Top(ScoreAll(w, xs, today), ScoreKey(), n)
  }

  method RankIssues(w: Weights, xs: seq<BlockerAnalysis>, today: int, n: int) returns (ranked: seq<BlockerAnalysis>)
    ensures ranked == Rank(w, xs, today, n)
  {
    var scored := [];
    for i := 0 to |xs|
      invariant scored == ScoreAll(w, xs[..i], today)
    {
      var s := Score(w, xs[i], today);
      scored := scored + [s];
      assert scored == ScoreAll(w, xs[..i + 1], today);
    }
    assert xs[..|xs|] == xs;
    ranked := Take(Sort(scored, ScoreKey()), n);
  }

  /** The result is a prefix of the one stable descending permutation of the scored input. */
  lemma {:induction false} RankIsStableTop(w: Weights, xs: seq<BlockerAnalysis>, today: int, n: nat,
                                           sorted: seq<BlockerAnalysis>)
    requires Descending(sorted, ScoreKey()) && StablePermutation(sorted, ScoreAll(w, xs, today), ScoreKey())
    ensures Rank(w, xs, today, n) == Take(sorted, n)
    ensures |Rank(w, xs, today, n)| == if n < |xs| then n else |xs|
  {
    SortUnique(sorted, ScoreAll(w, xs, today), ScoreKey());
    SortDescending(ScoreAll(w, xs, today), ScoreKey());
  }

  /**
   The ranking without the sort: from[i] is the position of the i-th ranked analysis in the input.
   Higher scores come first, and of equal scores the earlier input; for a non-negative n there are
   n of them, if so many were given, and what is left out does not beat any of them.
   */
  lemma {:induction false} RankingMeans(w: Weights, xs: seq<BlockerAnalysis>, today: int, n: int)
    returns (from: seq<nat>)
    ensures var ranked := Rank(w, xs, today, n);
      && |from| == |ranked| == (if n >= 0 then Min(n, |xs|) else Max(|xs| + n, 0))
      && (forall i :: 0 <= i < |from| ==>
            from[i] < |xs| && ranked[i] == xs[from[i]].(score := ScoreOf(w, xs[from[i]], today)))
      && (forall i, j :: 0 <= i < j < |from| ==>
            ranked[i].score > ranked[j].score || (ranked[i].score == ranked[j].score && from[i] < from[j]))
      && (forall i, k: nat :: 0 <= i < |from| && k < |xs| && k !in from ==>
            var other := ScoreOf(w, xs[k], today);
            ranked[i].score > other || (ranked[i].score == other && from[i] < k))
  {
    hide ScoreOf, Arranges;
    var scored := ScoreAll(w, xs, today);
    var all := SortArranges(scored, ScoreKey());
    var sorted, ranked := Sort(scored, ScoreKey()), Rank(w, xs, today, n);
    SameLengths(all, sorted, scored, ScoreKey());
    from := all[..|ranked|];
    RankedInOrder(all, sorted, scored, from, ranked);
    forall i, k: nat | 0 <= i < |from| && k < |xs| && k !in from
      ensures var other := ScoreOf(w, xs[k], today);
        ranked[i].score > other || (ranked[i].score == other && from[i] < k)
    {
      LeftOut(all, sorted, scored, ScoreKey(), |from|, i, k);
    }
  }

  /** A prefix of the sorted analyses, with the scores as keys. */
  lemma RankedInOrder(all: seq<nat>, sorted: seq<BlockerAnalysis>, scored: seq<BlockerAnalysis>, from: seq<nat>,
                      ranked: seq<BlockerAnalysis>)
    requires Arranges(all, sorted, scored, ScoreKey()) && |from| == |ranked| && from <= all && ranked <= sorted
    ensures forall i :: 0 <= i < |from| ==> from[i] < |scored| && ranked[i] == scored[from[i]]
    ensures forall i, j :: 0 <= i < j < |from| ==>
      ranked[i].score > ranked[j].score || (ranked[i].score == ranked[j].score && from[i] < from[j])
  {
    forall i, j | 0 <= i < j < |from|
      ensures ranked[i].score > ranked[j].score || (ranked[i].score == ranked[j].score && from[i] < from[j])
    {
      assert ranked[i] == sorted[i] && ranked[j] == sorted[j] && from[i] == all[i] && from[j] == all[j];
    }
  }

  /** The contributions to a score. */
  lemma {:induction false} ScoreMeans(w: Weights, a: BlockerAnalysis, today: int)
    ensures
      var byPriority := if a.priority == Some("Blocker") then w.blocker
                        else if a.priority == Some("Critical") then w.critical
                        else if a.priority == Some("High") then w.high
                        else w.otherPriority;
      var byDays := if a.daysBlocked * w.perDay > w.daysCap then w.daysCap else a.daysBlocked * w.perDay;
      var byDependents := if |a.dependents| * w.perDependent > w.dependentsCap then w.dependentsCap
                          else |a.dependents| * w.perDependent;
      var due := if a.dueDate.Some? && a.dueDate.value.text != "" then a.dueDate.value.day else None;
      var byDueDate := if due.Some? && today <= due.value <= today + 7 then w.dueWithin7
                       else if due.Some? && today + 7 < due.value <= today + 14 then w.dueWithin14
                       else 0;
      var byFlag := if a.flagged then w.flagged else 0;
      ScoreOf(w, a, today) == byPriority + byDays + byDependents + byDueDate + byFlag
  {
  }

  lemma ScoredAlready(w: Weights, xs: seq<BlockerAnalysis>, today: int)
    requires forall i :: 0 <= i < |xs| ==> xs[i] == Scored(w, xs[i], today)
    ensures ScoreAll(w, xs, today) == xs
  {
  }

  /** Every ranked analysis is a scored input. */
  lemma RankedFrom(w: Weights, xs: seq<BlockerAnalysis>, today: int, n: int,
                   a: BlockerAnalysis) returns (x: BlockerAnalysis)
    requires a in Rank(w, xs, today, n)
    ensures x in xs && a == Scored(w, x, today)
  {
    hide ScoreOf;
    var scored := ScoreAll(w, xs, today);
    SortDescending(scored, ScoreKey());
    assert a in multiset(Sort(scored, ScoreKey())) && a in multiset(scored);
    var i :| 0 <= i < |scored| && scored[i] == a;
    x := xs[i];
  }

  lemma RankedAreScored(w: Weights, xs: seq<BlockerAnalysis>, today: int, n: int)
    ensures ScoreAll(w, Rank(w, xs, today, n), today) == Rank(w, xs, today, n)
  {
    hide ScoreOf, Rank;
    var ranked := Rank(w, xs, today, n);
    forall i | 0 <= i < |ranked|
      ensures ranked[i] == Scored(w, ranked[i], today)
    {
      var x := RankedFrom(w, xs, today, n, ranked[i]);
      ScoreIgnoresScore(w, x, today);
    }
    ScoredAlready(w, ranked, today);
  }

  lemma ScoreIgnoresScore(w: Weights, x: BlockerAnalysis, today: int)
    ensures Scored(w, Scored(w, x, today), today) == Scored(w, x, today)
  {
  }

  /** Ranking twice keeps the shorter top. */
  lemma {:induction false} RankTwice(w: Weights, xs: seq<BlockerAnalysis>, today: int, n: nat, m: nat)
    ensures Rank(w, Rank(w, xs, today, n), today, m) == Rank(w, xs, today, if n < m then n else m)
  {
    RankedAreScored(w, xs, today, n);
    TopTop(ScoreAll(w, xs, today), ScoreKey(), n, m);
  }

  /** The top n of two lists together is the top n of their two top n. */
  lemma {:induction false} RankConcatenation(w: Weights, xs: seq<BlockerAnalysis>, ys: seq<BlockerAnalysis>,
                                             today: int, n: nat)
    ensures Rank(w, xs + ys, today, n) == Rank(w, Rank(w, xs, today, n) + Rank(w, ys, today, n), today, n)
  {
    hide ScoreOf;
    var a, b := ScoreAll(w, xs, today), ScoreAll(w, ys, today);
    assert ScoreAll(w, xs + ys, today) == a + b;
    RankedAreScored(w, xs, today, n);
    RankedAreScored(w, ys, today, n);
    var tops := Rank(w, xs, today, n) + Rank(w, ys, today, n);
    assert ScoreAll(w, tops, today) == tops by {
      forall i | 0 <= i < |tops|
        ensures tops[i] == Scored(w, tops[i], today)
      {
        if i < |Rank(w, xs, today, n)| {
          assert ScoreAll(w, Rank(w, xs, today, n), today)[i] == tops[i];
        } else {
          assert ScoreAll(w, Rank(w, ys, today, n), today)[i - |Rank(w, xs, today, n)|] == tops[i];
        }
      }
      ScoredAlready(w, tops, today);
    }
    TopConcat(a, b, ScoreKey(), n);
  }
}
