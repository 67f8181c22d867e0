/**
 The resumable topic loop of generate_briefing: query the topics in order, stop when one needs
 the user, save, and resume there in a later turn.
 */
module Briefings {
  import opened Collections
  import opened Clarification

  datatype Topic = Topic(topicId: string, description: string, query: string)

  type Completed = map<string, QueryResponse>

  /** The saved state of a briefing between two turns. */
  datatype Pending = Pending(sessionId: string, agenda: string, topics: seq<Topic>, idx: nat, completed: Completed)

  /** A topic's warning in the top-level error list. */
  datatype TopicError = TopicError(topicId: string, warning: Warning)

  datatype LoopEnd =
    | Paused(idx: nat, completed: Completed, question: Option<Prompt>)
    | Finished(completed: Completed, errors: seq<TopicError>)
    | Failed(exception: Exception)

  function Tagged(topicId: string, warnings: seq<Warning>): seq<TopicError> {
    seq(|warnings|, i requires 0 <= i < |warnings| => TopicError(topicId, warnings[i]))
  }

  /** The loop from topic i on, where row[k] is what the query handler does for topic k in this turn. */
  function Loop(topics: seq<Topic>, i: nat, completed: Completed, errors: seq<TopicError>, row: seq<Outcome>): LoopEnd
    requires i <= |topics| == |row|
    decreases |topics| - i
  {
    if i == |topics| then Finished(completed, errors)
    else
      match row[i]
      case Raised(exception) => Failed(exception)
      case Returned(response) =>
        if response.requiresUserInput then Paused(i, completed, response.question)
        else
          Loop(topics, i + 1, completed[topics[i].topicId := response],
               errors + Tagged(topics[i].topicId, response.errors), row)
  }

  ghost predicate DistinctIds(topics: seq<Topic>) {
    forall i, j :: 0 <= i < j < |topics| ==> topics[i].topicId != topics[j].topicId
  }

  function Ids(topics: seq<Topic>): set<string> {
    set t | t in topics :: t.topicId
  }

  /** Any number of turns, one row of handler outcomes each; a failed turn saves nothing. */
  function Turns(topics: seq<Topic>, i: nat, completed: Completed, rows: seq<seq<Outcome>>): LoopEnd
    requires i <= |topics| && rows != [] && (forall row :: row in rows ==> |row| == |topics|)
    decreases |rows|
  {
    assert rows[0] in rows;
    var end := Loop(topics, i, completed, [], rows[0]);
    if |rows| == 1 then end
    else
      match end
      case Finished(_, _) => end
      case Failed(_) => Turns(topics, i, completed, rows[1..])
      case Paused(j, c, _) =>
        LoopStops(topics, i, completed, [], rows[0]);
        Turns(topics, j, c, rows[1..])
  }

  /** The outcome for each topic in the last turn that queried it. */
  function FinalRow(topics: seq<Topic>, i: nat, completed: Completed, rows: seq<seq<Outcome>>): (row: seq<Outcome>)
    requires i <= |topics| && rows != [] && (forall row :: row in rows ==> |row| == |topics|)
    ensures |row| == |topics|
    decreases |rows|
  {
    assert rows[0] in rows;
    var end := Loop(topics, i, completed, [], rows[0]);
    if |rows| == 1 then rows[0]
    else
      match end
      case Finished(_, _) => rows[0]
      case Failed(_) => FinalRow(topics, i, completed, rows[1..])
      case Paused(j, c, _) =>
        LoopStops(topics, i, completed, [], rows[0]);
        rows[0][..j] + FinalRow(topics, j, c, rows[1..])[j..]
  }

  /** Where the loop stops and why: the topics before it returned final answers, and only they are completed. */
  lemma {:induction false} LoopStops(topics: seq<Topic>, i: nat, completed: Completed, errors: seq<TopicError>,
                                     row: seq<Outcome>)
    requires i <= |topics| == |row|
    ensures var end := Loop(topics, i, completed, errors, row);
      && (end.Paused? ==>
            && i <= end.idx < |topics|
            && row[end.idx].Returned? && row[end.idx].response.requiresUserInput
            && end.question == row[end.idx].response.question
            && FinalUpTo(row, i, end.idx)
            && end.completed.Keys == completed.Keys + Ids(topics[i..end.idx]))
      && (end.Finished? ==>
            && FinalUpTo(row, i, |topics|)
            && end.completed.Keys == completed.Keys + Ids(topics[i..]))
    decreases |topics| - i
  {
    hide Tagged, Ids;
    if i < |topics| {
      if row[i].Returned? && !row[i].response.requiresUserInput {
        var topic := topics[i].topicId;
        LoopStops(topics, i + 1, completed[topic := row[i].response], errors + Tagged(topic, row[i].response.errors),
                  row);
        var end := Loop(topics, i, completed, errors, row);
        if end.Paused? {
          assert topics[i..end.idx] == [topics[i]] + topics[i + 1..end.idx];
          IdsCons(topics[i], topics[i + 1..end.idx]);
        } else if end.Finished? {
          assert topics[i..] == [topics[i]] + topics[i + 1..];
          IdsCons(topics[i], topics[i + 1..]);
        }
      } else {
        assert topics[i..i] == [];
        NoIds();
      }
    } else {
      assert topics[i..] == [];
      NoIds();
    }
  }

  lemma NoIds()
    ensures Ids([]) == {}
  {
  }

  lemma IdsCons(t: Topic, ts: seq<Topic>)
    ensures Ids([t] + ts) == {t.topicId} + Ids(ts)
  {
    forall id | id in {t.topicId} + Ids(ts)
      ensures id in Ids([t] + ts)
    {
      if id != t.topicId {
        var x :| x in ts && x.topicId == id;
        assert x in [t] + ts;
      } else {
        assert t in [t] + ts;
      }
    }
  }

  /** The outcomes of topics i to j - 1 are final answers. */
  ghost predicate FinalUpTo(row: seq<Outcome>, i: nat, j: nat) {
    forall k :: i <= k < j <= |row| ==> row[k].Returned? && !row[k].response.requiresUserInput
  }

  /** The loop over a stretch of final answers is a left fold. */
  function Fold(topics: seq<Topic>, i: nat, j: nat, completed: Completed, row: seq<Outcome>): Completed
    requires i <= j <= |topics| == |row| && FinalUpTo(row, i, j)
    decreases j - i
  {
    if i == j then completed
    else Fold(topics, i, j - 1, completed, row)[topics[j - 1].topicId := row[j - 1].response]
  }

  function Errors(topics: seq<Topic>, i: nat, j: nat, row: seq<Outcome>): seq<TopicError>
    requires i <= j <= |topics| == |row| && FinalUpTo(row, i, j)
    decreases j - i
  {
    if i == j then []
    else Errors(topics, i, j - 1, row) + Tagged(topics[j - 1].topicId, row[j - 1].response.errors)
  }

  /** Running through final answers up to j and continuing from there is the same as running on. */
  lemma {:induction false} LoopSkips(topics: seq<Topic>, i: nat, j: nat, completed: Completed, errors: seq<TopicError>,
                                     row: seq<Outcome>)
    requires i <= j <= |topics| == |row| && FinalUpTo(row, i, j)
    ensures Loop(topics, i, completed, errors, row) ==
            Loop(topics, j, Fold(topics, i, j, completed, row), errors + Errors(topics, i, j, row), row)
    decreases j - i
  {
    if i == j {
      assert errors + [] == errors;
    } else {
      LoopSkips(topics, i, j - 1, completed, errors, row);
      assert errors + Errors(topics, i, j, row) ==
        errors + Errors(topics, i, j - 1, row) + Tagged(topics[j - 1].topicId, row[j - 1].response.errors);
    }
  }

  /** The loop is the fold of the final answers up to where it stops. */
  lemma {:induction false} LoopIsFold(topics: seq<Topic>, i: nat, completed: Completed, errors: seq<TopicError>,
                                      row: seq<Outcome>)
    requires i <= |topics| == |row|
    ensures var end := Loop(topics, i, completed, errors, row);
      && (end.Paused? ==> i <= end.idx <= |topics| && FinalUpTo(row, i, end.idx) &&
                          end.completed == Fold(topics, i, end.idx, completed, row))
      && (end.Finished? ==> FinalUpTo(row, i, |topics|) &&
                            end.completed == Fold(topics, i, |topics|, completed, row) &&
                            end.errors == errors + Errors(topics, i, |topics|, row))
  {
    LoopStops(topics, i, completed, errors, row);
    var end := Loop(topics, i, completed, errors, row);
    if end.Paused? {
      LoopSkips(topics, i, end.idx, completed, errors, row);
    } else if end.Finished? {
      LoopSkips(topics, i, |topics|, completed, errors, row);
    }
  }

  /** Only the outcomes from topic i on matter to the loop. */
  lemma {:induction false} LoopReadsSuffix(topics: seq<Topic>, i: nat, completed: Completed, errors: seq<TopicError>,
                                           row: seq<Outcome>, row': seq<Outcome>)
    requires i <= |topics| == |row| == |row'| && row[i..] == row'[i..]
    ensures Loop(topics, i, completed, errors, row) == Loop(topics, i, completed, errors, row')
    decreases |topics| - i
  {
    if i < |topics| {
      assert row[i] == row[i..][0] == row'[i..][0] == row'[i];
      assert row[i + 1..] == row[i..][1..] == row'[i + 1..];
      if row[i].Returned? && !row[i].response.requiresUserInput {
        LoopReadsSuffix(topics, i + 1, completed[topics[i].topicId := row[i].response],
                        errors + Tagged(topics[i].topicId, row[i].response.errors), row, row');
      }
    }
  }

  lemma {:induction false} ErrorsReadsSegment(topics: seq<Topic>, i: nat, j: nat, row: seq<Outcome>, row': seq<Outcome>)
    requires i <= j <= |topics| == |row| == |row'| && FinalUpTo(row, i, j) && FinalUpTo(row', i, j)
    requires forall k :: i <= k < j ==> row[k] == row'[k]
    ensures Errors(topics, i, j, row) == Errors(topics, i, j, row')
    ensures forall c :: Fold(topics, i, j, c, row) == Fold(topics, i, j, c, row')
    decreases j - i
  {
    if i < j {
      ErrorsReadsSegment(topics, i, j - 1, row, row');
    }
  }

  /** Both ends agree on everything but the errors. */
  predicate SameEnd(a: LoopEnd, b: LoopEnd) {
    match (a, b)
    case (Paused(i, c, q), Paused(i', c', q')) => i == i' && c == c' && q == q'
    case (Finished(c, _), Finished(c', _)) => c == c'
    case (Failed(x), Failed(x')) => x == x'
    case _ => false
  }

  /** The topic at which the last turn started. */
  function LastStart(topics: seq<Topic>, i: nat, completed: Completed, rows: seq<seq<Outcome>>): (start: nat)
    requires i <= |topics| && rows != [] && (forall row :: row in rows ==> |row| == |topics|)
    ensures i <= start <= |topics|
    decreases |rows|
  {
    assert rows[0] in rows;
    if |rows| == 1 then i
    else
      match Loop(topics, i, completed, [], rows[0])
      case Finished(_, _) => i
      case Failed(_) => LastStart(topics, i, completed, rows[1..])
      case Paused(j, c, _) =>
        LoopStops(topics, i, completed, [], rows[0]);
        LastStart(topics, j, c, rows[1..])
  }

  /**
   The turns end as a single pass over the last outcome of every topic: same completed map, same
   pause. The errors of the single pass are those of topics finished before the last turn, which
   the resumed briefing has lost, followed by those it reports.
   */
  ghost predicate AsOnePass(topics: seq<Topic>, i: nat, completed: Completed, rows: seq<seq<Outcome>>)
    requires i <= |topics| && rows != [] && (forall row :: row in rows ==> |row| == |topics|)
  {
    var resumed := Turns(topics, i, completed, rows);
    var row := FinalRow(topics, i, completed, rows);
    var onePass := Loop(topics, i, completed, [], row);
    var start := LastStart(topics, i, completed, rows);
    && SameEnd(resumed, onePass)
    && FinalUpTo(row, i, start)
    && (resumed.Finished? ==> onePass.errors == Errors(topics, i, start, row) + resumed.errors)
  }

  /** However a briefing is split into turns, and whatever the handler does in them, it ends as a single pass. */
  lemma {:induction false} ResumptionEqualsOnePass(topics: seq<Topic>, i: nat, completed: Completed,
                                                   rows: seq<seq<Outcome>>)
    requires i <= |topics| && rows != [] && (forall row :: row in rows ==> |row| == |topics|)
    ensures AsOnePass(topics, i, completed, rows)
    decreases |rows|
  {
    hide Loop, AsOnePass;
    assert rows[0] in rows;
    var end := Loop(topics, i, completed, [], rows[0]);
    if |rows| == 1 || end.Finished? {
      LastTurnAsOnePass(topics, i, completed, rows);
    } else {
      assert forall row :: row in rows[1..] ==> row in rows;
      if end.Failed? {
        ResumptionEqualsOnePass(topics, i, completed, rows[1..]);
        FailureAsOnePass(topics, i, completed, rows);
      } else {
        LoopStops(topics, i, completed, [], rows[0]);
        ResumptionEqualsOnePass(topics, end.idx, end.completed, rows[1..]);
        PauseAsOnePass(topics, i, completed, rows);
      }
    }
  }

  lemma LastTurnAsOnePass(topics: seq<Topic>, i: nat, completed: Completed, rows: seq<seq<Outcome>>)
    requires i <= |topics| && rows != [] && (forall row :: row in rows ==> |row| == |topics|)
    requires rows[0] in rows && (|rows| == 1 || Loop(topics, i, completed, [], rows[0]).Finished?)
    ensures AsOnePass(topics, i, completed, rows)
  {
    hide Loop;
    var end := Loop(topics, i, completed, [], rows[0]);
    if end.Finished? {
      assert [] + end.errors == end.errors;
    }
  }

  lemma FailureAsOnePass(topics: seq<Topic>, i: nat, completed: Completed, rows: seq<seq<Outcome>>)
    requires i <= |topics| && |rows| > 1 && (forall row :: row in rows ==> |row| == |topics|)
    requires rows[0] in rows && Loop(topics, i, completed, [], rows[0]).Failed?
    requires AsOnePass(topics, i, completed, rows[1..])
    ensures AsOnePass(topics, i, completed, rows)
  {
    hide Loop, Errors, FinalUpTo;
  }

  lemma PauseAsOnePass(topics: seq<Topic>, i: nat, completed: Completed, rows: seq<seq<Outcome>>)
    requires i <= |topics| && |rows| > 1 && (forall row :: row in rows ==> |row| == |topics|)
    requires rows[0] in rows && Loop(topics, i, completed, [], rows[0]).Paused?
    requires var end := Loop(topics, i, completed, [], rows[0]);
      end.idx <= |topics| && AsOnePass(topics, end.idx, end.completed, rows[1..])
    ensures AsOnePass(topics, i, completed, rows)
  {
    hide Loop, Errors, FinalUpTo;
    var end := Loop(topics, i, completed, [], rows[0]);
    LoopStops(topics, i, completed, [], rows[0]);
    PauseThenOnePass(topics, i, completed, rows[0], FinalRow(topics, end.idx, end.completed, rows[1..]),
                     LastStart(topics, end.idx, end.completed, rows[1..]));
  }

  /** A turn that pauses, followed by a pass over later outcomes, is a pass over the joined outcomes. */
  lemma PauseThenOnePass(topics: seq<Topic>, i: nat, completed: Completed, row0: seq<Outcome>, later: seq<Outcome>,
                         start: nat)
    requires i <= |topics| == |row0| == |later|
    requires Loop(topics, i, completed, [], row0).Paused?
    requires Loop(topics, i, completed, [], row0).idx <= start <= |topics|
    requires FinalUpTo(later, Loop(topics, i, completed, [], row0).idx, start)
    ensures var end := Loop(topics, i, completed, [], row0);
      i <= end.idx &&
      var row := row0[..end.idx] + later[end.idx..];
      var onePass, rest := Loop(topics, i, completed, [], row), Loop(topics, end.idx, end.completed, [], later);
      && SameEnd(rest, onePass)
      && FinalUpTo(row, i, start) && FinalUpTo(row, i, end.idx)
      && (rest.Finished? ==> onePass.errors == Errors(topics, i, end.idx, row) + rest.errors)
      && Errors(topics, i, start, row) == Errors(topics, i, end.idx, row) + Errors(topics, end.idx, start, later)
  {
    LoopStops(topics, i, completed, [], row0);
    LoopIsFold(topics, i, completed, [], row0);
    var end := Loop(topics, i, completed, [], row0);
    var j := end.idx;
    var row := row0[..j] + later[j..];
    assert forall k :: i <= k < j ==> row[k] == row0[k];
    assert forall k :: j <= k < |topics| ==> row[k] == later[k];
    ErrorsReadsSegment(topics, i, j, row, row0);
    LoopSkips(topics, i, j, completed, [], row);
    var errors := Errors(topics, i, j, row);
    assert [] + errors == errors && errors + [] == errors;
    assert row[j..] == later[j..];
    LoopReadsSuffix(topics, j, end.completed, errors, row, later);
    LoopErrorsPrefix(topics, j, end.completed, errors, [], later);
    ErrorsReadsSegment(topics, j, start, row, later);
    ErrorsSplit(topics, i, j, start, row);
  }

  lemma {:induction false} ErrorsSplit(topics: seq<Topic>, i: nat, j: nat, k: nat, row: seq<Outcome>)
    requires i <= j <= k <= |topics| == |row| && FinalUpTo(row, i, k) && FinalUpTo(row, i, j) && FinalUpTo(row, j, k)
    ensures Errors(topics, i, k, row) == Errors(topics, i, j, row) + Errors(topics, j, k, row)
    decreases k
  {
    if j < k {
      ErrorsSplit(topics, i, j, k - 1, row);
    }
  }

  /** Errors collected earlier in the turn only prefix those collected later. */
  lemma {:induction false} LoopErrorsPrefix(topics: seq<Topic>, i: nat, completed: Completed, before: seq<TopicError>,
                                            errors: seq<TopicError>, row: seq<Outcome>)
    requires i <= |topics| == |row|
    ensures var a, b := Loop(topics, i, completed, before + errors, row), Loop(topics, i, completed, errors, row);
      SameEnd(a, b) && (a.Finished? ==> a.errors == before + b.errors)
    decreases |topics| - i
  {
    if i < |topics| && row[i].Returned? && !row[i].response.requiresUserInput {
      var more := Tagged(topics[i].topicId, row[i].response.errors);
      assert before + errors + more == before + (errors + more);
      LoopErrorsPrefix(topics, i + 1, completed[topics[i].topicId := row[i].response], before, errors + more, row);
    }
  }

  /** A resumed briefing reports the errors of the single pass exactly if no topic finished earlier had any. */
  lemma {:induction false} ErrorsSurviveExactly(topics: seq<Topic>, i: nat, completed: Completed,
                                                rows: seq<seq<Outcome>>)
    requires i <= |topics| && rows != [] && (forall row :: row in rows ==> |row| == |topics|)
    requires Turns(topics, i, completed, rows).Finished?
    ensures var row := FinalRow(topics, i, completed, rows);
      var start := LastStart(topics, i, completed, rows);
      && Loop(topics, i, completed, [], row).Finished?
      && (Turns(topics, i, completed, rows).errors == Loop(topics, i, completed, [], row).errors <==>
          forall k :: i <= k < start ==> row[k].Returned? && row[k].response.errors == [])
  {
    ResumptionEqualsOnePass(topics, i, completed, rows);
    var row, start := FinalRow(topics, i, completed, rows), LastStart(topics, i, completed, rows);
    NoErrors(topics, i, start, row);
  }

  /** Topic a finishes with a warning, topic b asks; once b is answered, a's warning is no longer reported. */
  lemma WarningLost(a: QueryResponse, question: QueryResponse, b: QueryResponse, w: Warning)
    requires !a.requiresUserInput && a.errors == [w] && question.requiresUserInput
    requires !b.requiresUserInput && b.errors == []
    ensures var topics := [Topic("a", "", ""), Topic("b", "", "")];
      var asking, answered := [Returned(a), Returned(question)], [Returned(a), Returned(b)];
      && Turns(topics, 0, map[], [asking, answered]) == Finished(map["a" := a, "b" := b], [])
      && Loop(topics, 0, map[], [], answered) == Finished(map["a" := a, "b" := b], [TopicError("a", w)])
  {
    var topics := [Topic("a", "", ""), Topic("b", "", "")];
    var asking, answered := [Returned(a), Returned(question)], [Returned(a), Returned(b)];
    assert [asking, answered][1..] == [answered];
    assert Tagged("a", [w]) == [TopicError("a", w)] && Tagged("b", []) == [];
    assert Loop(topics, 1, map["a" := a], [], asking) == Paused(1, map["a" := a], question.question);
    assert Loop(topics, 2, map["a" := a, "b" := b], [], answered) == Finished(map["a" := a, "b" := b], []);
    assert [] + Tagged("a", [w]) + Tagged("b", []) == [TopicError("a", w)];
  }

  lemma {:induction false} NoErrors(topics: seq<Topic>, i: nat, j: nat, row: seq<Outcome>)
    requires i <= j <= |topics| == |row| && FinalUpTo(row, i, j)
    ensures Errors(topics, i, j, row) == [] <==> forall k :: i <= k < j ==> row[k].response.errors == []
    decreases j
  {
    if i < j {
      NoErrors(topics, i, j - 1, row);
    }
  }

  /** With distinct topic ids the completed map holds, for every topic passed, that topic's own final answer. */
  lemma {:induction false} FoldKeepsEachTopic(topics: seq<Topic>, i: nat, j: nat, completed: Completed,
                                              row: seq<Outcome>, k: nat)
    requires i <= k < j <= |topics| == |row| && FinalUpTo(row, i, j)
    requires DistinctIds(topics)
    ensures topics[k].topicId in Fold(topics, i, j, completed, row)
    ensures Fold(topics, i, j, completed, row)[topics[k].topicId] == row[k].response
    decreases j
  {
    if k < j - 1 {
      FoldKeepsEachTopic(topics, i, j - 1, completed, row, k);
    }
  }

  /** Distinctness is needed: of two topics with the same id only the later answer survives. */
  lemma {:induction false} SharedIdLosesAnswer(topics: seq<Topic>, j: nat, k: nat, completed: Completed,
                                               row: seq<Outcome>)
    requires k < j < |topics| == |row| && FinalUpTo(row, 0, j + 1)
    requires topics[k].topicId == topics[j].topicId && row[k].response != row[j].response
    ensures Fold(topics, 0, j + 1, completed, row)[topics[k].topicId] != row[k].response
  {
  }
}
