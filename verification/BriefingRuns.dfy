/** generate_briefing turns over the clarification protocol: the composed system and its progress. */
module BriefingRuns {
  import opened Collections
  import opened TtlStores
  import opened Clarification
  import opened ClarificationRuns
  import opened Briefings

  /** The clarification session of one topic of a briefing. */
  function TopicSession(sid: string, topicId: string): string {
    sid + "__topic_" + topicId
  }

  /** The call made for topics[i]; only the topic at which the turn resumed gets the answer. */
  function TopicCall(sid: string, topics: seq<Topic>, i: nat, start: nat, answer: Option<string>): Call
    requires i < |topics|
  {
    Call(topics[i].query, TopicSession(sid, topics[i].topicId), if i == start then answer else None)
  }

  function TopicEvent(sid: string, topics: seq<Topic>, i: nat, start: nat, answer: Option<string>,
                      worlds: nat -> World): Event
    requires i < |topics|
  {
    Event(TopicCall(sid, topics, i, start, answer), worlds(i))
  }

  /** The topic loop on the clarification protocol; worlds(i) is the outside world during topic i. */
  function TopicLoop(sv: Server, g: Global, sid: string, topics: seq<Topic>, i: nat, start: nat, answer: Option<string>,
                     completed: Completed, errors: seq<TopicError>, worlds: nat -> World): (LoopEnd, Global)
    requires i <= |topics|
    decreases |topics| - i
  {
    if i == |topics| then (Finished(completed, errors), g)
    else
      var e := TopicEvent(sid, topics, i, start, answer, worlds);
      var g' := Next(sv, g, e);
      match StepOf(sv, g, e).outcome
      case Raised(exception) => (Failed(exception), g')
      case Returned(response) =>
        if response.requiresUserInput then (Paused(i, completed, response.question), g')
        else
          TopicLoop(sv, g', sid, topics, i + 1, start, answer, completed[topics[i].topicId := response],
                    errors + Tagged(topics[i].topicId, response.errors), worlds)
  }

  /** The protocol state in which topic k is queried when the turn begins with topic start in state g. */
  function StateAt(sv: Server, g: Global, sid: string, topics: seq<Topic>, start: nat, answer: Option<string>,
                   worlds: nat -> World, k: nat): Global
    requires start <= k <= |topics|
    decreases k
  {
    if k == start then g
    else Next(sv, StateAt(sv, g, sid, topics, start, answer, worlds, k - 1),
              TopicEvent(sid, topics, k - 1, start, answer, worlds))
  }

  /** What the query handler does for topic k in this turn. */
  function HandlerOutcome(sv: Server, g: Global, sid: string, topics: seq<Topic>, start: nat, answer: Option<string>,
                          worlds: nat -> World, k: nat): Outcome
    requires start <= k < |topics|
  {
    StepOf(sv, StateAt(sv, g, sid, topics, start, answer, worlds, k),
           TopicEvent(sid, topics, k, start, answer, worlds)).outcome
  }

  /** The row of those outcomes; topics before start are not queried in this turn. */
  function HandlerRow(sv: Server, g: Global, sid: string, topics: seq<Topic>, start: nat, answer: Option<string>,
                      worlds: nat -> World): (row: seq<Outcome>)
    requires start <= |topics|
    ensures |row| == |topics|
    ensures forall k :: start <= k < |topics| ==> row[k] == HandlerOutcome(sv, g, sid, topics, start, answer, worlds, k)
  {
    seq(|topics|, k requires 0 <= k < |topics| =>
      if k < start then Raised(ClarifierError("not queried"))
      else HandlerOutcome(sv, g, sid, topics, start, answer, worlds, k))
  }

  /** The composed loop is the abstract loop over the query handler's outcomes. */
  lemma {:induction false} TopicLoopIsLoop(sv: Server, g: Global, sid: string, topics: seq<Topic>, i: nat, start: nat,
                                           answer: Option<string>, completed: Completed, errors: seq<TopicError>,
                                           worlds: nat -> World)
    requires start <= i <= |topics|
    ensures TopicLoop(sv, StateAt(sv, g, sid, topics, start, answer, worlds, i), sid, topics, i, start, answer,
                      completed,
                      errors, worlds).0 ==
            Loop(topics, i, completed, errors, HandlerRow(sv, g, sid, topics, start, answer, worlds))
    decreases |topics| - i
  {
    hide StepOf, Next;
    if i < |topics| {
      var outcome := HandlerOutcome(sv, g, sid, topics, start, answer, worlds, i);
      if outcome.Returned? && !outcome.response.requiresUserInput {
        TopicLoopIsLoop(sv, g, sid, topics, i + 1, start, answer, completed[topics[i].topicId := outcome.response],
                        errors + Tagged(topics[i].topicId, outcome.response.errors), worlds);
      }
    }
  }

  // ----- Turns

  datatype BriefingState = BriefingState(queries: Global, briefs: Entries<Pending>)

  datatype BriefingServer = BriefingServer(sv: Server, ttl: real)

  datatype Turn = Turn(
    sessionId: string,
    agenda: string,
    answer: Option<string>,
    topics: Result<seq<Topic>>,   // what the agenda decomposer returns, if it is called
    readAt: real,
    writeAt: real,
    worlds: nat -> World)

  datatype BriefingOutcome =
    | DecompositionFailed(message: string)
    | NoTopics
    | NeedsInput(question: Option<Prompt>, topicId: string)
    | Ready(agenda: string, topics: seq<Topic>, completed: Completed, errors: seq<TopicError>)
    | BriefingRaised(exception: Exception)

  /** What is answered and saved at the end of the loop; a raised exception saves nothing. */
  function Concluded(base: Entries<Pending>, pending: Pending, turn: Turn, end: LoopEnd, ttl: real)
    : (BriefingOutcome, Entries<Pending>)
    requires end.Paused? ==> end.idx < |pending.topics|
  {
    match end
    case Failed(exception) => (BriefingRaised(exception), base)
    case Finished(completed, errors) =>
      (Ready(pending.agenda, pending.topics, completed, errors), base - {turn.sessionId})
    case Paused(i, completed, question) =>
      (NeedsInput(question, pending.topics[i].topicId),
       base[turn.sessionId := (turn.writeAt + ttl, pending.(idx := i, completed := completed))])
  }

  /** One turn from a pending state. */
  function RunPending(bs: BriefingServer, g: Global, base: Entries<Pending>, pending: Pending, turn: Turn)
    : (BriefingOutcome, BriefingState)
    requires pending.idx <= |pending.topics|
  {
    TopicLoopStops(bs.sv, g, turn.sessionId, pending.topics, pending.idx, turn.answer, pending.completed, turn.worlds);
    var (end, g') := TopicLoop(bs.sv, g, turn.sessionId, pending.topics, pending.idx, pending.idx, turn.answer,
                               pending.completed, [], turn.worlds);
    var (outcome, briefs) := Concluded(base, pending, turn, end, bs.ttl);
    (outcome, BriefingState(g', briefs))
  }

  lemma TopicLoopStops(sv: Server, g: Global, sid: string, topics: seq<Topic>, start: nat, answer: Option<string>,
                       completed: Completed, worlds: nat -> World)
    requires start <= |topics|
    ensures var end := TopicLoop(sv, g, sid, topics, start, start, answer, completed, [], worlds).0;
      && (end.Paused? ==>
            start <= end.idx < |topics| && end.completed.Keys == completed.Keys + Ids(topics[start..end.idx]))
      && (end.Finished? ==> end.completed.Keys == completed.Keys + Ids(topics[start..]))
  {
    hide TopicLoop;
    TopicLoopIsLoop(sv, g, sid, topics, start, start, answer, completed, [], worlds);
    LoopStops(topics, start, completed, [], HandlerRow(sv, g, sid, topics, start, answer, worlds));
  }

  ghost predicate PendingOk(sid: string, p: Pending) {
    && p.sessionId == sid && p.idx < |p.topics|
    && p.completed.Keys == Ids(p.topics[..p.idx])
  }

  ghost predicate BriefsOk(briefs: Entries<Pending>) {
    forall sid :: sid in briefs ==> PendingOk(sid, briefs[sid].1)
  }

  /** What a turn starts from: the saved briefing, or a new one on the decomposed agenda. */
  function Opening(briefs: Entries<Pending>, turn: Turn): Option<Pending> {
    match LiveAt(briefs, turn.sessionId, turn.readAt)
    case Some(p) => Some(p)
    case None =>
      if turn.topics.Ok? && turn.topics.value != []
      then Some(Pending(turn.sessionId, turn.agenda, turn.topics.value, 0, map[]))
      else None
  }

  function RunTurn(bs: BriefingServer, st: BriefingState, turn: Turn): (BriefingOutcome, BriefingState)
    requires BriefsOk(st.briefs)
  {
    var base := AfterGet(st.briefs, turn.sessionId, turn.readAt);
    match Opening(st.briefs, turn)
    case Some(p) => RunPending(bs, st.queries, base, p, turn)
    case None =>
      if turn.topics.Err? then (DecompositionFailed(turn.topics.message), st.(briefs := base))
      else (NoTopics, st.(briefs := base))
  }

  /** Every saved briefing has completed exactly the topics before the one it waits for. */
  lemma {:induction false} TurnKeepsPending(bs: BriefingServer, st: BriefingState, turn: Turn)
    requires BriefsOk(st.briefs)
    ensures BriefsOk(RunTurn(bs, st, turn).1.briefs)
    ensures var (outcome, _) := RunTurn(bs, st, turn);
      outcome.Ready? ==> outcome.completed.Keys == Ids(outcome.topics)
  {
    hide TopicLoop, Ids;
    if Opening(st.briefs, turn).Some? {
      var p := Opening(st.briefs, turn).value;
      assert p.completed.Keys == Ids(p.topics[..p.idx]) by {
        EmptyIds(p.topics);
      }
      TopicLoopStops(bs.sv, st.queries, turn.sessionId, p.topics, p.idx, turn.answer, p.completed, turn.worlds);
      var end := TopicLoop(bs.sv, st.queries, turn.sessionId, p.topics, p.idx, p.idx, turn.answer, p.completed, [],
                           turn.worlds).0;
      if end.Paused? {
        assert p.topics[..end.idx] == p.topics[..p.idx] + p.topics[p.idx..end.idx];
        IdsAppend(p.topics[..p.idx], p.topics[p.idx..end.idx]);
      } else if end.Finished? {
        assert p.topics == p.topics[..p.idx] + p.topics[p.idx..];
        IdsAppend(p.topics[..p.idx], p.topics[p.idx..]);
      }
    }
  }

  lemma EmptyIds(topics: seq<Topic>)
    ensures Ids(topics[..0]) == {}
  {
  }

  lemma IdsAppend(a: seq<Topic>, b: seq<Topic>)
    ensures Ids(a + b) == Ids(a) + Ids(b)
  {
    forall id | id in Ids(a) + Ids(b)
      ensures id in Ids(a + b)
    {
      var t :| (t in a || t in b) && t.topicId == id;
      assert t in a + b;
    }
  }

  // ----- A briefing over several turns

  /** The saved state with which the briefing p goes on after a turn with this outcome. */
  function Continuation(p: Pending, end: LoopEnd): Pending {
    if end.Paused? then p.(idx := end.idx, completed := end.completed) else p
  }

  function EndOf(bs: BriefingServer, st: BriefingState, p: Pending, turn: Turn): LoopEnd
    requires p.idx <= |p.topics|
  {
    TopicLoop(bs.sv, st.queries, turn.sessionId, p.topics, p.idx, p.idx, turn.answer, p.completed, [], turn.worlds).0
  }

  /** Each turn but the last leaves the briefing unfinished, and the next one finds it again. */
  ghost predicate Continuing(bs: BriefingServer, st: BriefingState, p: Pending, turns: seq<Turn>)
    requires BriefsOk(st.briefs)
    decreases |turns|
  {
    && turns != [] && p.idx <= |p.topics| && Opening(st.briefs, turns[0]) == Some(p)
    && (|turns| > 1 ==>
          && !EndOf(bs, st, p, turns[0]).Finished?
          && (TurnKeepsPending(bs, st, turns[0]);
              Continuing(bs, RunTurn(bs, st, turns[0]).1, Continuation(p, EndOf(bs, st, p, turns[0])), turns[1..])))
  }

  function LastOutcome(bs: BriefingServer, st: BriefingState, turns: seq<Turn>): BriefingOutcome
    requires BriefsOk(st.briefs) && turns != []
    decreases |turns|
  {
    TurnKeepsPending(bs, st, turns[0]);
    if |turns| == 1 then RunTurn(bs, st, turns[0]).0
    else LastOutcome(bs, RunTurn(bs, st, turns[0]).1, turns[1..])
  }

  /** The query handler's outcomes in each turn. */
  function Rows(bs: BriefingServer, st: BriefingState, p: Pending, turns: seq<Turn>): (rows: seq<seq<Outcome>>)
    requires BriefsOk(st.briefs) && Continuing(bs, st, p, turns)
    ensures |rows| == |turns| && (forall row :: row in rows ==> |row| == |p.topics|)
    decreases |turns|
  {
    TurnKeepsPending(bs, st, turns[0]);
    var row := HandlerRow(bs.sv, st.queries, turns[0].sessionId, p.topics, p.idx, turns[0].answer, turns[0].worlds);
    if |turns| == 1 then [row]
    else [row] + Rows(bs, RunTurn(bs, st, turns[0]).1, Continuation(p, EndOf(bs, st, p, turns[0])), turns[1..])
  }

  /** The turns of a continuing briefing are turns of the abstract loop on the handler's outcomes. */
  lemma {:induction false} TurnsRefineLoop(bs: BriefingServer, st: BriefingState, p: Pending, turns: seq<Turn>)
    requires BriefsOk(st.briefs) && Continuing(bs, st, p, turns)
    ensures var end, last := Turns(p.topics, p.idx, p.completed, Rows(bs, st, p, turns)), LastOutcome(bs, st, turns);
      && (last.Ready? <==> end.Finished?)
      && (last.Ready? ==> last.topics == p.topics && last.completed == end.completed && last.errors == end.errors)
    decreases |turns|
  {
    hide TopicLoop, Loop, HandlerRow;
    var row := HandlerRow(bs.sv, st.queries, turns[0].sessionId, p.topics, p.idx, turns[0].answer, turns[0].worlds);
    TopicLoopIsLoop(bs.sv, st.queries, turns[0].sessionId, p.topics, p.idx, p.idx, turns[0].answer, p.completed, [],
                    turns[0].worlds);
    LoopStops(p.topics, p.idx, p.completed, [], row);
    if |turns| > 1 {
      TurnKeepsPending(bs, st, turns[0]);
      TurnsRefineLoop(bs, RunTurn(bs, st, turns[0]).1, Continuation(p, EndOf(bs, st, p, turns[0])), turns[1..]);
      assert Rows(bs, st, p, turns)[1..] ==
        Rows(bs, RunTurn(bs, st, turns[0]).1, Continuation(p, EndOf(bs, st, p, turns[0])), turns[1..]);
    }
  }

  /**
   Resumption equals one pass, in the composed system: when a briefing becomes ready, its
   completed map is the left fold of the handler's last outcomes, all of them final answers; and
   with distinct ids it holds each topic's own last answer.
   */
  lemma {:induction false} ComposedResumption(bs: BriefingServer, st: BriefingState, p: Pending, turns: seq<Turn>)
    requires BriefsOk(st.briefs) && Continuing(bs, st, p, turns)
    requires LastOutcome(bs, st, turns).Ready?
    ensures var row := FinalRow(p.topics, p.idx, p.completed, Rows(bs, st, p, turns));
      var completed := LastOutcome(bs, st, turns).completed;
      && FinalUpTo(row, p.idx, |p.topics|)
      && completed == Fold(p.topics, p.idx, |p.topics|, p.completed, row)
      && (DistinctIds(p.topics) ==> forall k :: p.idx <= k < |p.topics| ==>
            p.topics[k].topicId in completed && completed[p.topics[k].topicId] == row[k].response)
  {
    hide Loop, Turns, Rows, FinalRow, LastOutcome;
    var rows := Rows(bs, st, p, turns);
    var row := FinalRow(p.topics, p.idx, p.completed, rows);
    TurnsRefineLoop(bs, st, p, turns);
    ResumptionEqualsOnePass(p.topics, p.idx, p.completed, rows);
    LoopIsFold(p.topics, p.idx, p.completed, [], row);
    if DistinctIds(p.topics) {
      forall k | p.idx <= k < |p.topics|
        ensures p.topics[k].topicId in Fold(p.topics, p.idx, |p.topics|, p.completed, row)
        ensures Fold(p.topics, p.idx, |p.topics|, p.completed, row)[p.topics[k].topicId] == row[k].response
      {
        FoldKeepsEachTopic(p.topics, p.idx, |p.topics|, p.completed, row, k);
      }
    }
  }
}
