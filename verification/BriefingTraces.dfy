/** Which calls a turn of generate_briefing makes, and what becomes of their replies. */
module BriefingTraces {
  import opened Collections
  import opened Text
  import opened TtlStores
  import opened Sessions
  import opened Clarification
  import opened ClarificationReplies
  import opened ClarificationRuns
  import opened Briefings
  import opened BriefingRuns

  /**
   The calls are for topics start, start + 1 and so on: each carries its topic's query, in the
   session of that topic, and only the first carries the user's answer.
   */
  ghost predicate CallsFor(calls: seq<Event>, sid: string, topics: seq<Topic>, start: nat, answer: Option<string>,
                           worlds: nat -> World)
  {
    && start + |calls| <= |topics|
    && (forall k :: 0 <= k < |calls| ==>
          calls[k] == Event(Call(topics[start + k].query, sid + "__topic_" + topics[start + k].topicId,
                                 if k == 0 then answer else None),
                            worlds(start + k)))
  }

  /** The reply to the k-th call. */
  function Reply(sv: Server, g: Global, calls: seq<Event>, k: nat): Outcome
    requires k < |calls|
  {
    StepOf(sv, AfterCalls(sv, g, calls[..k]), calls[k]).outcome
  }

  predicate IsFinal(o: Outcome) {
    o.Returned? && !o.response.requiresUserInput
  }

  ghost predicate FinalReplies(sv: Server, g: Global, calls: seq<Event>, n: nat) {
    n <= |calls| && (forall k: nat :: k < n ==> IsFinal(Reply(sv, g, calls, k)))
  }

  /** The responses to the first n calls. */
  function Responses(sv: Server, g: Global, calls: seq<Event>, n: nat): (responses: seq<QueryResponse>)
    requires FinalReplies(sv, g, calls, n)
    ensures |responses| == n
  {
    if n == 0 then [] else Responses(sv, g, calls, n - 1) + [Reply(sv, g, calls, n - 1).response]
  }

  /** Each topic has its response, or that of the last topic with the same id; the rest is as before. */
  ghost predicate Records(topics: seq<Topic>, responses: seq<QueryResponse>, before: Completed, after: Completed)
    requires |responses| == |topics|
  {
    && (forall k :: 0 <= k < |topics| ==> topics[k].topicId in after)
    && (forall k :: 0 <= k < |topics| && (forall j :: k < j < |topics| ==> topics[j].topicId != topics[k].topicId) ==>
          topics[k].topicId in after && after[topics[k].topicId] == responses[k])
    && (forall id :: id !in Ids(topics) ==>
          (id in after <==> id in before) && (id in before ==> after[id] == before[id]))
  }

  /** The warnings of the responses, each under the id of its topic. */
  function Gathered(topics: seq<Topic>, responses: seq<QueryResponse>): seq<TopicError>
    requires |responses| == |topics|
  {
    if topics == [] then []
    else
      var n := |topics| - 1;
      var warnings := responses[n].errors;
      Gathered(topics[..n], responses[..n]) +
      seq(|warnings|, i requires 0 <= i < |warnings| => TopicError(topics[n].topicId, warnings[i]))
  }

  /** The loop ends with the last call: all topics are answered, the last one asks, or the last call raised. */
  ghost predicate EndsWith(sv: Server, g: Global, calls: seq<Event>, topics: seq<Topic>, start: nat, before: Completed,
                           end: LoopEnd)
    requires start + |calls| <= |topics|
  {
    match end
    case Finished(completed, errors) =>
      && start + |calls| == |topics| && FinalReplies(sv, g, calls, |calls|)
      && Records(topics[start..], Responses(sv, g, calls, |calls|), before, completed)
      && errors == Gathered(topics[start..], Responses(sv, g, calls, |calls|))
    case Paused(idx, completed, question) =>
      && calls != [] && idx == start + |calls| - 1 && FinalReplies(sv, g, calls, |calls| - 1)
      && Records(topics[start..idx], Responses(sv, g, calls, |calls| - 1), before, completed)
      && var last := Reply(sv, g, calls, |calls| - 1);
        last.Returned? && last.response.requiresUserInput && question == last.response.question
    case Failed(exception) =>
      && calls != [] && FinalReplies(sv, g, calls, |calls| - 1)
      && Reply(sv, g, calls, |calls| - 1) == Raised(exception)
  }

  // ----- The loop

  lemma ReplyKept(sv: Server, g: Global, calls: seq<Event>, e: Event, k: nat)
    requires k < |calls|
    ensures Reply(sv, g, calls + [e], k) == Reply(sv, g, calls, k)
  {
    assert (calls + [e])[..k] == calls[..k];
  }

  lemma OneMoreCall(sv: Server, g: Global, calls: seq<Event>, e: Event)
    ensures AfterCalls(sv, g, calls + [e]) == Next(sv, AfterCalls(sv, g, calls), e)
    ensures Reply(sv, g, calls + [e], |calls|) == StepOf(sv, AfterCalls(sv, g, calls), e).outcome
  {
    hide Next, StepOf;
    assert (calls + [e])[..|calls|] == calls;
  }

  lemma {:induction false} RepliesKept(sv: Server, g: Global, calls: seq<Event>, e: Event, n: nat)
    requires FinalReplies(sv, g, calls, n)
    ensures FinalReplies(sv, g, calls + [e], n)
    ensures Responses(sv, g, calls + [e], n) == Responses(sv, g, calls, n)
  {
    hide Reply, IsFinal;
    forall k: nat | k < n
      ensures Reply(sv, g, calls + [e], k) == Reply(sv, g, calls, k)
    {
      ReplyKept(sv, g, calls, e, k);
    }
    if n > 0 {
      RepliesKept(sv, g, calls, e, n - 1);
    }
  }

  /** Recording one more response. */
  lemma RecordsNext(topics: seq<Topic>, responses: seq<QueryResponse>, before: Completed, after: Completed,
                    topic: Topic, response: QueryResponse)
    requires |responses| == |topics| && Records(topics, responses, before, after)
    ensures Records(topics + [topic], responses + [response], before, after[topic.topicId := response])
  {
    hide Ids;
    var ts, after' := topics + [topic], after[topic.topicId := response];
    forall id | id !in Ids(ts)
      ensures id !in Ids(topics) && id != topic.topicId
    {
      IdsAppend(topics, [topic]);
      IdsCons(topic, []);
      assert [topic] + [] == [topic];
    }
    forall k | 0 <= k < |ts| && (forall j :: k < j < |ts| ==> ts[j].topicId != ts[k].topicId)
      ensures after'[ts[k].topicId] == (responses + [response])[k]
    {
      if k < |topics| {
        assert ts[|topics|].topicId != ts[k].topicId;
        assert forall j :: k < j < |topics| ==> ts[j] == topics[j];
      }
    }
  }

  lemma GatheredNext(topics: seq<Topic>, responses: seq<QueryResponse>, topic: Topic, response: QueryResponse)
    requires |responses| == |topics|
    ensures Gathered(topics + [topic], responses + [response]) ==
            Gathered(topics, responses) + Tagged(topic.topicId, response.errors)
  {
    assert (topics + [topic])[..|topics|] == topics;
    assert (responses + [response])[..|topics|] == responses;
  }

  lemma NothingRecorded(completed: Completed)
    ensures Records([], [], completed, completed)
  {
  }

  /** The calls made so far led to state, with what they recorded and gathered. */
  ghost predicate LedTo(sv: Server, g: Global, calls: seq<Event>, sid: string, topics: seq<Topic>, start: nat,
                        answer: Option<string>, worlds: nat -> World, before: Completed, state: Global,
                        completed: Completed, errors: seq<TopicError>)
  {
    && CallsFor(calls, sid, topics, start, answer, worlds)
    && state == AfterCalls(sv, g, calls) && FinalReplies(sv, g, calls, |calls|)
    && Records(topics[start..start + |calls|], Responses(sv, g, calls, |calls|), before, completed)
    && errors == Gathered(topics[start..start + |calls|], Responses(sv, g, calls, |calls|))
  }

  lemma CallsNext(calls: seq<Event>, sid: string, topics: seq<Topic>, start: nat, answer: Option<string>,
                  worlds: nat -> World)
    requires CallsFor(calls, sid, topics, start, answer, worlds) && start + |calls| < |topics|
    ensures CallsFor(calls + [TopicEvent(sid, topics, start + |calls|, start, answer, worlds)], sid, topics, start,
                     answer, worlds)
  {
  }

  lemma ResponsesNext(sv: Server, g: Global, calls: seq<Event>, e: Event)
    requires FinalReplies(sv, g, calls, |calls|)
    ensures var outcome := StepOf(sv, AfterCalls(sv, g, calls), e).outcome;
      IsFinal(outcome) ==>
        && FinalReplies(sv, g, calls + [e], |calls| + 1)
        && Responses(sv, g, calls + [e], |calls| + 1) == Responses(sv, g, calls, |calls|) + [outcome.response]
  {
    hide Next, StepOf, Reply, AfterCalls;
    OneMoreCall(sv, g, calls, e);
    RepliesKept(sv, g, calls, e, |calls|);
  }

  /** One more call, whose reply is final. */
  lemma LedFurther(sv: Server, g: Global, calls: seq<Event>, sid: string, topics: seq<Topic>, start: nat,
                   answer: Option<string>, worlds: nat -> World, before: Completed, state: Global,
                   completed: Completed, errors: seq<TopicError>)
    requires start + |calls| < |topics|
    requires LedTo(sv, g, calls, sid, topics, start, answer, worlds, before, state, completed, errors)
    ensures var i := start + |calls|;
      var e := TopicEvent(sid, topics, i, start, answer, worlds);
      && CallsFor(calls + [e], sid, topics, start, answer, worlds)
      && var outcome := StepOf(sv, state, e).outcome;
        IsFinal(outcome) ==>
          LedTo(sv, g, calls + [e], sid, topics, start, answer, worlds, before, Next(sv, state, e),
                completed[topics[i].topicId := outcome.response],
                errors + Tagged(topics[i].topicId, outcome.response.errors))
  {
    hide Next, StepOf, Records, Gathered, Tagged, Reply, FinalReplies, Responses, AfterCalls, TopicEvent;
    var i := start + |calls|;
    var e := TopicEvent(sid, topics, i, start, answer, worlds);
    CallsNext(calls, sid, topics, start, answer, worlds);
    OneMoreCall(sv, g, calls, e);
    ResponsesNext(sv, g, calls, e);
    var outcome := StepOf(sv, state, e).outcome;
    if IsFinal(outcome) {
      var done, responses := topics[start..i], Responses(sv, g, calls, |calls|);
      RecordsNext(done, responses, before, completed, topics[i], outcome.response);
      GatheredNext(done, responses, topics[i], outcome.response);
      assert topics[start..i + 1] == done + [topics[i]];
    }
  }

  /** All topics are answered. */
  lemma AllAnswered(sv: Server, g: Global, calls: seq<Event>, sid: string, topics: seq<Topic>, start: nat,
                    answer: Option<string>, worlds: nat -> World, before: Completed, state: Global,
                    completed: Completed, errors: seq<TopicError>)
    requires start + |calls| == |topics|
    requires LedTo(sv, g, calls, sid, topics, start, answer, worlds, before, state, completed, errors)
    ensures EndsWith(sv, g, calls, topics, start, before, Finished(completed, errors))
  {
    hide Records, Gathered, Reply, IsFinal, Responses, AfterCalls;
    assert topics[start..start + |calls|] == topics[start..];
  }

  /** One more call, whose reply is not final. */
  lemma StopsHere(sv: Server, g: Global, calls: seq<Event>, sid: string, topics: seq<Topic>, start: nat,
                  answer: Option<string>, worlds: nat -> World, before: Completed, state: Global,
                  completed: Completed, errors: seq<TopicError>)
    requires start + |calls| < |topics|
    requires LedTo(sv, g, calls, sid, topics, start, answer, worlds, before, state, completed, errors)
    ensures var i := start + |calls|;
      var e := TopicEvent(sid, topics, i, start, answer, worlds);
      var outcome := StepOf(sv, state, e).outcome;
      !IsFinal(outcome) ==>
        EndsWith(sv, g, calls + [e], topics, start, before,
                 if outcome.Raised? then Failed(outcome.exception)
                 else Paused(i, completed, outcome.response.question))
  {
    hide Next, StepOf, Records, Gathered, Reply, AfterCalls;
    var e := TopicEvent(sid, topics, start + |calls|, start, answer, worlds);
    OneMoreCall(sv, g, calls, e);
    RepliesKept(sv, g, calls, e, |calls|);
  }

  lemma {:induction false} LoopTrace(sv: Server, g: Global, calls: seq<Event>, sid: string, topics: seq<Topic>,
                                     start: nat, answer: Option<string>, worlds: nat -> World, before: Completed,
                                     state: Global, completed: Completed, errors: seq<TopicError>)
    returns (all: seq<Event>)
    requires start + |calls| <= |topics|
    requires LedTo(sv, g, calls, sid, topics, start, answer, worlds, before, state, completed, errors)
    ensures CallsFor(all, sid, topics, start, answer, worlds)
    ensures var (end, g') :=
        TopicLoop(sv, state, sid, topics, start + |calls|, start, answer, completed, errors, worlds);
      EndsWith(sv, g, all, topics, start, before, end) && g' == AfterCalls(sv, g, all)
    decreases |topics| - |calls|
  {
    hide Next, StepOf, EndsWith, FinalReplies, Responses, Gathered, Records, TopicEvent, AfterCalls;
    all := calls;
    var i := start + |calls|;
    if i == |topics| {
      AllAnswered(sv, g, calls, sid, topics, start, answer, worlds, before, state, completed, errors);
    } else {
      var e := TopicEvent(sid, topics, i, start, answer, worlds);
      LedFurther(sv, g, calls, sid, topics, start, answer, worlds, before, state, completed, errors);
      var outcome := StepOf(sv, state, e).outcome;
      if IsFinal(outcome) {
        all := LoopTrace(sv, g, calls + [e], sid, topics, start, answer, worlds, before, Next(sv, state, e),
                         completed[topics[i].topicId := outcome.response],
                         errors + Tagged(topics[i].topicId, outcome.response.errors));
      } else {
        all := calls + [e];
        OneMoreCall(sv, g, calls, e);
        StopsHere(sv, g, calls, sid, topics, start, answer, worlds, before, state, completed, errors);
      }
    }
  }

  lemma LedNowhere(sv: Server, g: Global, sid: string, topics: seq<Topic>, start: nat, answer: Option<string>,
                   worlds: nat -> World, completed: Completed)
    requires start <= |topics|
    ensures LedTo(sv, g, [], sid, topics, start, answer, worlds, completed, g, completed, [])
  {
    hide Reply, IsFinal, Next;
    assert topics[start..start] == [];
    NothingRecorded(completed);
  }

  /**
   The loop queries exactly the topics from start on, in order and with their own queries and
   sessions, until one asks, raises, or all are answered; it ends in the state after these calls,
   with their responses recorded and their warnings gathered.
   */
  lemma {:induction false} LoopMakesCalls(sv: Server, g: Global, sid: string, topics: seq<Topic>, start: nat,
                                          answer: Option<string>, completed: Completed, worlds: nat -> World)
    returns (calls: seq<Event>)
    requires start <= |topics|
    ensures CallsFor(calls, sid, topics, start, answer, worlds)
    ensures var (end, g') := TopicLoop(sv, g, sid, topics, start, start, answer, completed, [], worlds);
      EndsWith(sv, g, calls, topics, start, completed, end) && g' == AfterCalls(sv, g, calls)
  {
    hide TopicLoop, EndsWith, LedTo, CallsFor, AfterCalls;
    LedNowhere(sv, g, sid, topics, start, answer, worlds, completed);
    calls := LoopTrace(sv, g, [], sid, topics, start, answer, worlds, completed, g, completed, []);
  }

  // ----- One turn

  /** How the turn ends and what it saves, when it goes on from p and makes these calls. */
  ghost predicate TurnEnds(bs: BriefingServer, st: BriefingState, p: Pending, turn: Turn, calls: seq<Event>,
                           outcome: BriefingOutcome, briefs: Entries<Pending>)
  {
    && CallsFor(calls, turn.sessionId, p.topics, p.idx, turn.answer, turn.worlds)
    && var sid := turn.sessionId;
      match outcome
      case Ready(agenda, topics, completed, errors) =>
        && agenda == p.agenda && topics == p.topics && sid !in briefs
        && EndsWith(bs.sv, st.queries, calls, p.topics, p.idx, p.completed, Finished(completed, errors))
      case NeedsInput(question, topicId) =>
        && calls != [] && sid in briefs
        && var (expiry, saved) := briefs[sid];
          && expiry == turn.writeAt + bs.ttl && saved == p.(idx := saved.idx, completed := saved.completed)
          && EndsWith(bs.sv, st.queries, calls, p.topics, p.idx, p.completed,
                      Paused(saved.idx, saved.completed, question))
          && topicId == p.topics[saved.idx].topicId
      case BriefingRaised(exception) =>
        && EndsWith(bs.sv, st.queries, calls, p.topics, p.idx, p.completed, Failed(exception))
        && (if FindsSaved(st, turn) then sid in briefs && briefs[sid] == st.briefs[sid] else sid !in briefs)
      case _ => false
  }

  /** The turn finds the briefing saved. */
  predicate FindsSaved(st: BriefingState, turn: Turn) {
    turn.sessionId in st.briefs && turn.readAt < st.briefs[turn.sessionId].0
  }

  lemma TurnFrom(bs: BriefingServer, st: BriefingState, p: Pending, turn: Turn) returns (calls: seq<Event>)
    requires BriefsOk(st.briefs) && Opening(st.briefs, turn) == Some(p)
    ensures var (outcome, st') := RunTurn(bs, st, turn);
      TurnEnds(bs, st, p, turn, calls, outcome, st'.briefs) && st'.queries == AfterCalls(bs.sv, st.queries, calls)
  {
    hide TopicLoop, CallsFor, AfterCalls, FinalReplies, Records, Gathered, Responses, Reply;
    calls := LoopMakesCalls(bs.sv, st.queries, turn.sessionId, p.topics, p.idx, turn.answer, p.completed, turn.worlds);
  }

  /**
   What one turn does: it goes on from the saved briefing, or else from the first topic of the
   decomposed agenda; it makes the calls for its topics, and answers and saves what they come to.
   Other briefings stay as they were.
   */
  lemma {:induction false} TurnTrace(bs: BriefingServer, st: BriefingState, turn: Turn) returns (calls: seq<Event>)
    requires BriefsOk(st.briefs)
    ensures var (outcome, st') := RunTurn(bs, st, turn);
      && st'.queries == AfterCalls(bs.sv, st.queries, calls)
      && (forall sid :: sid != turn.sessionId ==>
            (sid in st'.briefs <==> sid in st.briefs) && (sid in st.briefs ==> st'.briefs[sid] == st.briefs[sid]))
      && (if FindsSaved(st, turn)
          then TurnEnds(bs, st, st.briefs[turn.sessionId].1, turn, calls, outcome, st'.briefs)
          else if turn.topics.Err? || turn.topics.value == []
          then && calls == [] && turn.sessionId !in st'.briefs
               && outcome == (if turn.topics.Err? then DecompositionFailed(turn.topics.message) else NoTopics)
          else TurnEnds(bs, st, Pending(turn.sessionId, turn.agenda, turn.topics.value, 0, map[]), turn, calls, outcome,
                        st'.briefs))
  {
    hide TopicLoop, AfterCalls, TurnEnds;
    calls := [];
    if Opening(st.briefs, turn).Some? {
      calls := TurnFrom(bs, st, Opening(st.briefs, turn).value, turn);
    } else {
      NoCalls(bs.sv, st.queries);
    }
  }

  lemma NoCalls(sv: Server, g: Global)
    ensures AfterCalls(sv, g, []) == g
  {
  }

  // ----- What a topic is answered with

  /** Different topics are queried in different sessions. */
  lemma {:induction false} OwnSessions(calls: seq<Event>, sid: string, topics: seq<Topic>, start: nat,
                                       answer: Option<string>, worlds: nat -> World, i: nat, j: nat)
    requires CallsFor(calls, sid, topics, start, answer, worlds) && i < |calls| && j < |calls|
    ensures calls[i].call.sessionId == calls[j].call.sessionId <==>
            topics[start + i].topicId == topics[start + j].topicId
  {
    var front := sid + "__topic_";
    var a, b := topics[start + i].topicId, topics[start + j].topicId;
    assert (front + a)[|front|..] == a && (front + b)[|front|..] == b;
  }

  /** The user's answer goes to a question that is still pending about another query. */
  predicate AnswersOther(stored: Option<SessionData>, call: Call) {
    && Answers(stored, call) && stored.value.pendingQuery !in {None, Some("")}
    && stored.value.pendingQuery.value != call.query
  }

  /**
   A final answer is the backend's reply to a query sent for its topic; it is the topic's own query
   exactly unless this is the first call of the turn and the user's answer goes to a question that
   the topic's session still has pending about another query.
   */
  lemma {:induction false} FinalAnswerIsForTopic(sv: Server, g: Global, calls: seq<Event>, sid: string,
                                                 topics: seq<Topic>, start: nat, answer: Option<string>,
                                                 worlds: nat -> World, k: nat)
    requires GlobalOk(sv, g) && CallsFor(calls, sid, topics, start, answer, worlds)
    requires k < |calls| && IsFinal(Reply(sv, g, calls, k))
    ensures var before, e := AfterCalls(sv, g, calls[..k]), calls[k];
      var r := StepOf(sv, before, e);
      && r.sent.Some? && Relays(Reply(sv, g, calls, k).response, worlds(start + k).backend, r.sent.value.hints)
      && (r.sent.value.query == topics[start + k].query <==> !AnswersOther(Read(before, e), e.call))
      && (AnswersOther(Read(before, e), e.call) ==> k == 0 && answer.Some?)
  {
    hide Next, HandleQuery, GlobalOk, Relays, AfterCalls;
    var before, e := AfterCalls(sv, g, calls[..k]), calls[k];
    CallsKeepGlobal(sv, g, calls[..k]);
    StepKeepsGlobal(sv, before, e);
    CallCarriesVerdict(sv.cfg, Read(before, e), before.conventions, e.call, e.world);
  }

  /** One term, x, which occurs in the query "old" only; a session waits with a question about it. */
  function OldServer(): Server {
    Server(Config(["x"], (t, q) => q == "old", 3), 100.0, false)
  }

  function WaitingForX(): SessionData {
    SessionData("b__topic_t", Awaiting, Some("old"), ["x"], Some("x?"), 1, map[])
  }

  function NewTopic(): Event {
    Event(Call("new", "b__topic_t", Some("x is a label")),
          World(1.0, 1.0, Err(""), Ok([TermAnswer("x", "labels", "labels = x")]), None, Err(""),
                Replied(LiteResult(Some("about old"), None, 1, 1, []))))
  }

  function OldState(): Global {
    Global(map["b__topic_t" := (100.0, WaitingForX())], EmptyDict())
  }

  lemma OldStateOk()
    ensures GlobalOk(OldServer(), OldState())
  {
    assert Lower("x") == "x";
    assert ["x"][..0] == [];
    assert Detect(OldServer().cfg, "old") == [] + ["x"];
  }

  lemma LearnsX()
    ensures "x" in LearnInSession(map[], NewTopic().world.resolved.value)
  {
    var a := TermAnswer("x", "labels", "labels = x");
    assert Lower("x") == "x";
    assert LearnInSession(map[], [a]) == LearnInSession(map[], [])["x" := FromAnswer(a)] by {
      assert [a][..0] == [];
    }
  }

  /** Once x is learned, no term of the old query is open. */
  lemma NothingOpen()
    ensures var a := NewTopic().world.resolved.value;
      TermsOf(OldServer().cfg, "old", (LearnInSession(map[], a), LearnForTeam(EmptyDict(), a)), false) == []
  {
    hide LearnInSession, LearnForTeam, Known, Lower;
    var a := NewTopic().world.resolved.value;
    var held := (LearnInSession(map[], a), LearnForTeam(EmptyDict(), a));
    LearnsX();
    var pick := TermPick(OldServer().cfg.matches, "old", held, false);
    forall t | t in ["x"]
      ensures pick(t) == None
    {
      assert Settled(held.0, held.1, t);
    }
    PickedNothing(["x"], pick);
  }

  /** The reply to the old question makes the backend's answer to "old" the answer for the query "new". */
  lemma {:induction false} OldQueryAnswered()
    ensures var r := StepOf(OldServer(), OldState(), NewTopic());
      && GlobalOk(OldServer(), OldState())
      && r.sent.Some? && r.sent.value.query == "old"
      && IsFinal(r.outcome) && r.outcome.response.answer == Some("about old")
  {
    hide HandleQuery, TermsOf, LearnInSession, LearnForTeam, GlobalOk;
    var e := NewTopic();
    OldStateOk();
    NothingOpen();
    assert Read(OldState(), e) == Some(WaitingForX());
    CallCarriesVerdict(OldServer().cfg, Some(WaitingForX()), EmptyDict(), e.call, e.world);
    assert VerdictOf(OldServer().cfg, Some(WaitingForX()), EmptyDict(), e.call, e.world) == Sends([]);
  }
}
