/** generate_briefing over mutable stores: each call is proved to be one turn of BriefingRuns. */
module BriefingOrchestrators {
  import opened Collections
  import opened TtlStores
  import opened Clarification
  import opened ClarificationRuns
  import opened Orchestrators
  import opened Briefings
  import opened BriefingRuns

  class BriefingOrchestrator {
    const handler: Orchestrator
    const sessions: TtlStore<Pending>

    constructor (handler: Orchestrator, sessions: TtlStore<Pending>)
      ensures this.handler == handler && this.sessions == sessions
    {
      this.handler := handler;
      this.sessions := sessions;
    }

    /** The two stores and the conventions are different objects. */
    ghost predicate Separate() {
      && {handler.conventions as object} !! handler.store.Repr()
      && sessions as object !in handler.store.Repr() && sessions as object != handler.conventions
    }

    ghost predicate Valid()
      reads handler.conventions, handler.store.Repr(), sessions
    {
      && handler.Valid() && BriefsOk(sessions.entries) && Separate()
    }

    ghost function Server(): BriefingServer {
      BriefingServer(handler.Server(), sessions.ttl)
    }

    ghost function State(): BriefingState
      reads handler.conventions, handler.store.Repr(), handler.Held(), sessions
    {
      BriefingState(handler.State(), sessions.entries)
    }

    /** The topic loop: from the resume topic on, until one needs the user or all are done. */
    method QueryTopics(pending: Pending, turn: Turn) returns (end: LoopEnd)
      requires Valid() && pending.idx <= |pending.topics|
      modifies handler.conventions, handler.store.Repr(), handler.Held()
      ensures handler.Valid()
      ensures (end, handler.State()) ==
        TopicLoop(handler.Server(), old(handler.State()), turn.sessionId, pending.topics, pending.idx, pending.idx,
                  turn.answer, pending.completed, [], turn.worlds)
      ensures fresh(handler.Held() - old(handler.Held()))
    {
      hide StepOf, Next;
      var completed, errors := pending.completed, [];
      var i := pending.idx;
      while i < |pending.topics|
        invariant pending.idx <= i <= |pending.topics|
        invariant Valid()
        invariant fresh(handler.Held() - old(handler.Held()))
        invariant TopicLoop(handler.Server(), old(handler.State()), turn.sessionId, pending.topics, pending.idx,
                            pending.idx, turn.answer, pending.completed, [], turn.worlds) ==
                  TopicLoop(handler.Server(), handler.State(), turn.sessionId, pending.topics, i, pending.idx,
                            turn.answer, completed, errors, turn.worlds)
      {
        var topic := pending.topics[i];
        var answer := if i == pending.idx then turn.answer else None;
        var outcome, _ := handler.HandleQuery(
          Call(topic.query, TopicSession(turn.sessionId, topic.topicId), answer), turn.worlds(i));
        match outcome
        case Raised(exception) =>
          return Failed(exception);
        case Returned(response) =>
          if response.requiresUserInput {
            return Paused(i, completed, response.question);
          }
          completed := completed[topic.topicId := response];
          errors := errors + Tagged(topic.topicId, response.errors);
        i := i + 1;
      }
      end := Finished(completed, errors);
    }

    /** Save, drop or keep the briefing at the end of the loop. */
    method Conclude(pending: Pending, turn: Turn, end: LoopEnd) returns (outcome: BriefingOutcome)
      requires end.Paused? ==> end.idx < |pending.topics|
      modifies sessions
      ensures (outcome, sessions.entries) == Concluded(old(sessions.entries), pending, turn, end, sessions.ttl)
    {
      match end
      case Failed(exception) =>
        outcome := BriefingRaised(exception);
      case Paused(i, completed, question) =>
        sessions.Set(turn.sessionId, pending.(idx := i, completed := completed), turn.writeAt);
        outcome := NeedsInput(question, pending.topics[i].topicId);
      case Finished(completed, errors) =>
        sessions.Delete(turn.sessionId);
        outcome := Ready(pending.agenda, pending.topics, completed, errors);
    }

    /** A turn from a pending state: query the topics, then conclude. */
    method RunFrom(pending: Pending, turn: Turn) returns (outcome: BriefingOutcome)
      requires Valid() && pending.idx <= |pending.topics|
      modifies handler.conventions, handler.store.Repr(), handler.Held(), sessions
      ensures handler.Valid()
      ensures (outcome, State()) ==
        RunPending(Server(), old(handler.State()), old(sessions.entries), pending, turn)
    {
      hide TopicLoop, BriefsOk, Concluded;
      var end := QueryTopics(pending, turn);
      TopicLoopStops(handler.Server(), old(handler.State()), turn.sessionId, pending.topics, pending.idx, turn.answer,
                     pending.completed, turn.worlds);
      outcome := Conclude(pending, turn, end);
    }

    /** One generate_briefing call, up to the point where all topics are answered. */
    method GenerateBriefing(turn: Turn) returns (outcome: BriefingOutcome)
      requires Valid()
      modifies handler.conventions, handler.store.Repr(), handler.Held(), sessions
      ensures Valid()
      ensures (outcome, State()) == RunTurn(Server(), old(State()), turn)
    {
      hide RunPending;
      TurnKeepsPending(Server(), State(), turn);
      var saved := sessions.Get(turn.sessionId, turn.readAt);
      var pending;
      if saved.None? {
        match turn.topics
        case Err(message) =>
          return DecompositionFailed(message);
        case Ok(topics) =>
          if topics == [] {
            return NoTopics;
          }
          pending := Pending(turn.sessionId, turn.agenda, topics, 0, map[]);
      } else {
        pending := saved.value;
      }
      outcome := RunFrom(pending, turn);
    }
  }
}
