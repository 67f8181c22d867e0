/**
 Progress of a briefing on top of the clarification protocol: with a client that answers every
 question and a backend that gives every dispatch a non-empty result, a briefing is ready after
 at most 1 + topics * rounds turns, whatever the language model returns; with a backend that
 finds nothing it is never ready.
 */
module BriefingProgress {
  import opened Collections
  import opened TtlStores
  import opened Sessions
  import opened Conventions
  import opened Clarification
  import opened ClarificationFacts
  import opened ClarificationRuns
  import opened Briefings
  import opened BriefingRuns

  /** The backend's reply leads to no re-ask: a non-empty result or a transport failure. */
  predicate Quiet(b: Backend) {
    match b
    case Replied(result) => result.total != 0
    case BackendError(message) => IsTransport(message)
    case InvalidRequest(_) => false
  }

  /** No elicitation, no failure of the resolver for round-trip answers, a quiet backend. */
  predicate Benign(w: World) {
    !Truthy(w.elicited) && w.resolved.Ok? && Quiet(w.backend)
  }

  // ----- One query

  lemma QuietAnswer(id: string, active: Active, errors: seq<Warning>, backend: Backend)
    requires active.Valid() && Quiet(backend)
    ensures !backend.InvalidRequest? && !Answer(id, active, errors, backend).requiresUserInput
  {
    hide IsTransport, Applied;
  }

  /** The call returns: a question within the budget, stored AWAITING, or a final answer. */
  ghost predicate AsksOrFinal(cfg: Config, r: Step) {
    && r.outcome.Returned? && r.stored
    && (r.outcome.response.requiresUserInput ==> r.session.state == Awaiting && 1 <= r.session.rounds <= cfg.maxRounds)
  }

  lemma AskBenign(cfg: Config, s: SessionData, live: bool, book: Book, query: string,
                  learned: seq<set<string>>, world: World)
    requires Benign(world)
    ensures var r := AskOrDispatch(cfg, s, live, book, query, learned, world);
      AsksOrFinal(cfg, r) && (r.outcome.response.requiresUserInput ==> r.session.rounds == s.rounds + 1)
  {
    hide Split, Detect, Hints, Answer, Quiet;
    SplitProperties(s.resolutions, book, Detect(cfg, query));
    var (active, unresolved) := Split(s.resolutions, book, Detect(cfg, query));
    assert Quiet(world.backend);
    QuietAnswer(s.id, active, [], world.backend);
    QuietAnswer(s.id, active, [RoundsExhausted(unresolved)], world.backend);
    if world.question.Err? {
      QuietAnswer(s.id, active, [ClarifierDown(world.question.message)], world.backend);
    }
  }

  predicate WaitingIn(stored: Option<SessionData>) {
    stored.Some? && stored.value.state == Awaiting
  }

  /** Whatever the session waits for, a benign call asks within the budget or is final; an answer uses a round. */
  lemma QueryBenign(cfg: Config, stored: Option<SessionData>, book: Book, call: Call, world: World)
    requires ReadOk(cfg, stored, call.sessionId) && Benign(world)
    ensures var r := HandleQuery(cfg, stored, book, call, world);
      && AsksOrFinal(cfg, r)
      && (r.outcome.response.requiresUserInput && Truthy(call.answer) && WaitingIn(stored) ==>
            r.session.rounds == stored.value.rounds + 1)
  {
    hide AskOrDispatch, LearnForTeam, LearnInSession, ResolvedAmong, Quiet, Detect;
    var s := if stored.Some? then stored.value else Fresh(call.sessionId);
    if s.state != Awaiting {
      AskBenign(cfg, s, stored.Some?, book, call.query, [], world);
    } else if Truthy(call.answer) {
      var answers := world.resolved.value;
      AskBenign(cfg, Answered(s, answers), true, LearnForTeam(book, answers), PendingQuery(s, call),
                [ResolvedAmong(s.pendingTerms, answers)], world);
    } else if !Repeats(s, call) {
      AskBenign(cfg, Fresh(call.sessionId), false, book, call.query, [], world);
    }
  }

  /** One topic query in the global state. */
  lemma EventBenign(sv: Server, g: Global, e: Event)
    requires GlobalOk(sv, g) && Benign(e.world)
    ensures GlobalOk(sv, Next(sv, g, e))
    ensures var r, sid := StepOf(sv, g, e), e.call.sessionId;
      && AsksOrFinal(sv.cfg, r)
      && sid in Next(sv, g, e).entries && Next(sv, g, e).entries[sid] == (e.world.writeAt + sv.ttl, r.session)
      && (r.outcome.response.requiresUserInput && Truthy(e.call.answer) && WaitsUntil(g, sid, e.world.readAt) ==>
            r.session.rounds == g.entries[sid].1.rounds + 1)
  {
    hide HandleQuery, SessionOk, StoredOk, Filed;
    StepKeepsGlobal(sv, g, e);
    QueryBenign(sv.cfg, Read(g, e), g.conventions, e.call, e.world);
  }

  // ----- One turn

  /** The session waits for an answer, to whatever query. */
  predicate Waits(g: Global, ts: string) {
    ts in g.entries && g.entries[ts].1.state == Awaiting
  }

  predicate WaitsUntil(g: Global, ts: string, now: real) {
    Waits(g, ts) && now < g.entries[ts].0
  }

  /** The briefing paused at topic i, whose session waits within its budget until expiry. */
  ghost predicate WaitsAt(sv: Server, g: Global, sid: string, topics: seq<Topic>, i: nat, rounds: nat, expiry: real) {
    && i < |topics|
    && var ts := TopicSession(sid, topics[i].topicId);
      Waits(g, ts) && g.entries[ts].0 == expiry && g.entries[ts].1.rounds == rounds && 1 <= rounds <= sv.cfg.maxRounds
  }

  /**
   From any state, whatever questions are still pending from earlier briefings, the loop finishes
   or pauses at a topic whose session waits within its budget.
   */
  lemma {:induction false} LoopBenign(sv: Server, g: Global, sid: string, topics: seq<Topic>, i: nat, start: nat,
                                      answer: Option<string>, completed: Completed, errors: seq<TopicError>,
                                      worlds: nat -> World)
    returns (rounds: nat)
    requires GlobalOk(sv, g) && i <= |topics|
    requires forall k :: Benign(worlds(k))
    ensures var (end, g') := TopicLoop(sv, g, sid, topics, i, start, answer, completed, errors, worlds);
      && GlobalOk(sv, g') && !end.Failed?
      && (end.Paused? ==>
            i <= end.idx && WaitsAt(sv, g', sid, topics, end.idx, rounds, worlds(end.idx).writeAt + sv.ttl))
    decreases |topics| - i
  {
    hide StepOf, Next, GlobalOk, Benign, TopicSession;
    rounds := 0;
    if i < |topics| {
      var e := TopicEvent(sid, topics, i, start, answer, worlds);
      EventBenign(sv, g, e);
      var r, g' := StepOf(sv, g, e), Next(sv, g, e);
      if r.outcome.response.requiresUserInput {
        rounds := r.session.rounds;
      } else {
        rounds := LoopBenign(sv, g', sid, topics, i + 1, start, answer,
                             completed[topics[i].topicId := r.outcome.response],
                             errors + Tagged(topics[i].topicId, r.outcome.response.errors), worlds);
      }
    }
  }

  /** Answering the topic at which the briefing paused moves on, or uses one more of its rounds. */
  lemma {:induction false} LoopFromWaiting(sv: Server, g: Global, sid: string, topics: seq<Topic>, i: nat, rounds: nat,
                                           expiry: real, answer: Option<string>, completed: Completed,
                                           worlds: nat -> World)
    returns (rounds': nat)
    requires GlobalOk(sv, g) && WaitsAt(sv, g, sid, topics, i, rounds, expiry)
    requires Truthy(answer) && worlds(i).readAt < expiry
    requires forall k :: Benign(worlds(k))
    ensures var (end, g') := TopicLoop(sv, g, sid, topics, i, i, answer, completed, [], worlds);
      && GlobalOk(sv, g') && !end.Failed?
      && (end.Paused? ==>
            && i <= end.idx && (end.idx == i ==> rounds' == rounds + 1)
            && WaitsAt(sv, g', sid, topics, end.idx, rounds', worlds(end.idx).writeAt + sv.ttl))
  {
    hide StepOf, Next, GlobalOk, Benign, TopicSession;
    var e := TopicEvent(sid, topics, i, i, answer, worlds);
    EventBenign(sv, g, e);
    var r, g' := StepOf(sv, g, e), Next(sv, g, e);
    if r.outcome.response.requiresUserInput {
      rounds' := r.session.rounds;
    } else {
      rounds' := LoopBenign(sv, g', sid, topics, i + 1, i, answer, completed[topics[i].topicId := r.outcome.response],
                            [] + Tagged(topics[i].topicId, r.outcome.response.errors), worlds);
    }
  }

  /** All clock readings of the turn lie between opens and closes. */
  ghost predicate InWindow(turn: Turn, opens: real, closes: real) {
    && opens <= turn.readAt <= closes && opens <= turn.writeAt <= closes
    && (forall k :: opens <= turn.worlds(k).readAt <= closes && opens <= turn.worlds(k).writeAt <= closes)
  }

  /** The saved briefing waits at topic i; it and the topic's question were saved no earlier than since. */
  ghost predicate BriefWaits(bs: BriefingServer, st: BriefingState, sid: string, topics: seq<Topic>, i: nat,
                             rounds: nat, since: real)
  {
    && BriefsOk(st.briefs) && GlobalOk(bs.sv, st.queries)
    && sid in st.briefs && st.briefs[sid].1.topics == topics && st.briefs[sid].1.idx == i
    && st.briefs[sid].0 >= since + bs.ttl
    && (exists expiry :: expiry >= since + bs.sv.ttl && WaitsAt(bs.sv, st.queries, sid, topics, i, rounds, expiry))
  }

  /** The user's turn: an answer, a benign world, and prompt enough for everything to be alive. */
  ghost predicate Cooperative(bs: BriefingServer, turn: Turn, since: real, opens: real, closes: real) {
    && Truthy(turn.answer) && (forall k :: Benign(turn.worlds(k)))
    && InWindow(turn, opens, closes)
    && closes < since + bs.ttl && closes < since + bs.sv.ttl
  }

  /** An upper bound on the questions still to come. */
  function Left(maxRounds: int, topics: nat, i: nat, rounds: nat): int {
    (topics - i) * maxRounds - rounds
  }

  lemma {:induction false} MulStep(a: nat, b: nat, m: nat)
    requires a < b
    ensures a * m + m <= b * m
    decreases b
  {
    assert (b - 1) * m + m == b * m;
    if a < b - 1 {
      MulStep(a, b - 1, m);
    }
  }

  /** Asking the same topic again, or pausing at a later one, leaves fewer questions. */
  lemma LeftFalls(maxRounds: int, topics: nat, i: nat, rounds: nat, j: nat, rounds': nat)
    requires 1 <= rounds <= maxRounds && 1 <= rounds' <= maxRounds && i <= j < topics
    requires i == j ==> rounds' == rounds + 1
    ensures 0 <= Left(maxRounds, topics, j, rounds') < Left(maxRounds, topics, i, rounds)
  {
    MulStep(0, topics - j, maxRounds);
    if i < j {
      MulStep(topics - j, topics - i, maxRounds);
    }
  }

  /** Each cooperative turn makes the briefing ready or lowers the number of questions left. */
  lemma {:induction false} TurnFromWaiting(bs: BriefingServer, st: BriefingState, turn: Turn, topics: seq<Topic>,
                                           i: nat, rounds: nat, since: real, opens: real, closes: real)
    returns (j: nat, rounds': nat)
    requires BriefWaits(bs, st, turn.sessionId, topics, i, rounds, since)
    requires Cooperative(bs, turn, since, opens, closes)
    ensures var (outcome, st') := RunTurn(bs, st, turn);
      && (outcome.Ready? || outcome.NeedsInput?)
      && (outcome.NeedsInput? ==>
            && BriefWaits(bs, st', turn.sessionId, topics, j, rounds', opens)
            && Left(bs.sv.cfg.maxRounds, |topics|, j, rounds') < Left(bs.sv.cfg.maxRounds, |topics|, i, rounds))
  {
    hide TopicLoop, GlobalOk, Benign, Waits, Left;
    var sid := turn.sessionId;
    var expiry :| expiry >= since + bs.sv.ttl && WaitsAt(bs.sv, st.queries, sid, topics, i, rounds, expiry);
    var p := st.briefs[sid].1;
    assert turn.worlds(i).readAt <= closes;
    assert Opening(st.briefs, turn) == Some(p);
    rounds' := LoopFromWaiting(bs.sv, st.queries, sid, topics, i, rounds, expiry, turn.answer, p.completed,
                               turn.worlds);
    TurnKeepsPending(bs, st, turn);
    var (end, g') := TopicLoop(bs.sv, st.queries, sid, topics, i, i, turn.answer, p.completed, [], turn.worlds);
    j := 0;
    if end.Paused? {
      TopicLoopStops(bs.sv, st.queries, sid, topics, i, turn.answer, p.completed, turn.worlds);
      j := end.idx;
      assert opens <= turn.worlds(j).writeAt;
      assert WaitsAt(bs.sv, g', sid, topics, j, rounds', turn.worlds(j).writeAt + bs.sv.ttl);
      LeftFalls(bs.sv.cfg.maxRounds, |topics|, i, rounds, j, rounds');
    }
  }

  // ----- The whole briefing

  /** A turn of the briefing, and the query calls made on any sessions since its previous turn. */
  datatype Visit = Visit(others: seq<Event>, turn: Turn)

  function Before(bs: BriefingServer, st: BriefingState, calls: seq<Event>): BriefingState {
    st.(queries := AfterCalls(bs.sv, st.queries, calls))
  }

  /** The other calls, then the turn. */
  function Visited(bs: BriefingServer, st: BriefingState, visit: Visit): (r: (BriefingOutcome, BriefingState))
    requires BriefsOk(st.briefs)
    ensures BriefsOk(r.1.briefs)
  {
    TurnKeepsPending(bs, Before(bs, st, visit.others), visit.turn);
    RunTurn(bs, Before(bs, st, visit.others), visit.turn)
  }

  /** Some turn makes the briefing ready, and every turn before it only asked the user. */
  predicate ReadyWithin(bs: BriefingServer, st: BriefingState, visits: seq<Visit>)
    requires BriefsOk(st.briefs)
    decreases |visits|
  {
    if visits == [] then false
    else
      var (outcome, st') := Visited(bs, st, visits[0]);
      outcome.Ready? || (outcome.NeedsInput? && ReadyWithin(bs, st', visits[1..]))
  }

  /** A client that answers each question in time; windows[k] contains the clock readings of its k-th turn. */
  ghost predicate Attentive(bs: BriefingServer, visits: seq<Visit>, windows: seq<(real, real)>, sid: string) {
    && |windows| == |visits|
    && (forall k :: 0 <= k < |visits| ==>
          visits[k].turn.sessionId == sid && InWindow(visits[k].turn, windows[k].0, windows[k].1))
    && (forall k, n :: 0 <= k < |visits| ==> Benign(visits[k].turn.worlds(n)))
    && (forall k :: 1 <= k < |visits| ==> Truthy(visits[k].turn.answer))
    && (forall k :: 1 <= k < |visits| ==>
          windows[k].1 < windows[k - 1].0 + bs.ttl && windows[k].1 < windows[k - 1].0 + bs.sv.ttl)
  }

  /** The other calls are on other sessions than those of the briefing's topics. */
  ghost predicate Apart(calls: seq<Event>, sid: string, topics: seq<Topic>) {
    forall e, i :: e in calls && 0 <= i < |topics| ==> e.call.sessionId != TopicSession(sid, topics[i].topicId)
  }

  ghost predicate AllApart(visits: seq<Visit>, sid: string, topics: seq<Topic>) {
    forall k :: 0 <= k < |visits| ==> Apart(visits[k].others, sid, topics)
  }

  lemma {:induction false} CallsKeepOthers(sv: Server, g: Global, calls: seq<Event>, ts: string)
    requires forall e :: e in calls ==> e.call.sessionId != ts
    ensures var g' := AfterCalls(sv, g, calls);
      (ts in g'.entries <==> ts in g.entries) && (ts in g.entries ==> g'.entries[ts] == g.entries[ts])
  {
    hide Next;
    if calls != [] {
      CallsKeepOthers(sv, g, calls[..|calls| - 1], ts);
      OthersKept(sv, AfterCalls(sv, g, calls[..|calls| - 1]), calls[|calls| - 1], ts);
    }
  }

  /** Whatever calls other sessions make, and however they fail, the briefing keeps waiting at its topic. */
  lemma CallsKeepWaiting(bs: BriefingServer, st: BriefingState, calls: seq<Event>, sid: string, topics: seq<Topic>,
                         i: nat, rounds: nat, since: real)
    requires BriefWaits(bs, st, sid, topics, i, rounds, since) && Apart(calls, sid, topics)
    ensures BriefWaits(bs, Before(bs, st, calls), sid, topics, i, rounds, since)
  {
    hide GlobalOk, BriefsOk, AfterCalls, TopicSession;
    CallsKeepGlobal(bs.sv, st.queries, calls);
    var expiry :| expiry >= since + bs.sv.ttl && WaitsAt(bs.sv, st.queries, sid, topics, i, rounds, expiry);
    CallsKeepOthers(bs.sv, st.queries, calls, TopicSession(sid, topics[i].topicId));
    assert WaitsAt(bs.sv, Before(bs, st, calls).queries, sid, topics, i, rounds, expiry);
  }

  lemma {:induction false} ReadyFromWaiting(bs: BriefingServer, st: BriefingState, visits: seq<Visit>,
                                            windows: seq<(real, real)>, sid: string, topics: seq<Topic>,
                                            i: nat, rounds: nat, since: real)
    requires BriefWaits(bs, st, sid, topics, i, rounds, since)
    requires Attentive(bs, visits, windows, sid) && AllApart(visits, sid, topics)
    requires visits != [] ==> Cooperative(bs, visits[0].turn, since, windows[0].0, windows[0].1)
    requires |visits| > Left(bs.sv.cfg.maxRounds, |topics|, i, rounds) >= 0
    ensures BriefsOk(st.briefs) && ReadyWithin(bs, st, visits)
    decreases |visits|
  {
    hide RunTurn, BriefWaits, InWindow, Benign, Left, Apart, BriefsOk, AfterCalls;
    BriefWaitsOk(bs, st, sid, topics, i, rounds, since);
    var visit := visits[0];
    var st0 := Before(bs, st, visit.others);
    CallsKeepWaiting(bs, st, visit.others, sid, topics, i, rounds, since);
    var j, rounds' := TurnFromWaiting(bs, st0, visit.turn, topics, i, rounds, since, windows[0].0, windows[0].1);
    var (outcome, st') := Visited(bs, st, visit);
    if outcome.NeedsInput? {
      BriefWaitsOk(bs, st', sid, topics, j, rounds', windows[0].0);
      ReadyFromWaiting(bs, st', visits[1..], windows[1..], sid, topics, j, rounds', windows[0].0);
    }
  }

  lemma BriefWaitsOk(bs: BriefingServer, st: BriefingState, sid: string, topics: seq<Topic>, i: nat, rounds: nat,
                     since: real)
    requires BriefWaits(bs, st, sid, topics, i, rounds, since)
    ensures BriefsOk(st.briefs)
    ensures Left(bs.sv.cfg.maxRounds, |topics|, i, rounds) >= 0
  {
    hide Waits, GlobalOk;
    MulStep(0, |topics| - i, bs.sv.cfg.maxRounds);
  }

  /** The first turn ends the briefing, or leaves it waiting with fewer than topics * max_rounds questions left. */
  lemma FirstTurn(bs: BriefingServer, st: BriefingState, turn: Turn, topics: seq<Topic>, opens: real, closes: real)
    returns (j: nat, rounds: nat)
    requires BriefsOk(st.briefs) && GlobalOk(bs.sv, st.queries) && topics != []
    requires turn.topics == Ok(topics) && LiveAt(st.briefs, turn.sessionId, turn.readAt) == None
    requires InWindow(turn, opens, closes) && (forall n :: Benign(turn.worlds(n)))
    ensures var (outcome, st') := RunTurn(bs, st, turn);
      && (outcome.Ready? || outcome.NeedsInput?)
      && (outcome.NeedsInput? ==>
            && BriefWaits(bs, st', turn.sessionId, topics, j, rounds, opens)
            && 0 <= Left(bs.sv.cfg.maxRounds, |topics|, j, rounds) < |topics| * bs.sv.cfg.maxRounds)
  {
    hide TopicLoop, GlobalOk, Benign, Waits, Left;
    var sid := turn.sessionId;
    assert Opening(st.briefs, turn) == Some(Pending(sid, turn.agenda, topics, 0, map[]));
    rounds := LoopBenign(bs.sv, st.queries, sid, topics, 0, 0, turn.answer, map[], [], turn.worlds);
    TopicLoopStops(bs.sv, st.queries, sid, topics, 0, turn.answer, map[], turn.worlds);
    TurnKeepsPending(bs, st, turn);
    var (end, g') := TopicLoop(bs.sv, st.queries, sid, topics, 0, 0, turn.answer, map[], [], turn.worlds);
    j := 0;
    if end.Paused? {
      j := end.idx;
      var written := turn.worlds(j).writeAt;
      assert opens <= written;
      assert WaitsAt(bs.sv, g', sid, topics, j, rounds, written + bs.sv.ttl);
      assert written + bs.sv.ttl >= opens + bs.sv.ttl;
      FirstLeft(bs.sv.cfg.maxRounds, |topics|, j, rounds);
    }
  }

  /**
   Composed progress: from any state of the protocol, with whatever questions pending or expired
   from earlier briefings, a new briefing is ready within 1 + |topics| * max_rounds turns of an
   attentive client, whatever calls other sessions make between the turns. Nothing is assumed
   about those calls, about the questions or resolutions the language model produces, nor about
   the topic ids.
   */
  lemma {:induction false} ComposedProgress(bs: BriefingServer, st: BriefingState, visits: seq<Visit>,
                                            windows: seq<(real, real)>, sid: string, topics: seq<Topic>)
    requires BriefsOk(st.briefs) && GlobalOk(bs.sv, st.queries) && topics != []
    requires Attentive(bs, visits, windows, sid) && AllApart(visits, sid, topics)
    requires |visits| >= 1 + |topics| * (if bs.sv.cfg.maxRounds > 0 then bs.sv.cfg.maxRounds else 0)
    requires visits != [] ==>
      visits[0].turn.topics == Ok(topics) && LiveAt(st.briefs, sid, visits[0].turn.readAt) == None
    ensures ReadyWithin(bs, st, visits)
  {
    hide RunTurn, GlobalOk, Benign, BriefWaits, InWindow, Left, Apart, BriefsOk, AfterCalls, LiveAt;
    var visit := visits[0];
    var st0 := Before(bs, st, visit.others);
    CallsKeepGlobal(bs.sv, st.queries, visit.others);
    var j, rounds := FirstTurn(bs, st0, visit.turn, topics, windows[0].0, windows[0].1);
    var (outcome, st') := Visited(bs, st, visit);
    if outcome.NeedsInput? {
      assert Attentive(bs, visits[1..], windows[1..], sid);
      ReadyFromWaiting(bs, st', visits[1..], windows[1..], sid, topics, j, rounds, windows[0].0);
    }
  }

  lemma FirstLeft(maxRounds: int, topics: nat, i: nat, rounds: nat)
    requires 1 <= rounds <= maxRounds && i < topics
    ensures 0 <= Left(maxRounds, topics, i, rounds) < topics * maxRounds
  {
    MulStep(0, topics - i, maxRounds);
    if i > 0 {
      MulStep(topics - i, topics, maxRounds);
    }
  }

  // ----- Why the backend matters

  /** The backend answers, and finds nothing. */
  predicate Empty(b: Backend) {
    b.Replied? && b.result.total == 0
  }

  lemma EmptyAnswerAsks(id: string, active: Active, errors: seq<Warning>, backend: Backend)
    requires active.Valid() && Empty(backend)
    ensures Answer(id, active, errors, backend).requiresUserInput
  {
    hide Applied;
  }

  lemma AskOnEmpty(cfg: Config, s: SessionData, live: bool, book: Book, query: string,
                   learned: seq<set<string>>, world: World)
    requires Empty(world.backend)
    ensures var r := AskOrDispatch(cfg, s, live, book, query, learned, world);
      r.outcome.Returned? ==> r.outcome.response.requiresUserInput
  {
    hide Split, Detect, Hints, Answer, LearnInSession, LearnForTeam, AddResolved, Empty;
    SplitProperties(s.resolutions, book, Detect(cfg, query));
    var (active, unresolved) := Split(s.resolutions, book, Detect(cfg, query));
    EmptyAnswerAsks(s.id, active, [], world.backend);
    EmptyAnswerAsks(s.id, active, [RoundsExhausted(unresolved)], world.backend);
    if world.question.Err? {
      EmptyAnswerAsks(s.id, active, [ClarifierDown(world.question.message)], world.backend);
    }
    if world.elicitResolved.Ok? {
      var rs := LearnInSession(s.resolutions, world.elicitResolved.value);
      AddResolvedValid(active, unresolved, rs);
      EmptyAnswerAsks(s.id, AddResolved(active, unresolved, rs), [], world.backend);
    }
  }

  lemma QueryOnEmpty(cfg: Config, stored: Option<SessionData>, book: Book, call: Call, world: World)
    requires Empty(world.backend)
    ensures var r := HandleQuery(cfg, stored, book, call, world);
      r.outcome.Returned? ==> r.outcome.response.requiresUserInput
  {
    hide AskOrDispatch, LearnForTeam, LearnInSession, ResolvedAmong, Empty;
    var s := if stored.Some? then stored.value else Fresh(call.sessionId);
    AskOnEmpty(cfg, s, stored.Some?, book, call.query, [], world);
    AskOnEmpty(cfg, Fresh(call.sessionId), false, book, call.query, [], world);
    if world.resolved.Ok? {
      var answers := world.resolved.value;
      AskOnEmpty(cfg, Answered(s, answers), true, LearnForTeam(book, answers), PendingQuery(s, call),
                 [ResolvedAmong(s.pendingTerms, answers)], world);
    }
  }

  /** A topic whose query finds nothing stops the loop at it or before. */
  lemma {:induction false} LoopStuck(sv: Server, g: Global, sid: string, topics: seq<Topic>, k: nat, start: nat,
                                     answer: Option<string>, completed: Completed, errors: seq<TopicError>,
                                     worlds: nat -> World, i: nat)
    requires k <= i < |topics| && Empty(worlds(i).backend)
    ensures var end := TopicLoop(sv, g, sid, topics, k, start, answer, completed, errors, worlds).0;
      !end.Finished? && (end.Paused? ==> end.idx <= i)
    decreases i - k
  {
    hide HandleQuery, Next, Empty;
    var e := TopicEvent(sid, topics, k, start, answer, worlds);
    if k == i {
      QueryOnEmpty(sv.cfg, Read(g, e), g.conventions, e.call, e.world);
    } else if StepOf(sv, g, e).outcome.Returned? {
      var response := StepOf(sv, g, e).outcome.response;
      if !response.requiresUserInput {
        LoopStuck(sv, Next(sv, g, e), sid, topics, k + 1, start, answer, completed[topics[k].topicId := response],
                  errors + Tagged(topics[k].topicId, response.errors), worlds, i);
      }
    }
  }

  /** Every briefing of these sessions, saved or newly decomposed, still has its stuck topic ahead. */
  ghost predicate StuckAhead(briefs: Entries<Pending>, visits: seq<Visit>, stuck: string -> nat) {
    && (forall sid :: sid in briefs ==> briefs[sid].1.idx <= stuck(sid) < |briefs[sid].1.topics|)
    && (forall v :: v in visits && v.turn.topics.Ok? && v.turn.topics.value != [] ==>
          stuck(v.turn.sessionId) < |v.turn.topics.value|)
  }

  /** No turn makes the briefing ready, whether the turns before it asked, raised or failed otherwise. */
  predicate NeverReady(bs: BriefingServer, st: BriefingState, visits: seq<Visit>)
    requires BriefsOk(st.briefs)
    decreases |visits|
  {
    visits == [] ||
    var (outcome, st') := Visited(bs, st, visits[0]);
    !outcome.Ready? && NeverReady(bs, st', visits[1..])
  }

  /**
   One topic for which the backend keeps finding nothing blocks a briefing for ever, however the
   client answers, whichever turns raise and are tried again, and whatever the other topics find
   and other calls do: each re-ask leaves the topic dispatched, so its answer is not consumed and
   the same topic is dispatched again.
   */
  lemma {:induction false} StuckTopicNeverReady(bs: BriefingServer, st: BriefingState, visits: seq<Visit>,
                                                stuck: string -> nat)
    requires BriefsOk(st.briefs) && StuckAhead(st.briefs, visits, stuck)
    requires forall v :: v in visits ==> Empty(v.turn.worlds(stuck(v.turn.sessionId)).backend)
    ensures NeverReady(bs, st, visits)
    decreases |visits|
  {
    hide TopicLoop, Empty, AfterCalls;
    if visits != [] {
      var turn := visits[0].turn;
      var st0 := Before(bs, st, visits[0].others);
      if Opening(st.briefs, turn).Some? {
        var p := Opening(st.briefs, turn).value;
        assert visits[0] in visits && Empty(turn.worlds(stuck(turn.sessionId)).backend);
        LoopStuck(bs.sv, st0.queries, turn.sessionId, p.topics, p.idx, p.idx, turn.answer, p.completed, [],
                  turn.worlds, stuck(turn.sessionId));
      }
      StuckTopicNeverReady(bs, Visited(bs, st, visits[0]).1, visits[1..], stuck);
    }
  }
}
