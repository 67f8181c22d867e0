/** What one query_jira call guarantees, whatever the language model, user and backend reply. */
module ClarificationFacts {
  import opened Collections
  import opened Text
  import opened Sessions
  import opened Conventions
  import opened Clarification

  // ----- Learning

  /** In the session, an answer settles exactly its own terms. */
  lemma {:induction false} LearnInSessionProperties(resolutions: Resolutions, answers: seq<TermAnswer>)
    ensures var rs := LearnInSession(resolutions, answers);
      && rs.Keys == resolutions.Keys + AnsweredTerms(answers)
      && (forall t :: t in AnsweredTerms(answers) ==> rs[t].term == t)
      && (forall t :: t in rs && t !in AnsweredTerms(answers) ==> rs[t] == resolutions[t])
  {
    if answers != [] {
      LearnInSessionProperties(resolutions, answers[..|answers| - 1]);
    }
  }

  lemma KnownAfterRecord(book: Book, a: TermAnswer, t: string)
    ensures Known(Record(book, AsConvention(a)), t) ==
      if Lower(t) == Lower(a.term) then Some(AsConvention(a)) else Known(book, t)
  {
    LowerIdempotent(a.term);
  }

  /** For the team, an answer settles exactly its own terms. */
  lemma {:induction false} LearnForTeamProperties(book: Book, answers: seq<TermAnswer>, t: string)
    requires Lower(t) == t
    ensures var b := LearnForTeam(book, answers);
      && (t in AnsweredTerms(answers) ==> Known(b, t).Some?)
      && (t !in AnsweredTerms(answers) ==> Known(b, t) == Known(book, t))
  {
    hide Known, Record;
    if answers != [] {
      LearnForTeamProperties(book, answers[..|answers| - 1], t);
      KnownAfterRecord(LearnForTeam(book, answers[..|answers| - 1]), answers[|answers| - 1], t);
    }
  }

  lemma {:induction false} LearnForTeamFiled(book: Book, answers: seq<TermAnswer>)
    requires Filed(book)
    ensures Filed(LearnForTeam(book, answers))
  {
    if answers != [] {
      LearnForTeamFiled(book, answers[..|answers| - 1]);
    }
  }

  /** The last of the answers about t. */
  function LastAnswer(answers: seq<TermAnswer>, t: string): Option<TermAnswer> {
    if answers == [] then None
    else if Lower(answers[|answers| - 1].term) == t then Some(answers[|answers| - 1])
    else LastAnswer(answers[..|answers| - 1], t)
  }

  /** Session and team learn the last answer about a term, as an instance-wide convention; else nothing changes. */
  lemma {:induction false} LearnTheSame(resolutions: Resolutions, book: Book, answers: seq<TermAnswer>, t: string)
    requires Lower(t) == t
    ensures LastAnswer(answers, t).Some? <==> t in AnsweredTerms(answers)
    ensures var rs, known := LearnInSession(resolutions, answers), Known(LearnForTeam(book, answers), t);
      match LastAnswer(answers, t)
      case Some(a) =>
        && t in rs && rs[t] == TermResolution(t, a.resolutionKey, a.jqlHint, FromClarification)
        && known == Some(Convention("_default", t, a.resolutionKey, a.jqlHint))
      case None =>
        && (t in rs <==> t in resolutions) && (t in rs ==> rs[t] == resolutions[t])
        && known == Known(book, t)
  {
    hide Known, Record;
    if answers != [] {
      var init, a := answers[..|answers| - 1], answers[|answers| - 1];
      LearnTheSame(resolutions, book, init, t);
      KnownAfterRecord(LearnForTeam(book, init), a, t);
    }
  }

  /** After an answer, what is settled is what was settled before and the answered terms. */
  lemma {:induction false} SettledAfterLearning(resolutions: Resolutions, book: Book, answers: seq<TermAnswer>,
                                                t: string)
    requires Lower(t) == t
    ensures Settled(LearnInSession(resolutions, answers), LearnForTeam(book, answers), t) <==>
            Settled(resolutions, book, t) || t in AnsweredTerms(answers)
  {
    hide Known;
    LearnInSessionProperties(resolutions, answers);
    LearnForTeamProperties(book, answers, t);
  }

  // ----- What one detection does

  lemma DetectProperties(cfg: Config, text: string)
    requires ValidConfig(cfg)
    ensures Distinct(Detect(cfg, text))
    ensures forall t :: t in Detect(cfg, text) ==> t in cfg.vocab && Lower(t) == t
  {
    FilterProperties(cfg.vocab, cfg.matches, text);
  }

  /** The call raised for another reason than an invalid request, which is the only one after the store. */
  predicate RaisedUnstored(r: Step) {
    r.outcome.Raised? && !r.outcome.exception.RequestError?
  }

  /** What was asked, learned, sent and stored when detection started with s, book and learned. */
  ghost predicate AskTraced(cfg: Config, s: SessionData, book: Book, query: string, learned: seq<set<string>>,
                            world: World, r: Step) {
    && (r.asked == [] || (s.rounds < cfg.maxRounds && r.asked == Split(s.resolutions, book, Detect(cfg, query)).1))
    && (|| (r.learned == learned && r.conventions == book)
        || (r.asked != [] && world.elicitResolved.Ok? &&
            r.learned == learned + [ResolvedAmong(r.asked, world.elicitResolved.value)] &&
            r.conventions == LearnForTeam(book, world.elicitResolved.value)))
    && (r.stored <==> !RaisedUnstored(r))
    && (r.sent.Some? ==> r.outcome.Returned? && r.stored && r.session.state == Dispatched)
    && (r.stored && r.session.state != Awaiting ==>
          r.session.state == Dispatched && r.session.rounds == 0 && (r.outcome.Returned? ==> r.sent.Some?))
    && (r.stored && r.session.state == Awaiting ==>
          r.outcome.Returned? && r.sent == None && r.learned == learned && r.conventions == book &&
          r.asked != [] && r.session.pendingTerms == r.asked && r.session.rounds == s.rounds + 1)
    && (!r.stored ==> r.asked != [] && r.session.rounds == s.rounds + 1 && r.session.state == s.state)
    && (!r.stored && s.state != Resolved ==> r.learned == learned)
  }

  lemma ElicitedTrace(cfg: Config, s: SessionData, live: bool, book: Book, query: string, active: Active,
                      unresolved: seq<string>, learned: seq<set<string>>, world: World)
    requires active.Valid() && unresolved != [] && s.rounds < cfg.maxRounds
    requires unresolved == Split(s.resolutions, book, Detect(cfg, query)).1
    ensures var r := ElicitedStep(s.(rounds := s.rounds + 1), live, book, query, active, unresolved, learned, world);
      r.live == live && AskTraced(cfg, s, book, query, learned, world, r)
  {
    hide Split, Detect, Hints, Answer, AddResolved, LearnInSession, LearnForTeam, ResolvedAmong;
    if world.elicitResolved.Ok? {
      AddResolvedValid(active, unresolved, LearnInSession(s.resolutions, world.elicitResolved.value));
    }
  }

  lemma AskTrace(cfg: Config, s: SessionData, live: bool, book: Book, query: string,
                 learned: seq<set<string>>, world: World)
    ensures var r := AskOrDispatch(cfg, s, live, book, query, learned, world);
      r.live == live && AskTraced(cfg, s, book, query, learned, world, r)
  {
    hide Split, Detect, Hints, Answer, ElicitedStep, LearnForTeam, ResolvedAmong;
    SplitProperties(s.resolutions, book, Detect(cfg, query));
    var (active, unresolved) := Split(s.resolutions, book, Detect(cfg, query));
    if unresolved != [] && s.rounds < cfg.maxRounds {
      ElicitedTrace(cfg, s, live, book, query, active, unresolved, learned, world);
    }
  }

  // ----- The session invariant

  ghost predicate AwaitingOk(cfg: Config, s: SessionData) {
    && s.state == Awaiting
    && s.pendingQuery.Some? && s.pendingQuestion.Some?
    && s.pendingTerms != [] && Distinct(s.pendingTerms)
    && (forall t :: t in s.pendingTerms ==> t in Detect(cfg, s.pendingQuery.value) && t !in s.resolutions)
    && 1 <= s.rounds <= cfg.maxRounds
  }

  predicate NothingPending(s: SessionData) {
    s.pendingQuery == None && s.pendingTerms == [] && s.pendingQuestion == None
  }

  /** What a call writes: a session that waits within its budget, or one that is dispatched and cleared. */
  ghost predicate StoredOk(cfg: Config, s: SessionData) {
    && (AwaitingOk(cfg, s) || (s.state == Dispatched && NothingPending(s) && s.rounds == 0))
    && (forall t :: t in s.resolutions ==> s.resolutions[t].term == t)
  }

  /**
   What is left in a live object, also by a call that raised: it waits as stored, or it is
   dispatched or resolved with part of its budget used; a resolved one may keep its old question.
   */
  ghost predicate SessionOk(cfg: Config, s: SessionData) {
    && s.state != Idle
    && (s.state == Awaiting ==> AwaitingOk(cfg, s))
    && (s.state == Dispatched ==> NothingPending(s))
    && (s.rounds == 0 || s.rounds <= cfg.maxRounds)
    && (forall t :: t in s.resolutions ==> s.resolutions[t].term == t)
  }

  /** A session content from which detection can proceed. */
  ghost predicate Proceeding(s: SessionData) {
    && s.state != Awaiting
    && (s.state == Dispatched ==> NothingPending(s))
    && (forall t :: t in s.resolutions ==> s.resolutions[t].term == t)
  }

  ghost predicate ReadOk(cfg: Config, stored: Option<SessionData>, sessionId: string) {
    stored.Some? ==> SessionOk(cfg, stored.value) && stored.value.id == sessionId
  }

  /** What a step from s keeps: the identity, the filing of conventions, and the session invariant. */
  ghost predicate Kept(cfg: Config, s: SessionData, book: Book, r: Step) {
    && (Filed(book) ==> Filed(r.conventions)) && r.session.id == s.id
    && (r.stored ==> StoredOk(cfg, r.session))
    && (s.state != Idle && !r.stored ==> SessionOk(cfg, r.session))
  }

  lemma DispatchKeepsInvariant(cfg: Config, s: SessionData, live: bool, book: Book, query: string, active: Active,
                               errors: seq<Warning>, asked: seq<string>, learned: seq<set<string>>, world: World)
    requires active.Valid() && Proceeding(s)
    ensures Kept(cfg, s, book, DispatchStep(s, live, book, query, active, errors, asked, learned, world))
  {
    hide Filed, Hints, Answer;
  }

  lemma ElicitedKeepsInvariant(cfg: Config, s: SessionData, live: bool, book: Book, query: string, active: Active,
                               unresolved: seq<string>, learned: seq<set<string>>, world: World)
    requires active.Valid() && Proceeding(s) && s.rounds <= cfg.maxRounds
    ensures Kept(cfg, s, book, ElicitedStep(s, live, book, query, active, unresolved, learned, world))
  {
    hide Filed, DispatchStep, AddResolved, LearnInSession, LearnForTeam;
    if world.elicitResolved.Ok? {
      var answers := world.elicitResolved.value;
      var rs, book' := LearnInSession(s.resolutions, answers), LearnForTeam(book, answers);
      LearnInSessionProperties(s.resolutions, answers);
      if Filed(book) {
        LearnForTeamFiled(book, answers);
      }
      AddResolvedValid(active, unresolved, rs);
      DispatchKeepsInvariant(cfg, s.(resolutions := rs, state := Resolved), live, book', query,
                             AddResolved(active, unresolved, rs), [], unresolved,
                             learned + [ResolvedAmong(unresolved, answers)], world);
    }
  }

  lemma AskKeepsInvariant(cfg: Config, s: SessionData, live: bool, book: Book, query: string,
                          learned: seq<set<string>>, world: World)
    requires ValidConfig(cfg) && Proceeding(s)
    ensures Kept(cfg, s, book, AskOrDispatch(cfg, s, live, book, query, learned, world))
  {
    hide Split, Detect, Known, ElicitedStep, DispatchStep, Filed, Lower;
    SplitProperties(s.resolutions, book, Detect(cfg, query));
    DetectProperties(cfg, query);
    var (active, unresolved) := Split(s.resolutions, book, Detect(cfg, query));
    DispatchKeepsInvariant(cfg, s, live, book, query, active, [], [], learned, world);
    DispatchKeepsInvariant(cfg, s, live, book, query, active, [RoundsExhausted(unresolved)], [], learned, world);
    if unresolved != [] && s.rounds < cfg.maxRounds {
      if world.question.Err? {
        DispatchKeepsInvariant(cfg, s, live, book, query, active, [ClarifierDown(world.question.message)], [], learned,
                               world);
      } else {
        ElicitedKeepsInvariant(cfg, s.(rounds := s.rounds + 1), live, book, query, active, unresolved, learned, world);
      }
    }
  }

  /**
   Every call keeps the invariant: whatever it stores is either waiting for an answer with its
   query, question and unresolved terms recorded and its round budget respected, or dispatched
   with nothing pending; what it leaves in a live object without storing it is within the budget
   as well. It stores its session unless it raises before the request to the backend.
   */
  lemma {:induction false} StoredInvariant(cfg: Config, stored: Option<SessionData>, book: Book, call: Call,
                                           world: World)
    requires ValidConfig(cfg) && ReadOk(cfg, stored, call.sessionId)
    ensures var r := HandleQuery(cfg, stored, book, call, world);
      && (Filed(book) ==> Filed(r.conventions)) && r.session.id == call.sessionId
      && (r.stored ==> StoredOk(cfg, r.session))
      && (r.live ==> SessionOk(cfg, r.session))
      && (r.stored <==> !RaisedUnstored(r))
  {
    hide AskOrDispatch, Filed, AwaitingOk, Detect;
    var s := if stored.Some? then stored.value else Fresh(call.sessionId);
    if s.state != Awaiting {
      AskKeepsInvariant(cfg, s, stored.Some?, book, call.query, [], world);
      AskTrace(cfg, s, stored.Some?, book, call.query, [], world);
      StoredIsOk(cfg, HandleQuery(cfg, stored, book, call, world).session);
    } else if Truthy(call.answer) {
      if world.resolved.Ok? {
        var answers := world.resolved.value;
        LearnInSessionProperties(s.resolutions, answers);
        if Filed(book) {
          LearnForTeamFiled(book, answers);
        }
        AskKeepsInvariant(cfg, Answered(s, answers), true, LearnForTeam(book, answers), PendingQuery(s, call),
                          [ResolvedAmong(s.pendingTerms, answers)], world);
        AskTrace(cfg, Answered(s, answers), true, LearnForTeam(book, answers), PendingQuery(s, call),
                 [ResolvedAmong(s.pendingTerms, answers)], world);
        StoredIsOk(cfg, HandleQuery(cfg, stored, book, call, world).session);
      }
    } else if Repeats(s, call) {
      StoredIsOk(cfg, s);
    } else {
      AskKeepsInvariant(cfg, Fresh(call.sessionId), false, book, call.query, [], world);
      AskTrace(cfg, Fresh(call.sessionId), false, book, call.query, [], world);
    }
  }

  lemma StoredIsOk(cfg: Config, s: SessionData)
    ensures StoredOk(cfg, s) ==> SessionOk(cfg, s)
    ensures SessionOk(cfg, s) && s.state == Awaiting ==> StoredOk(cfg, s)
  {
    hide Detect;
  }

  // ----- When the transition table is violated

  /** A term of the text that neither the session, the team nor the given answers settle. */
  ghost predicate LeavesOpen(cfg: Config, s: SessionData, book: Book, text: string, answers: seq<TermAnswer>) {
    exists t :: t in Detect(cfg, text) && !Settled(s.resolutions, book, t) && t !in AnsweredTerms(answers)
  }

  /**
   The session resolves a question while it is RESOLVED: it was read so, or a round-trip answer
   is consumed now; a term of the query is open while rounds remain, and the next question is
   answered by elicitation in the same call.
   */
  ghost predicate DoubleResolution(cfg: Config, stored: Option<SessionData>, book: Book, call: Call, world: World) {
    && stored.Some?
    && (|| (stored.value.state == Resolved && LeavesOpen(cfg, stored.value, book, call.query, []))
        || (stored.value.state == Awaiting && Truthy(call.answer) && world.resolved.Ok? &&
            LeavesOpen(cfg, stored.value, book, PendingQuery(stored.value, call), world.resolved.value)))
    && stored.value.rounds < cfg.maxRounds
    && world.question.Ok? && Truthy(world.elicited) && world.elicitResolved.Ok?
  }

  lemma OpenAfterAnswer(cfg: Config, s: SessionData, book: Book, text: string, answers: seq<TermAnswer>)
    requires ValidConfig(cfg)
    ensures var rs, b := LearnInSession(s.resolutions, answers), LearnForTeam(book, answers);
      Split(rs, b, Detect(cfg, text)).1 != [] <==> LeavesOpen(cfg, s, book, text, answers)
  {
    hide Settled;
    var rs, b := LearnInSession(s.resolutions, answers), LearnForTeam(book, answers);
    SplitProperties(rs, b, Detect(cfg, text));
    DetectProperties(cfg, text);
    var unresolved := Split(rs, b, Detect(cfg, text)).1;
    forall t | t in Detect(cfg, text)
      ensures Settled(rs, b, t) <==> Settled(s.resolutions, book, t) || t in AnsweredTerms(answers)
    {
      SettledAfterLearning(s.resolutions, book, answers, t);
    }
    if unresolved != [] {
      assert unresolved[0] in unresolved;
    }
    if LeavesOpen(cfg, s, book, text, answers) {
      var t :| t in Detect(cfg, text) && !Settled(s.resolutions, book, t) && t !in AnsweredTerms(answers);
      assert t in unresolved;
    }
  }

  /** Detection raises the error exactly in a RESOLVED session whose next question is answered by elicitation. */
  lemma AskTransitionError(cfg: Config, s: SessionData, live: bool, book: Book, query: string,
                           learned: seq<set<string>>, world: World)
    ensures var r := AskOrDispatch(cfg, s, live, book, query, learned, world);
      && (r.outcome.Raised? && r.outcome.exception.IllegalTransition? <==>
            s.state == Resolved && Split(s.resolutions, book, Detect(cfg, query)).1 != [] && s.rounds < cfg.maxRounds &&
            world.question.Ok? && Truthy(world.elicited) && world.elicitResolved.Ok?)
      && (r.outcome.Raised? && r.outcome.exception.IllegalTransition? ==>
            r.outcome.exception == IllegalTransition(Resolved, Resolved))
  {
    hide Split, Detect, Hints, Answer, AddResolved, LearnInSession, LearnForTeam, ResolvedAmong;
    SplitProperties(s.resolutions, book, Detect(cfg, query));
    if world.elicitResolved.Ok? {
      var (active, unresolved) := Split(s.resolutions, book, Detect(cfg, query));
      AddResolvedValid(active, unresolved, LearnInSession(s.resolutions, world.elicitResolved.value));
    }
  }

  /**
   Whatever session is read, a call raises StateTransitionError exactly in the DoubleResolution
   situation, from RESOLVED to RESOLVED.
   */
  lemma {:induction false} TransitionErrorExactly(cfg: Config, stored: Option<SessionData>, book: Book, call: Call,
                                                  world: World)
    requires ValidConfig(cfg)
    ensures var r := HandleQuery(cfg, stored, book, call, world);
      && (r.outcome.Raised? && r.outcome.exception.IllegalTransition? <==>
            DoubleResolution(cfg, stored, book, call, world))
      && (r.outcome.Raised? && r.outcome.exception.IllegalTransition? ==>
            r.outcome.exception == IllegalTransition(Resolved, Resolved))
  {
    hide AskOrDispatch, Split, Detect, LeavesOpen, LearnInSession, LearnForTeam, ResolvedAmong;
    var s := if stored.Some? then stored.value else Fresh(call.sessionId);
    if s.state != Awaiting {
      AskTransitionError(cfg, s, stored.Some?, book, call.query, [], world);
      OpenAfterAnswer(cfg, s, book, call.query, []);
      NothingToLearn(s.resolutions, book);
    } else if Truthy(call.answer) {
      if world.resolved.Ok? {
        var answers := world.resolved.value;
        AskTransitionError(cfg, Answered(s, answers), true, LearnForTeam(book, answers), PendingQuery(s, call),
                           [ResolvedAmong(s.pendingTerms, answers)], world);
        OpenAfterAnswer(cfg, s, book, PendingQuery(s, call), answers);
      }
    } else {
      AskTransitionError(cfg, Fresh(call.sessionId), false, book, call.query, [], world);
    }
  }

  lemma NothingToLearn(resolutions: Resolutions, book: Book)
    ensures LearnInSession(resolutions, []) == resolutions && LearnForTeam(book, []) == book
  {
  }

  // ----- When an answer is consumed

  /**
   A clarification answer is consumed exactly when a session awaiting clarification is read.
   After a zero-result or execution-error re-ask the session is DISPATCHED, so the reply to that
   question is ignored: the call behaves as one without an answer.
   */
  lemma {:induction false} AnswerConsumedOnlyWhenAwaiting(cfg: Config, stored: Option<SessionData>, book: Book,
                                                          call: Call, world: World)
    ensures !(stored.Some? && stored.value.state == Awaiting) ==>
      HandleQuery(cfg, stored, book, call, world) ==
      HandleQuery(cfg, stored, book, call.(answer := None), world)
    ensures stored.Some? && stored.value.state == Awaiting && Truthy(call.answer) && world.resolved.Ok? ==>
      var r := HandleQuery(cfg, stored, book, call, world);
      r.learned != [] && r.learned[0] == ResolvedAmong(stored.value.pendingTerms, world.resolved.value)
  {
    hide AskOrDispatch, ResolvedAmong, Answered, LearnForTeam;
    if stored.Some? && stored.value.state == Awaiting && Truthy(call.answer) && world.resolved.Ok? {
      var s, answers := stored.value, world.resolved.value;
      AskTrace(cfg, Answered(s, answers), true, LearnForTeam(book, answers), PendingQuery(s, call),
               [ResolvedAmong(s.pendingTerms, answers)], world);
    }
  }

  /** What a returned call leaves in the session: waiting for the user, or dispatched. */
  ghost predicate WaitsOrSent(r: Step) {
    r.outcome.Returned? ==>
      && (r.outcome.response.requiresUserInput <==> r.outcome.response.question.Some?)
      && (r.sent == None ==>
          r.session.state == Awaiting && r.session.pendingQuestion.Some? &&
          r.outcome.response == QuestionResponse(r.session.id, r.session.pendingQuestion.value))
      && (r.sent.Some? ==>
          r.session.state == Dispatched &&
          (r.outcome.response.question.Some? ==> !r.outcome.response.question.value.Clarify?))
  }

  /** What a dispatch sends, reports and leaves. */
  lemma DispatchTrace(s: SessionData, live: bool, book: Book, query: string, active: Active,
                      errors: seq<Warning>, asked: seq<string>, learned: seq<set<string>>, world: World)
    requires active.Valid()
    ensures var r := DispatchStep(s, live, book, query, active, errors, asked, learned, world);
      && WaitsOrSent(r)
      && (r.outcome.Returned? ==> forall w :: w in errors ==> w in r.outcome.response.errors)
      && (r.sent.Some? ==> r.outcome.Returned? && r.sent.value == Dispatch(query, Hints(active)))
      && r.asked == asked && r.conventions == book && r.session.resolutions == s.resolutions
  {
    hide IsTransport, Applied, Hints;
  }

  lemma ElicitedWaitsForTheUser(s: SessionData, live: bool, book: Book, query: string, active: Active,
                                unresolved: seq<string>, learned: seq<set<string>>, world: World)
    requires active.Valid()
    ensures WaitsOrSent(ElicitedStep(s, live, book, query, active, unresolved, learned, world))
  {
    hide DispatchStep;
    if world.elicitResolved.Ok? {
      var answers := world.elicitResolved.value;
      var rs := LearnInSession(s.resolutions, answers);
      AddResolvedValid(active, unresolved, rs);
      DispatchTrace(s.(resolutions := rs, state := Resolved), live, LearnForTeam(book, answers), query,
                    AddResolved(active, unresolved, rs), [], unresolved,
                    learned + [ResolvedAmong(unresolved, answers)], world);
    }
  }

  lemma AskWaitsForTheUser(cfg: Config, s: SessionData, live: bool, book: Book, query: string,
                           learned: seq<set<string>>, world: World)
    ensures WaitsOrSent(AskOrDispatch(cfg, s, live, book, query, learned, world))
  {
    hide Split, Detect, DispatchStep, ElicitedStep;
    SplitProperties(s.resolutions, book, Detect(cfg, query));
    var (active, unresolved) := Split(s.resolutions, book, Detect(cfg, query));
    DispatchTrace(s, live, book, query, active, [], [], learned, world);
    DispatchTrace(s, live, book, query, active, [RoundsExhausted(unresolved)], [], learned, world);
    if world.question.Err? {
      DispatchTrace(s, live, book, query, active, [ClarifierDown(world.question.message)], [], learned, world);
    }
    ElicitedWaitsForTheUser(s.(rounds := s.rounds + 1), live, book, query, active, unresolved, learned, world);
  }

  /**
   A returned question comes from the session (stored AWAITING, nothing sent) or from the
   dispatch itself (zero results, execution error); the latter always leaves the session
   DISPATCHED, so that by AnswerConsumedOnlyWhenAwaiting the reply to it is not consumed.
   */
  lemma {:induction false} ReaskStoresDispatched(cfg: Config, stored: Option<SessionData>, book: Book, call: Call,
                                                 world: World)
    requires ReadOk(cfg, stored, call.sessionId)
    ensures WaitsOrSent(HandleQuery(cfg, stored, book, call, world))
  {
    hide AskOrDispatch, Answered, LearnForTeam, ResolvedAmong;
    var s := if stored.Some? then stored.value else Fresh(call.sessionId);
    AskWaitsForTheUser(cfg, s, stored.Some?, book, call.query, [], world);
    AskWaitsForTheUser(cfg, Fresh(call.sessionId), false, book, call.query, [], world);
    if world.resolved.Ok? {
      var answers := world.resolved.value;
      AskWaitsForTheUser(cfg, Answered(s, answers), true, LearnForTeam(book, answers), PendingQuery(s, call),
                         [ResolvedAmong(s.pendingTerms, answers)], world);
    }
  }

  // ----- What is dispatched

  /** The warnings report the term as dispatched without an interpretation. */
  ghost predicate Reported(errors: seq<Warning>, t: string) {
    || (exists w :: w in errors && w.RoundsExhausted? && t in w.terms)
    || (exists w :: w in errors && w.ClarifierDown?)
  }

  ghost predicate Hinted(d: Dispatch, t: string) {
    exists i :: 0 <= i < |d.hints| && d.hints[i].0 == t
  }

  lemma HintsCover(active: Active, query: string, t: string)
    requires active.Valid()
    requires forall x :: x in active.vals ==> active.vals[x].term == x
    ensures Hinted(Dispatch(query, Hints(active)), t) <==> t in active.vals
  {
    if t in active.vals {
      var i :| 0 <= i < |active.keys| && active.keys[i] == t;
      assert Hints(active)[i].0 == t;
    }
  }

  /** The term t of the dispatched query is accounted for. */
  ghost predicate Accounted(r: Step, query: string, t: string) {
    r.sent.Some? ==>
      && r.outcome.Returned? && r.sent.value.query == query
      && (Hinted(r.sent.value, t) <==> Settled(r.session.resolutions, r.conventions, t))
      && (!Hinted(r.sent.value, t) ==> Reported(r.outcome.response.errors, t) || t in r.asked)
  }

  lemma StepAccountsForTerms(s: SessionData, live: bool, book: Book, query: string, active: Active,
                             errors: seq<Warning>, asked: seq<string>, learned: seq<set<string>>, world: World,
                             t: string)
    requires active.Valid() && (forall x :: x in active.vals ==> active.vals[x].term == x)
    requires t in active.vals <==> Settled(s.resolutions, book, t)
    requires t in active.vals || t in asked || Reported(errors, t)
    ensures Accounted(DispatchStep(s, live, book, query, active, errors, asked, learned, world), query, t)
  {
    hide DispatchStep, Hints, Settled, Hinted;
    DispatchTrace(s, live, book, query, active, errors, asked, learned, world);
    HintsCover(active, query, t);
  }

  lemma ElicitedAccountsForTerms(s: SessionData, live: bool, book: Book, query: string, active: Active,
                                 unresolved: seq<string>, learned: seq<set<string>>, world: World, t: string)
    requires active.Valid() && (forall x :: x in active.vals ==> active.vals[x].term == x)
    requires Lower(t) == t && (t in active.vals <==> Settled(s.resolutions, book, t))
    requires t !in active.vals ==> t in unresolved
    requires forall x :: x in s.resolutions ==> s.resolutions[x].term == x
    ensures Accounted(ElicitedStep(s, live, book, query, active, unresolved, learned, world), query, t)
  {
    hide Known, DispatchStep, Hinted, Reported, LearnInSession, LearnForTeam, AddResolved, Lower;
    if world.elicitResolved.Ok? {
      var answers := world.elicitResolved.value;
      var rs := LearnInSession(s.resolutions, answers);
      LearnInSessionProperties(s.resolutions, answers);
      SettledAfterLearning(s.resolutions, book, answers, t);
      AddResolvedValid(active, unresolved, rs);
      assert forall x :: x in rs ==> rs[x].term == x;
      StepAccountsForTerms(s.(resolutions := rs, state := Resolved), live, LearnForTeam(book, answers), query,
                           AddResolved(active, unresolved, rs), [], unresolved,
                           learned + [ResolvedAmong(unresolved, answers)], world, t);
    }
  }

  /** A dispatch from AskOrDispatch hints the settled terms; the others are reported or were left by elicitation. */
  lemma AskAccountsForTerms(cfg: Config, s: SessionData, live: bool, book: Book, query: string,
                            learned: seq<set<string>>, world: World, t: string)
    requires ValidConfig(cfg) && Proceeding(s) && t in Detect(cfg, query)
    ensures Accounted(AskOrDispatch(cfg, s, live, book, query, learned, world), query, t)
  {
    hide Split, Detect, Settled, DispatchStep, Hinted, Reported, ElicitedStep, Lower;
    SplitProperties(s.resolutions, book, Detect(cfg, query));
    DetectProperties(cfg, query);
    var (active, unresolved) := Split(s.resolutions, book, Detect(cfg, query));
    assert forall x :: x in active.vals ==> active.vals[x].term == x;
    if unresolved == [] {
      StepAccountsForTerms(s, live, book, query, active, [], [], learned, world, t);
    } else if s.rounds >= cfg.maxRounds {
      ReportedTerms(unresolved, t);
      StepAccountsForTerms(s, live, book, query, active, [RoundsExhausted(unresolved)], [], learned, world, t);
    } else if world.question.Err? {
      ReportedDown(world.question.message, t);
      StepAccountsForTerms(s, live, book, query, active, [ClarifierDown(world.question.message)], [], learned, world,
                           t);
    } else {
      ElicitedAccountsForTerms(s.(rounds := s.rounds + 1), live, book, query, active, unresolved, learned, world, t);
    }
  }

  lemma ReportedTerms(terms: seq<string>, t: string)
    ensures t in terms ==> Reported([RoundsExhausted(terms)], t)
  {
    assert RoundsExhausted(terms) in [RoundsExhausted(terms)];
  }

  lemma ReportedDown(message: string, t: string)
    ensures Reported([ClarifierDown(message)], t)
  {
    assert ClarifierDown(message) in [ClarifierDown(message)];
  }

  lemma SentQuery(cfg: Config, s: SessionData, live: bool, book: Book, query: string,
                  learned: seq<set<string>>, world: World)
    ensures var r := AskOrDispatch(cfg, s, live, book, query, learned, world);
      r.sent.Some? ==> r.sent.value.query == query
  {
    hide Split, Detect, Hints, Answer, LearnInSession, LearnForTeam, AddResolved;
    SplitProperties(s.resolutions, book, Detect(cfg, query));
    if world.elicitResolved.Ok? {
      var (active, unresolved) := Split(s.resolutions, book, Detect(cfg, query));
      AddResolvedValid(active, unresolved, LearnInSession(s.resolutions, world.elicitResolved.value));
    }
  }

  /**
   Nothing ambiguous is dispatched silently: every detected term of the dispatched query is
   hinted exactly when it is settled; an unhinted one is reported in the errors, or the user was
   just asked about it by elicitation and the reply left it open.
   */
  lemma {:induction false} DispatchAccountsForTerms(cfg: Config, stored: Option<SessionData>, book: Book, call: Call,
                                                    world: World, t: string)
    requires ValidConfig(cfg) && ReadOk(cfg, stored, call.sessionId)
    ensures var r := HandleQuery(cfg, stored, book, call, world);
      r.sent.Some? && t in Detect(cfg, r.sent.value.query) ==> Accounted(r, r.sent.value.query, t)
  {
    hide AskOrDispatch, Accounted, Detect;
    var s := if stored.Some? then stored.value else Fresh(call.sessionId);
    if s.state != Awaiting {
      AskAccounts(cfg, s, stored.Some?, book, call.query, [], world, t);
    } else if Truthy(call.answer) {
      if world.resolved.Ok? {
        var answers := world.resolved.value;
        LearnInSessionProperties(s.resolutions, answers);
        AskAccounts(cfg, Answered(s, answers), true, LearnForTeam(book, answers), PendingQuery(s, call),
                    [ResolvedAmong(s.pendingTerms, answers)], world, t);
      }
    } else {
      AskAccounts(cfg, Fresh(call.sessionId), false, book, call.query, [], world, t);
    }
  }

  lemma AskAccounts(cfg: Config, s: SessionData, live: bool, book: Book, query: string,
                    learned: seq<set<string>>, world: World, t: string)
    requires ValidConfig(cfg) && Proceeding(s)
    ensures var r := AskOrDispatch(cfg, s, live, book, query, learned, world);
      r.sent.Some? && t in Detect(cfg, r.sent.value.query) ==> Accounted(r, r.sent.value.query, t)
  {
    hide AskOrDispatch, Accounted, Detect;
    SentQuery(cfg, s, live, book, query, learned, world);
    if t in Detect(cfg, query) {
      AskAccountsForTerms(cfg, s, live, book, query, learned, world, t);
    }
  }

  // ----- What the caller is told about the backend's reply

  /** The conventions reported as applied are the hints that were sent. */
  ghost predicate SameHints(applied: seq<AppliedConvention>, hints: seq<(string, string)>) {
    |applied| == |hints| && (forall i :: 0 <= i < |hints| ==> (applied[i].term, applied[i].jqlHint) == hints[i])
  }

  /** The backend's reply calls for a re-ask: nothing found, or a failed execution of interpreted terms. */
  predicate CallsForReask(backend: Backend, hints: seq<(string, string)>) {
    match backend
    case Replied(result) => result.total == 0
    case BackendError(message) => hints != [] && !IsTransport(message)
    case InvalidRequest(_) => false
  }

  /** The response is honest about what was sent and what came back. */
  ghost predicate Honest(r: Step, backend: Backend) {
    r.outcome.Returned? && r.sent.Some? ==>
      && SameHints(r.outcome.response.applied, r.sent.value.hints)
      && (r.outcome.response.requiresUserInput <==> CallsForReask(backend, r.sent.value.hints))
      && (backend.BackendError? ==> BackendFailure(backend.message) in r.outcome.response.errors)
      && (backend.Replied? ==> r.outcome.response.total == backend.result.total)
      && r.outcome.response.jql == (if backend.Replied? then backend.result.jql else None)
      && (if backend.Replied? && backend.result.total != 0
          then && r.outcome.response.answer == backend.result.answer && r.outcome.response.shown == backend.result.shown
               && r.outcome.response.issues == backend.result.issues
          else && r.outcome.response.answer == None && r.outcome.response.shown == 0
               && r.outcome.response.issues == [])
  }

  lemma DispatchIsHonest(s: SessionData, live: bool, book: Book, query: string, active: Active,
                         errors: seq<Warning>, asked: seq<string>, learned: seq<set<string>>, world: World)
    requires active.Valid()
    ensures Honest(DispatchStep(s, live, book, query, active, errors, asked, learned, world), world.backend)
  {
    hide IsTransport;
    assert |Hints(active)| == |active.keys|;
  }

  lemma AskIsHonest(cfg: Config, s: SessionData, live: bool, book: Book, query: string,
                    learned: seq<set<string>>, world: World)
    ensures Honest(AskOrDispatch(cfg, s, live, book, query, learned, world), world.backend)
  {
    hide DispatchStep, Honest;
    SplitProperties(s.resolutions, book, Detect(cfg, query));
    var (active, unresolved) := Split(s.resolutions, book, Detect(cfg, query));
    DispatchIsHonest(s, live, book, query, active, [], [], learned, world);
    DispatchIsHonest(s, live, book, query, active, [RoundsExhausted(unresolved)], [], learned, world);
    var r := AskOrDispatch(cfg, s, live, book, query, learned, world);
    if unresolved != [] && s.rounds < cfg.maxRounds {
      if world.question.Err? {
        DispatchIsHonest(s, live, book, query, active, [ClarifierDown(world.question.message)], [], learned, world);
      } else {
        AskedIsHonest(s.(rounds := s.rounds + 1), live, book, query, active, unresolved, learned, world);
        assert !Truthy(world.elicited) ==> r.sent == None;
        NothingSentIsHonest(r, world.backend);
      }
    }
  }

  lemma NothingSentIsHonest(r: Step, backend: Backend)
    ensures r.sent == None ==> Honest(r, backend)
  {
  }

  lemma AskedIsHonest(s: SessionData, live: bool, book: Book, query: string, active: Active,
                      unresolved: seq<string>, learned: seq<set<string>>, world: World)
    requires active.Valid()
    ensures Honest(ElicitedStep(s, live, book, query, active, unresolved, learned, world), world.backend)
  {
    hide DispatchStep, Honest;
    var r := ElicitedStep(s, live, book, query, active, unresolved, learned, world);
    NothingSentIsHonest(r, world.backend);
    if world.elicitResolved.Ok? && Allowed(s.state, Resolved) {
      var answers := world.elicitResolved.value;
      var rs := LearnInSession(s.resolutions, answers);
      AddResolvedValid(active, unresolved, rs);
      DispatchIsHonest(s.(resolutions := rs, state := Resolved), live, LearnForTeam(book, answers), query,
                       AddResolved(active, unresolved, rs), [], unresolved,
                       learned + [ResolvedAmong(unresolved, answers)], world);
    }
  }

  /**
   A call that dispatches asks the user again exactly if the backend found nothing or failed to
   execute interpreted terms. It reports as applied the hints that were sent, passes the
   backend's issues on, and names a backend failure in its errors.
   */
  lemma {:induction false} DispatchIsReportedHonestly(cfg: Config, stored: Option<SessionData>, book: Book, call: Call,
                                                      world: World)
    ensures Honest(HandleQuery(cfg, stored, book, call, world), world.backend)
  {
    hide AskOrDispatch, Honest, LearnForTeam, LearnInSession, ResolvedAmong;
    var s := if stored.Some? then stored.value else Fresh(call.sessionId);
    AskIsHonest(cfg, s, stored.Some?, book, call.query, [], world);
    AskIsHonest(cfg, Fresh(call.sessionId), false, book, call.query, [], world);
    NothingSentIsHonest(HandleQuery(cfg, stored, book, call, world), world.backend);
    if world.resolved.Ok? {
      var answers := world.resolved.value;
      AskIsHonest(cfg, Answered(s, answers), true, LearnForTeam(book, answers), PendingQuery(s, call),
                  [ResolvedAmong(s.pendingTerms, answers)], world);
    }
  }

  // ----- What is learned

  lemma AskLearns(cfg: Config, s: SessionData, live: bool, book: Book, query: string,
                  learned: seq<set<string>>, world: World, t: string)
    requires ValidConfig(cfg) && Lower(t) == t
    ensures var r := AskOrDispatch(cfg, s, live, book, query, learned, world);
      && (Known(book, t).Some? ==> Known(r.conventions, t).Some?)
      && (t in r.asked ==> t in cfg.vocab && Known(book, t) == None)
      && (|r.learned| > |learned| && t in r.learned[|learned|] ==> t in r.asked && Known(r.conventions, t).Some?)
  {
    hide AskOrDispatch, Split, Detect, Known, LearnForTeam, Lower;
    AskTrace(cfg, s, live, book, query, learned, world);
    SplitProperties(s.resolutions, book, Detect(cfg, query));
    DetectProperties(cfg, query);
    if world.elicitResolved.Ok? {
      LearnForTeamProperties(book, world.elicitResolved.value, t);
    }
  }

  /** The term was pending in the stored session when the call began. */
  ghost predicate WasPending(stored: Option<SessionData>, t: string) {
    stored.Some? && stored.value.state == Awaiting && t in stored.value.pendingTerms
  }

  /**
   What one call does to one vocabulary term. Learned terms stay learned; a newly asked term was
   not known, nor answered earlier in the call; a term an answer settles becomes known, was
   pending or unknown before, and is settled by one answer only.
   */
  lemma {:induction false} StepLearns(cfg: Config, stored: Option<SessionData>, book: Book, call: Call, world: World,
                                      t: string)
    requires ValidConfig(cfg) && Lower(t) == t
    ensures var r := HandleQuery(cfg, stored, book, call, world);
      && |r.learned| <= 2
      && (Known(book, t).Some? ==> Known(r.conventions, t).Some?)
      && (t in r.asked ==> t in cfg.vocab && Known(book, t) == None)
      && (forall i :: 0 <= i < |r.learned| && t in r.learned[i] ==>
            Known(r.conventions, t).Some? && (WasPending(stored, t) || t in r.asked))
      && (|r.learned| == 2 ==> !(t in r.learned[0] && t in r.learned[1]))
      && (t in r.asked && r.session.state == Awaiting && r.stored ==> Known(r.conventions, t) == None)
  {
    hide AskOrDispatch, Answered, Known, LearnForTeam, Lower, Detect;
    var s := if stored.Some? then stored.value else Fresh(call.sessionId);
    if s.state != Awaiting {
      AskTrace(cfg, s, stored.Some?, book, call.query, [], world);
      AskLearns(cfg, s, stored.Some?, book, call.query, [], world, t);
    } else if Truthy(call.answer) {
      if world.resolved.Ok? {
        var answers := world.resolved.value;
        LearnForTeamProperties(book, answers, t);
        AskTrace(cfg, Answered(s, answers), true, LearnForTeam(book, answers), PendingQuery(s, call),
                 [ResolvedAmong(s.pendingTerms, answers)], world);
        AskLearns(cfg, Answered(s, answers), true, LearnForTeam(book, answers), PendingQuery(s, call),
                  [ResolvedAmong(s.pendingTerms, answers)], world, t);
      }
    } else if !Repeats(s, call) {
      AskTrace(cfg, Fresh(call.sessionId), false, book, call.query, [], world);
      AskLearns(cfg, Fresh(call.sessionId), false, book, call.query, [], world, t);
    }
  }

  /** Only vocabulary terms are asked about, and only vocabulary terms count as resolved. */
  lemma {:induction false} OnlyVocabulary(cfg: Config, stored: Option<SessionData>, book: Book, call: Call,
                                          world: World)
    requires ValidConfig(cfg) && ReadOk(cfg, stored, call.sessionId)
    ensures var r := HandleQuery(cfg, stored, book, call, world);
      && (forall t :: t in r.asked ==> t in cfg.vocab)
      && (forall i :: 0 <= i < |r.learned| ==> r.learned[i] <= ToSet(cfg.vocab))
  {
    hide AskOrDispatch, LearnForTeam, Lower, Detect, Split;
    var s := if stored.Some? then stored.value else Fresh(call.sessionId);
    AskOnlyVocabulary(cfg, s, stored.Some?, book, call.query, [], world);
    AskOnlyVocabulary(cfg, Fresh(call.sessionId), false, book, call.query, [], world);
    if world.resolved.Ok? && stored.Some? && s.state == Awaiting {
      DetectProperties(cfg, s.pendingQuery.value);
      AskOnlyVocabulary(cfg, Answered(s, world.resolved.value), true, LearnForTeam(book, world.resolved.value),
                        PendingQuery(s, call), [ResolvedAmong(s.pendingTerms, world.resolved.value)], world);
    }
  }

  lemma AskOnlyVocabulary(cfg: Config, s: SessionData, live: bool, book: Book, query: string,
                          learned: seq<set<string>>, world: World)
    requires ValidConfig(cfg)
    ensures var r := AskOrDispatch(cfg, s, live, book, query, learned, world);
      && (forall t :: t in r.asked ==> t in cfg.vocab)
      && (r.learned == learned || (|r.learned| == |learned| + 1 && learned <= r.learned &&
                                   r.learned[|learned|] <= ToSet(cfg.vocab)))
  {
    hide AskOrDispatch, LearnForTeam, Lower, Detect, Split, Settled;
    AskTrace(cfg, s, live, book, query, learned, world);
    DetectProperties(cfg, query);
    SplitProperties(s.resolutions, book, Detect(cfg, query));
  }

  // ----- What is left in the session

  /** The rounds already used by the session the call works on. */
  function RoundsBefore(stored: Option<SessionData>, r: Step): nat {
    if r.live && stored.Some? then stored.value.rounds else 0
  }

  /** The call repeated the cached question: nothing asked, learned or changed. */
  ghost predicate Reissued(stored: Option<SessionData>, book: Book, r: Step) {
    && stored == Some(r.session) && r.live && r.stored && r.outcome.Returned?
    && r.asked == [] && r.learned == [] && r.conventions == book && r.sent == None
  }

  /** The call works on the object that was read, unless none was or the pending question is abandoned. */
  lemma {:induction false} LiveTrace(cfg: Config, stored: Option<SessionData>, book: Book, call: Call, world: World)
    ensures HandleQuery(cfg, stored, book, call, world).live <==>
      stored.Some? && (stored.value.state != Awaiting || Truthy(call.answer) || Repeats(stored.value, call))
  {
    hide AskOrDispatch, AskTraced, LearnForTeam, LearnInSession, ResolvedAmong;
    var s := if stored.Some? then stored.value else Fresh(call.sessionId);
    AskTrace(cfg, s, stored.Some?, book, call.query, [], world);
    AskTrace(cfg, Fresh(call.sessionId), false, book, call.query, [], world);
    if world.resolved.Ok? {
      var answers := world.resolved.value;
      AskTrace(cfg, Answered(s, answers), true, LearnForTeam(book, answers), PendingQuery(s, call),
               [ResolvedAmong(s.pendingTerms, answers)], world);
    }
  }

  /**
   A new question uses one round of the budget, also when the call raises after it; a dispatch
   frees the budget; a repetition costs nothing. A call that raises before it asks changes nothing.
   */
  ghost predicate Traced(cfg: Config, stored: Option<SessionData>, book: Book, r: Step) {
    && (r.live ==> stored.Some?)
    && (r.stored <==> !RaisedUnstored(r))
    && (r.asked != [] ==> RoundsBefore(stored, r) < cfg.maxRounds)
    && (r.sent.Some? ==> r.stored && r.session.state == Dispatched)
    && (r.stored && r.session.state != Awaiting ==>
          r.session.state == Dispatched && r.session.rounds == 0 && (r.outcome.Returned? ==> r.sent.Some?))
    && (r.stored && r.session.state == Awaiting ==>
         || Reissued(stored, book, r)
         || (r.outcome.Returned? && r.asked != [] && r.sent == None && r.session.pendingTerms == r.asked &&
             r.session.rounds == RoundsBefore(stored, r) + 1))
    && (!r.stored && r.live && r.asked == [] ==> stored == Some(r.session) && r.learned == [])
    && (!r.stored && r.live && r.asked != [] ==>
          r.session.rounds == RoundsBefore(stored, r) + 1 && r.session.state != Awaiting)
    && (!r.stored && !r.live ==> r.learned == [])
  }

  lemma {:induction false} StepTrace(cfg: Config, stored: Option<SessionData>, book: Book, call: Call, world: World)
    ensures Traced(cfg, stored, book, HandleQuery(cfg, stored, book, call, world))
  {
    hide AskOrDispatch, LearnForTeam, LearnInSession, ResolvedAmong, Detect, Split;
    var s := if stored.Some? then stored.value else Fresh(call.sessionId);
    if s.state != Awaiting {
      AskTrace(cfg, s, stored.Some?, book, call.query, [], world);
    } else if Truthy(call.answer) {
      if world.resolved.Ok? {
        var answers := world.resolved.value;
        AskTrace(cfg, Answered(s, answers), true, LearnForTeam(book, answers), PendingQuery(s, call),
                 [ResolvedAmong(s.pendingTerms, answers)], world);
      }
    } else {
      AskTrace(cfg, Fresh(call.sessionId), false, book, call.query, [], world);
    }
  }

  // ----- Which questions can be about a learned term

  /** The call put a question about t to the user: a new one, or a cached one that it returned again. */
  ghost predicate AsksAbout(r: Step, t: string) {
    || t in r.asked
    || (r.outcome.Returned? && r.outcome.response.question.Some? && r.outcome.response.question.value.Clarify? &&
        t in r.session.pendingTerms)
  }

  /** The host repeats the query of a waiting session without an answer. */
  predicate RepeatsPending(stored: Option<SessionData>, call: Call) {
    stored.Some? && stored.value.state == Awaiting && !Truthy(call.answer) && Repeats(stored.value, call)
  }

  /**
   A question is about a term that the team knew when the call began exactly if the call repeats
   the pending query without an answer and the term was pending. No other question is.
   */
  lemma {:induction false} KnownTermAskedExactly(cfg: Config, stored: Option<SessionData>, book: Book, call: Call,
                                                 world: World, t: string)
    requires ValidConfig(cfg) && ReadOk(cfg, stored, call.sessionId) && Lower(t) == t && Known(book, t).Some?
    ensures AsksAbout(HandleQuery(cfg, stored, book, call, world), t) <==>
            RepeatsPending(stored, call) && t in stored.value.pendingTerms
  {
    hide AskOrDispatch, LearnForTeam, ResolvedAmong, Known, Lower, SessionOk, AskTraced;
    var r := HandleQuery(cfg, stored, book, call, world);
    StepLearns(cfg, stored, book, call, world, t);
    if !RepeatsPending(stored, call) {
      ReaskStoresDispatched(cfg, stored, book, call, world);
      StepTrace(cfg, stored, book, call, world);
      OnlyRepetitionReissues(cfg, stored, book, call, world);
    }
  }

  lemma OnlyRepetitionReissues(cfg: Config, stored: Option<SessionData>, book: Book, call: Call, world: World)
    requires !RepeatsPending(stored, call)
    ensures var r := HandleQuery(cfg, stored, book, call, world);
      r.stored && r.session.state == Awaiting ==> r.asked != []
  {
    hide AskOrDispatch, LearnForTeam, LearnInSession, ResolvedAmong, Detect, Split;
    var s := if stored.Some? then stored.value else Fresh(call.sessionId);
    if s.state != Awaiting {
      AskTrace(cfg, s, stored.Some?, book, call.query, [], world);
    } else if Truthy(call.answer) {
      if world.resolved.Ok? {
        var answers := world.resolved.value;
        AskTrace(cfg, Answered(s, answers), true, LearnForTeam(book, answers), PendingQuery(s, call),
                 [ResolvedAmong(s.pendingTerms, answers)], world);
      }
    } else {
      AskTrace(cfg, Fresh(call.sessionId), false, book, call.query, [], world);
    }
  }
}
