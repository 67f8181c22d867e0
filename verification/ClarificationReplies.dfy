/**
 What the caller of query_jira is told, in terms of the call, the session that was read, the
 conventions and the replies from outside.
 */
module ClarificationReplies {
  import opened Collections
  import opened Text
  import opened Sessions
  import opened Conventions
  import opened Clarification
  import opened ClarificationFacts
  import opened ClarificationHints

  // ----- What the call works with

  /** The call answers the pending question of the session. */
  predicate Answers(stored: Option<SessionData>, call: Call) {
    stored.Some? && stored.value.state == Awaiting && call.answer !in {None, Some("")}
  }

  /** The call repeats the pending query without an answer. */
  predicate RepeatsQuery(stored: Option<SessionData>, call: Call) {
    && stored.Some? && stored.value.state == Awaiting && call.answer in {None, Some("")}
    && stored.value.pendingQuery == Some(call.query) && stored.value.pendingQuestion !in {None, Some("")}
  }

  /** The query that is examined and sent: an answer goes on with the pending one. */
  function WorkingQuery(stored: Option<SessionData>, call: Call): string {
    if Answers(stored, call) && stored.value.pendingQuery !in {None, Some("")} then stored.value.pendingQuery.value
    else call.query
  }

  /** The rounds used so far; a query that abandons the pending question starts again. */
  function RoundsUsed(stored: Option<SessionData>, call: Call): nat {
    if stored.Some? && (stored.value.state != Awaiting || Answers(stored, call)) then stored.value.rounds else 0
  }

  /** Whether a vocabulary term occurs in the query and is settled, or is not. */
  function TermPick(matches: (string, string) -> bool, query: string, held: (Resolutions, Book), settled: bool)
    : string -> Option<string>
  {
    t => if matches(t, query) && Settled(held.0, held.1, t) == settled then Some(t) else None
  }

  /** These terms, in vocabulary order. */
  function TermsOf(cfg: Config, query: string, held: (Resolutions, Book), settled: bool): seq<string> {
    Picked(cfg.vocab, TermPick(cfg.matches, query, held, settled))
  }

  // ----- What has to happen

  datatype Verdict =
    | Refuses(exception: Exception)
    | Reissues(question: string)
    | Asks(terms: seq<string>, question: string)
    | Sends(warnings: seq<Warning>)

  /** What examining a query has to come to, with these open terms and so many rounds used. */
  function Examined(open: seq<string>, rounds: nat, maxRounds: int, resolved: bool, world: World): Verdict {
    if open == [] then Sends([])
    else if rounds >= maxRounds then Sends([RoundsExhausted(open)])
    else if world.question.Err? then Sends([ClarifierDown(world.question.message)])
    else if world.elicited in {None, Some("")} then Asks(open, world.question.value)
    else if world.elicitResolved.Err? then Refuses(ClarifierError(world.elicitResolved.message))
    else if resolved then Refuses(IllegalTransition(Resolved, Resolved))
    else Sends([])
  }

  /** What the call has to come to, before the backend is asked. */
  function VerdictOf(cfg: Config, stored: Option<SessionData>, book: Book, call: Call, world: World): Verdict {
    if Answers(stored, call) && world.resolved.Err? then Refuses(ClarifierError(world.resolved.message))
    else if RepeatsQuery(stored, call) then Reissues(stored.value.pendingQuestion.value)
    else
      Examined(TermsOf(cfg, WorkingQuery(stored, call), HeldBefore(stored, book, call, world), false),
               RoundsUsed(stored, call), cfg.maxRounds,
               Answers(stored, call) || (stored.Some? && stored.value.state == Resolved), world)
  }

  /** A response that only asks. */
  ghost predicate OnlyAsks(response: QueryResponse, id: string, question: string) {
    && response.sessionId == id && response.requiresUserInput && response.question == Some(Clarify(question))
    && response.answer == response.jql == None && response.total == response.shown == 0
    && response.issues == [] && response.applied == [] && response.errors == []
  }

  /** The response passes on what the backend replied, and asks again if nothing was found or terms misled it. */
  ghost predicate Relays(response: QueryResponse, backend: Backend, hints: seq<(string, string)>) {
    match backend
    case Replied(result) =>
      && response.jql == result.jql && response.total == result.total
      && (if result.total == 0
          then && response.question == Some(ZeroResults(result.jql, response.applied))
               && response.answer == None && response.shown == 0 && response.issues == []
          else && response.question == None
               && response.answer == result.answer && response.shown == result.shown
               && response.issues == result.issues)
    case BackendError(message) =>
      && response.answer == response.jql == None && response.total == response.shown == 0 && response.issues == []
      && response.question == (if hints == [] || "backend unreachable after retries" <= message then None
                               else Some(ExecutionFailed(message, response.applied)))
    case InvalidRequest(_) => false
  }

  function FailureNotice(backend: Backend): seq<Warning> {
    if backend.BackendError? then [BackendFailure(backend.message)] else []
  }

  /** The step does what the verdict says, on the query with the given rounds used. */
  ghost predicate Carries(r: Step, verdict: Verdict, id: string, query: string, rounds: nat, backend: Backend) {
    match verdict
    case Refuses(exception) => r.outcome == Raised(exception) && r.sent == None
    case Reissues(question) =>
      r.outcome.Returned? && OnlyAsks(r.outcome.response, id, question) && r.sent == None && r.asked == []
    case Asks(terms, question) =>
      && r.outcome.Returned? && OnlyAsks(r.outcome.response, id, question) && r.sent == None && r.asked == terms
      && r.stored && r.session.state == Awaiting && r.session.rounds == rounds + 1
      && r.session.pendingQuery == Some(query) && r.session.pendingTerms == terms
      && r.session.pendingQuestion == Some(question)
    case Sends(warnings) =>
      if backend.InvalidRequest? then r.outcome == Raised(RequestError(backend.message)) && r.sent == None
      else
        && r.outcome.Returned? && r.outcome.response.sessionId == id
        && r.sent.Some? && r.sent.value.query == query
        && Relays(r.outcome.response, backend, r.sent.value.hints)
        && (r.outcome.response.requiresUserInput <==> r.outcome.response.question.Some?)
        && r.outcome.response.errors == warnings + FailureNotice(backend)
  }

  // ----- That it happens

  lemma TruthyMeans(o: Option<string>)
    ensures Truthy(o) <==> o !in {None, Some("")}
  {
  }

  lemma DispatchCarries(s: SessionData, live: bool, book: Book, query: string, active: Active, errors: seq<Warning>,
                        asked: seq<string>, learned: seq<set<string>>, world: World, rounds: nat)
    requires active.Valid()
    ensures var r := DispatchStep(s, live, book, query, active, errors, asked, learned, world);
      Carries(r, Sends(errors), s.id, query, rounds, world.backend) && r.asked == asked
  {
    assert |Hints(active)| == |active.keys|;
    assert errors + [] == errors;
  }

  /** Splitting the detected terms leaves the open ones, in vocabulary order. */
  lemma {:induction false} SplitLeavesOpen(vocab: seq<string>, matches: (string, string) -> bool, text: string,
                                           held: (Resolutions, Book))
    ensures Split(held.0, held.1, Filter(vocab, matches, text)).1 ==
            Picked(vocab, TermPick(matches, text, held, false))
  {
    hide Settled;
    if vocab != [] {
      var init, t := vocab[..|vocab| - 1], vocab[|vocab| - 1];
      SplitLeavesOpen(init, matches, text, held);
      SplitNext(held.0, held.1, Filter(init, matches, text), t);
    }
  }

  lemma SplitNext(resolutions: Resolutions, book: Book, terms: seq<string>, t: string)
    ensures Split(resolutions, book, terms + [t]).1 ==
            Split(resolutions, book, terms).1 + if Settled(resolutions, book, t) then [] else [t]
  {
    hide Known;
    assert (terms + [t])[..|terms|] == terms;
  }

  lemma ElicitedCarries(s: SessionData, live: bool, book: Book, query: string, active: Active,
                        unresolved: seq<string>, learned: seq<set<string>>, world: World, rounds: nat)
    requires active.Valid() && unresolved != []
    ensures var r := ElicitedStep(s, live, book, query, active, unresolved, learned, world);
      var verdict := if world.elicitResolved.Err? then Refuses(ClarifierError(world.elicitResolved.message))
                     else if s.state == Resolved then Refuses(IllegalTransition(Resolved, Resolved))
                     else Sends([]);
      s.state in {Idle, Resolved, Dispatched} ==>
        Carries(r, verdict, s.id, query, rounds, world.backend) && r.asked == unresolved
  {
    hide DispatchStep, LearnInSession, LearnForTeam, AddResolved, Relays;
    if world.elicitResolved.Ok? {
      var answers := world.elicitResolved.value;
      var rs := LearnInSession(s.resolutions, answers);
      AddResolvedValid(active, unresolved, rs);
      DispatchCarries(s.(resolutions := rs, state := Resolved), live, LearnForTeam(book, answers), query,
                      AddResolved(active, unresolved, rs), [], unresolved,
                      learned + [ResolvedAmong(unresolved, answers)], world, rounds);
    }
  }

  lemma AskCarries(cfg: Config, s: SessionData, live: bool, book: Book, query: string,
                   learned: seq<set<string>>, world: World)
    requires s.state != Awaiting
    ensures var r := AskOrDispatch(cfg, s, live, book, query, learned, world);
      var open := TermsOf(cfg, query, (s.resolutions, book), false);
      Carries(r, Examined(open, s.rounds, cfg.maxRounds, s.state == Resolved, world), s.id, query, s.rounds,
              world.backend)
  {
    hide Split, DispatchStep, ElicitedStep, Relays, Picked;
    SplitProperties(s.resolutions, book, Detect(cfg, query));
    SplitLeavesOpen(cfg.vocab, cfg.matches, query, (s.resolutions, book));
    var (active, unresolved) := Split(s.resolutions, book, Detect(cfg, query));
    TruthyMeans(world.elicited);
    if unresolved == [] {
      DispatchCarries(s, live, book, query, active, [], [], learned, world, s.rounds);
    } else if s.rounds >= cfg.maxRounds {
      DispatchCarries(s, live, book, query, active, [RoundsExhausted(unresolved)], [], learned, world, s.rounds);
    } else if world.question.Err? {
      DispatchCarries(s, live, book, query, active, [ClarifierDown(world.question.message)], [], learned, world,
                      s.rounds);
    } else {
      ElicitedCarries(s.(rounds := s.rounds + 1), live, book, query, active, unresolved, learned, world, s.rounds);
    }
  }

  /**
   Every call does exactly what the verdict says: it raises this exception, asks this question
   about these terms, or sends the working query and passes on the backend's reply, with exactly
   these warnings.
   */
  lemma {:induction false} CallCarriesVerdict(cfg: Config, stored: Option<SessionData>, book: Book, call: Call,
                                              world: World)
    requires stored.Some? ==> stored.value.id == call.sessionId
    ensures Carries(HandleQuery(cfg, stored, book, call, world), VerdictOf(cfg, stored, book, call, world),
                    call.sessionId, WorkingQuery(stored, call), RoundsUsed(stored, call), world.backend)
  {
    hide AskOrDispatch, TermsOf, Relays, Examined, LearnInSession, LearnForTeam, ResolvedAmong, Truthy;
    var s := if stored.Some? then stored.value else Fresh(call.sessionId);
    TruthyMeans(call.answer);
    TruthyMeans(s.pendingQuery);
    TruthyMeans(s.pendingQuestion);
    if s.state != Awaiting {
      AskCarries(cfg, s, stored.Some?, book, call.query, [], world);
    } else if Truthy(call.answer) {
      if world.resolved.Ok? {
        var answers := world.resolved.value;
        AskCarries(cfg, Answered(s, answers), true, LearnForTeam(book, answers), PendingQuery(s, call),
                   [ResolvedAmong(s.pendingTerms, answers)], world);
      }
    } else if !Repeats(s, call) {
      AskCarries(cfg, Fresh(call.sessionId), false, book, call.query, [], world);
    }
  }

  // ----- What is reported as applied

  /** The settled terms come first, in vocabulary order. */
  lemma {:induction false} SplitSettles(vocab: seq<string>, matches: (string, string) -> bool, text: string,
                                        held: (Resolutions, Book))
    requires Distinct(vocab)
    ensures Split(held.0, held.1, Filter(vocab, matches, text)).0.keys ==
            Picked(vocab, TermPick(matches, text, held, true))
  {
    hide Settled, Distinct;
    if vocab != [] {
      var init, t := vocab[..|vocab| - 1], vocab[|vocab| - 1];
      DistinctInit(vocab);
      SplitSettles(init, matches, text, held);
      FilterProperties(init, matches, text);
      ActiveNext(held.0, held.1, Filter(init, matches, text), t);
    }
  }

  lemma DistinctInit(s: seq<string>)
    requires Distinct(s) && s != []
    ensures Distinct(s[..|s| - 1]) && s[|s| - 1] !in s[..|s| - 1]
  {
  }

  lemma ActiveNext(resolutions: Resolutions, book: Book, terms: seq<string>, t: string)
    requires t !in terms
    ensures Split(resolutions, book, terms + [t]).0.keys ==
            Split(resolutions, book, terms).0.keys + if Settled(resolutions, book, t) then [t] else []
  {
    hide Known;
    SplitMembers(resolutions, book, terms);
    assert (terms + [t])[..|terms|] == terms;
  }

  /** The terms in resolutions. */
  function ResolvedPick(resolutions: Resolutions): string -> Option<string> {
    t => if t in resolutions then Some(t) else None
  }

  /** The elicited terms come after them, in the order asked. */
  lemma {:induction false} AddedInOrder(active: Active, terms: seq<string>, resolutions: Resolutions)
    requires active.Valid() && Distinct(terms) && (forall t :: t in terms ==> t !in active.vals)
    ensures AddResolved(active, terms, resolutions).keys == active.keys + Picked(terms, ResolvedPick(resolutions))
  {
    hide Distinct;
    if terms != [] {
      DistinctInit(terms);
      AddedInOrder(active, terms[..|terms| - 1], resolutions);
      AddResolvedValid(active, terms[..|terms| - 1], resolutions);
    }
  }

  /** Where the resolution of a term that was settled before comes from. */
  function SourceOf(held: (Resolutions, Book), t: string): Source {
    if t in held.0 then held.0[t].source else FromConvention
  }

  /**
   First the settled terms of the query, with their own sources, then the asked ones that the
   elicited answer resolved, as clarified.
   */
  ghost predicate ReportsApplied(r: Step, settled: seq<string>, held: (Resolutions, Book)) {
    r.outcome.Returned? && r.sent.Some? ==>
      var applied := r.outcome.response.applied;
      var resolved := Picked(r.asked, ResolvedPick(r.session.resolutions));
      && |applied| == |settled| + |resolved|
      && (forall i :: 0 <= i < |settled| ==>
            applied[i].term == settled[i] && applied[i].source == SourceOf(held, settled[i]))
      && (forall i :: 0 <= i < |resolved| ==>
            applied[|settled| + i].term == resolved[i] && applied[|settled| + i].source == FromClarification)
  }

  lemma AppliedAre(s: SessionData, live: bool, book: Book, query: string, active: Active, errors: seq<Warning>,
                   asked: seq<string>, learned: seq<set<string>>, world: World)
    requires active.Valid()
    ensures var r := DispatchStep(s, live, book, query, active, errors, asked, learned, world);
      && r.asked == asked && r.session.resolutions == s.resolutions
      && (r.outcome.Returned? && r.sent.Some? ==> r.outcome.response.applied == Applied(active))
  {
    hide Applied;
  }

  /** The reported conventions, read off the active resolutions in key order. */
  ghost predicate AppliedFrom(active: Active, settled: seq<string>, resolved: seq<string>, held: (Resolutions, Book)) {
    && active.Valid() && active.keys == settled + resolved
    && (forall t :: t in settled ==>
          t in active.vals && active.vals[t].term == t && active.vals[t].source == SourceOf(held, t))
    && (forall t :: t in resolved ==>
          t in active.vals && active.vals[t].term == t && active.vals[t].source == FromClarification)
  }

  lemma AppliedReports(r: Step, active: Active, settled: seq<string>, held: (Resolutions, Book))
    requires AppliedFrom(active, settled, Picked(r.asked, ResolvedPick(r.session.resolutions)), held)
    requires r.outcome.Returned? && r.sent.Some? ==> r.outcome.response.applied == Applied(active)
    ensures ReportsApplied(r, settled, held)
  {
    hide Picked, SourceOf;
    var resolved := Picked(r.asked, ResolvedPick(r.session.resolutions));
    if r.outcome.Returned? && r.sent.Some? {
      var applied := r.outcome.response.applied;
      forall i | 0 <= i < |settled|
        ensures applied[i].term == settled[i] && applied[i].source == SourceOf(held, settled[i])
      {
        assert active.keys[i] == settled[i];
      }
      forall i | 0 <= i < |resolved|
        ensures applied[|settled| + i].term == resolved[i] && applied[|settled| + i].source == FromClarification
      {
        assert active.keys[|settled| + i] == resolved[i];
      }
    }
  }

  lemma PickedResolved(terms: seq<string>, resolutions: Resolutions)
    ensures forall t :: t in Picked(terms, ResolvedPick(resolutions)) ==> t in terms && t in resolutions
  {
    var from := PickedExactly(terms, ResolvedPick(resolutions));
  }

  lemma SettledApplied(active: Active, held: (Resolutions, Book), terms: seq<string>)
    requires active == Split(held.0, held.1, terms).0
    requires forall x :: x in held.0 ==> held.0[x].term == x
    ensures forall t :: t in active.vals ==> active.vals[t].term == t && active.vals[t].source == SourceOf(held, t)
  {
    hide Split, Known;
    SplitProperties(held.0, held.1, terms);
  }

  lemma ElicitedReports(s: SessionData, live: bool, book: Book, query: string, active: Active, settled: seq<string>,
                        unresolved: seq<string>, learned: seq<set<string>>, world: World)
    requires active.Valid() && active.keys == settled && Distinct(unresolved)
    requires forall t :: t in unresolved ==> t !in active.vals && t !in s.resolutions && Lower(t) == t
    requires forall t :: t in active.vals ==>
      active.vals[t].term == t && active.vals[t].source == SourceOf((s.resolutions, book), t)
    ensures ReportsApplied(ElicitedStep(s, live, book, query, active, unresolved, learned, world), settled,
                           (s.resolutions, book))
  {
    hide DispatchStep, LearnInSession, LearnForTeam, AddResolved, Applied, ReportsApplied, SourceOf, Picked, Known;
    var r := ElicitedStep(s, live, book, query, active, unresolved, learned, world);
    if world.elicitResolved.Ok? && s.state != Resolved {
      var answers := world.elicitResolved.value;
      var rs := LearnInSession(s.resolutions, answers);
      AddResolvedValid(active, unresolved, rs);
      AddedInOrder(active, unresolved, rs);
      var all := AddResolved(active, unresolved, rs);
      AppliedAre(s.(resolutions := rs, state := Resolved), live, LearnForTeam(book, answers), query, all, [],
                 unresolved, learned + [ResolvedAmong(unresolved, answers)], world);
      PickedResolved(unresolved, rs);
      forall t | t in Picked(unresolved, ResolvedPick(rs))
        ensures t in all.vals && all.vals[t].term == t && all.vals[t].source == FromClarification
      {
        LearnTheSame(s.resolutions, book, answers, t);
      }
      forall t | t in settled
        ensures t in all.vals && all.vals[t] == active.vals[t]
      {
      }
      AppliedReports(r, all, settled, (s.resolutions, book));
    } else {
      NothingReported(r, settled, (s.resolutions, book));
    }
  }

  lemma NothingReported(r: Step, settled: seq<string>, held: (Resolutions, Book))
    ensures r.sent == None || r.outcome.Raised? ==> ReportsApplied(r, settled, held)
  {
  }

  lemma AskReports(cfg: Config, s: SessionData, live: bool, book: Book, query: string,
                   learned: seq<set<string>>, world: World)
    requires ValidConfig(cfg) && (forall x :: x in s.resolutions ==> s.resolutions[x].term == x)
    ensures var held := (s.resolutions, book);
      ReportsApplied(AskOrDispatch(cfg, s, live, book, query, learned, world), TermsOf(cfg, query, held, true), held)
  {
    hide Split, Detect, DispatchStep, ElicitedStep, Applied, ReportsApplied, SourceOf, Picked, Settled, Distinct, Lower;
    var held := (s.resolutions, book);
    var settled := TermsOf(cfg, query, held, true);
    var r := AskOrDispatch(cfg, s, live, book, query, learned, world);
    SplitProperties(s.resolutions, book, Detect(cfg, query));
    DetectProperties(cfg, query);
    var (active, unresolved) := Split(s.resolutions, book, Detect(cfg, query));
    assert active.keys == settled by {
      DetectIsFilter(cfg, query);
      SplitSettles(cfg.vocab, cfg.matches, query, held);
    }
    SettledApplied(active, held, Detect(cfg, query));
    NothingReported(r, settled, held);
    if unresolved == [] || s.rounds >= cfg.maxRounds || world.question.Err? {
      var errors := if unresolved == [] then [] else if s.rounds >= cfg.maxRounds then [RoundsExhausted(unresolved)]
                    else [ClarifierDown(world.question.message)];
      AppliedAre(s, live, book, query, active, errors, [], learned, world);
      NothingPicked(r.session.resolutions);
      AppliedReports(r, active, settled, held);
    } else {
      OpenUnsettled(s.resolutions, book, unresolved);
      ElicitedReports(s.(rounds := s.rounds + 1), live, book, query, active, settled, unresolved, learned, world);
    }
  }

  lemma DetectIsFilter(cfg: Config, query: string)
    ensures Detect(cfg, query) == Filter(cfg.vocab, cfg.matches, query)
  {
  }

  lemma NothingPicked(resolutions: Resolutions)
    ensures Picked([], ResolvedPick(resolutions)) == []
  {
  }

  lemma OpenUnsettled(resolutions: Resolutions, book: Book, terms: seq<string>)
    requires forall t :: t in terms ==> !Settled(resolutions, book, t)
    ensures forall t :: t in terms ==> t !in resolutions
  {
  }

  /**
   A sending call reports as applied first the settled terms of its working query, then the terms
   that the elicited answer resolved, each group in vocabulary order, and each with its source.
   */
  lemma {:induction false} AppliedExactly(cfg: Config, stored: Option<SessionData>, book: Book, call: Call,
                                          world: World)
    requires ValidConfig(cfg) && ReadOk(cfg, stored, call.sessionId)
    ensures var r, held := HandleQuery(cfg, stored, book, call, world), HeldBefore(stored, book, call, world);
      ReportsApplied(r, TermsOf(cfg, WorkingQuery(stored, call), held, true), held)
  {
    hide AskOrDispatch, TermsOf, ReportsApplied, Detect, LearnForTeam, ResolvedAmong, Truthy;
    var r, held := HandleQuery(cfg, stored, book, call, world), HeldBefore(stored, book, call, world);
    var s := if stored.Some? then stored.value else Fresh(call.sessionId);
    TruthyMeans(call.answer);
    TruthyMeans(s.pendingQuery);
    NothingReported(r, TermsOf(cfg, WorkingQuery(stored, call), held, true), held);
    if s.state != Awaiting {
      AskReports(cfg, s, stored.Some?, book, call.query, [], world);
    } else if Truthy(call.answer) {
      if world.resolved.Ok? {
        var answers := world.resolved.value;
        LearnInSessionProperties(s.resolutions, answers);
        AskReports(cfg, Answered(s, answers), true, LearnForTeam(book, answers), PendingQuery(s, call),
                   [ResolvedAmong(s.pendingTerms, answers)], world);
      }
    } else if !Repeats(s, call) {
      AskReports(cfg, Fresh(call.sessionId), false, book, call.query, [], world);
    }
  }
}
