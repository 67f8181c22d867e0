/**
 One query_jira call as a function: detect ambiguous terms, resolve them from the session and
 the learned conventions, ask, learn the answer, dispatch. The language model, the user, the
 backend and the clock are the World of the call.
 */
module Clarification {
  import opened Collections
  import opened Text
  import opened Sessions
  import opened Conventions

  // ----- Inputs

  /** The vocabulary and the word matcher of the intent classifier, and the round budget. */
  datatype Config = Config(vocab: seq<string>, matches: (string, string) -> bool, maxRounds: int)

  /** What the vocabulary loader guarantees: distinct lowercased terms. */
  ghost predicate ValidConfig(cfg: Config) {
    && Distinct(cfg.vocab)
    && (forall t :: t in cfg.vocab ==> Lower(t) == t)
  }

  datatype Call = Call(query: string, sessionId: string, answer: Option<string>)

  datatype TermAnswer = TermAnswer(term: string, resolutionKey: string, jqlHint: string)

  datatype LiteResult = LiteResult(
    answer: Option<string>, jql: Option<string>, total: int, shown: int, issues: seq<Issue>)

  /** One backend issue: field name to value, where None is a JSON null. */
  type Issue = Dict<string, Option<string>>

  /**
   What the backend client does: reply, fail with LiteBackendError, or raise anything else, as it
   does for a limit below 1, which it refuses before it sends the request.
   */
  datatype Backend = BackendError(message: string) | Replied(result: LiteResult) | InvalidRequest(message: string)

  predicate IsTransport(message: string) {
    "backend unreachable after retries" <= message
  }

  /** Every external reply one call can consume; each is used at most once. */
  datatype World = World(
    readAt: real,                          // clock when the session is read
    writeAt: real,                         // clock when the session is written
    question: Result<string>,              // formulate_question
    resolved: Result<seq<TermAnswer>>,     // resolve_answer for the round-trip answer
    elicited: Option<string>,              // the elicitation reply; None if unsupported or declined
    elicitResolved: Result<seq<TermAnswer>>,  // resolve_answer for the elicited answer
    backend: Backend)

  // ----- Outputs

  datatype AppliedConvention = AppliedConvention(term: string, jqlHint: string, source: Source)

  datatype Prompt =
    | Clarify(question: string)
    | ExecutionFailed(message: string, applied: seq<AppliedConvention>)
    | ZeroResults(jql: Option<string>, applied: seq<AppliedConvention>)

  datatype Warning =
    | RoundsExhausted(terms: seq<string>)
    | ClarifierDown(message: string)
    | BackendFailure(message: string)

  datatype QueryResponse = QueryResponse(
    sessionId: string,
    requiresUserInput: bool,
    question: Option<Prompt>,
    answer: Option<string>,
    jql: Option<string>,
    total: int,
    shown: int,
    issues: seq<Issue>,
    applied: seq<AppliedConvention>,
    errors: seq<Warning>)

  datatype Exception =
    | ClarifierError(message: string)
    | IllegalTransition(from: ClarificationState, to: ClarificationState)
    | RequestError(message: string)

  datatype Outcome = Returned(response: QueryResponse) | Raised(exception: Exception)

  /** What is sent to the backend: the query and the interpretation hints appended to it. */
  datatype Dispatch = Dispatch(query: string, hints: seq<(string, string)>)

  /**
   The result of a call and its trace. session is the final content of the session object the
   call worked on, live says that this object is the one read from the store, stored that it was
   written to the store. asked lists the terms of the newly formulated question, if any;
   learned has, for each consumed answer, the asked terms it resolved; sent is what the backend
   answered, or failed with LiteBackendError to answer.
   */
  datatype Step = Step(
    outcome: Outcome,
    session: SessionData,
    live: bool,
    stored: bool,
    conventions: Book,
    asked: seq<string>,
    learned: seq<set<string>>,
    sent: Option<Dispatch>)

  // ----- The intent classifier

  /** The vocabulary terms that match text, in vocabulary order. */
  function Filter(vocab: seq<string>, matches: (string, string) -> bool, text: string): seq<string> {
    if vocab == [] then []
    else
      var rest := Filter(vocab[..|vocab| - 1], matches, text);
      if matches(vocab[|vocab| - 1], text) then rest + [vocab[|vocab| - 1]] else rest
  }

  function Detect(cfg: Config, text: string): seq<string> {
    Filter(cfg.vocab, cfg.matches, text)
  }

  lemma {:induction false} FilterProperties(vocab: seq<string>, matches: (string, string) -> bool, text: string)
    ensures forall t :: t in Filter(vocab, matches, text) <==> t in vocab && matches(t, text)
    ensures Distinct(vocab) ==> Distinct(Filter(vocab, matches, text))
  {
    if vocab != [] {
      FilterProperties(vocab[..|vocab| - 1], matches, text);
      assert forall t :: t in vocab <==> t in vocab[..|vocab| - 1] || t == vocab[|vocab| - 1];
    }
  }

  // ----- Splitting and learning

  type Active = Dict<string, TermResolution>

  /** The instance-level convention for term, if one was learned. */
  function Known(book: Book, term: string): Option<Convention> {
    Lookup(book, INSTANCE_DEFAULT, term)
  }

  function FromBook(term: string, c: Convention): TermResolution {
    TermResolution(term, c.resolutionKey, c.jqlHint, FromConvention)
  }

  /** Partition terms into those already resolved and those needing clarification. */
  function Split(resolutions: Resolutions, book: Book, terms: seq<string>): (Active, seq<string>) {
    if terms == [] then (EmptyDict(), [])
    else
      var (active, unresolved) := Split(resolutions, book, terms[..|terms| - 1]);
      var term := terms[|terms| - 1];
      if term in resolutions then (active.Put(term, resolutions[term]), unresolved)
      else
        match Known(book, term)
        case Some(c) => (active.Put(term, FromBook(term, c)), unresolved)
        case None => (active, unresolved + [term])
  }

  function FromAnswer(a: TermAnswer): TermResolution {
    TermResolution(Lower(a.term), a.resolutionKey, a.jqlHint, FromClarification)
  }

  function AsConvention(a: TermAnswer): Convention {
    Convention(INSTANCE_DEFAULT, Lower(a.term), a.resolutionKey, a.jqlHint)
  }

  /** The session resolutions after learning the answers. */
  function LearnInSession(resolutions: Resolutions, answers: seq<TermAnswer>): Resolutions {
    if answers == [] then resolutions
    else
      var a := answers[|answers| - 1];
      LearnInSession(resolutions, answers[..|answers| - 1])[Lower(a.term) := FromAnswer(a)]
  }

  /** The team conventions after learning the answers. */
  function LearnForTeam(book: Book, answers: seq<TermAnswer>): Book {
    if answers == [] then book
    else Record(LearnForTeam(book, answers[..|answers| - 1]), AsConvention(answers[|answers| - 1]))
  }

  /** The terms an answer resolves. */
  function AnsweredTerms(answers: seq<TermAnswer>): set<string> {
    if answers == [] then {}
    else AnsweredTerms(answers[..|answers| - 1]) + {Lower(answers[|answers| - 1].term)}
  }

  /** The asked terms that an answer resolves. */
  function ResolvedAmong(terms: seq<string>, answers: seq<TermAnswer>): set<string> {
    ToSet(terms) * AnsweredTerms(answers)
  }

  /** The elicited resolutions are added to the active ones, in the order asked. */
  function AddResolved(active: Active, terms: seq<string>, resolutions: Resolutions): Active {
    if terms == [] then active
    else
      var a := AddResolved(active, terms[..|terms| - 1], resolutions);
      var term := terms[|terms| - 1];
      if term in resolutions then a.Put(term, resolutions[term]) else a
  }

  // ----- Dispatch

  function Applied(active: Active): seq<AppliedConvention>
    requires active.Valid()
  {
    var items := active.Items();
    seq(|items|, i requires 0 <= i < |items| => AppliedConvention(items[i].term, items[i].jqlHint, items[i].source))
  }

  function Hints(active: Active): seq<(string, string)>
    requires active.Valid()
  {
    var items := active.Items();
    seq(|items|, i requires 0 <= i < |items| => (items[i].term, items[i].jqlHint))
  }

  /** The response assembled from the backend's reply. */
  function Answer(id: string, active: Active, errors: seq<Warning>, backend: Backend): QueryResponse
    requires active.Valid() && !backend.InvalidRequest?
  {
    var applied := Applied(active);
    match backend
    case BackendError(message) =>
      if active.keys != [] && !IsTransport(message) then
        QueryResponse(id, true, Some(ExecutionFailed(message, applied)), None, None, 0, 0, [], applied,
                      errors + [BackendFailure(message)])
      else
        QueryResponse(id, false, None, None, None, 0, 0, [], applied, errors + [BackendFailure(message)])
    case Replied(result) =>
      if result.total == 0 then
        QueryResponse(id, true, Some(ZeroResults(result.jql, applied)), None, result.jql, 0, 0, [], applied, errors)
      else
        QueryResponse(id, false, None, result.answer, result.jql, result.total, result.shown, result.issues,
                      applied, errors)
  }

  /** The session after a dispatch: nothing pending, a fresh round budget. */
  function Cleared(s: SessionData): SessionData {
    s.(state := Dispatched, pendingQuery := None, pendingTerms := [], pendingQuestion := None, rounds := 0)
  }

  function DispatchStep(s: SessionData, live: bool, book: Book, query: string, active: Active,
                        errors: seq<Warning>, asked: seq<string>, learned: seq<set<string>>, world: World): Step
    requires active.Valid()
  {
    if !Allowed(s.state, Dispatched) then
      Step(Raised(IllegalTransition(s.state, Dispatched)), s, live, false, book, asked, learned, None)
    else if world.backend.InvalidRequest? then
      Step(Raised(RequestError(world.backend.message)), Cleared(s), live, true, book, asked, learned, None)
    else
      Step(Returned(Answer(s.id, active, errors, world.backend)), Cleared(s), live, true, book, asked, learned,
           Some(Dispatch(query, Hints(active))))
  }

  // ----- The call

  predicate Truthy(o: Option<string>) {
    o.Some? && o.value != ""
  }

  function QuestionResponse(id: string, question: string): QueryResponse {
    QueryResponse(id, true, Some(Clarify(question)), None, None, 0, 0, [], [], [])
  }

  /** After the user was asked by elicitation and replied. */
  function ElicitedStep(s: SessionData, live: bool, book: Book, query: string, active: Active,
                        unresolved: seq<string>, learned: seq<set<string>>, world: World): Step
    requires active.Valid()
  {
    match world.elicitResolved
    case Err(message) =>
      Step(Raised(ClarifierError(message)), s, live, false, book, unresolved, learned, None)
    case Ok(answers) =>
      var rs := LearnInSession(s.resolutions, answers);
      var book' := LearnForTeam(book, answers);
      var s' := s.(resolutions := rs);
      var learned' := learned + [ResolvedAmong(unresolved, answers)];
      if !Allowed(s.state, Resolved) then
        Step(Raised(IllegalTransition(s.state, Resolved)), s', live, false, book', unresolved, learned', None)
      else
        AddResolvedValid(active, unresolved, rs);
        DispatchStep(s'.(state := Resolved), live, book', query, AddResolved(active, unresolved, rs), [],
                     unresolved, learned', world)
  }

  /** Detection, splitting, and either a question or a dispatch. */
  function AskOrDispatch(cfg: Config, s: SessionData, live: bool, book: Book, query: string,
                         learned: seq<set<string>>, world: World): Step
  {
    SplitProperties(s.resolutions, book, Detect(cfg, query));
    var (active, unresolved) := Split(s.resolutions, book, Detect(cfg, query));
    if unresolved == [] then
      DispatchStep(s, live, book, query, active, [], [], learned, world)
    else if s.rounds >= cfg.maxRounds then
      DispatchStep(s, live, book, query, active, [RoundsExhausted(unresolved)], [], learned, world)
    else
      match world.question
      case Err(message) =>
        DispatchStep(s, live, book, query, active, [ClarifierDown(message)], [], learned, world)
      case Ok(question) =>
        var s' := s.(rounds := s.rounds + 1);
        if Truthy(world.elicited) then
          ElicitedStep(s', live, book, query, active, unresolved, learned, world)
        else if !Allowed(s.state, Awaiting) then
          Step(Raised(IllegalTransition(s.state, Awaiting)), s', live, false, book, unresolved, learned, None)
        else
          var pending := s'.(state := Awaiting, pendingQuery := Some(query), pendingTerms := unresolved,
                             pendingQuestion := Some(question));
          Step(Returned(QuestionResponse(s.id, question)), pending, live, true, book, unresolved, learned, None)
  }

  /** A round-trip answer is learned and the pending query goes on. */
  function AnsweredStep(cfg: Config, s: SessionData, live: bool, book: Book, call: Call, world: World): Step {
    match world.resolved
    case Err(message) => Step(Raised(ClarifierError(message)), s, live, false, book, [], [], None)
    case Ok(answers) =>
      AskOrDispatch(cfg, Answered(s, answers), live, LearnForTeam(book, answers), PendingQuery(s, call),
                    [ResolvedAmong(s.pendingTerms, answers)], world)
  }

  /** handle_query on the session read from the store, if any. */
  function HandleQuery(cfg: Config, stored: Option<SessionData>, book: Book, call: Call, world: World): Step {
    var live := stored.Some?;
    var s := if live then stored.value else Fresh(call.sessionId);
    if s.state != Awaiting then
      AskOrDispatch(cfg, s, live, book, call.query, [], world)
    else if Truthy(call.answer) then
      AnsweredStep(cfg, s, live, book, call, world)
    else if Repeats(s, call) then
      Step(Returned(QuestionResponse(call.sessionId, s.pendingQuestion.value)), s, live, true, book, [], [], None)
    else
      AskOrDispatch(cfg, Fresh(call.sessionId), false, book, call.query, [], world)
  }

  /** The session after learning a round-trip answer; AWAITING to RESOLVED is always allowed. */
  function Answered(s: SessionData, answers: seq<TermAnswer>): SessionData {
    s.(resolutions := LearnInSession(s.resolutions, answers), state := Resolved)
  }

  /** The host repeated the pending query without an answer. */
  predicate Repeats(s: SessionData, call: Call) {
    s.pendingQuery == Some(call.query) && Truthy(s.pendingQuestion)
  }

  /** The query an answer belongs to. */
  function PendingQuery(s: SessionData, call: Call): string {
    if Truthy(s.pendingQuery) then s.pendingQuery.value else call.query
  }

  // ----- What splitting and learning compute

  /** The term is resolved in the session or known to the team. */
  predicate Settled(resolutions: Resolutions, book: Book, term: string) {
    term in resolutions || Known(book, term).Some?
  }

  lemma {:induction false} SplitMembers(resolutions: Resolutions, book: Book, terms: seq<string>)
    ensures var (active, unresolved) := Split(resolutions, book, terms);
      && active.Valid()
      && (forall t :: t in active.vals <==> t in terms && Settled(resolutions, book, t))
      && (forall t :: t in unresolved <==> t in terms && !Settled(resolutions, book, t))
  {
    hide Known, FromBook;
    if terms != [] {
      var init, last := terms[..|terms| - 1], terms[|terms| - 1];
      SplitMembers(resolutions, book, init);
      assert forall t :: t in terms <==> t in init || t == last;
    }
  }

  lemma {:induction false} SplitValues(resolutions: Resolutions, book: Book, terms: seq<string>, t: string)
    requires t in Split(resolutions, book, terms).0.vals
    ensures var active := Split(resolutions, book, terms).0;
      && (t in resolutions ==> active.vals[t] == resolutions[t])
      && (t !in resolutions ==> Known(book, t).Some? && active.vals[t] == FromBook(t, Known(book, t).value))
  {
    hide Known, FromBook;
    var init, last := terms[..|terms| - 1], terms[|terms| - 1];
    if t != last {
      SplitValues(resolutions, book, init, t);
    } else {
      SplitMembers(resolutions, book, terms);
    }
  }

  lemma {:induction false} SplitDistinct(resolutions: Resolutions, book: Book, terms: seq<string>)
    requires Distinct(terms)
    ensures Distinct(Split(resolutions, book, terms).1)
  {
    hide Known, FromBook;
    if terms != [] {
      var init, last := terms[..|terms| - 1], terms[|terms| - 1];
      SplitDistinct(resolutions, book, init);
      SplitMembers(resolutions, book, init);
      assert last !in init;
    }
  }

  /** The resolved and the unresolved terms, and where each resolution comes from. */
  lemma {:induction false} SplitProperties(resolutions: Resolutions, book: Book, terms: seq<string>)
    ensures var (active, unresolved) := Split(resolutions, book, terms);
      && active.Valid()
      && (forall t :: t in active.vals <==> t in terms && Settled(resolutions, book, t))
      && (forall t :: t in unresolved <==> t in terms && !Settled(resolutions, book, t))
      && (Distinct(terms) ==> Distinct(unresolved))
      && (forall t :: t in active.vals && t in resolutions ==> active.vals[t] == resolutions[t])
      && (forall t :: t in active.vals && t !in resolutions ==>
           Known(book, t).Some? && active.vals[t] == FromBook(t, Known(book, t).value))
  {
    hide Split, Known, FromBook, Settled;
    SplitMembers(resolutions, book, terms);
    if Distinct(terms) {
      SplitDistinct(resolutions, book, terms);
    }
    var active := Split(resolutions, book, terms).0;
    forall t | t in active.vals
      ensures t in resolutions ==> active.vals[t] == resolutions[t]
      ensures t !in resolutions ==> Known(book, t).Some? && active.vals[t] == FromBook(t, Known(book, t).value)
    {
      SplitValues(resolutions, book, terms, t);
    }
  }

  lemma {:induction false} AddResolvedValid(active: Active, terms: seq<string>, resolutions: Resolutions)
    requires active.Valid()
    ensures var a := AddResolved(active, terms, resolutions);
      && a.Valid()
      && (forall t :: t in a.vals <==> t in active.vals || (t in terms && t in resolutions))
      && (forall t :: t in a.vals ==>
           a.vals[t] == if t in terms && t in resolutions then resolutions[t] else active.vals[t])
  {
    if terms != [] {
      AddResolvedValid(active, terms[..|terms| - 1], resolutions);
      assert terms == terms[..|terms| - 1] + [terms[|terms| - 1]];
    }
  }
}
