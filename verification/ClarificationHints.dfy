/** With which meaning the terms of a query are sent to the backend. */
module ClarificationHints {
  import opened Collections
  import opened Text
  import opened Sessions
  import opened Conventions
  import opened Clarification
  import opened ClarificationFacts

  /** The meaning of a term: the session's, else the team's. */
  function Meaning(resolutions: Resolutions, book: Book, t: string): Option<string> {
    if t in resolutions then Some(resolutions[t].jqlHint)
    else
      match Known(book, t)
      case Some(c) => Some(c.jqlHint)
      case None => None
  }

  /** The meaning that the session and the team hold after the call. */
  function MeaningAfter(r: Step, t: string): Option<string> {
    Meaning(r.session.resolutions, r.conventions, t)
  }

  ghost predicate HintedAs(d: Dispatch, t: string, meaning: Option<string>) {
    exists i :: 0 <= i < |d.hints| && d.hints[i].0 == t && Some(d.hints[i].1) == meaning
  }

  lemma HintIsActive(active: Active, query: string, t: string, meaning: Option<string>)
    requires active.Valid() && (forall x :: x in active.vals ==> active.vals[x].term == x) && t in active.vals
    ensures HintedAs(Dispatch(query, Hints(active)), t, meaning) <==> meaning == Some(active.vals[t].jqlHint)
  {
    var hints := Hints(active);
    var i :| 0 <= i < |active.keys| && active.keys[i] == t;
    assert hints[i] == (t, active.vals[t].jqlHint);
    assert forall j :: 0 <= j < |hints| && hints[j].0 == t ==> active.keys[j] == t;
  }

  /**
   The elicited answer gives a new meaning to a term that was not asked about, because it was
   settled already.
   */
  predicate Overruled(resolutions: Resolutions, book: Book, asked: seq<string>, world: World, t: string) {
    && asked != [] && t !in asked && world.elicitResolved.Ok?
    && var a := LastAnswer(world.elicitResolved.value, t);
      a.Some? && Some(a.value.jqlHint) != Meaning(resolutions, book, t)
  }

  /** A settled term is sent with the meaning held after the call, unless it was overruled: then with the old one. */
  ghost predicate SentAsMeant(resolutions: Resolutions, book: Book, r: Step, world: World, t: string) {
    r.sent.Some? && Settled(r.session.resolutions, r.conventions, t) ==>
      && (HintedAs(r.sent.value, t, MeaningAfter(r, t)) <==> !Overruled(resolutions, book, r.asked, world, t))
      && (Overruled(resolutions, book, r.asked, world, t) ==>
            HintedAs(r.sent.value, t, Meaning(resolutions, book, t)))
  }

  /** A dispatch without elicitation sends what is held, which it does not change. */
  lemma DispatchAsMeant(s: SessionData, live: bool, book: Book, query: string, active: Active,
                        errors: seq<Warning>, learned: seq<set<string>>, world: World, t: string)
    requires active.Valid() && (forall x :: x in active.vals ==> active.vals[x].term == x)
    requires t in active.vals <==> Settled(s.resolutions, book, t)
    requires t in active.vals ==> Meaning(s.resolutions, book, t) == Some(active.vals[t].jqlHint)
    ensures SentAsMeant(s.resolutions, book, DispatchStep(s, live, book, query, active, errors, [], learned, world),
                        world, t)
  {
    hide DispatchStep, Hints, Settled, HintedAs, Meaning;
    DispatchTrace(s, live, book, query, active, errors, [], learned, world);
    if t in active.vals {
      HintIsActive(active, query, t, Meaning(s.resolutions, book, t));
    }
  }

  /** An answered term means what the last answer about it says; the others keep their meaning. */
  lemma {:induction false} MeaningAfterLearning(resolutions: Resolutions, book: Book, answers: seq<TermAnswer>,
                                                t: string)
    requires Lower(t) == t
    ensures Meaning(LearnInSession(resolutions, answers), LearnForTeam(book, answers), t) ==
            match LastAnswer(answers, t)
            case Some(a) => Some(a.jqlHint)
            case None => Meaning(resolutions, book, t)
  {
    hide Known, LearnForTeam, LearnInSession, LastAnswer;
    LearnTheSame(resolutions, book, answers, t);
  }

  lemma ElicitedAsMeant(s: SessionData, live: bool, book: Book, query: string, active: Active,
                        unresolved: seq<string>, learned: seq<set<string>>, world: World, t: string)
    requires active.Valid() && (forall x :: x in active.vals ==> active.vals[x].term == x)
    requires Lower(t) == t && unresolved != []
    requires t in active.vals <==> Settled(s.resolutions, book, t)
    requires t in active.vals <==> t !in unresolved
    requires t in active.vals ==> Meaning(s.resolutions, book, t) == Some(active.vals[t].jqlHint)
    requires forall x :: x in s.resolutions ==> s.resolutions[x].term == x
    ensures SentAsMeant(s.resolutions, book, ElicitedStep(s, live, book, query, active, unresolved, learned, world),
                        world, t)
  {
    hide Known, DispatchStep, Hints, HintedAs, LearnInSession, LearnForTeam, AddResolved, Lower, LastAnswer;
    if world.elicitResolved.Ok? && Allowed(s.state, Resolved) {
      var answers := world.elicitResolved.value;
      var rs, b := LearnInSession(s.resolutions, answers), LearnForTeam(book, answers);
      LearnInSessionProperties(s.resolutions, answers);
      SettledAfterLearning(s.resolutions, book, answers, t);
      MeaningAfterLearning(s.resolutions, book, answers, t);
      LearnTheSame(s.resolutions, book, answers, t);
      AddResolvedValid(active, unresolved, rs);
      var all := AddResolved(active, unresolved, rs);
      var s' := s.(resolutions := rs, state := Resolved);
      var learned' := learned + [ResolvedAmong(unresolved, answers)];
      DispatchTrace(s', live, b, query, all, [], unresolved, learned', world);
      assert forall x :: x in rs ==> rs[x].term == x;
      if Settled(rs, b, t) {
        assert t in all.vals;
        HintIsActive(all, query, t, Meaning(rs, b, t));
        HintIsActive(all, query, t, Meaning(s.resolutions, book, t));
      }
    }
  }

  lemma AskAsMeant(cfg: Config, s: SessionData, live: bool, book: Book, query: string,
                   learned: seq<set<string>>, world: World, t: string)
    requires ValidConfig(cfg) && Proceeding(s) && t in Detect(cfg, query)
    ensures SentAsMeant(s.resolutions, book, AskOrDispatch(cfg, s, live, book, query, learned, world), world, t)
  {
    hide Split, Detect, DispatchStep, ElicitedStep, HintedAs, SentAsMeant, Lower;
    SplitProperties(s.resolutions, book, Detect(cfg, query));
    DetectProperties(cfg, query);
    var (active, unresolved) := Split(s.resolutions, book, Detect(cfg, query));
    assert forall x :: x in active.vals ==> active.vals[x].term == x;
    if unresolved == [] {
      DispatchAsMeant(s, live, book, query, active, [], learned, world, t);
    } else if s.rounds >= cfg.maxRounds {
      DispatchAsMeant(s, live, book, query, active, [RoundsExhausted(unresolved)], learned, world, t);
    } else if world.question.Err? {
      DispatchAsMeant(s, live, book, query, active, [ClarifierDown(world.question.message)], learned, world, t);
    } else if Truthy(world.elicited) {
      ElicitedAsMeant(s.(rounds := s.rounds + 1), live, book, query, active, unresolved, learned, world, t);
    } else {
      NothingSent(s.resolutions, book, AskOrDispatch(cfg, s, live, book, query, learned, world), world, t);
    }
  }

  lemma NothingSent(resolutions: Resolutions, book: Book, r: Step, world: World, t: string)
    ensures r.sent == None ==> SentAsMeant(resolutions, book, r, world, t)
  {
  }

  /** What session and team hold when detection starts: after a round-trip answer, if one is consumed. */
  function HeldBefore(stored: Option<SessionData>, book: Book, call: Call, world: World): (Resolutions, Book) {
    if stored == None then (map[], book)
    else if stored.value.state != Awaiting then (stored.value.resolutions, book)
    else if !Truthy(call.answer) then (map[], book)
    else if world.resolved.Err? then (stored.value.resolutions, book)
    else (LearnInSession(stored.value.resolutions, world.resolved.value), LearnForTeam(book, world.resolved.value))
  }

  /**
   Every settled term of a sent query is sent with the meaning that session and team hold after
   the call, exactly unless an elicited answer overruled a term that was settled before it: only
   the terms that were asked about are refreshed, so that one is sent with its old meaning while
   the new one is learned.
   */
  lemma {:induction false} TermsSentAsMeant(cfg: Config, stored: Option<SessionData>, book: Book, call: Call,
                                            world: World, t: string)
    requires ValidConfig(cfg) && ReadOk(cfg, stored, call.sessionId)
    ensures var r, (resolutions, before) :=
        HandleQuery(cfg, stored, book, call, world), HeldBefore(stored, book, call, world);
      r.sent.Some? && t in Detect(cfg, r.sent.value.query) ==> SentAsMeant(resolutions, before, r, world, t)
  {
    hide AskOrDispatch, SentAsMeant, Detect;
    var s := if stored.Some? then stored.value else Fresh(call.sessionId);
    if s.state != Awaiting {
      AskTermAsMeant(cfg, s, stored.Some?, book, call.query, [], world, t);
    } else if Truthy(call.answer) {
      if world.resolved.Ok? {
        var answers := world.resolved.value;
        LearnInSessionProperties(s.resolutions, answers);
        AskTermAsMeant(cfg, Answered(s, answers), true, LearnForTeam(book, answers), PendingQuery(s, call),
                       [ResolvedAmong(s.pendingTerms, answers)], world, t);
      }
    } else {
      AskTermAsMeant(cfg, Fresh(call.sessionId), false, book, call.query, [], world, t);
    }
  }

  lemma AskTermAsMeant(cfg: Config, s: SessionData, live: bool, book: Book, query: string,
                       learned: seq<set<string>>, world: World, t: string)
    requires ValidConfig(cfg) && Proceeding(s)
    ensures var r := AskOrDispatch(cfg, s, live, book, query, learned, world);
      r.sent.Some? && t in Detect(cfg, r.sent.value.query) ==> SentAsMeant(s.resolutions, book, r, world, t)
  {
    hide AskOrDispatch, SentAsMeant, Detect;
    SentQuery(cfg, s, live, book, query, learned, world);
    if t in Detect(cfg, query) {
      AskAsMeant(cfg, s, live, book, query, learned, world, t);
    }
  }
}
