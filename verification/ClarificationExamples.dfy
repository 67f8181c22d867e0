/** Concrete runs from a fresh server that show where the protocol's promises end. */
module ClarificationExamples {
  import opened Collections
  import opened Text
  import opened Sessions
  import opened Conventions
  import opened Clarification
  import opened ClarificationFacts
  import opened ClarificationHints
  import opened ClarificationRuns

  /** A server whose vocabulary x, y is detected in every query, with three rounds per question. */
  function TwoTerms(aliased: bool): Server {
    Server(Config(["x", "y"], (term: string, text: string) => true, 3), 60.0, aliased)
  }

  function Answering(term: string): Result<seq<TermAnswer>> {
    Ok([TermAnswer(term, "key", "hint")])
  }

  /** The server asks session s about x and y. */
  function Asking(sid: string): Event {
    Event(Call("q", sid, None), World(0.0, 0.0, Ok("x and y?"), Err(""), None, Err(""), BackendError("")))
  }

  /** The answer settles x; the next question, about y, is answered by elicitation and resolved. */
  function AnsweringTwice(): Event {
    Event(Call("q", "s", Some("x")),
          World(1.0, 1.0, Ok("y?"), Answering("x"), Some("y"), Answering("y"), BackendError("")))
  }

  /** The answer settles x; the next question, about y, is answered by elicitation, but resolving that fails. */
  function Failing(): Event {
    Event(Call("q", "s", Some("x")),
          World(1.0, 1.0, Ok("y?"), Answering("x"), Some("y"), Err("down"), BackendError("")))
  }

  /** The host calls again without an answer, and elicitation about y succeeds. */
  function Retrying(): Event {
    Event(Call("q", "s", None), World(2.0, 2.0, Ok("y?"), Err(""), Some("y"), Answering("y"), BackendError("")))
  }

  lemma TwoTermsDetected(aliased: bool)
    ensures ValidConfig(TwoTerms(aliased).cfg)
    ensures Detect(TwoTerms(aliased).cfg, "q") == ["x", "y"]
  {
    var vocab, matches := TwoTerms(aliased).cfg.vocab, TwoTerms(aliased).cfg.matches;
    assert Lower("x") == "x" && Lower("y") == "y";
    assert vocab[..1] == ["x"] && vocab[..1][..0] == [];
    assert Filter(vocab[..1], matches, "q") == Filter([], matches, "q") + ["x"];
  }

  lemma UnknownTermIsUnresolved(book: Book, terms: seq<string>, t: string)
    requires Known(book, t) == None
    ensures var (active, unresolved) := Split(map[], book, terms);
      Split(map[], book, terms + [t]) == (active, unresolved + [t])
  {
    assert (terms + [t])[..|terms|] == terms;
  }

  lemma NothingKnown()
    ensures Split(map[], EmptyDict(), ["x", "y"]) == (EmptyDict(), ["x", "y"])
  {
    var book: Book := EmptyDict();
    UnknownTermIsUnresolved(book, [], "x");
    UnknownTermIsUnresolved(book, ["x"], "y");
    assert [] + ["x"] == ["x"] && ["x"] + ["y"] == ["x", "y"];
  }

  /** The session after the first question. */
  function Asked(sid: string): SessionData {
    SessionData(sid, Awaiting, Some("q"), ["x", "y"], Some("x and y?"), 1, map[])
  }

  lemma FirstCallAsks(aliased: bool, g: Global, sid: string)
    requires g.conventions == EmptyDict() && sid !in g.entries
    ensures Next(TwoTerms(aliased), g, Asking(sid)) == Global(g.entries[sid := (60.0, Asked(sid))], EmptyDict())
    ensures StepOf(TwoTerms(aliased), g, Asking(sid)).asked == ["x", "y"]
  {
    hide Detect, Split;
    TwoTermsDetected(aliased);
    NothingKnown();
  }

  /** The state in which session s waits for an answer about x and y, while y is unknown. */
  ghost predicate WaitsForBoth(g: Global) {
    g.entries == map["s" := (60.0, Asked("s"))] && Known(g.conventions, "y") == None
  }

  lemma AfterFirstCall(aliased: bool)
    ensures WaitsForBoth(Reached(TwoTerms(aliased), EmptyDict(), [Asking("s")]))
  {
    hide Next;
    var run := [Asking("s")];
    assert run[..0] == [];
    FirstCallAsks(aliased, Global(map[], EmptyDict()), "s");
  }

  /** The answer x leaves y open. */
  lemma AnswerLeavesOpen(aliased: bool, g: Global)
    requires WaitsForBoth(g)
    ensures ValidConfig(TwoTerms(aliased).cfg)
    ensures AnsweredTerms(Answering("x").value) == {"x"}
    ensures LeavesOpen(TwoTerms(aliased).cfg, Asked("s"), g.conventions, "q", Answering("x").value)
  {
    hide Detect, Known;
    TwoTermsDetected(aliased);
    var answers := Answering("x").value;
    assert AnsweredTerms(answers) == {"x"} by {
      assert Lower("x") == "x" && answers[..0] == [];
    }
    assert "y" in Detect(TwoTerms(aliased).cfg, "q") && !Settled(Asked("s").resolutions, g.conventions, "y");
  }

  // ----- The transition error

  /** With either store two calls reach the transition error, and the stores then differ. */
  lemma {:induction false} TransitionErrorReachable(aliased: bool)
    ensures var sv := TwoTerms(aliased);
      var g := Reached(sv, EmptyDict(), [Asking("s")]);
      && ValidConfig(sv.cfg)
      && StepOf(sv, g, AnsweringTwice()).outcome == Raised(IllegalTransition(Resolved, Resolved))
      && NextAliased(sv, g, AnsweringTwice()) != NextCopied(sv, g, AnsweringTwice())
  {
    hide Reached, HandleQuery, LeavesOpen, Detect;
    var sv, e := TwoTerms(aliased), AnsweringTwice();
    var g := Reached(sv, EmptyDict(), [Asking("s")]);
    AfterFirstCall(aliased);
    AnswerLeavesOpen(aliased, g);
    assert Read(g, e) == Some(Asked("s"));
    TransitionErrorExactly(sv.cfg, Read(g, e), g.conventions, e.call, e.world);
    StepTrace(sv.cfg, Read(g, e), g.conventions, e.call, e.world);
    LiveTrace(sv.cfg, Read(g, e), g.conventions, e.call, e.world);
    RaisedAfterAsking(sv.cfg, Read(g, e), g.conventions, e.call, e.world);
    StoresAgreeExactly(sv, g, e);
  }

  /** A transition error comes after a question. */
  lemma RaisedAfterAsking(cfg: Config, stored: Option<SessionData>, book: Book, call: Call, world: World)
    ensures var r := HandleQuery(cfg, stored, book, call, world);
      r.outcome.Raised? && r.outcome.exception.IllegalTransition? ==> r.asked != []
  {
    hide AskOrDispatch, LearnForTeam, LearnInSession, ResolvedAmong, Detect, Split;
    var s := if stored.Some? then stored.value else Fresh(call.sessionId);
    AskTrace(cfg, s, stored.Some?, book, call.query, [], world);
    AskTrace(cfg, Fresh(call.sessionId), false, book, call.query, [], world);
    if world.resolved.Ok? {
      var answers := world.resolved.value;
      AskTrace(cfg, Answered(s, answers), true, LearnForTeam(book, answers), PendingQuery(s, call),
               [ResolvedAmong(s.pendingTerms, answers)], world);
    }
  }

  /** What the failing call does: it consumes the answer, asks about y, and raises. */
  lemma FailingStep(aliased: bool, g: Global)
    requires WaitsForBoth(g)
    ensures var r, answers := StepOf(TwoTerms(aliased), g, Failing()), Answering("x").value;
      && r.outcome == Raised(ClarifierError("down")) && !r.stored && r.live && r.sent == None
      && r.asked != [] && r.learned == [{"x"}]
      && r.session == Answered(Asked("s"), answers).(rounds := 2)
      && r.conventions == LearnForTeam(g.conventions, answers)
      && Known(r.conventions, "y") == None
  {
    hide Detect, Split, LearnInSession, LearnForTeam, LeavesOpen, Known;
    var cfg, answers := TwoTerms(aliased).cfg, Answering("x").value;
    AnswerLeavesOpen(aliased, g);
    OpenAfterAnswer(cfg, Asked("s"), g.conventions, "q", answers);
    assert Lower("y") == "y";
    LearnForTeamProperties(g.conventions, answers, "y");
    assert ToSet(["x", "y"]) * {"x"} == {"x"};
    assert Read(g, Failing()) == Some(Asked("s"));
  }

  lemma StillOpen(aliased: bool, g: Global)
    requires WaitsForBoth(g)
    ensures var s := Answered(Asked("s"), Answering("x").value).(rounds := 2);
      LeavesOpen(TwoTerms(aliased).cfg, s, LearnForTeam(g.conventions, Answering("x").value), "q", [])
  {
    hide Detect, Known, LearnForTeam;
    var answers := Answering("x").value;
    TwoTermsDetected(aliased);
    AnswerLeavesOpen(aliased, g);
    LearnInSessionProperties(map[], answers);
    assert Lower("y") == "y";
    LearnForTeamProperties(g.conventions, answers, "y");
    assert "y" in Detect(TwoTerms(aliased).cfg, "q");
  }

  /**
   With live objects a call that consumed an answer and raised leaves the session RESOLVED with its
   old question. It is no session that any call would store, and the next call, which brings no
   answer, reaches the transition error from there.
   */
  lemma {:induction false} LiveSessionLeftResolved()
    ensures var sv := TwoTerms(true);
      var g := Reached(sv, EmptyDict(), [Asking("s"), Failing()]);
      && "s" in g.entries && g.entries["s"].1.state == Resolved && g.entries["s"].1.pendingTerms == ["x", "y"]
      && !StoredOk(sv.cfg, g.entries["s"].1)
      && StepOf(sv, g, Retrying()).outcome == Raised(IllegalTransition(Resolved, Resolved))
  {
    hide HandleQuery, LeavesOpen, Detect, LearnForTeam, LearnInSession, Known;
    var sv, run, e := TwoTerms(true), [Asking("s"), Failing()], Retrying();
    assert run[..1] == [Asking("s")];
    var g0, g := Reached(sv, EmptyDict(), run[..1]), Reached(sv, EmptyDict(), run);
    AfterFirstCall(true);
    FailingStep(true, g0);
    assert Read(g0, Failing()) == Some(Asked("s"));
    assert g == NextAliased(sv, g0, Failing());
    StillOpen(true, g0);
    AnswerLeavesOpen(true, g0);
    assert Read(g, e) == Some(Answered(Asked("s"), Answering("x").value).(rounds := 2));
    TransitionErrorExactly(sv.cfg, Read(g, e), g.conventions, e.call, e.world);
  }

  // ----- Forgotten calls

  /** A first question, then n calls that consume the answer and raise. */
  function FailingRun(n: nat): seq<Event> {
    if n == 0 then [Asking("s")] else FailingRun(n - 1) + [Failing()]
  }

  /**
   With a serialising store nothing bounds what calls that raise do: the n calls consume n useful
   answers about two terms and put n more questions to the user, with a budget of three and
   without a dispatch, and the session is as after the first question.
   */
  lemma {:induction false} RaisedCallsUnbounded(n: nat)
    ensures var sv, run := TwoTerms(false), FailingRun(n);
      && |run| == n + 1
      && WaitsForBoth(Reached(sv, EmptyDict(), run))
      && UsefulAnswers(sv, EmptyDict(), run, "s", true) == n
      && UsefulAnswers(sv, EmptyDict(), run, "s", false) == 0
      && (forall i: nat :: i < |run| ==> StepAt(sv, EmptyDict(), run, i).asked != [] &&
                                         StepAt(sv, EmptyDict(), run, i).sent == None)
  {
    hide StepAt, StepOf, Next, Reached, WaitsForBoth, UsefulAnswers, TwoTerms;
    var sv := TwoTerms(false);
    if n == 0 {
      AfterFirstCall(false);
      FirstStep();
    } else {
      var init := FailingRun(n - 1);
      RaisedCallsUnbounded(n - 1);
      FailingChangesNothing(Reached(sv, EmptyDict(), init));
      OneMore(sv, EmptyDict(), init, Failing());
      OneMoreCounted(sv, init, true);
      OneMoreCounted(sv, init, false);
    }
  }

  lemma OneMoreCounted(sv: Server, init: seq<Event>, all: bool)
    ensures var r := StepOf(sv, Reached(sv, EmptyDict(), init), Failing());
      UsefulAnswers(sv, EmptyDict(), init + [Failing()], "s", all) ==
      UsefulAnswers(sv, EmptyDict(), init, "s", all) + if all || r.stored then NonEmpty(r.learned) else 0
  {
    hide StepOf, Reached, NonEmpty;
    assert (init + [Failing()])[..|init|] == init;
  }

  lemma FirstStep()
    ensures var sv, run := TwoTerms(false), FailingRun(0);
      && |run| == 1 && StepAt(sv, EmptyDict(), run, 0).asked != [] && StepAt(sv, EmptyDict(), run, 0).sent == None
      && UsefulAnswers(sv, EmptyDict(), run, "s", true) == 0
      && UsefulAnswers(sv, EmptyDict(), run, "s", false) == 0
  {
    hide Next;
    var run := FailingRun(0);
    assert run[..0] == [];
    FirstCallOnly();
    assert Reached(TwoTerms(false), EmptyDict(), []) == Global(map[], EmptyDict());
    assert UsefulAnswers(TwoTerms(false), EmptyDict(), [], "s", true) == 0;
    assert UsefulAnswers(TwoTerms(false), EmptyDict(), [], "s", false) == 0;
  }

  lemma FirstCallOnly()
    ensures var r := StepOf(TwoTerms(false), Global(map[], EmptyDict()), Asking("s"));
      r.asked != [] && r.sent == None && r.learned == [] && NonEmpty(r.learned) == 0
  {
    hide Detect, Split;
    TwoTermsDetected(false);
    NothingKnown();
  }

  lemma FailingChangesNothing(g: Global)
    requires WaitsForBoth(g)
    ensures var r := StepOf(TwoTerms(false), g, Failing());
      && WaitsForBoth(Next(TwoTerms(false), g, Failing()))
      && !r.stored && r.asked != [] && r.sent == None && NonEmpty(r.learned) == 1
  {
    hide HandleQuery, Known;
    FailingStep(false, g);
    var learned := [{"x"}];
    assert learned[..0] == [];
  }

  // ----- A question about a learned term

  /** Session b is asked and answers by elicitation, which teaches x and y. */
  function Teaching(): Event {
    Event(Call("q", "b", None),
          World(1.0, 1.0, Ok("x and y?"), Err(""), Some("x, y"),
                Ok([TermAnswer("x", "key", "hint"), TermAnswer("y", "key", "hint")]), BackendError("")))
  }

  /** Sessions a and b are asked about x and y, b's answer teaches both, and a's host repeats its query. */
  lemma {:induction false} LearnedTermAskedAgain(aliased: bool)
    ensures var sv, run := TwoTerms(aliased), [Asking("a"), Teaching(), Asking("a")];
      && Known(Reached(sv, EmptyDict(), run[..2]).conventions, "x").Some?
      && StepAt(sv, EmptyDict(), run, 2).outcome == Returned(QuestionResponse("a", "x and y?"))
      && AsksAbout(StepAt(sv, EmptyDict(), run, 2), "x")
  {
    hide HandleQuery, Known, AsksAbout;
    var sv, run := TwoTerms(aliased), [Asking("a"), Teaching(), Asking("a")];
    assert run[..1] == [Asking("a")] && run[..1][..0] == [];
    assert run[..2][..1] == run[..1] && run[..2][1] == Teaching();
    var start: Global := Global(map[], EmptyDict());
    var g1, g2 := Reached(sv, EmptyDict(), run[..1]), Reached(sv, EmptyDict(), run[..2]);
    assert Reached(sv, EmptyDict(), run[..1]) == Next(sv, start, Asking("a"));
    FirstCallAsks(aliased, start, "a");
    TeachingStep(aliased, g1);
    assert g2 == Next(sv, g1, Teaching());
    assert Read(g2, Asking("a")) == Some(Asked("a"));
    RepetitionIsFree(sv, g2, Asking("a"));
    AskedAboutX(StepAt(sv, EmptyDict(), run, 2));
  }

  lemma AskedAboutX(r: Step)
    requires r.session == Asked("a") && r.outcome == Returned(QuestionResponse("a", "x and y?"))
    ensures AsksAbout(r, "x")
  {
  }

  lemma TeachingStep(aliased: bool, g: Global)
    requires g == Global(map["a" := (60.0, Asked("a"))], EmptyDict())
    ensures var r := StepOf(TwoTerms(aliased), g, Teaching());
      Known(r.conventions, "x").Some? && !r.live && r.session.id == "b"
  {
    hide Detect, Split, LearnInSession, LearnForTeam, Known, AddResolved, Answer, Hints;
    var answers := Teaching().world.elicitResolved.value;
    TwoTermsDetected(aliased);
    NothingKnown();
    assert Lower("x") == "x";
    assert "x" in AnsweredTerms(answers) by {
      var init := answers[..1];
      assert init[..0] == [] && init[0] == answers[0];
      assert Lower(init[0].term) in AnsweredTerms(init);
      assert AnsweredTerms(init) <= AnsweredTerms(answers);
    }
    LearnForTeamProperties(EmptyDict(), answers, "x");
    AddResolvedValid(EmptyDict(), ["x", "y"], LearnInSession(map[], answers));
    assert Read(g, Teaching()) == None;
  }

  // ----- An old hint

  /** The team knows x as old. */
  function KnowingX(): Book {
    Record(EmptyDict(), Convention(INSTANCE_DEFAULT, "x", "key", "old"))
  }

  /** Asked about y, the user answers by elicitation that x is new and y is hint. */
  function Overruling(): Event {
    Event(Call("q", "s", None),
          World(0.0, 0.0, Ok("y?"), Err(""), Some("x is new"),
                Ok([TermAnswer("x", "key", "new"), TermAnswer("y", "key", "hint")]), BackendError("")))
  }

  lemma OnlyYOpen()
    ensures Known(KnowingX(), "x") == Some(Convention(INSTANCE_DEFAULT, "x", "key", "old"))
    ensures Split(map[], KnowingX(), ["x", "y"]).1 == ["y"]
  {
    assert Lower("x") == "x" && Lower("y") == "y" && Lower("x") != Lower("y");
    var terms := ["x", "y"];
    assert terms[..1] == ["x"] && ["x"][..0] == [];
    assert Known(KnowingX(), "y") == None;
    assert Split(map[], KnowingX(), ["x"]).1 == [];
    UnknownTermIsUnresolved(KnowingX(), ["x"], "y");
    assert ["x"] + ["y"] == terms && [] + ["y"] == ["y"];
  }

  lemma XIsNew()
    ensures var answers := Overruling().world.elicitResolved.value;
      && LastAnswer(answers, "x") == Some(TermAnswer("x", "key", "new"))
      && "x" in LearnInSession(map[], answers) && LearnInSession(map[], answers)["x"].jqlHint == "new"
  {
    var answers := Overruling().world.elicitResolved.value;
    var init := answers[..1];
    assert init == [TermAnswer("x", "key", "new")] && init[..0] == [];
    assert Lower("x") == "x" && Lower("y") == "y";
    assert LastAnswer(init, "x") == Some(init[0]) && "x" in LearnInSession(map[], init);
  }

  lemma OverrulingStep(aliased: bool)
    ensures var r := StepOf(TwoTerms(aliased), Global(map[], KnowingX()), Overruling());
      && r.sent.Some? && r.sent.value.query == "q" && r.asked == ["y"]
      && r.session.resolutions == LearnInSession(map[], Overruling().world.elicitResolved.value)
  {
    hide Detect, Split, LearnInSession, LearnForTeam, Known, AddResolved, Answer, Hints, KnowingX;
    var answers := Overruling().world.elicitResolved.value;
    TwoTermsDetected(aliased);
    OnlyYOpen();
    SplitProperties(map[], KnowingX(), ["x", "y"]);
    AddResolvedValid(Split(map[], KnowingX(), ["x", "y"]).0, ["y"], LearnInSession(map[], answers));
  }

  /** The backend is told that x means old, while session and team learn that it means new. */
  lemma {:induction false} OldHintSent(aliased: bool)
    ensures var r := StepOf(TwoTerms(aliased), Global(map[], KnowingX()), Overruling());
      && r.sent.Some? && HintedAs(r.sent.value, "x", Some("old"))
      && MeaningAfter(r, "x") == Some("new") && !HintedAs(r.sent.value, "x", Some("new"))
  {
    hide HandleQuery, Detect, LearnInSession, Known, KnowingX, HintedAs;
    var sv, e := TwoTerms(aliased), Overruling();
    var r := StepOf(sv, Global(map[], KnowingX()), e);
    TwoTermsDetected(aliased);
    OnlyYOpen();
    XIsNew();
    OverrulingStep(aliased);
    assert Read(Global(map[], KnowingX()), e) == None;
    TermsSentAsMeant(sv.cfg, None, KnowingX(), e.call, e.world, "x");
    assert "x" in Detect(sv.cfg, "q");
    assert Meaning(map[], KnowingX(), "x") == Some("old");
    assert Overruled(map[], KnowingX(), r.asked, e.world, "x");
  }
}
