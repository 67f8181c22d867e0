/**
 Runs of query_jira calls over all sessions, with shared learned conventions and expiring
 sessions, under the two stores: one that hands out the live session object and one that
 serialises it. Calls may raise anywhere; what they leave behind depends on the store.
 */
module ClarificationRuns {
  import opened Collections
  import opened Text
  import opened TtlStores
  import opened Sessions
  import opened Conventions
  import opened Clarification
  import opened ClarificationFacts

  datatype Global = Global(entries: Entries<SessionData>, conventions: Book)

  datatype Event = Event(call: Call, world: World)

  /** The configuration, the session lifetime, and whether the store hands out live objects. */
  datatype Server = Server(cfg: Config, ttl: real, aliased: bool)

  function Read(g: Global, e: Event): Option<SessionData> {
    LiveAt(g.entries, e.call.sessionId, e.world.readAt)
  }

  function StepOf(sv: Server, g: Global, e: Event): Step {
    HandleQuery(sv.cfg, Read(g, e), g.conventions, e.call, e.world)
  }

  /** With a serialising store only a write changes what is kept. */
  function KeptCopied(base: Entries<SessionData>, sid: string, r: Step, expiry: real): Entries<SessionData> {
    if r.stored then base[sid := (expiry, r.session)] else base
  }

  /** With a store of live objects, changes to the object that was read show even without a write. */
  function KeptAliased(base: Entries<SessionData>, sid: string, r: Step, expiry: real): Entries<SessionData> {
    var touched := if r.live && sid in base then base[sid := (base[sid].0, r.session)] else base;
    if r.stored then touched[sid := (expiry, r.session)] else touched
  }

  function NextCopied(sv: Server, g: Global, e: Event): Global {
    var r := StepOf(sv, g, e);
    var base := AfterGet(g.entries, e.call.sessionId, e.world.readAt);
    Global(KeptCopied(base, e.call.sessionId, r, e.world.writeAt + sv.ttl), r.conventions)
  }

  function NextAliased(sv: Server, g: Global, e: Event): Global {
    var r := StepOf(sv, g, e);
    var base := AfterGet(g.entries, e.call.sessionId, e.world.readAt);
    Global(KeptAliased(base, e.call.sessionId, r, e.world.writeAt + sv.ttl), r.conventions)
  }

  /** One call with the store that the server is configured with. */
  function Next(sv: Server, g: Global, e: Event): Global {
    if sv.aliased then NextAliased(sv, g, e) else NextCopied(sv, g, e)
  }

  /**
   What a later read finds: what the call wrote, for ttl from its write on; else what was there, in
   which a store of live objects shows the changes of the call. Other sessions stay as they were.
   */
  lemma {:induction false} FoundAfterCall(sv: Server, g: Global, e: Event, sid: string, now: real)
    ensures var r, found := StepOf(sv, g, e), LiveAt(Next(sv, g, e).entries, sid, now);
      if sid != e.call.sessionId then found == LiveAt(g.entries, sid, now)
      else if r.stored then found == if now < e.world.writeAt + sv.ttl then Some(r.session) else None
      else if sid in g.entries && e.world.readAt < g.entries[sid].0 && now < g.entries[sid].0
      then found == Some(if sv.aliased && r.live then r.session else g.entries[sid].1)
      else found == None
  {
    hide HandleQuery;
    LiveTrace(sv.cfg, Read(g, e), g.conventions, e.call, e.world);
  }

  /** The protocol state after some calls from state g. */
  function AfterCalls(sv: Server, g: Global, calls: seq<Event>): Global {
    if calls == [] then g else Next(sv, AfterCalls(sv, g, calls[..|calls| - 1]), calls[|calls| - 1])
  }

  /** The state after a run that starts without sessions and with the conventions of book. */
  function Reached(sv: Server, book: Book, run: seq<Event>): Global {
    if run == [] then Global(map[], book)
    else Next(sv, Reached(sv, book, run[..|run| - 1]), run[|run| - 1])
  }

  /** The i-th call of the run. */
  function StepAt(sv: Server, book: Book, run: seq<Event>, i: nat): Step
    requires i < |run|
  {
    StepOf(sv, Reached(sv, book, run[..i]), run[i])
  }

  lemma OneMore(sv: Server, book: Book, init: seq<Event>, e: Event)
    ensures var run := init + [e];
      && Reached(sv, book, run) == Next(sv, Reached(sv, book, init), e)
      && StepAt(sv, book, run, |init|) == StepOf(sv, Reached(sv, book, init), e)
      && (forall i: nat :: i < |init| ==> StepAt(sv, book, run, i) == StepAt(sv, book, init, i))
  {
    hide Next, StepOf;
    var run := init + [e];
    assert run[..|init|] == init;
    assert forall i: nat :: i < |init| ==> run[..i] == init[..i];
  }

  // ----- The invariant over all runs

  /** Every kept session is within its budget; in a serialising store it is as some call wrote it. */
  ghost predicate GlobalOk(sv: Server, g: Global) {
    && ValidConfig(sv.cfg) && Filed(g.conventions)
    && (forall sid :: sid in g.entries ==> EntryOk(sv, sid, g.entries[sid].1))
  }

  ghost predicate EntryOk(sv: Server, sid: string, s: SessionData) {
    SessionOk(sv.cfg, s) && s.id == sid && (sv.aliased || StoredOk(sv.cfg, s))
  }

  /** One call keeps this. */
  lemma StepKeepsGlobal(sv: Server, g: Global, e: Event)
    requires GlobalOk(sv, g)
    ensures ReadOk(sv.cfg, Read(g, e), e.call.sessionId)
    ensures GlobalOk(sv, Next(sv, g, e))
  {
    hide HandleQuery, StoredOk, SessionOk, Filed;
    assert ReadOk(sv.cfg, Read(g, e), e.call.sessionId);
    StoredInvariant(sv.cfg, Read(g, e), g.conventions, e.call, e.world);
    StoredIsOk(sv.cfg, StepOf(sv, g, e).session);
  }

  /** So do any number of calls, from any such state. */
  lemma {:induction false} CallsKeepGlobal(sv: Server, g: Global, calls: seq<Event>)
    requires GlobalOk(sv, g)
    ensures GlobalOk(sv, AfterCalls(sv, g, calls))
  {
    hide Next, GlobalOk;
    if calls != [] {
      CallsKeepGlobal(sv, g, calls[..|calls| - 1]);
      StepKeepsGlobal(sv, AfterCalls(sv, g, calls[..|calls| - 1]), calls[|calls| - 1]);
    }
  }

  /** Every session of every run is within its budget, whatever raises and expires. */
  lemma {:induction false} RunInvariant(sv: Server, book: Book, run: seq<Event>)
    requires ValidConfig(sv.cfg) && Filed(book)
    ensures GlobalOk(sv, Reached(sv, book, run))
  {
    hide Next;
    if run != [] {
      RunInvariant(sv, book, run[..|run| - 1]);
      StepKeepsGlobal(sv, Reached(sv, book, run[..|run| - 1]), run[|run| - 1]);
    }
  }

  // ----- The two stores

  /** The call changed the object it read and raised without writing it. */
  predicate Diverges(r: Step) {
    RaisedUnstored(r) && r.live && r.asked != []
  }

  /**
   One call leaves both stores alike unless it raises, before the request to the backend, after
   it had put a question to the user while working on the stored session; then, and only then,
   the live object shows a change that was never written.
   */
  lemma {:induction false} StoresAgreeExactly(sv: Server, g: Global, e: Event)
    ensures NextAliased(sv, g, e) == NextCopied(sv, g, e) <==> !Diverges(StepOf(sv, g, e))
  {
    hide HandleQuery;
    StepTrace(sv.cfg, Read(g, e), g.conventions, e.call, e.world);
    var r := StepOf(sv, g, e);
    var sid := e.call.sessionId;
    var base := AfterGet(g.entries, sid, e.world.readAt);
    if r.stored {
      if sid in base {
        assert base[sid := (base[sid].0, r.session)][sid := (e.world.writeAt + sv.ttl, r.session)] ==
          base[sid := (e.world.writeAt + sv.ttl, r.session)];
      }
    } else if r.live {
      if r.asked == [] {
        assert base[sid := (base[sid].0, r.session)] == base;
      } else {
        assert NextAliased(sv, g, e).entries[sid].1.rounds == NextCopied(sv, g, e).entries[sid].1.rounds + 1;
      }
    }
  }

  function Live(sv: Server): Server { sv.(aliased := true) }

  function Copying(sv: Server): Server { sv.(aliased := false) }

  /** No call of the run makes the stores diverge; in particular, no call raises. */
  ghost predicate Converging(sv: Server, book: Book, run: seq<Event>) {
    forall i: nat :: i < |run| ==> !Diverges(StepAt(Copying(sv), book, run, i))
  }

  /** The stores hold the same after every call of the run. */
  ghost predicate SameThroughout(sv: Server, book: Book, run: seq<Event>) {
    forall i: nat :: i <= |run| ==> Reached(Live(sv), book, run[..i]) == Reached(Copying(sv), book, run[..i])
  }

  /**
   A run is the same under both stores, with the same sessions and conventions after every call,
   exactly if no call makes them diverge; then every call has the same step and response.
   */
  lemma {:induction false} StoreRefinement(sv: Server, book: Book, run: seq<Event>)
    ensures SameThroughout(sv, book, run) <==> Converging(sv, book, run)
    ensures Converging(sv, book, run) ==>
      forall i: nat :: i < |run| ==> StepAt(Live(sv), book, run, i) == StepAt(Copying(sv), book, run, i)
  {
    hide StepOf, NextCopied, NextAliased, Diverges, Reached;
    if SameThroughout(sv, book, run) {
      forall i: nat | i < |run|
        ensures !Diverges(StepAt(Copying(sv), book, run, i))
      {
        assert Reached(Live(sv), book, run[..i + 1]) == Reached(Copying(sv), book, run[..i + 1]);
        BothStep(sv, book, run, i);
      }
    }
    if Converging(sv, book, run) {
      forall i: nat | i <= |run|
        ensures Reached(Live(sv), book, run[..i]) == Reached(Copying(sv), book, run[..i])
      {
        ConvergingUpTo(sv, book, run, i);
      }
      forall i: nat | i < |run|
        ensures StepAt(Live(sv), book, run, i) == StepAt(Copying(sv), book, run, i)
      {
        ConvergingUpTo(sv, book, run, i);
        SameStep(sv, Reached(Copying(sv), book, run[..i]), run[i]);
      }
    }
  }

  lemma SameStep(sv: Server, g: Global, e: Event)
    ensures StepOf(Live(sv), g, e) == StepOf(Copying(sv), g, e) == StepOf(sv, g, e)
  {
    hide HandleQuery;
  }

  /** From the same state, one call keeps the stores alike exactly if it does not diverge. */
  lemma BothStep(sv: Server, book: Book, run: seq<Event>, i: nat)
    requires i < |run| && Reached(Live(sv), book, run[..i]) == Reached(Copying(sv), book, run[..i])
    ensures Reached(Live(sv), book, run[..i + 1]) == Reached(Copying(sv), book, run[..i + 1]) <==>
            !Diverges(StepAt(Copying(sv), book, run, i))
  {
    hide HandleQuery, KeptAliased, KeptCopied;
    var next := run[..i + 1];
    assert next[..|next| - 1] == run[..i] && next[|next| - 1] == run[i];
    var g := Reached(Copying(sv), book, run[..i]);
    StoresAgreeExactly(sv, g, run[i]);
    assert Reached(Live(sv), book, next) == NextAliased(sv, g, run[i]);
    assert Reached(Copying(sv), book, next) == NextCopied(sv, g, run[i]);
  }

  lemma {:induction false} ConvergingUpTo(sv: Server, book: Book, run: seq<Event>, i: nat)
    requires i <= |run| && Converging(sv, book, run)
    ensures Reached(Live(sv), book, run[..i]) == Reached(Copying(sv), book, run[..i])
  {
    hide StepAt, Next;
    if i > 0 {
      ConvergingUpTo(sv, book, run, i - 1);
      BothStep(sv, book, run, i - 1);
    }
  }

  // ----- Without elicitation

  lemma AskWithoutElicitation(cfg: Config, s: SessionData, live: bool, book: Book, query: string,
                              learned: seq<set<string>>, world: World)
    requires !Truthy(world.elicited)
    ensures var r := AskOrDispatch(cfg, s, live, book, query, learned, world);
      r.outcome.Raised? ==> r.outcome.exception.RequestError?
  {
    hide Split, Detect, Hints, Answer;
    SplitProperties(s.resolutions, book, Detect(cfg, query));
  }

  lemma CallWithoutElicitation(cfg: Config, stored: Option<SessionData>, book: Book, call: Call, world: World)
    requires !Truthy(world.elicited)
    ensures var r := HandleQuery(cfg, stored, book, call, world);
      r.outcome.Raised? ==>
        || r.outcome.exception.RequestError?
        || (r.outcome.exception.ClarifierError? && world.resolved.Err? && r.asked == [])
  {
    hide AskOrDispatch, LearnForTeam, LearnInSession, ResolvedAmong;
    var s := if stored.Some? then stored.value else Fresh(call.sessionId);
    if s.state != Awaiting {
      AskWithoutElicitation(cfg, s, stored.Some?, book, call.query, [], world);
    } else if Truthy(call.answer) {
      if world.resolved.Ok? {
        var answers := world.resolved.value;
        AskWithoutElicitation(cfg, Answered(s, answers), true, LearnForTeam(book, answers), PendingQuery(s, call),
                              [ResolvedAmong(s.pendingTerms, answers)], world);
      }
    } else {
      AskWithoutElicitation(cfg, Fresh(call.sessionId), false, book, call.query, [], world);
    }
  }

  /**
   In a run without elicitation no call raises a transition error, whichever store is used: a call
   raises only if its answer cannot be resolved or its request is invalid. So the stores agree
   throughout, even though calls may raise.
   */
  lemma {:induction false} NoElicitationNoTransitionError(sv: Server, book: Book, run: seq<Event>)
    requires forall e :: e in run ==> !Truthy(e.world.elicited)
    ensures forall i: nat :: i < |run| && StepAt(sv, book, run, i).outcome.Raised? ==>
      || StepAt(sv, book, run, i).outcome.exception.RequestError?
      || (StepAt(sv, book, run, i).outcome.exception.ClarifierError? && run[i].world.resolved.Err?)
    ensures SameThroughout(sv, book, run)
  {
    hide HandleQuery, Reached, SameThroughout;
    forall i: nat | i < |run|
      ensures var r := StepAt(sv, book, run, i);
        r.outcome.Raised? ==> r.outcome.exception.RequestError? ||
                              (r.outcome.exception.ClarifierError? && run[i].world.resolved.Err?)
      ensures !Diverges(StepAt(Copying(sv), book, run, i))
    {
      var e := run[i];
      CallWithoutElicitation(sv.cfg, Read(Reached(sv, book, run[..i]), e), Reached(sv, book, run[..i]).conventions,
                             e.call, e.world);
      var g := Reached(Copying(sv), book, run[..i]);
      CallWithoutElicitation(sv.cfg, Read(g, e), g.conventions, e.call, e.world);
    }
    StoreRefinement(sv, book, run);
  }

  // ----- Learned once, never asked again

  lemma StepLearnsGlobally(sv: Server, g: Global, e: Event, t: string)
    requires ValidConfig(sv.cfg) && Lower(t) == t
    ensures Known(g.conventions, t).Some? ==> Known(Next(sv, g, e).conventions, t).Some?
    ensures t in StepOf(sv, g, e).asked ==> Known(g.conventions, t) == None
  {
    hide HandleQuery, Known;
    StepLearns(sv.cfg, Read(g, e), g.conventions, e.call, e.world, t);
  }

  /** What the team knows only grows along a run, under either store and whatever raises. */
  lemma {:induction false} KnownGrows(sv: Server, book: Book, run: seq<Event>, i: nat, t: string)
    requires ValidConfig(sv.cfg) && Lower(t) == t && i <= |run|
    requires Known(Reached(sv, book, run[..i]).conventions, t).Some?
    ensures Known(Reached(sv, book, run).conventions, t).Some?
  {
    hide Next, Known;
    if i < |run| {
      var init := run[..|run| - 1];
      assert init[..i] == run[..i];
      KnownGrows(sv, book, init, i, t);
      StepLearnsGlobally(sv, Reached(sv, book, init), run[|run| - 1], t);
    } else {
      assert run[..i] == run;
    }
  }

  /** A term known after the first i calls of a run, in whatever session, is in no later new question. */
  lemma {:induction false} NeverAskedAgain(sv: Server, book: Book, run: seq<Event>, i: nat, j: nat, t: string)
    requires ValidConfig(sv.cfg) && Lower(t) == t && i <= j < |run|
    requires Known(Reached(sv, book, run[..i]).conventions, t).Some?
    ensures t !in StepAt(sv, book, run, j).asked
  {
    hide StepOf, Next, Known;
    assert run[..j][..i] == run[..i];
    KnownGrows(sv, book, run[..j], i, t);
    StepLearnsGlobally(sv, Reached(sv, book, run[..j]), run[j], t);
  }

  /**
   A later call puts a question about a known term exactly if it repeats the pending query of its
   session without an answer and the term was pending there: a cached question is issued again.
   */
  lemma {:induction false} KnownTermReissuedExactly(sv: Server, book: Book, run: seq<Event>, i: nat, j: nat, t: string)
    requires ValidConfig(sv.cfg) && Filed(book) && Lower(t) == t && i <= j < |run|
    requires Known(Reached(sv, book, run[..i]).conventions, t).Some?
    ensures var stored := Read(Reached(sv, book, run[..j]), run[j]);
      AsksAbout(StepAt(sv, book, run, j), t) <==>
      RepeatsPending(stored, run[j].call) && t in stored.value.pendingTerms
  {
    hide HandleQuery, Next, Known, RepeatsPending, AsksAbout, ReadOk;
    assert run[..j][..i] == run[..i];
    KnownGrows(sv, book, run[..j], i, t);
    RunInvariant(sv, book, run[..j]);
    var g, e := Reached(sv, book, run[..j]), run[j];
    StepKeepsGlobal(sv, g, e);
    KnownTermAskedExactly(sv.cfg, Read(g, e), g.conventions, e.call, e.world, t);
  }

  // ----- How often one session is asked

  function Union(sets: seq<set<string>>): set<string> {
    if sets == [] then {} else Union(sets[..|sets| - 1]) + sets[|sets| - 1]
  }

  function NonEmpty(sets: seq<set<string>>): nat {
    if sets == [] then 0 else NonEmpty(sets[..|sets| - 1]) + if sets[|sets| - 1] != {} then 1 else 0
  }

  /** The calls on sid that count: all of them, or those that wrote the session. */
  predicate Counts(e: Event, r: Step, sid: string, all: bool) {
    e.call.sessionId == sid && (all || r.stored)
  }

  /** The asked terms that the consumed answers of the counted calls on sid resolved. */
  function Witnesses(sv: Server, book: Book, run: seq<Event>, sid: string, all: bool): set<string> {
    if run == [] then {}
    else
      var init, e := run[..|run| - 1], run[|run| - 1];
      var r := StepOf(sv, Reached(sv, book, init), e);
      Witnesses(sv, book, init, sid, all) + if Counts(e, r, sid, all) then Union(r.learned) else {}
  }

  /** The answered clarifications of sid, in the counted calls, that resolved at least one asked term. */
  function UsefulAnswers(sv: Server, book: Book, run: seq<Event>, sid: string, all: bool): nat {
    if run == [] then 0
    else
      var init, e := run[..|run| - 1], run[|run| - 1];
      var r := StepOf(sv, Reached(sv, book, init), e);
      UsefulAnswers(sv, book, init, sid, all) + if Counts(e, r, sid, all) then NonEmpty(r.learned) else 0
  }

  lemma OneSet(a: set<string>)
    ensures Union([a]) == a && NonEmpty([a]) == if a != {} then 1 else 0
  {
    assert [a][..0] == [];
  }

  lemma TwoSets(a: set<string>, b: set<string>)
    ensures Union([a, b]) == a + b
    ensures NonEmpty([a, b]) == NonEmpty([a]) + if b != {} then 1 else 0
  {
    assert [a, b][..1] == [a];
    OneSet(a);
  }

  lemma PairUnion(sets: seq<set<string>>)
    requires |sets| <= 2 && (|sets| == 2 ==> sets[0] !! sets[1])
    ensures NonEmpty(sets) <= |Union(sets)|
    ensures forall t :: t in Union(sets) <==> exists i :: 0 <= i < |sets| && t in sets[i]
  {
    if |sets| == 2 {
      hide Union, NonEmpty;
      var a, b := sets[0], sets[1];
      OneSet(a);
      TwoSets(a, b);
      assert sets == [a, b] && |a + b| == |a| + |b|;
    } else if |sets| == 1 {
      hide Union, NonEmpty;
      OneSet(sets[0]);
      assert sets == [sets[0]];
    }
  }

  /** The terms one call of a session resolves are in the vocabulary, known afterwards and new to it. */
  lemma StepWitnesses(sv: Server, g: Global, e: Event, seen: set<string>)
    requires GlobalOk(sv, g)
    requires forall t :: t in seen ==> t in sv.cfg.vocab && Known(g.conventions, t).Some?
    requires forall t :: t in seen ==> !WasPending(Read(g, e), t)
    ensures var r := StepOf(sv, g, e);
      && |r.learned| <= 2
      && NonEmpty(r.learned) <= |Union(r.learned)|
      && Union(r.learned) !! seen
      && Union(r.learned) <= ToSet(sv.cfg.vocab)
      && (forall t :: t in Union(r.learned) || t in seen ==> Known(r.conventions, t).Some?)
  {
    hide HandleQuery, Known, Union, NonEmpty, Lower, WasPending, EntryOk;
    var r := StepOf(sv, g, e);
    StepKeepsGlobal(sv, g, e);
    OnlyVocabulary(sv.cfg, Read(g, e), g.conventions, e.call, e.world);
    StepLearns(sv.cfg, Read(g, e), g.conventions, e.call, e.world, Lower(""));
    forall t | t in sv.cfg.vocab
      ensures Known(g.conventions, t).Some? ==> Known(r.conventions, t).Some?
      ensures t in r.asked ==> Known(g.conventions, t) == None
      ensures forall i :: 0 <= i < |r.learned| && t in r.learned[i] ==>
        Known(r.conventions, t).Some? && (WasPending(Read(g, e), t) || t in r.asked)
      ensures |r.learned| == 2 ==> !(t in r.learned[0] && t in r.learned[1])
    {
      StepLearns(sv.cfg, Read(g, e), g.conventions, e.call, e.world, t);
    }
    PairUnion(r.learned);
  }

  /** What sid still waits for has not been witnessed, and what has been witnessed is known. */
  ghost predicate WitnessesOk(sv: Server, g: Global, sid: string, seen: set<string>) {
    && (forall t :: t in seen ==> t in sv.cfg.vocab && Known(g.conventions, t).Some?)
    && (sid in g.entries && g.entries[sid].1.state == Awaiting ==>
          forall t :: t in g.entries[sid].1.pendingTerms ==> t !in seen)
  }

  lemma {:induction false} WitnessInvariant(sv: Server, book: Book, run: seq<Event>, sid: string, all: bool)
    requires ValidConfig(sv.cfg) && Filed(book) && (all ==> sv.aliased)
    ensures WitnessesOk(sv, Reached(sv, book, run), sid, Witnesses(sv, book, run, sid, all))
    ensures UsefulAnswers(sv, book, run, sid, all) <= |Witnesses(sv, book, run, sid, all)|
  {
    hide StepOf, Next, Union, NonEmpty, GlobalOk, WitnessesOk;
    if run != [] {
      var init, e := run[..|run| - 1], run[|run| - 1];
      WitnessInvariant(sv, book, init, sid, all);
      RunInvariant(sv, book, init);
      WitnessStep(sv, Reached(sv, book, init), e, Witnesses(sv, book, init, sid, all), sid, all);
    } else {
      assert WitnessesOk(sv, Global(map[], book), sid, {}) by {
        NothingWitnessed(sv, book, sid);
      }
    }
  }

  lemma NothingWitnessed(sv: Server, book: Book, sid: string)
    ensures WitnessesOk(sv, Global(map[], book), sid, {})
  {
  }

  lemma OthersKept(sv: Server, g: Global, e: Event, sid: string)
    requires sid != e.call.sessionId
    ensures var g' := Next(sv, g, e);
      (sid in g'.entries <==> sid in g.entries) && (sid in g.entries ==> g'.entries[sid] == g.entries[sid])
  {
    hide HandleQuery;
  }

  lemma WitnessStep(sv: Server, g: Global, e: Event, seen: set<string>, sid: string, all: bool)
    requires GlobalOk(sv, g) && WitnessesOk(sv, g, sid, seen) && (all ==> sv.aliased)
    ensures var r := StepOf(sv, g, e);
      && WitnessesOk(sv, Next(sv, g, e), sid, seen + if Counts(e, r, sid, all) then Union(r.learned) else {})
      && (Counts(e, r, sid, all) ==> |seen + Union(r.learned)| >= |seen| + NonEmpty(r.learned))
  {
    hide StepOf, Next, NonEmpty, Union, GlobalOk, WitnessesOk;
    if e.call.sessionId == sid {
      OwnWitnessStep(sv, g, e, seen, all);
    } else {
      OthersWitnessStep(sv, g, e, seen, sid);
      assert seen + {} == seen;
    }
  }

  /** A call on another session changes neither what sid waits for nor what is known of the witnessed terms. */
  lemma OthersWitnessStep(sv: Server, g: Global, e: Event, seen: set<string>, sid: string)
    requires GlobalOk(sv, g) && WitnessesOk(sv, g, sid, seen) && sid != e.call.sessionId
    ensures WitnessesOk(sv, Next(sv, g, e), sid, seen)
  {
    hide StepOf, Next, Known, Lower, EntryOk, Filed;
    forall t | t in sv.cfg.vocab
      ensures Known(g.conventions, t).Some? ==> Known(Next(sv, g, e).conventions, t).Some?
    {
      StepLearnsGlobally(sv, g, e, t);
    }
    OthersKept(sv, g, e, sid);
  }

  lemma OwnWitnessStep(sv: Server, g: Global, e: Event, seen: set<string>, all: bool)
    requires GlobalOk(sv, g) && WitnessesOk(sv, g, e.call.sessionId, seen) && (all ==> sv.aliased)
    ensures var r, sid := StepOf(sv, g, e), e.call.sessionId;
      && WitnessesOk(sv, Next(sv, g, e), sid, seen + if Counts(e, r, sid, all) then Union(r.learned) else {})
      && |seen + Union(r.learned)| >= |seen| + NonEmpty(r.learned)
  {
    hide StepOf, Next, Known, NonEmpty, Union, Lower, EntryOk, Filed;
    var r := StepOf(sv, g, e);
    assert forall t :: t in seen ==> !WasPending(Read(g, e), t);
    StepWitnesses(sv, g, e, seen);
    assert |seen + Union(r.learned)| == |seen| + |Union(r.learned)|;
    SameConventions(sv, g, e);
    NewQuestionStep(sv, g, e, seen, all);
  }

  lemma SameConventions(sv: Server, g: Global, e: Event)
    ensures Next(sv, g, e).conventions == StepOf(sv, g, e).conventions
  {
    hide HandleQuery;
  }

  /** After a call on the session itself, what it waits for is new. */
  lemma NewQuestionStep(sv: Server, g: Global, e: Event, seen: set<string>, all: bool)
    requires GlobalOk(sv, g) && WitnessesOk(sv, g, e.call.sessionId, seen) && (all ==> sv.aliased)
    requires forall t :: t in Union(StepOf(sv, g, e).learned) || t in seen ==>
               t in sv.cfg.vocab && Known(StepOf(sv, g, e).conventions, t).Some?
    ensures var r, g', sid := StepOf(sv, g, e), Next(sv, g, e), e.call.sessionId;
      sid in g'.entries && g'.entries[sid].1.state == Awaiting ==>
        forall t :: t in g'.entries[sid].1.pendingTerms ==>
          t !in seen && (Counts(e, r, sid, all) ==> t !in Union(r.learned))
  {
    hide HandleQuery, Known, NonEmpty, Lower, EntryOk, Filed;
    var r := StepOf(sv, g, e);
    StepTrace(sv.cfg, Read(g, e), g.conventions, e.call, e.world);
    forall t | t in sv.cfg.vocab
      ensures t in r.asked && r.session.state == Awaiting && r.stored ==> Known(r.conventions, t) == None
    {
      StepLearns(sv.cfg, Read(g, e), g.conventions, e.call, e.world, t);
    }
    if r.learned == [] {
      assert Union(r.learned) == {};
    }
  }

  /**
   In any run, whatever other sessions do and whatever expires, one session id has at most as
   many useful answers as the vocabulary has terms: with live objects over all calls, raised ones
   included, with a serialising store over the calls that wrote the session.
   */
  lemma {:induction false} UsefulAnswersBounded(sv: Server, book: Book, run: seq<Event>, sid: string, all: bool)
    requires ValidConfig(sv.cfg) && Filed(book) && (all ==> sv.aliased)
    ensures UsefulAnswers(sv, book, run, sid, all) <= |sv.cfg.vocab|
  {
    hide StepOf, Known;
    WitnessInvariant(sv, book, run, sid, all);
    var seen := Witnesses(sv, book, run, sid, all);
    assert seen <= ToSet(sv.cfg.vocab);
    SubsetSize(seen, ToSet(sv.cfg.vocab));
    ToSetSize(sv.cfg.vocab);
  }

  lemma SubsetSize(a: set<string>, b: set<string>)
    requires a <= b
    ensures |a| <= |b|
  {
    assert b == a + (b - a);
  }

  /**
   With a serialising store, a call that raises before the request leaves no trace in the session:
   it still waits, its budget is as before, and the same call resolves the same terms again.
   */
  lemma {:induction false} RaisedCallIsForgotten(sv: Server, g: Global, e: Event)
    requires !sv.aliased && RaisedUnstored(StepOf(sv, g, e))
    ensures var r, g' := StepOf(sv, g, e), Next(sv, g, e);
      && Read(g', e) == Read(g, e)
      && (WasAnswered(Read(g, e), e) ==>
            && r.learned != [] && StepOf(sv, g', e).learned != []
            && StepOf(sv, g', e).learned[0] == r.learned[0] ==
               ResolvedAmong(Read(g, e).value.pendingTerms, e.world.resolved.value))
  {
    hide HandleQuery, ResolvedAmong;
    var g' := Next(sv, g, e);
    StepTrace(sv.cfg, Read(g, e), g.conventions, e.call, e.world);
    AnswerConsumedOnlyWhenAwaiting(sv.cfg, Read(g, e), g.conventions, e.call, e.world);
    AnswerConsumedOnlyWhenAwaiting(sv.cfg, Read(g', e), g'.conventions, e.call, e.world);
  }

  /** The call consumes an answer to the pending question. */
  predicate WasAnswered(stored: Option<SessionData>, e: Event) {
    stored.Some? && stored.value.state == Awaiting && Truthy(e.call.answer) && e.world.resolved.Ok?
  }

  // ----- The question budget

  /** The store shows what the call did to the session: it was written, or it is the live object. */
  predicate Shows(sv: Server, r: Step) {
    r.stored || (sv.aliased && r.live)
  }

  /**
   The questions put to the user for sid since its last dispatch, or since its session was
   abandoned or lost, whichever came last, as far as the store shows them: with live objects also
   those of calls that raised.
   */
  function OpenQuestions(sv: Server, book: Book, run: seq<Event>, sid: string): nat {
    if run == [] then 0
    else
      var init, e := run[..|run| - 1], run[|run| - 1];
      var r := StepOf(sv, Reached(sv, book, init), e);
      var before := OpenQuestions(sv, book, init, sid);
      if e.call.sessionId == sid then OpenAfter(sv, r, before) else before
  }

  /** The session's round counter counts its open questions, which are within the budget. */
  ghost predicate Budgeted(sv: Server, g: Global, sid: string, open: nat) {
    && (open == 0 || open <= sv.cfg.maxRounds)
    && (sid in g.entries ==> open == g.entries[sid].1.rounds)
  }

  /** The open questions after a call on sid, of which before were open. */
  function OpenAfter(sv: Server, r: Step, before: nat): nat {
    if !Shows(sv, r) then before
    else if r.stored && r.session.state == Dispatched then 0
    else if r.asked == [] then before
    else if r.live then before + 1
    else 1
  }

  lemma OwnBudgetStep(sv: Server, g: Global, e: Event, before: nat)
    requires Budgeted(sv, g, e.call.sessionId, before)
    ensures var r := StepOf(sv, g, e);
      && Budgeted(sv, Next(sv, g, e), e.call.sessionId, OpenAfter(sv, r, before))
      && (r.asked != [] ==> (if r.live then before else 0) + 1 <= sv.cfg.maxRounds)
  {
    hide HandleQuery;
    StepTrace(sv.cfg, Read(g, e), g.conventions, e.call, e.world);
  }

  /**
   The open questions of a session never exceed the budget, and any new question, also one that is
   answered by elicitation or followed by a failure, still fits in it.
   */
  lemma {:induction false} QuestionBudget(sv: Server, book: Book, run: seq<Event>, sid: string)
    ensures Budgeted(sv, Reached(sv, book, run), sid, OpenQuestions(sv, book, run, sid))
    ensures run != [] && run[|run| - 1].call.sessionId == sid ==>
      var init := run[..|run| - 1];
      var r := StepOf(sv, Reached(sv, book, init), run[|run| - 1]);
      r.asked != [] ==> (if r.live then OpenQuestions(sv, book, init, sid) else 0) + 1 <= sv.cfg.maxRounds
  {
    hide StepOf, Next, OpenAfter;
    if run != [] {
      var init, e := run[..|run| - 1], run[|run| - 1];
      QuestionBudget(sv, book, init, sid);
      var g := Reached(sv, book, init);
      if e.call.sessionId == sid {
        OwnBudgetStep(sv, g, e, OpenQuestions(sv, book, init, sid));
      } else {
        OthersKept(sv, g, e, sid);
      }
    }
  }

  /** Repeating the pending query without an answer re-issues the cached question and costs no round. */
  lemma {:induction false} RepetitionIsFree(sv: Server, g: Global, e: Event)
    requires RepeatsPending(Read(g, e), e.call)
    ensures var r := StepOf(sv, g, e);
      && r.outcome == Returned(QuestionResponse(e.call.sessionId, Read(g, e).value.pendingQuestion.value))
      && Reissued(Read(g, e), g.conventions, r)
      && Next(sv, g, e) ==
         g.(entries := g.entries[e.call.sessionId := (e.world.writeAt + sv.ttl, Read(g, e).value)])
  {
    hide AskOrDispatch;
    var sid, s := e.call.sessionId, Read(g, e).value;
    assert g.entries[sid := (g.entries[sid].0, s)][sid := (e.world.writeAt + sv.ttl, s)] ==
      g.entries[sid := (e.world.writeAt + sv.ttl, s)];
  }
}
