/**
 The clarification loop over mutable session objects. Its store either hands out the live
 object or a deserialised copy; each call is proved to be the corresponding step of
 ClarificationRuns.
 */
module Orchestrators {
  import opened Collections
  import opened Text
  import opened TtlStores
  import opened Sessions
  import opened Conventions
  import opened Clarification
  import opened ClarificationFacts
  import opened ClarificationRuns

  datatype SessionStore =
    | InMemory(objects: TtlStore<SessionState>)
    | Valkey(copies: TtlStore<SessionData>)
  {
    function Ttl(): real {
      match this
      case InMemory(s) => s.ttl
      case Valkey(s) => s.ttl
    }

    ghost function Repr(): set<object> {
      match this
      case InMemory(s) => {s}
      case Valkey(s) => {s}
    }
  }

  /**
   Contents c0 and c1 of a store of live objects before and after the work of step r on one session,
   when no other object changed.
   */
  lemma LiveContents(before: Entries<SessionState>, after: Entries<SessionState>, c0: Entries<SessionData>,
                     c1: Entries<SessionData>, session: SessionState, sid: string, r: Step, expiry: real)
    requires after == if r.stored then before[sid := (expiry, session)] else before
    requires before.Keys == c0.Keys && after.Keys == c1.Keys && (r.live ==> sid in before)
    requires forall x :: x in before ==> c0[x].0 == before[x].0
    requires forall x :: x in after ==> c1[x].0 == after[x].0
    requires forall x :: x in before && x != sid ==> c1[x].1 == c0[x].1
    requires sid in after ==> c1[sid].1 == if r.stored || r.live then r.session else c0[sid].1
    ensures c1 == KeptAliased(c0, sid, r, expiry)
  {
    var kept := KeptAliased(c0, sid, r, expiry);
    assert c1.Keys == kept.Keys;
    forall x | x in c1
      ensures c1[x] == kept[x]
    {
      if x != sid {
        assert x in before;
      }
    }
  }

  class Orchestrator {
    const cfg: Config
    const store: SessionStore
    const conventions: ConventionsStore

    constructor (cfg: Config, store: SessionStore, conventions: ConventionsStore)
      ensures this.cfg == cfg && this.store == store && this.conventions == conventions
    {
      this.cfg := cfg;
      this.store := store;
      this.conventions := conventions;
    }

    /** The live session objects that the store holds. */
    ghost function Held(): set<SessionState>
      reads store.Repr()
    {
      match store
      case InMemory(s) => set sid | sid in s.entries :: s.entries[sid].1
      case Valkey(_) => {}
    }

    /** Each session is held under its own id; so no two ids share an object. */
    ghost predicate Valid()
      reads conventions, store.Repr()
    {
      && conventions.Valid()
      && (store.InMemory? ==> forall sid :: sid in store.objects.entries ==> store.objects.entries[sid].1.id == sid)
      && (store.Valkey? ==> forall sid :: sid in store.copies.entries ==> store.copies.entries[sid].1.id == sid)
    }

    /** The contents of the store. */
    ghost function Contents(): Entries<SessionData>
      reads store.Repr(), Held()
    {
      match store
      case InMemory(s) => map sid | sid in s.entries :: (s.entries[sid].0, s.entries[sid].1.Data())
      case Valkey(s) => s.entries
    }

    ghost function State(): Global
      reads conventions, store.Repr(), Held()
    {
      Global(Contents(), conventions.items)
    }

    ghost function Server(): ClarificationRuns.Server {
      ClarificationRuns.Server(cfg, store.Ttl(), store.InMemory?)
    }

    method Save(session: SessionState, now: real)
      modifies store.Repr()
      ensures store.InMemory? ==>
        store.objects.entries == old(store.objects.entries)[session.id := (now + store.Ttl(), session)]
      ensures store.Valkey? ==>
        store.copies.entries == old(store.copies.entries)[session.id := (now + store.Ttl(), session.Data())]
    {
      match store
      case InMemory(s) => s.Set(session.id, session, now);
      case Valkey(s) => s.Set(session.id, session.Data(), now);
    }

    method SplitResolved(session: SessionState, terms: seq<string>) returns (active: Active, unresolved: seq<string>)
      ensures (active, unresolved) == Split(session.resolutions, conventions.items, terms)
    {
      active, unresolved := EmptyDict(), [];
      for i := 0 to |terms|
        invariant (active, unresolved) == Split(session.resolutions, conventions.items, terms[..i])
      {
        var term := terms[i];
        assert terms[..i + 1][..i] == terms[..i];
        if term in session.resolutions {
          active := active.Put(term, session.resolutions[term]);
        } else {
          var convention := conventions.Get(INSTANCE_DEFAULT, term);
          if convention.Some? {
            active := active.Put(term, TermResolution(term, convention.value.resolutionKey, convention.value.jqlHint,
                                                      FromConvention));
          } else {
            unresolved := unresolved + [term];
          }
        }
      }
      assert terms[..|terms|] == terms;
    }

    method Learn(session: SessionState, answers: seq<TermAnswer>)
      requires conventions.Valid()
      modifies session`resolutions, conventions
      ensures conventions.Valid()
      ensures session.resolutions == LearnInSession(old(session.resolutions), answers)
      ensures conventions.items == LearnForTeam(old(conventions.items), answers)
    {
      for i := 0 to |answers|
        invariant conventions.Valid()
        invariant session.resolutions == LearnInSession(old(session.resolutions), answers[..i])
        invariant conventions.items == LearnForTeam(old(conventions.items), answers[..i])
      {
        var a := answers[i];
        assert answers[..i + 1][..i] == answers[..i];
        var term := Lower(a.term);
        session.resolutions :=
          session.resolutions[term := TermResolution(term, a.resolutionKey, a.jqlHint, FromClarification)];
        conventions.Set(Convention(INSTANCE_DEFAULT, term, a.resolutionKey, a.jqlHint));
      }
      assert answers[..|answers|] == answers;
    }

    method AddElicited(session: SessionState, unresolved: seq<string>, active: Active) returns (all: Active)
      requires active.Valid()
      ensures all.Valid() && all == AddResolved(active, unresolved, session.resolutions)
    {
      all := active;
      for i := 0 to |unresolved|
        invariant all == AddResolved(active, unresolved[..i], session.resolutions)
      {
        assert unresolved[..i + 1][..i] == unresolved[..i];
        if unresolved[i] in session.resolutions {
          all := all.Put(unresolved[i], session.resolutions[unresolved[i]]);
        }
      }
      assert unresolved[..|unresolved|] == unresolved;
      AddResolvedValid(active, unresolved, session.resolutions);
    }

    /** The stored objects after a step on session: written under its id, or untouched. */
    ghost function SavedObjects(before: Entries<SessionState>, session: SessionState, stored: bool, now: real)
      : Entries<SessionState>
    {
      if stored then before[session.id := (now + store.Ttl(), session)] else before
    }

    ghost function SavedCopies(before: Entries<SessionData>, data: SessionData, stored: bool, now: real)
      : Entries<SessionData>
    {
      if stored then before[data.id := (now + store.Ttl(), data)] else before
    }

    method Dispatch(session: SessionState, query: string, active: Active, errors: seq<Warning>, world: World,
                    ghost live: bool, ghost asked: seq<string>, ghost learned: seq<set<string>>)
      returns (outcome: Outcome, sent: Option<Clarification.Dispatch>)
      requires active.Valid()
      modifies session, store.Repr()
      ensures var r := DispatchStep(old(session.Data()), live, conventions.items, query, active, errors, asked,
                                    learned, world);
        && outcome == r.outcome && sent == r.sent && session.Data() == r.session
        && (store.InMemory? ==>
             store.objects.entries == SavedObjects(old(store.objects.entries), session, r.stored, world.writeAt))
        && (store.Valkey? ==>
             store.copies.entries == SavedCopies(old(store.copies.entries), r.session, r.stored, world.writeAt))
    {
      var from := session.state;
      var ok := session.Transition(Dispatched);
      if !ok {
        return Raised(IllegalTransition(from, Dispatched)), None;
      }
      session.pendingQuery := None;
      session.pendingTerms := [];
      session.pendingQuestion := None;
      session.rounds := 0;
      Save(session, world.writeAt);
      if world.backend.InvalidRequest? {
        return Raised(RequestError(world.backend.message)), None;
      }
      sent := Some(Clarification.Dispatch(query, Hints(active)));
      outcome := Returned(Answer(session.id, active, errors, world.backend));
    }

    /** The elicitation reply has arrived: learn it and dispatch. */
    method Elicited(session: SessionState, query: string, active: Active, unresolved: seq<string>, world: World,
                    ghost live: bool, ghost learned: seq<set<string>>)
      returns (outcome: Outcome, sent: Option<Clarification.Dispatch>)
      requires conventions.Valid() && active.Valid()
      requires {conventions as object} !! store.Repr()
      modifies session, conventions, store.Repr()
      ensures conventions.Valid()
      ensures var r := ElicitedStep(old(session.Data()), live, old(conventions.items), query, active, unresolved,
                                    learned, world);
        && outcome == r.outcome && sent == r.sent && session.Data() == r.session
        && conventions.items == r.conventions
        && (store.InMemory? ==>
             store.objects.entries == SavedObjects(old(store.objects.entries), session, r.stored, world.writeAt))
        && (store.Valkey? ==>
             store.copies.entries == SavedCopies(old(store.copies.entries), r.session, r.stored, world.writeAt))
    {
      hide Answer, Hints, Filed, LearnInSession, LearnForTeam, AddResolved, ResolvedAmong;
      if world.elicitResolved.Err? {
        return Raised(ClarifierError(world.elicitResolved.message)), None;
      }
      var answers := world.elicitResolved.value;
      Learn(session, answers);
      var all := AddElicited(session, unresolved, active);
      var from := session.state;
      var ok := session.Transition(Resolved);
      if !ok {
        return Raised(IllegalTransition(from, Resolved)), None;
      }
      outcome, sent := Dispatch(session, query, all, [], world, live, unresolved,
                                learned + [ResolvedAmong(unresolved, answers)]);
    }

    method AskOrDispatch(session: SessionState, query: string, world: World,
                         ghost live: bool, ghost learned: seq<set<string>>)
      returns (outcome: Outcome, sent: Option<Clarification.Dispatch>)
      requires conventions.Valid()
      requires {conventions as object} !! store.Repr()
      modifies session, conventions, store.Repr()
      ensures conventions.Valid()
      ensures var r := Clarification.AskOrDispatch(cfg, old(session.Data()), live, old(conventions.items), query,
                                                   learned, world);
        && outcome == r.outcome && sent == r.sent && session.Data() == r.session
        && conventions.items == r.conventions
        && (store.InMemory? ==>
             store.objects.entries == SavedObjects(old(store.objects.entries), session, r.stored, world.writeAt))
        && (store.Valkey? ==>
             store.copies.entries == SavedCopies(old(store.copies.entries), r.session, r.stored, world.writeAt))
    {
      hide Split, Detect, Answer, Hints, Filed, ElicitedStep;
      var terms := Detect(cfg, query);
      var active, unresolved := SplitResolved(session, terms);
      SplitProperties(session.resolutions, conventions.items, terms);
      var errors := [];
      if unresolved != [] && session.rounds >= cfg.maxRounds {
        errors := [RoundsExhausted(unresolved)];
        unresolved := [];
      }
      if unresolved == [] {
        outcome, sent := Dispatch(session, query, active, errors, world, live, [], learned);
        return;
      }
      if world.question.Err? {
        errors := [ClarifierDown(world.question.message)];
        outcome, sent := Dispatch(session, query, active, errors, world, live, [], learned);
        return;
      }
      session.rounds := session.rounds + 1;
      if Truthy(world.elicited) {
        outcome, sent := Elicited(session, query, active, unresolved, world, live, learned);
      } else {
        var from := session.state;
        var ok := session.Transition(Awaiting);
        if !ok {
          return Raised(IllegalTransition(from, Awaiting)), None;
        }
        session.pendingQuery := Some(query);
        session.pendingTerms := unresolved;
        session.pendingQuestion := Some(world.question.value);
        Save(session, world.writeAt);
        return Returned(QuestionResponse(session.id, world.question.value)), None;
      }
    }

    /** Reads the session: the live object, a deserialised copy, or a new one. */
    method Load(sid: string, now: real) returns (session: SessionState, live: bool)
      requires Valid()
      modifies store.Repr()
      ensures live == LiveAt(old(Contents()), sid, now).Some?
      ensures session.Data() == if live then LiveAt(old(Contents()), sid, now).value else Fresh(sid)
      ensures session.id == sid
      ensures Valid() && Contents() == AfterGet(old(Contents()), sid, now)
      ensures Held() <= old(Held())
      ensures store.InMemory? ==> store.objects.entries == AfterGet(old(store.objects.entries), sid, now)
      ensures store.Valkey? ==> store.copies.entries == AfterGet(old(store.copies.entries), sid, now)
      ensures if store.InMemory? && live
              then sid in store.objects.entries && session == store.objects.entries[sid].1
              else fresh(session)
    {
      if store.InMemory? {
        var found := store.objects.Get(sid, now);
        live := found.Some?;
        if live {
          session := found.value;
        } else {
          session := new SessionState(sid);
        }
      } else {
        var found := store.copies.Get(sid, now);
        live := found.Some?;
        if live {
          session := new SessionState.FromData(found.value);
        } else {
          session := new SessionState(sid);
        }
      }
    }

    /** A round-trip answer has arrived for the pending question: learn it, then go on. */
    method AnswerPending(read: SessionState, call: Call, world: World, ghost live: bool)
      returns (outcome: Outcome, sent: Option<Clarification.Dispatch>)
      requires conventions.Valid() && read.state == Awaiting && Truthy(call.answer)
      requires {conventions as object} !! store.Repr()
      modifies read, conventions, store.Repr()
      ensures conventions.Valid()
      ensures var r := AnsweredStep(cfg, old(read.Data()), live, old(conventions.items), call, world);
        && outcome == r.outcome && sent == r.sent && read.Data() == r.session
        && conventions.items == r.conventions
        && (store.InMemory? ==>
             store.objects.entries == SavedObjects(old(store.objects.entries), read, r.stored, world.writeAt))
        && (store.Valkey? ==>
             store.copies.entries == SavedCopies(old(store.copies.entries), r.session, r.stored, world.writeAt))
    {
      hide Clarification.AskOrDispatch, Filed, LearnInSession, LearnForTeam, ResolvedAmong;
      var query := PendingQuery(read.Data(), call);
      if world.resolved.Err? {
        return Raised(ClarifierError(world.resolved.message)), None;
      }
      ghost var learned := [ResolvedAmong(read.pendingTerms, world.resolved.value)];
      Learn(read, world.resolved.value);
      var ok := read.Transition(Resolved);
      assert ok;
      outcome, sent := AskOrDispatch(read, query, world, live, learned);
    }

    /** The call on the session that was read; a session abandoned on the way is replaced by a new object. */
    method Proceed(read: SessionState, live: bool, call: Call, world: World)
      returns (outcome: Outcome, sent: Option<Clarification.Dispatch>, ghost session: SessionState, ghost r: Step)
      requires conventions.Valid() && read.id == call.sessionId
      requires {conventions as object} !! store.Repr()
      requires !live ==> read.Data() == Fresh(call.sessionId)
      modifies read, conventions, store.Repr()
      ensures conventions.Valid()
      ensures r == Clarification.HandleQuery(cfg, if live then Some(old(read.Data())) else None,
                                             old(conventions.items), call, world)
      ensures
        && outcome == r.outcome && sent == r.sent && session.Data() == r.session
        && conventions.items == r.conventions
        && (r.live ==> live)
        && (if r.live == live then session == read else fresh(session) && unchanged(read))
        && session.id == call.sessionId
        && (store.InMemory? ==>
             store.objects.entries == SavedObjects(old(store.objects.entries), session, r.stored, world.writeAt))
        && (store.Valkey? ==>
             store.copies.entries == SavedCopies(old(store.copies.entries), r.session, r.stored, world.writeAt))
    {
      hide Clarification.AskOrDispatch, AnsweredStep, Filed;
      session := read;
      r := Clarification.HandleQuery(cfg, if live then Some(read.Data()) else None, conventions.items, call, world);
      LiveTrace(cfg, if live then Some(read.Data()) else None, conventions.items, call, world);
      if read.state != Awaiting {
        outcome, sent := AskOrDispatch(read, call.query, world, live, []);
      } else if Truthy(call.answer) {
        outcome, sent := AnswerPending(read, call, world, live);
      } else if Repeats(read.Data(), call) {
        Save(read, world.writeAt);
        return Returned(QuestionResponse(call.sessionId, read.pendingQuestion.value)), None, read, r;
      } else {
        var restarted := new SessionState(call.sessionId);
        session := restarted;
        outcome, sent := AskOrDispatch(restarted, call.query, world, false, []);
      }
    }

    /** Proceed in a store of live objects: no other object in it changes. */
    method ProceedHeld(read: SessionState, live: bool, call: Call, world: World)
      returns (outcome: Outcome, sent: Option<Clarification.Dispatch>, ghost session: SessionState, ghost r: Step)
      requires Valid() && read.id == call.sessionId && store.InMemory?
      requires {conventions as object} !! store.Repr()
      requires !live ==> read.Data() == Fresh(call.sessionId) && read !in Held()
      requires live ==> call.sessionId in store.objects.entries && read == store.objects.entries[call.sessionId].1
      modifies read, conventions, store.Repr()
      ensures Valid() && fresh(Held() - old(Held()) - {read})
      ensures r == Clarification.HandleQuery(cfg, if live then Some(old(read.Data())) else None,
                                             old(conventions.items), call, world)
      ensures outcome == r.outcome && sent == r.sent && conventions.items == r.conventions
      ensures session.Data() == r.session && session.id == call.sessionId
      ensures if r.live == live then session == read else read.Data() == old(read.Data())
      ensures r.live ==> live
      ensures store.objects.entries == SavedObjects(old(store.objects.entries), session, r.stored, world.writeAt)
      ensures forall x :: x in old(store.objects.entries) && x != call.sessionId ==>
        old(store.objects.entries)[x].1.Data() == old(store.objects.entries[x].1.Data())
    {
      hide Clarification.HandleQuery, Filed;
      outcome, sent, session, r := Proceed(read, live, call, world);
      ghost var before := old(store.objects.entries);
      forall x | x in before && x != call.sessionId
        ensures before[x].1.Data() == old(before[x].1.Data())
      {
        assert before[x].1.id == x && before[x].1 in old(Held());
      }
    }

    /** Proceed, seen through the contents of a store of live objects. */
    method ProceedOnObjects(read: SessionState, live: bool, call: Call, world: World)
      returns (outcome: Outcome, sent: Option<Clarification.Dispatch>)
      requires Valid() && read.id == call.sessionId && store.InMemory?
      requires {conventions as object} !! store.Repr()
      requires !live ==> read.Data() == Fresh(call.sessionId) && read !in Held()
      requires live ==> call.sessionId in store.objects.entries && read == store.objects.entries[call.sessionId].1
      modifies read, conventions, store.Repr()
      ensures Valid()
      ensures var r := Clarification.HandleQuery(cfg, if live then Some(old(read.Data())) else None,
                                                 old(conventions.items), call, world);
        && outcome == r.outcome && sent == r.sent && conventions.items == r.conventions
        && Contents() == KeptAliased(old(Contents()), call.sessionId, r, world.writeAt + store.Ttl())
      ensures fresh(Held() - old(Held()) - {read})
    {
      hide Clarification.HandleQuery, Filed, KeptAliased, Valid;
      ghost var session;
      ghost var r;
      outcome, sent, session, r := ProceedHeld(read, live, call, world);
      LiveContents(old(store.objects.entries), store.objects.entries, old(Contents()), Contents(), session,
                   call.sessionId, r, world.writeAt + store.Ttl());
    }

    /** Proceed, seen through the contents of a serialising store. */
    method ProceedOnCopy(read: SessionState, live: bool, call: Call, world: World)
      returns (outcome: Outcome, sent: Option<Clarification.Dispatch>)
      requires Valid() && read.id == call.sessionId && store.Valkey?
      requires {conventions as object} !! store.Repr()
      requires !live ==> read.Data() == Fresh(call.sessionId)
      modifies read, conventions, store.Repr()
      ensures Valid()
      ensures var r := Clarification.HandleQuery(cfg, if live then Some(old(read.Data())) else None,
                                                 old(conventions.items), call, world);
        && outcome == r.outcome && sent == r.sent && conventions.items == r.conventions
        && Contents() == KeptCopied(old(Contents()), call.sessionId, r, world.writeAt + store.Ttl())
    {
      hide Clarification.HandleQuery, Filed;
      ghost var session;
      ghost var r;
      outcome, sent, session, r := Proceed(read, live, call, world);
    }

    /** One query_jira call: exactly one step of the run model, on live objects or on copies. */
    method HandleQuery(call: Call, world: World) returns (outcome: Outcome, sent: Option<Clarification.Dispatch>)
      requires Valid()
      requires {conventions as object} !! store.Repr()
      modifies conventions, store.Repr(), Held()
      ensures Valid()
      ensures State() == Next(Server(), old(State()), Event(call, world))
      ensures fresh(Held() - old(Held()))
      ensures var r := StepOf(Server(), old(State()), Event(call, world)); outcome == r.outcome && sent == r.sent
    {
      hide Clarification.HandleQuery, Filed, KeptAliased, KeptCopied;
      ghost var g, e := State(), Event(call, world);
      var read, live := Load(call.sessionId, world.readAt);
      assert Read(g, e) == if live then Some(read.Data()) else None;
      if store.InMemory? {
        outcome, sent := ProceedOnObjects(read, live, call, world);
      } else {
        outcome, sent := ProceedOnCopy(read, live, call, world);
      }
    }
  }
}
