/** Per-session clarification state: the transition table, the record and its live object. */
module Sessions {
  import opened Collections

  datatype ClarificationState = Idle | Awaiting | Resolved | Dispatched

  /** The table of allowed transitions. */
  predicate Allowed(from: ClarificationState, to: ClarificationState) {
    match from
    case Idle => to in {Awaiting, Resolved, Dispatched}
    case Awaiting => to in {Awaiting, Resolved, Dispatched, Idle}
    case Resolved => to in {Awaiting, Dispatched}
    case Dispatched => to in {Awaiting, Resolved, Dispatched, Idle}
  }

  /** Only an idle or resolved session refuses anything: to become idle, or to be resolved a second time. */
  lemma RefusedExactly(from: ClarificationState, to: ClarificationState)
    ensures !Allowed(from, to) <==>
            (from in {Idle, Resolved} && to == Idle) || from == to == Resolved
  {
  }

  datatype Source = FromConvention | FromClarification

  datatype TermResolution = TermResolution(term: string, resolutionKey: string, jqlHint: string, source: Source)

  type Resolutions = map<string, TermResolution>

  /** The contents of a session: what a serialising store keeps. */
  datatype SessionData = SessionData(
    id: string,
    state: ClarificationState,
    pendingQuery: Option<string>,
    pendingTerms: seq<string>,
    pendingQuestion: Option<string>,
    rounds: nat,
    resolutions: Resolutions)

  function Fresh(id: string): SessionData {
    SessionData(id, Idle, None, [], None, 0, map[])
  }

  /** The live, mutable session object. */
  class SessionState {
    const id: string
    var state: ClarificationState
    var pendingQuery: Option<string>
    var pendingTerms: seq<string>
    var pendingQuestion: Option<string>
    var rounds: nat
    var resolutions: Resolutions

    function Data(): SessionData
      reads this
    {
      SessionData(id, state, pendingQuery, pendingTerms, pendingQuestion, rounds, resolutions)
    }

    constructor (id: string)
      ensures Data() == Fresh(id)
    {
      this.id := id;
      state := Idle;
      pendingQuery := None;
      pendingTerms := [];
      pendingQuestion := None;
      rounds := 0;
      resolutions := map[];
    }

    /** Deserialisation: a new object holding the given contents. */
    constructor FromData(d: SessionData)
      ensures Data() == d
    {
      id := d.id;
      state := d.state;
      pendingQuery := d.pendingQuery;
      pendingTerms := d.pendingTerms;
      pendingQuestion := d.pendingQuestion;
      rounds := d.rounds;
      resolutions := d.resolutions;
    }

    /** False stands for the StateTransitionError, which leaves the object unchanged. */
    method Transition(to: ClarificationState) returns (ok: bool)
      modifies this`state
      ensures ok == Allowed(old(state), to)
      ensures state == if ok then to else old(state)
    {
      ok := Allowed(state, to);
      if ok {
        state := to;
      }
    }
  }
}
