/** What every interleaving of page fetches and extractions guarantees. */
module SingleFlightRuns {
  import opened Collections
  import opened SingleFlight

  /** The state after a run of actions, if each was enabled when it was taken. */
  function After(s0: State, run: seq<Action>): Option<State> {
    if run == [] then Some(s0)
    else
      match After(s0, run[..|run| - 1])
      case None => None
      case Some(s) => if Enabled(s, run[|run| - 1]) then Some(Step(s, run[|run| - 1])) else None
  }

  predicate Legal(s0: State, run: seq<Action>) {
    After(s0, run).Some?
  }

  lemma LegalPrefix(s0: State, run: seq<Action>)
    requires run != [] && Legal(s0, run)
    ensures Legal(s0, run[..|run| - 1])
    ensures var s := After(s0, run[..|run| - 1]).value;
      Enabled(s, run[|run| - 1]) && After(s0, run) == Some(Step(s, run[|run| - 1]))
  {
  }

  lemma InitialInv(s: State, capacity: nat)
    requires Initial(s, capacity)
    ensures Inv(s, capacity)
  {
    NoHolders(s.tasks);
  }

  lemma {:induction false} NoHolders(tasks: seq<Task>)
    requires forall i :: 0 <= i < |tasks| ==> tasks[i].phase.NotStarted?
    ensures Holders(tasks) == 0
  {
    if tasks != [] {
      NoHolders(tasks[..|tasks| - 1]);
    }
  }

  /** Every reachable state satisfies the invariant. */
  lemma {:induction false} RunKeepsInv(s0: State, run: seq<Action>, capacity: nat)
    requires Initial(s0, capacity) && Legal(s0, run)
    ensures Inv(After(s0, run).value, capacity)
  {
    hide Inv, Initial, Step, Enabled;
    if run == [] {
      InitialInv(s0, capacity);
    } else {
      LegalPrefix(s0, run);
      RunKeepsInv(s0, run[..|run| - 1], capacity);
      StepKeepsInv(After(s0, run[..|run| - 1]).value, run[|run| - 1], capacity);
    }
  }

  // ----- Single flight

  /** At any time at most one fetch per page and one extraction per content are in flight. */
  lemma {:induction false} OneInFlight(s0: State, run: seq<Action>, capacity: nat, i: nat, j: nat)
    requires Initial(s0, capacity) && Legal(s0, run)
    requires i < |After(s0, run).value.tasks| && j < |After(s0, run).value.tasks|
    ensures var tasks := After(s0, run).value.tasks;
      && (tasks[i].phase.Fetching? && tasks[j].phase.Fetching? && tasks[i].job.page == tasks[j].job.page ==> i == j)
      && (tasks[i].phase.Extracting? && tasks[j].phase.Extracting? ==>
            tasks[i].job.Content? && tasks[j].job.Content? &&
            (tasks[i].job.Key() == tasks[j].job.Key() ==> i == j))
  {
    hide After, Job.Key;
    RunKeepsInv(s0, run, capacity);
  }

  /** The successful fetches of page p by calls that may use the cache. */
  function Fetches(s0: State, run: seq<Action>, p: string): nat {
    if run == [] then 0
    else
      var init, a := run[..|run| - 1], run[|run| - 1];
      Fetches(s0, init, p) +
      match After(s0, init)
      case Some(s) =>
        if a.FetchOk? && a.i < |s.tasks| && !s.tasks[a.i].Refreshes() && s.tasks[a.i].job.page == p then 1 else 0
      case None => 0
  }

  /** How often the entry of page p was lost. */
  function Losses(run: seq<Action>, p: string): nat {
    if run == [] then 0 else Losses(run[..|run| - 1], p) + if run[|run| - 1] == LosePage(p) then 1 else 0
  }

  function One(b: bool): nat {
    if b then 1 else 0
  }

  lemma FetchStep(s: State, a: Action, capacity: nat, p: string)
    requires Enabled(s, a) && Inv(s, capacity)
    ensures One(a.FetchOk? && !s.tasks[a.i].Refreshes() && s.tasks[a.i].job.page == p) + One(p in s.pages) <=
            One(a == LosePage(p)) + One(p in Step(s, a).pages)
  {
    hide Step, PagesLocked, ContentsLocked, Holders, CachesOk;
    if Mover(a).Some? {
      assert OwnData(s, s.tasks[a.i]) && MissesOnly(s, s.tasks[a.i]);
    }
    CacheMoves(s, a);
  }

  /**
   Whatever the interleaving, a page is fetched on behalf of cache-using calls at most once plus
   once for every time its entry was lost; not at all if it was cached from the start and kept.
   */
  lemma {:induction false} FetchBound(s0: State, run: seq<Action>, capacity: nat, p: string)
    requires Initial(s0, capacity) && Legal(s0, run)
    ensures Fetches(s0, run, p) + One(p in s0.pages) <= Losses(run, p) + One(p in After(s0, run).value.pages)
    ensures Fetches(s0, run, p) <= 1 + Losses(run, p)
  {
    hide Inv, Initial, Step, Enabled;
    if run != [] {
      LegalPrefix(s0, run);
      FetchBound(s0, run[..|run| - 1], capacity, p);
      RunKeepsInv(s0, run[..|run| - 1], capacity);
      FetchStep(After(s0, run[..|run| - 1]).value, run[|run| - 1], capacity, p);
      EnabledMover(After(s0, run[..|run| - 1]).value, run[|run| - 1]);
    }
  }

  /** The successful extractions of content k by calls that may use the cache. */
  function Extractions(s0: State, run: seq<Action>, k: ContentKey): nat {
    if run == [] then 0
    else
      var init, a := run[..|run| - 1], run[|run| - 1];
      Extractions(s0, init, k) +
      match After(s0, init)
      case Some(s) =>
        if a.ExtractOk? && a.i < |s.tasks| && s.tasks[a.i].job == Content(k.0, k.1, false) then 1 else 0
      case None => 0
  }

  function ExtractionLosses(run: seq<Action>, k: ContentKey): nat {
    if run == [] then 0
    else ExtractionLosses(run[..|run| - 1], k) + if run[|run| - 1] == LoseExtraction(k) then 1 else 0
  }

  lemma ExtractStep(s: State, a: Action, capacity: nat, k: ContentKey)
    requires Enabled(s, a) && Inv(s, capacity)
    ensures One(a.ExtractOk? && s.tasks[a.i].job == Content(k.0, k.1, false)) + One(k in s.extractions) <=
            One(a == LoseExtraction(k)) + One(k in Step(s, a).extractions)
  {
    hide Step, PagesLocked, ContentsLocked, Holders, CachesOk;
    if Mover(a).Some? {
      assert OwnData(s, s.tasks[a.i]) && MissesOnly(s, s.tasks[a.i]);
    }
    CacheMoves(s, a);
  }

  /** The same bound for the language model calls of the extractor. */
  lemma {:induction false} ExtractBound(s0: State, run: seq<Action>, capacity: nat, k: ContentKey)
    requires Initial(s0, capacity) && Legal(s0, run)
    ensures Extractions(s0, run, k) + One(k in s0.extractions) <=
            ExtractionLosses(run, k) + One(k in After(s0, run).value.extractions)
    ensures Extractions(s0, run, k) <= 1 + ExtractionLosses(run, k)
  {
    hide Inv, Initial, Step, Enabled;
    if run != [] {
      LegalPrefix(s0, run);
      ExtractBound(s0, run[..|run| - 1], capacity, k);
      RunKeepsInv(s0, run[..|run| - 1], capacity);
      ExtractStep(After(s0, run[..|run| - 1]).value, run[|run| - 1], capacity, k);
      EnabledMover(After(s0, run[..|run| - 1]).value, run[|run| - 1]);
    }
  }

  // ----- What a caller gets

  /**
   A finished call got data of its own page and content, the extraction being made from HTML of
   that page; if it forced a refresh (or fetched metadata), both were produced by work that began
   after the call did, the extraction from the very HTML that the call fetched.
   */
  lemma {:induction false} ResultsAreOwnAndFresh(s0: State, run: seq<Action>, capacity: nat, i: nat)
    requires Initial(s0, capacity) && Legal(s0, run) && i < |After(s0, run).value.tasks|
    ensures var t := After(s0, run).value.tasks[i];
      t.phase.Done? ==>
        && t.phase.html.page == t.job.page
        && (t.job.Content? ==>
              && t.phase.extraction.Some? && t.phase.extraction.value.key == t.job.Key()
              && t.phase.extraction.value.html.page == t.job.page)
        && (t.Refreshes() ==>
              && t.began <= t.phase.html.fetchedAt
              && (t.job.Content? ==>
                    && t.began <= t.phase.extraction.value.startedAt
                    && t.phase.extraction.value.html == t.phase.html))
  {
    hide After, PagesLocked, ContentsLocked, Holders, CachesOk;
    RunKeepsInv(s0, run, capacity);
    assert OwnData(After(s0, run).value, After(s0, run).value.tasks[i]);
  }

  /** Two reads of page p, found under two last-modified stamps; the first is in the given phase. */
  function Reads(clock: nat, permits: nat, pages: map<string, Html>, locked: set<string>, first: Phase): State {
    State(clock, permits, pages, map[], locked, {},
          [Task(Content("p", "v1", false), first, 0), Task(Content("p", "v2", false), NotStarted, 0)])
  }

  /** Nothing has begun and nothing is cached. */
  function TwoReads(): State {
    Reads(0, 1, map[], {}, NotStarted)
  }

  /** One read after the other. */
  function FirstRead(): seq<Action> {
    [Start(0), TakePermit(0), TakePage(0), FetchOk(0, "text of v1"), TakeContent(0), ExtractOk(0, "out")]
  }

  function SecondRead(): seq<Action> {
    [Start(1), TakePermit(1), TakeContent(1), ExtractOk(1, "out")]
  }

  lemma OneMore(s0: State, run: seq<Action>, a: Action)
    requires Legal(s0, run) && Enabled(After(s0, run).value, a)
    ensures After(s0, run + [a]) == Some(Step(After(s0, run).value, a))
  {
    assert (run + [a])[..|run|] == run;
  }

  lemma EmptyRun(s0: State)
    ensures After(s0, []) == Some(s0)
  {
  }

  lemma UpToThePage()
    ensures After(TwoReads(), FirstRead()[..2]) == Some(Reads(2, 0, map[], {}, WaitPage))
  {
    hide After;
    var s0, run := TwoReads(), FirstRead();
    EmptyRun(s0);
    OneMore(s0, [], run[0]);
    OneMore(s0, [] + [run[0]], run[1]);
    assert [] + [run[0]] + [run[1]] == run[..2];
    assert After(s0, run[..2]).value.tasks == Reads(2, 0, map[], {}, WaitPage).tasks;
  }

  lemma UpToTheHtml()
    ensures var html := Html("p", "text of v1", 2);
      After(TwoReads(), FirstRead()[..4]) == Some(Reads(4, 0, map["p" := html], {}, WaitContent(html)))
  {
    hide After;
    var s0, run, html := TwoReads(), FirstRead(), Html("p", "text of v1", 2);
    UpToThePage();
    OneMore(s0, run[..2], run[2]);
    OneMore(s0, run[..2] + [run[2]], run[3]);
    assert run[..2] + [run[2]] + [run[3]] == run[..4];
    assert After(s0, run[..4]).value.tasks == Reads(4, 0, map[], {}, WaitContent(html)).tasks;
  }

  lemma AfterFirstRead()
    ensures var html := Html("p", "text of v1", 2);
      var first := Extraction(("p", "v1"), "out", 4, html);
      After(TwoReads(), FirstRead()) ==
      Some(State(6, 1, map["p" := html], map[("p", "v1") := first], {}, {},
                 [Task(Content("p", "v1", false), Done(html, Some(first)), 0),
                  Task(Content("p", "v2", false), NotStarted, 0)]))
  {
    hide After;
    var s0, run, html := TwoReads(), FirstRead(), Html("p", "text of v1", 2);
    UpToTheHtml();
    OneMore(s0, run[..4], run[4]);
    OneMore(s0, run[..4] + [run[4]], run[5]);
    assert run[..4] + [run[4]] + [run[5]] == run;
    var first, last := Extraction(("p", "v1"), "out", 4, html), After(s0, run).value;
    assert last.tasks == [Task(Content("p", "v1", false), Done(html, Some(first)), 0),
                          Task(Content("p", "v2", false), NotStarted, 0)];
    assert last.extractions == map[("p", "v1") := first] && last.contentLocks == {};
  }

  /**
   Without a forced refresh the page cache is read by page id alone, so the extraction filed under
   the newer stamp v2 is made from the HTML that was fetched for v1.
   */
  lemma {:induction false} OldHtmlUnderNewStamp()
    ensures var run := FirstRead() + SecondRead();
      && Initial(TwoReads(), 1) && Legal(TwoReads(), run)
      && var s := After(TwoReads(), run).value;
        && AllFinished(s)
        && ("p", "v1") in s.extractions && ("p", "v2") in s.extractions
        && s.extractions[("p", "v2")].html == s.extractions[("p", "v1")].html == Html("p", "text of v1", 2)
  {
    hide After;
    var s0, one, two := TwoReads(), FirstRead(), SecondRead();
    AfterFirstRead();
    OneMore(s0, one, two[0]);
    OneMore(s0, one + [two[0]], two[1]);
    OneMore(s0, one + [two[0]] + [two[1]], two[2]);
    OneMore(s0, one + [two[0]] + [two[1]] + [two[2]], two[3]);
    assert one + [two[0]] + [two[1]] + [two[2]] + [two[3]] == one + two;
  }

  // ----- Deadlock freedom and termination

  /** The semaphore never admits more tasks than its capacity. */
  lemma {:induction false} PermitsBounded(s0: State, run: seq<Action>, capacity: nat)
    requires Initial(s0, capacity) && Legal(s0, run)
    ensures Holders(After(s0, run).value.tasks) <= capacity
  {
    RunKeepsInv(s0, run, capacity);
  }

  predicate AllFinished(s: State) {
    forall i :: 0 <= i < |s.tasks| ==> s.tasks[i].Finished()
  }

  lemma {:induction false} NobodyHolds(tasks: seq<Task>)
    requires forall i :: 0 <= i < |tasks| ==> !tasks[i].HoldsPermit()
    ensures Holders(tasks) == 0
  {
    if tasks != [] {
      NobodyHolds(tasks[..|tasks| - 1]);
    }
  }

  /** In every reachable state some unfinished task can take its next step, unless all are finished. */
  lemma {:induction false} NoDeadlock(s0: State, run: seq<Action>, capacity: nat) returns (a: Action)
    requires Initial(s0, capacity) && Legal(s0, run) && capacity > 0
    requires !AllFinished(After(s0, run).value)
    ensures Enabled(After(s0, run).value, a) && Mover(a).Some?
  {
    hide After, CachesOk, Initial;
    RunKeepsInv(s0, run, capacity);
    a := NextMove(After(s0, run).value, capacity);
  }

  lemma NextMove(s: State, capacity: nat) returns (a: Action)
    requires Inv(s, capacity) && capacity > 0 && !AllFinished(s)
    ensures Enabled(s, a) && Mover(a).Some?
  {
    hide CachesOk, MissesOnly, Holders;
    forall i | 0 <= i < |s.tasks|
      ensures OwnData(s, s.tasks[i])
    {
    }
    if i: nat :| i < |s.tasks| && s.tasks[i].phase.Fetching? {
      a := FetchFail(i);
    } else if i: nat :| i < |s.tasks| && s.tasks[i].phase.Extracting? {
      a := ExtractFail(i);
    } else if i: nat :| i < |s.tasks| && s.tasks[i].phase.WaitPage? {
      assert s.pageLocks == {};
      a := TakePage(i);
    } else if i: nat :| i < |s.tasks| && s.tasks[i].phase.WaitContent? {
      assert s.contentLocks == {};
      a := TakeContent(i);
    } else if i: nat :| i < |s.tasks| && s.tasks[i].phase.NotStarted? {
      a := Start(i);
    } else {
      NobodyHolds(s.tasks);
      var i: nat :| i < |s.tasks| && !s.tasks[i].Finished();
      a := TakePermit(i);
    }
  }

  /** What is left to happen: two for every step of a task, one for every cache entry that may be lost. */
  function Fuel(s: State): nat {
    2 * Ranks(s.tasks) + |s.pages| + |s.extractions|
  }

  lemma {:induction false} FuelFalls(s: State, a: Action, capacity: nat)
    requires Enabled(s, a) && Inv(s, capacity)
    ensures Fuel(Step(s, a)) < Fuel(s)
  {
    hide Step, PagesLocked, ContentsLocked, CachesOk, Holders, MissesOnly, OwnData, CachesMoved, LocksMoved, Job.Key;
    EnabledMover(s, a);
    StepMoves(s, a);
    CacheMoves(s, a);
    if Mover(a).Some? {
      RanksFall(s, a, Step(s, a));
      CachesGrow(s, a, Step(s, a));
    } else {
      CachesShrink(s, a, Step(s, a));
    }
  }

  lemma RanksFall(s: State, a: Action, s': State)
    requires OthersKept(s, a, s') && LocksMoved(s, a, s') && Mover(a).Some?
    ensures Ranks(s'.tasks) < Ranks(s.tasks)
  {
    hide Task.HoldsPermit, Task.Rank, Job.Key, Holders;
    SumsUpdate(s.tasks, Mover(a).value, s'.tasks[Mover(a).value]);
  }

  /** A task's step writes at most one cache entry. */
  lemma CachesGrow(s: State, a: Action, s': State)
    requires Enabled(s, a) && CachesMoved(s, a, s') && Mover(a).Some?
    ensures |s'.pages| + |s'.extractions| <= |s.pages| + |s.extractions| + 1
  {
    hide Job.Key;
    match PageWritten(s, a)
    case Some(html) => GainOne(s.pages, html.page, html);
    case None =>
      match ExtractionWritten(s, a)
      case Some(x) => GainOne(s.extractions, x.key, x);
      case None =>
  }

  lemma CachesShrink(s: State, a: Action, s': State)
    requires Enabled(s, a) && OthersKept(s, a, s') && CachesMoved(s, a, s') && Mover(a) == None
    ensures |s'.pages| + |s'.extractions| == |s.pages| + |s.extractions| - 1 && s'.tasks == s.tasks
  {
    if a.LosePage? {
      LoseOne(s.pages, a.page);
    } else {
      LoseOne(s.extractions, a.key);
    }
  }

  lemma GainOne<K, V>(m: map<K, V>, k: K, v: V)
    ensures |m[k := v]| <= |m| + 1
  {
    assert m[k := v].Keys == m.Keys + {k};
  }

  lemma LoseOne<K, V>(m: map<K, V>, k: K)
    requires k in m
    ensures |m - {k}| == |m| - 1
  {
    assert (m - {k}).Keys == m.Keys - {k};
  }

  /** Every run is finite: its length is bounded by the fuel of the initial state. */
  lemma {:induction false} RunsTerminate(s0: State, run: seq<Action>, capacity: nat)
    requires Initial(s0, capacity) && Legal(s0, run)
    ensures |run| + Fuel(After(s0, run).value) <= Fuel(s0)
  {
    hide Inv, Initial, Step, Enabled, Fuel;
    if run != [] {
      LegalPrefix(s0, run);
      RunsTerminate(s0, run[..|run| - 1], capacity);
      RunKeepsInv(s0, run[..|run| - 1], capacity);
      FuelFalls(After(s0, run[..|run| - 1]).value, run[|run| - 1], capacity);
    }
  }
}
