/**
 The page cache, the extraction cache, their locks and the semaphore as mutable fields; each
 method is the code that one task runs between two suspensions.
 */
module ResearchPools {
  import opened Collections
  import opened SingleFlight
  import opened SingleFlightRuns

  class ResearchPool {
    var clock: nat
    var permits: nat
    var pages: map<string, Html>
    var extractions: map<ContentKey, Extraction>
    var pageLocks: set<string>
    var contentLocks: set<ContentKey>
    var tasks: seq<Task>

    constructor (capacity: nat, jobs: seq<Job>)
      ensures Initial(Value(), capacity)
      ensures |tasks| == |jobs| && forall i :: 0 <= i < |jobs| ==> tasks[i].job == jobs[i]
    {
      clock := 0;
      permits := capacity;
      pages := map[];
      extractions := map[];
      pageLocks := {};
      contentLocks := {};
      tasks := seq(|jobs|, i requires 0 <= i < |jobs| => Task(jobs[i], NotStarted, 0));
    }

    function Value(): State
      reads this
    {
      State(clock, permits, pages, extractions, pageLocks, contentLocks, tasks)
    }

    method Move(i: nat, phase: Phase)
      requires i < |tasks|
      modifies this`tasks
      ensures tasks == old(tasks)[i := old(tasks)[i].(phase := phase)]
    {
      tasks := tasks[i := tasks[i].(phase := phase)];
    }

    /** With the HTML at hand: extract_sections, then the lock-free look into the extraction cache. */
    method SectionsReady(i: nat, html: Html)
      requires i < |tasks| && tasks[i].job.Content?
      modifies this`tasks, this`permits
      ensures Value() == WithHtml(old(Value()), i, html)
    {
      var key := tasks[i].job.Key();
      if !tasks[i].job.force && key in extractions {
        Move(i, Done(html, Some(extractions[key])));
        permits := permits + 1;
      } else {
        Move(i, WaitContent(html));
      }
    }

    method Begin(i: nat)
      requires Enabled(Value(), Start(i))
      modifies this
      ensures Value() == Step(old(Value()), Start(i))
    {
      var first := if tasks[i].job.Content? then WaitPermit else WaitPage;
      tasks := tasks[i := tasks[i].(phase := first, began := clock)];
      clock := clock + 1;
    }

    /** Admitted by the semaphore: the lock-free look into the page cache. */
    method Admitted(i: nat)
      requires Enabled(Value(), TakePermit(i))
      modifies this
      ensures Value() == Step(old(Value()), TakePermit(i))
    {
      permits := permits - 1;
      var job := tasks[i].job;
      if !job.force && job.page in pages {
        SectionsReady(i, pages[job.page]);
      } else {
        Move(i, WaitPage);
      }
      clock := clock + 1;
    }

    /** The page lock is acquired: look again, then fetch. */
    method PageLocked(i: nat)
      requires Enabled(Value(), TakePage(i))
      modifies this
      ensures Value() == Step(old(Value()), TakePage(i))
    {
      var job := tasks[i].job;
      if !tasks[i].Refreshes() && job.page in pages {
        SectionsReady(i, pages[job.page]);
      } else {
        pageLocks := pageLocks + {job.page};
        Move(i, Fetching(clock));
      }
      clock := clock + 1;
    }

    /** The fetch returned: write the cache, release the lock, go on. */
    method Fetched(i: nat, body: string)
      requires Enabled(Value(), FetchOk(i, body))
      modifies this
      ensures Value() == Step(old(Value()), FetchOk(i, body))
    {
      var job := tasks[i].job;
      var html := Html(job.page, body, tasks[i].phase.since);
      pages := pages[job.page := html];
      pageLocks := pageLocks - {job.page};
      if job.Metadata? {
        Move(i, Done(html, None));
      } else {
        SectionsReady(i, html);
      }
      clock := clock + 1;
    }

    /** A metadata fetch whose record lacks its fields: the page is cached all the same. */
    method FetchedUnusable(i: nat, body: string)
      requires Enabled(Value(), FetchUnusable(i, body))
      modifies this
      ensures Value() == Step(old(Value()), FetchUnusable(i, body))
    {
      var job := tasks[i].job;
      pages := pages[job.page := Html(job.page, body, tasks[i].phase.since)];
      pageLocks := pageLocks - {job.page};
      Move(i, Failed);
      clock := clock + 1;
    }

    method FetchFailed(i: nat)
      requires Enabled(Value(), FetchFail(i))
      modifies this
      ensures Value() == Step(old(Value()), FetchFail(i))
    {
      var job := tasks[i].job;
      pageLocks := pageLocks - {job.page};
      Move(i, Failed);
      if job.Content? {
        permits := permits + 1;
      }
      clock := clock + 1;
    }

    /** The content lock is acquired: look again, then call the language model. */
    method ContentLocked(i: nat)
      requires Enabled(Value(), TakeContent(i))
      modifies this
      ensures Value() == Step(old(Value()), TakeContent(i))
    {
      var key, html := tasks[i].job.Key(), tasks[i].phase.html;
      if !tasks[i].job.force && key in extractions {
        Move(i, Done(html, Some(extractions[key])));
        permits := permits + 1;
      } else {
        contentLocks := contentLocks + {key};
        Move(i, Extracting(html, clock));
      }
      clock := clock + 1;
    }

    method Extracted(i: nat, output: string)
      requires Enabled(Value(), ExtractOk(i, output))
      modifies this
      ensures Value() == Step(old(Value()), ExtractOk(i, output))
    {
      var key := tasks[i].job.Key();
      var extraction := Extraction(key, output, tasks[i].phase.since, tasks[i].phase.html);
      extractions := extractions[key := extraction];
      contentLocks := contentLocks - {key};
      Move(i, Done(tasks[i].phase.html, Some(extraction)));
      permits := permits + 1;
      clock := clock + 1;
    }

    method ExtractionFailed(i: nat)
      requires Enabled(Value(), ExtractFail(i))
      modifies this
      ensures Value() == Step(old(Value()), ExtractFail(i))
    {
      contentLocks := contentLocks - {tasks[i].job.Key()};
      Move(i, Failed);
      permits := permits + 1;
      clock := clock + 1;
    }

    /** Takes one step; false if the action is not possible now. */
    method Perform(a: Action) returns (ok: bool)
      modifies this
      ensures ok == Enabled(old(Value()), a)
      ensures Value() == if ok then Step(old(Value()), a) else old(Value())
    {
      hide Step;
      ok := Enabled(Value(), a);
      if !ok {
        return;
      }
      match a
      case Start(i) => Begin(i);
      case TakePermit(i) => Admitted(i);
      case TakePage(i) => PageLocked(i);
      case FetchOk(i, body) => Fetched(i, body);
      case FetchUnusable(i, body) => FetchedUnusable(i, body);
      case FetchFail(i) => FetchFailed(i);
      case TakeContent(i) => ContentLocked(i);
      case ExtractOk(i, output) => Extracted(i, output);
      case ExtractFail(i) => ExtractionFailed(i);
      case LosePage(_) => Lose(a);
      case LoseExtraction(_) => Lose(a);
    }

    method Lose(a: Action)
      requires Enabled(Value(), a) && Mover(a) == None
      modifies this
      ensures Value() == Step(old(Value()), a)
    {
      if a.LosePage? {
        pages := pages - {a.page};
      } else {
        extractions := extractions - {a.key};
      }
      clock := clock + 1;
    }

    /** An event loop: performs the actions the schedule proposes, skipping impossible ones. */
    method RunSchedule(schedule: seq<Action>) returns (ghost run: seq<Action>)
      modifies this
      ensures After(old(Value()), run) == Some(Value())
    {
      run := [];
      for n := 0 to |schedule|
        invariant After(old(Value()), run) == Some(Value())
      {
        var ok := Perform(schedule[n]);
        if ok {
          ghost var longer := run + [schedule[n]];
          assert longer[..|run|] == run;
          run := longer;
        }
      }
    }
  }
}
