/**
 Page fetching and LLM extraction under a shared semaphore, per-page locks and per-content
 locks, as interleaved steps. A step runs from one point where the coroutine can be suspended to
 the next; a cache entry may be lost (expiry, eviction) between any two steps.
 */
module SingleFlight {
  import opened Collections

  /** The HTML of a page; fetchedAt is the time at which the fetch that produced it began. */
  datatype Html = Html(page: string, body: string, fetchedAt: nat)

  /** Page id and last-modified stamp: the key of the extraction cache. */
  type ContentKey = (string, string)

  /** What the language model made of the HTML, filed under key. */
  datatype Extraction = Extraction(key: ContentKey, output: string, startedAt: nat, html: Html)

  datatype Job =
    | Content(page: string, modified: string, force: bool)   // sections, then extraction, under the semaphore
    | Metadata(page: string)                                  // fetch_page_metadata: page lock only
  {
    function Key(): ContentKey
      requires Content?
    {
      (page, modified)
    }
  }

  datatype Phase =
    | NotStarted
    | WaitPermit
    | WaitPage
    | Fetching(since: nat)
    | WaitContent(html: Html)
    | Extracting(html: Html, since: nat)
    | Done(html: Html, extraction: Option<Extraction>)
    | Failed

  /** began is the time of the call; meaningful once started. */
  datatype Task = Task(job: Job, phase: Phase, began: nat) {
    predicate Finished() { phase.Done? || phase.Failed? }

    predicate HoldsPermit() {
      job.Content? && (phase.WaitPage? || phase.Fetching? || phase.WaitContent? || phase.Extracting?)
    }

    predicate HoldsPage(p: string) { phase.Fetching? && job.page == p }

    predicate HoldsContent(k: ContentKey) { phase.Extracting? && job.Content? && job.Key() == k }

    predicate Refreshes() { job.Metadata? || job.force }

    /** Steps still ahead of the task, at most. */
    function Rank(): nat {
      match phase
      case NotStarted => 6
      case WaitPermit => 5
      case WaitPage => 4
      case Fetching(_) => 3
      case WaitContent(_) => 2
      case Extracting(_, _) => 1
      case Done(_, _) => 0
      case Failed => 0
    }
  }

  datatype State = State(
    clock: nat,
    permits: nat,                           // free permits of the semaphore
    pages: map<string, Html>,               // the page cache
    extractions: map<ContentKey, Extraction>,
    pageLocks: set<string>,                 // locked pages
    contentLocks: set<ContentKey>,
    tasks: seq<Task>)

  datatype Action =
    | Start(i: nat)                         // the call begins
    | TakePermit(i: nat)                    // the semaphore admits the task
    | TakePage(i: nat)                      // the page lock is acquired
    | FetchOk(i: nat, body: string)
    | FetchUnusable(i: nat, body: string)   // metadata only: the page is cached, but its record does not parse
    | FetchFail(i: nat)
    | TakeContent(i: nat)                   // the content lock is acquired
    | ExtractOk(i: nat, output: string)
    | ExtractFail(i: nat)
    | LosePage(page: string)                // expiry or eviction
    | LoseExtraction(key: ContentKey)

  function SetPhase(s: State, i: nat, phase: Phase): State
    requires i < |s.tasks|
  {
    s.(tasks := s.tasks[i := s.tasks[i].(phase := phase)])
  }

  /** Leaving the semaphore block. */
  function Leave(s: State, i: nat, phase: Phase): State
    requires i < |s.tasks|
  {
    SetPhase(s, i, phase).(permits := s.permits + 1)
  }

  /** The sections are at hand: return the cached extraction, or queue for the content lock. */
  function WithHtml(s: State, i: nat, html: Html): State
    requires i < |s.tasks| && s.tasks[i].job.Content?
  {
    var task := s.tasks[i];
    if !task.job.force && task.job.Key() in s.extractions
    then Leave(s, i, Done(html, Some(s.extractions[task.job.Key()])))
    else SetPhase(s, i, WaitContent(html))
  }

  predicate Enabled(s: State, a: Action) {
    match a
    case LosePage(p) => p in s.pages
    case LoseExtraction(k) => k in s.extractions
    case Start(i) => i < |s.tasks| && s.tasks[i].phase.NotStarted?
    case TakePermit(i) => i < |s.tasks| && s.tasks[i].phase.WaitPermit? && s.tasks[i].job.Content? && s.permits > 0
    case TakePage(i) => i < |s.tasks| && s.tasks[i].phase.WaitPage? && s.tasks[i].job.page !in s.pageLocks
    case FetchOk(i, _) => i < |s.tasks| && s.tasks[i].phase.Fetching?
    case FetchUnusable(i, _) => i < |s.tasks| && s.tasks[i].phase.Fetching? && s.tasks[i].job.Metadata?
    case FetchFail(i) => i < |s.tasks| && s.tasks[i].phase.Fetching?
    case TakeContent(i) =>
      i < |s.tasks| && s.tasks[i].phase.WaitContent? && s.tasks[i].job.Content? &&
      s.tasks[i].job.Key() !in s.contentLocks
    case ExtractOk(i, _) => i < |s.tasks| && s.tasks[i].phase.Extracting? && s.tasks[i].job.Content?
    case ExtractFail(i) => i < |s.tasks| && s.tasks[i].phase.Extracting? && s.tasks[i].job.Content?
  }

  function Act(s: State, a: Action): State
    requires Enabled(s, a)
  {
    match a
    case LosePage(p) => s.(pages := s.pages - {p})
    case LoseExtraction(k) => s.(extractions := s.extractions - {k})
    case Start(i) =>
      var task := s.tasks[i];
      var first := if task.job.Content? then WaitPermit else WaitPage;
      s.(tasks := s.tasks[i := task.(phase := first, began := s.clock)])
    case TakePermit(i) =>
      var task := s.tasks[i];
      var s' := s.(permits := s.permits - 1);
      if !task.job.force && task.job.page in s.pages then WithHtml(s', i, s.pages[task.job.page])
      else SetPhase(s', i, WaitPage)
    case TakePage(i) =>
      var task := s.tasks[i];
      if !task.Refreshes() && task.job.page in s.pages then WithHtml(s, i, s.pages[task.job.page])
      else SetPhase(s, i, Fetching(s.clock)).(pageLocks := s.pageLocks + {task.job.page})
    case FetchOk(i, body) =>
      var task := s.tasks[i];
      var html := Html(task.job.page, body, task.phase.since);
      var s' := s.(pages := s.pages[task.job.page := html], pageLocks := s.pageLocks - {task.job.page});
      if task.job.Metadata? then SetPhase(s', i, Done(html, None)) else WithHtml(s', i, html)
    case FetchUnusable(i, body) =>
      var task := s.tasks[i];
      var html := Html(task.job.page, body, task.phase.since);
      SetPhase(s.(pages := s.pages[task.job.page := html], pageLocks := s.pageLocks - {task.job.page}), i, Failed)
    case FetchFail(i) =>
      var task := s.tasks[i];
      var s' := s.(pageLocks := s.pageLocks - {task.job.page});
      if task.job.Metadata? then SetPhase(s', i, Failed) else Leave(s', i, Failed)
    case TakeContent(i) =>
      var task := s.tasks[i];
      if !task.job.force && task.job.Key() in s.extractions
      then Leave(s, i, Done(task.phase.html, Some(s.extractions[task.job.Key()])))
      else SetPhase(s, i, Extracting(task.phase.html, s.clock)).(contentLocks := s.contentLocks + {task.job.Key()})
    case ExtractOk(i, output) =>
      var task := s.tasks[i];
      var extraction := Extraction(task.job.Key(), output, task.phase.since, task.phase.html);
      Leave(s.(extractions := s.extractions[task.job.Key() := extraction],
               contentLocks := s.contentLocks - {task.job.Key()}), i,
            Done(task.phase.html, Some(extraction)))
    case ExtractFail(i) =>
      Leave(s.(contentLocks := s.contentLocks - {s.tasks[i].job.Key()}), i, Failed)
  }

  /** One step; time passes. */
  function Step(s: State, a: Action): State
    requires Enabled(s, a)
  {
    Act(s, a).(clock := s.clock + 1)
  }

  // ----- The invariant

  function Holders(tasks: seq<Task>): nat {
    if tasks == [] then 0 else Holders(tasks[..|tasks| - 1]) + if tasks[|tasks| - 1].HoldsPermit() then 1 else 0
  }

  function Ranks(tasks: seq<Task>): nat {
    if tasks == [] then 0 else Ranks(tasks[..|tasks| - 1]) + tasks[|tasks| - 1].Rank()
  }

  /** Each locked page is being fetched by exactly one task, and no other page is being fetched. */
  ghost predicate PagesLocked(s: State) {
    && (forall i :: 0 <= i < |s.tasks| && s.tasks[i].phase.Fetching? ==> s.tasks[i].job.page in s.pageLocks)
    && (forall i, j :: 0 <= i < j < |s.tasks| && s.tasks[i].phase.Fetching? && s.tasks[j].phase.Fetching? ==>
          s.tasks[i].job.page != s.tasks[j].job.page)
    && (forall p :: p in s.pageLocks ==> exists i :: 0 <= i < |s.tasks| && s.tasks[i].HoldsPage(p))
  }

  ghost predicate ContentsLocked(s: State) {
    && (forall i :: 0 <= i < |s.tasks| && s.tasks[i].phase.Extracting? ==>
          s.tasks[i].job.Content? && s.tasks[i].job.Key() in s.contentLocks)
    && (forall i, j :: 0 <= i < j < |s.tasks| && s.tasks[i].phase.Extracting? ==>
          s.tasks[i].job.Content? && !s.tasks[j].HoldsContent(s.tasks[i].job.Key()))
    && (forall k :: k in s.contentLocks ==> exists i :: 0 <= i < |s.tasks| && s.tasks[i].HoldsContent(k))
  }

  /** A task that must not refresh fetches (extracts) only what is not cached. */
  ghost predicate MissesOnly(s: State, t: Task) {
    && (t.phase.Fetching? && !t.Refreshes() ==> t.job.page !in s.pages)
    && (t.phase.Extracting? && t.job.Content? && !t.job.force ==> t.job.Key() !in s.extractions)
  }

  /** The task's data are about its own page, and a refreshing task's are younger than its call. */
  ghost predicate OwnData(s: State, t: Task) {
    && (!t.phase.NotStarted? ==> t.began <= s.clock)
    && (t.job.Metadata? ==> !t.phase.WaitPermit? && !t.phase.WaitContent? && !t.phase.Extracting?)
    && (t.phase.Fetching? ==> t.began <= t.phase.since <= s.clock)
    && (t.phase.WaitContent? || t.phase.Extracting? || t.phase.Done? ==>
          t.phase.html.page == t.job.page && (t.Refreshes() ==> t.began <= t.phase.html.fetchedAt))
    && (t.phase.Extracting? ==> t.began <= t.phase.since <= s.clock)
    && (t.phase.Done? && t.job.Content? ==>
          && t.phase.extraction.Some? && t.phase.extraction.value.key == t.job.Key()
          && t.phase.extraction.value.html.page == t.job.page
          && (t.Refreshes() ==>
                t.began <= t.phase.extraction.value.startedAt && t.phase.extraction.value.html == t.phase.html))
  }

  ghost predicate CachesOk(s: State) {
    && (forall p :: p in s.pages ==> s.pages[p].page == p)
    && (forall k :: k in s.extractions ==> s.extractions[k].key == k && s.extractions[k].html.page == k.0)
  }

  ghost predicate Inv(s: State, capacity: nat) {
    && s.permits + Holders(s.tasks) == capacity
    && PagesLocked(s) && ContentsLocked(s) && CachesOk(s)
    && (forall i :: 0 <= i < |s.tasks| ==> MissesOnly(s, s.tasks[i]) && OwnData(s, s.tasks[i]))
  }

  /** Any caches, no locks, all permits free, no task started. */
  ghost predicate Initial(s: State, capacity: nat) {
    && s.permits == capacity && s.pageLocks == {} && s.contentLocks == {} && CachesOk(s)
    && (forall i :: 0 <= i < |s.tasks| ==> s.tasks[i].phase.NotStarted?)
  }

  lemma {:induction false} SumsUpdate(tasks: seq<Task>, i: nat, t: Task)
    requires i < |tasks|
    ensures Holders(tasks[i := t]) + (if tasks[i].HoldsPermit() then 1 else 0) ==
            Holders(tasks) + (if t.HoldsPermit() then 1 else 0)
    ensures Ranks(tasks[i := t]) + tasks[i].Rank() == Ranks(tasks) + t.Rank()
  {
    var n := |tasks| - 1;
    var updated := tasks[i := t];
    if i < n {
      assert updated[..n] == tasks[..n][i := t];
      SumsUpdate(tasks[..n], i, t);
    } else {
      assert updated[..n] == tasks[..n];
    }
  }

  lemma {:induction false} HoldersAtLeast(tasks: seq<Task>, i: nat)
    requires i < |tasks| && tasks[i].HoldsPermit()
    ensures Holders(tasks) >= 1
  {
    if i < |tasks| - 1 {
      HoldersAtLeast(tasks[..|tasks| - 1], i);
    }
  }

  /** The task that an action moves; the others keep their state. */
  function Mover(a: Action): Option<nat> {
    if a.LosePage? || a.LoseExtraction? then None else Some(a.i)
  }

  /** Nothing happens to the other tasks. */
  ghost predicate OthersKept(s: State, a: Action, s': State) {
    && |s'.tasks| == |s.tasks| && s'.clock == s.clock + 1
    && (Mover(a) == None ==> s'.tasks == s.tasks)
    && (Mover(a).Some? ==>
          && Mover(a).value < |s.tasks|
          && s'.tasks == s.tasks[Mover(a).value := s'.tasks[Mover(a).value]]
          && s'.tasks[Mover(a).value].job == s.tasks[Mover(a).value].job)
  }

  /** The moving task takes and returns permits and locks; a lock it takes was free. */
  ghost predicate LocksMoved(s: State, a: Action, s': State)
    requires OthersKept(s, a, s')
  {
    match Mover(a)
    case None => s'.permits == s.permits && s'.pageLocks == s.pageLocks && s'.contentLocks == s.contentLocks
    case Some(i) =>
      var t, t' := s.tasks[i], s'.tasks[i];
      && s'.permits + (if t'.HoldsPermit() then 1 else 0) == s.permits + (if t.HoldsPermit() then 1 else 0)
      && (t.phase.Fetching? ==> !t'.phase.Fetching? && s'.pageLocks == s.pageLocks - {t.job.page})
      && (!t.phase.Fetching? && t'.phase.Fetching? ==>
            t.job.page !in s.pageLocks && s'.pageLocks == s.pageLocks + {t.job.page})
      && (!t.phase.Fetching? && !t'.phase.Fetching? ==> s'.pageLocks == s.pageLocks)
      && (t.phase.Extracting? ==>
            t.job.Content? && !t'.phase.Extracting? && s'.contentLocks == s.contentLocks - {t.job.Key()})
      && (!t.phase.Extracting? && t'.phase.Extracting? ==>
            t.job.Content? && t.job.Key() !in s.contentLocks && s'.contentLocks == s.contentLocks + {t.job.Key()})
      && (!t.phase.Extracting? && !t'.phase.Extracting? ==> s'.contentLocks == s.contentLocks)
      && t'.Rank() < t.Rank()
  }

  lemma WithHtmlMoves(s: State, i: nat, html: Html)
    requires i < |s.tasks| && s.tasks[i].job.Content?
    ensures var s' := WithHtml(s, i, html);
      && s'.tasks == s.tasks[i := s.tasks[i].(phase := s'.tasks[i].phase)]
      && s'.(tasks := s.tasks, permits := s.permits) == s
      && (s'.tasks[i].phase.Done? || s'.tasks[i].phase.WaitContent?)
      && s'.permits == s.permits + if s'.tasks[i].phase.Done? then 1 else 0
  {
  }

  lemma AdmissionMoves(s: State, a: Action)
    requires Enabled(s, a) && (a.Start? || a.TakePermit? || a.TakePage?)
    requires OwnData(s, s.tasks[a.i])
    ensures OthersKept(s, a, Step(s, a)) && LocksMoved(s, a, Step(s, a))
  {
    hide WithHtml, Job.Key;
    var t := s.tasks[a.i];
    if t.job.Content? && t.job.page in s.pages {
      if a.TakePermit? {
        WithHtmlMoves(s.(permits := s.permits - 1), a.i, s.pages[t.job.page]);
      } else if a.TakePage? {
        WithHtmlMoves(s, a.i, s.pages[t.job.page]);
      }
    }
  }

  lemma FetchMoves(s: State, a: Action)
    requires Enabled(s, a) && (a.FetchOk? || a.FetchUnusable? || a.FetchFail?)
    ensures OthersKept(s, a, Step(s, a)) && LocksMoved(s, a, Step(s, a))
  {
    hide WithHtml, Job.Key;
    var t := s.tasks[a.i];
    if t.job.Content? && a.FetchOk? {
      var html := Html(t.job.page, a.body, t.phase.since);
      WithHtmlMoves(s.(pages := s.pages[t.job.page := html], pageLocks := s.pageLocks - {t.job.page}), a.i, html);
    }
  }

  lemma ExtractMoves(s: State, a: Action)
    requires Enabled(s, a) && (a.TakeContent? || a.ExtractOk? || a.ExtractFail? || Mover(a) == None)
    ensures OthersKept(s, a, Step(s, a)) && LocksMoved(s, a, Step(s, a))
  {
    hide Job.Key;
  }

  lemma StepMoves(s: State, a: Action)
    requires Enabled(s, a)
    requires Mover(a).Some? ==> OwnData(s, s.tasks[Mover(a).value])
    ensures OthersKept(s, a, Step(s, a)) && LocksMoved(s, a, Step(s, a))
  {
    hide Step, OthersKept, LocksMoved;
    if a.Start? || a.TakePermit? || a.TakePage? {
      AdmissionMoves(s, a);
    } else if a.FetchOk? || a.FetchUnusable? || a.FetchFail? {
      FetchMoves(s, a);
    } else {
      ExtractMoves(s, a);
    }
  }

  lemma PermitsKept(s: State, a: Action, s': State, capacity: nat)
    requires Inv(s, capacity) && OthersKept(s, a, s') && LocksMoved(s, a, s')
    ensures s'.permits + Holders(s'.tasks) == capacity
  {
    if Mover(a).Some? {
      SumsUpdate(s.tasks, Mover(a).value, s'.tasks[Mover(a).value]);
    }
  }

  /** Still no two tasks fetch the same page, and each fetched page is locked. */
  lemma FetchersKept(s: State, a: Action, s': State)
    requires PagesLocked(s) && OthersKept(s, a, s') && LocksMoved(s, a, s')
    ensures forall i :: 0 <= i < |s'.tasks| && s'.tasks[i].phase.Fetching? ==> s'.tasks[i].job.page in s'.pageLocks
    ensures forall i, j :: 0 <= i < j < |s'.tasks| && s'.tasks[i].phase.Fetching? && s'.tasks[j].phase.Fetching? ==>
      s'.tasks[i].job.page != s'.tasks[j].job.page
  {
    hide Task.Rank, Task.HoldsPermit, Job.Key;
    if Mover(a).Some? {
      var m := Mover(a).value;
      forall i | 0 <= i < |s'.tasks| && i != m && s'.tasks[i].phase.Fetching?
        ensures s'.tasks[i].job.page in s'.pageLocks
        ensures s'.tasks[m].phase.Fetching? ==> s'.tasks[i].job.page != s'.tasks[m].job.page
      {
        assert s'.tasks[i] == s.tasks[i];
        if s.tasks[m].phase.Fetching? {
          assert s.tasks[i].job.page != s.tasks[m].job.page;
        }
      }
    }
  }

  lemma PageLocksKept(s: State, a: Action, s': State)
    requires PagesLocked(s) && OthersKept(s, a, s') && LocksMoved(s, a, s')
    ensures PagesLocked(s')
  {
    hide Task.Rank, Task.HoldsPermit, Job.Key;
    FetchersKept(s, a, s');
    forall p | p in s'.pageLocks
      ensures exists i :: 0 <= i < |s'.tasks| && s'.tasks[i].HoldsPage(p)
    {
      if p in s.pageLocks {
        var i :| 0 <= i < |s.tasks| && s.tasks[i].HoldsPage(p);
        assert Mover(a) != Some(i);
        assert s'.tasks[i].HoldsPage(p);
      } else {
        assert s'.tasks[Mover(a).value].HoldsPage(p);
      }
    }
  }

  lemma ContentLocksKept(s: State, a: Action, s': State, capacity: nat)
    requires Inv(s, capacity) && OthersKept(s, a, s') && LocksMoved(s, a, s')
    ensures ContentsLocked(s')
  {
    hide CachesOk, PagesLocked, OwnData, MissesOnly, Holders, Job.Key;
    forall i | 0 <= i < |s'.tasks| && s'.tasks[i].phase.Extracting?
      ensures s'.tasks[i].job.Content? && s'.tasks[i].job.Key() in s'.contentLocks
    {
      var j := Mover(a).GetOr(i);
      if i != j && s.tasks[j].phase.Extracting? {
        assert s.tasks[i] == s'.tasks[i];
        if i < j {
          assert !s.tasks[j].HoldsContent(s.tasks[i].job.Key());
        } else {
          assert !s.tasks[i].HoldsContent(s.tasks[j].job.Key());
        }
      }
    }
    forall k | k in s'.contentLocks
      ensures exists i :: 0 <= i < |s'.tasks| && s'.tasks[i].HoldsContent(k)
    {
      if k in s.contentLocks {
        var i :| 0 <= i < |s.tasks| && s.tasks[i].HoldsContent(k);
        assert Mover(a) != Some(i);
        assert s'.tasks[i].HoldsContent(k);
      } else {
        assert s'.tasks[Mover(a).value].HoldsContent(k);
      }
    }
  }

  /** The page written and the extraction written by an action, if any. */
  function PageWritten(s: State, a: Action): Option<Html>
    requires Enabled(s, a)
  {
    if a.FetchOk? || a.FetchUnusable? then Some(Html(s.tasks[a.i].job.page, a.body, s.tasks[a.i].phase.since)) else None
  }

  function ExtractionWritten(s: State, a: Action): Option<Extraction>
    requires Enabled(s, a)
  {
    if a.ExtractOk?
    then Some(Extraction(s.tasks[a.i].job.Key(), a.output, s.tasks[a.i].phase.since, s.tasks[a.i].phase.html))
    else None
  }

  ghost predicate CachesMoved(s: State, a: Action, s': State)
    requires Enabled(s, a)
  {
    && s'.pages == (match PageWritten(s, a)
                    case Some(html) => s.pages[html.page := html]
                    case None => if a.LosePage? then s.pages - {a.page} else s.pages)
    && s'.extractions == (match ExtractionWritten(s, a)
                          case Some(x) => s.extractions[x.key := x]
                          case None => if a.LoseExtraction? then s.extractions - {a.key} else s.extractions)
  }

  lemma CacheMoves(s: State, a: Action)
    requires Enabled(s, a)
    requires Mover(a).Some? ==> OwnData(s, s.tasks[Mover(a).value])
    ensures CachesMoved(s, a, Step(s, a))
  {
    hide Job.Key, WithHtml;
    if Mover(a).Some? && s.tasks[a.i].job.Content? {
      var t := s.tasks[a.i];
      if a.TakePermit? && t.job.page in s.pages {
        WithHtmlMoves(s.(permits := s.permits - 1), a.i, s.pages[t.job.page]);
      } else if a.TakePage? && t.job.page in s.pages {
        WithHtmlMoves(s, a.i, s.pages[t.job.page]);
      } else if a.FetchOk? {
        var html := Html(t.job.page, a.body, t.phase.since);
        WithHtmlMoves(s.(pages := s.pages[t.job.page := html], pageLocks := s.pageLocks - {t.job.page}), a.i, html);
      }
    }
  }

  /** The mover's new data are its own, and a new fetch or extraction without refresh is a miss. */
  lemma MoverData(s: State, a: Action, capacity: nat)
    requires Enabled(s, a) && Inv(s, capacity) && Mover(a).Some?
    ensures Mover(a).value < |Step(s, a).tasks|
    ensures OwnData(Step(s, a), Step(s, a).tasks[Mover(a).value])
    ensures MissesOnly(Step(s, a), Step(s, a).tasks[Mover(a).value])
  {
    hide PagesLocked, ContentsLocked, Holders, CachesOk, Enabled, Step, OwnData, MissesOnly;
    EnabledMover(s, a);
    MoverOwns(s, a);
    MoverMisses(s, a);
  }

  lemma MoverOwns(s: State, a: Action)
    requires Enabled(s, a) && Mover(a).Some? && CachesOk(s) && a.i < |s.tasks| && OwnData(s, s.tasks[a.i])
    ensures a.i < |Step(s, a).tasks| && OwnData(Step(s, a), Step(s, a).tasks[a.i])
  {
    hide Enabled, Step, CachesOk, OwnData;
    if a.Start? || a.TakePermit? || a.TakePage? {
      AdmittedOwns(s, a);
    } else if a.FetchOk? || a.FetchUnusable? || a.FetchFail? {
      FetcherOwns(s, a);
    } else {
      ExtractorOwns(s, a);
    }
  }

  lemma AdmittedOwns(s: State, a: Action)
    requires Enabled(s, a) && CachesOk(s) && (a.Start? || a.TakePermit? || a.TakePage?)
    requires a.i < |s.tasks| && OwnData(s, s.tasks[a.i])
    ensures a.i < |Step(s, a).tasks| && OwnData(Step(s, a), Step(s, a).tasks[a.i])
  {
  }

  lemma FetcherOwns(s: State, a: Action)
    requires Enabled(s, a) && CachesOk(s) && (a.FetchOk? || a.FetchUnusable? || a.FetchFail?)
    requires a.i < |s.tasks| && OwnData(s, s.tasks[a.i])
    ensures a.i < |Step(s, a).tasks| && OwnData(Step(s, a), Step(s, a).tasks[a.i])
  {
  }

  lemma ExtractorOwns(s: State, a: Action)
    requires Enabled(s, a) && CachesOk(s) && (a.TakeContent? || a.ExtractOk? || a.ExtractFail?)
    requires a.i < |s.tasks| && OwnData(s, s.tasks[a.i])
    ensures a.i < |Step(s, a).tasks| && OwnData(Step(s, a), Step(s, a).tasks[a.i])
  {
  }

  lemma MoverMisses(s: State, a: Action)
    requires Enabled(s, a) && Mover(a).Some? && a.i < |s.tasks| && MissesOnly(s, s.tasks[a.i])
    ensures a.i < |Step(s, a).tasks| && MissesOnly(Step(s, a), Step(s, a).tasks[a.i])
  {
    hide Job.Key;
  }

  lemma OtherData(s: State, a: Action, s': State, capacity: nat, j: nat)
    requires Enabled(s, a) && Inv(s, capacity) && OthersKept(s, a, s') && CachesMoved(s, a, s')
    requires j < |s.tasks| && Mover(a) != Some(j)
    ensures OwnData(s', s'.tasks[j]) && MissesOnly(s', s'.tasks[j])
  {
    hide Holders, Job.Key, CachesOk;
    var t := s.tasks[j];
    assert OwnData(s, t) && MissesOnly(s, t);
    if a.ExtractOk? && t.phase.Extracting? {
      if j < a.i {
        assert !s.tasks[a.i].HoldsContent(t.job.Key());
      } else {
        assert !t.HoldsContent(s.tasks[a.i].job.Key());
      }
    }
  }

  /** Every step keeps the invariant. */
  lemma {:induction false} StepKeepsInv(s: State, a: Action, capacity: nat)
    requires Enabled(s, a) && Inv(s, capacity)
    ensures Inv(Step(s, a), capacity)
  {
    hide Step, Enabled, OwnData, MissesOnly, PagesLocked, ContentsLocked, OthersKept, LocksMoved, Holders;
    var s' := Step(s, a);
    EnabledMover(s, a);
    StepMoves(s, a);
    CacheMoves(s, a);
    PermitsKept(s, a, s', capacity);
    PageLocksKept(s, a, s');
    ContentLocksKept(s, a, s', capacity);
    CachesKept(s, a, s', capacity);
    SameLength(s, a, s');
    forall j | 0 <= j < |s'.tasks|
      ensures MissesOnly(s', s'.tasks[j]) && OwnData(s', s'.tasks[j])
    {
      if Mover(a) == Some(j) {
        MoverData(s, a, capacity);
      } else {
        OtherData(s, a, s', capacity, j);
      }
    }
  }

  lemma EnabledMover(s: State, a: Action)
    requires Enabled(s, a)
    ensures Mover(a).Some? ==> Mover(a).value < |s.tasks|
  {
  }

  lemma SameLength(s: State, a: Action, s': State)
    requires OthersKept(s, a, s')
    ensures |s'.tasks| == |s.tasks|
  {
  }

  lemma CachesKept(s: State, a: Action, s': State, capacity: nat)
    requires Enabled(s, a) && Inv(s, capacity) && CachesMoved(s, a, s')
    ensures CachesOk(s')
  {
    hide PagesLocked, ContentsLocked, MissesOnly, Holders;
    if a.ExtractOk? {
      assert OwnData(s, s.tasks[a.i]);
    }
  }
}
