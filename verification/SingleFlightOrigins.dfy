/** Where everything comes from that the caches hold and the callers get: steps of the run, or the initial caches. */
module SingleFlightOrigins {
  import opened Collections
  import opened SingleFlight
  import opened SingleFlightRuns

  /** The page was cached from the start, or is the body that a fetch of the run returned, begun at fetchedAt. */
  ghost predicate PageOrigin(s0: State, run: seq<Action>, html: Html) {
    || (exists p :: p in s0.pages && s0.pages[p] == html)
    || (exists m: nat, n: nat :: m < n < |run| && FetchedAt(s0, run, m, n, html))
  }

  /** Action m took the page lock and action n brought the page. */
  ghost predicate FetchedAt(s0: State, run: seq<Action>, m: nat, n: nat, html: Html)
    requires m < n < |run|
  {
    && (run[n].FetchOk? || run[n].FetchUnusable?) && run[m] == TakePage(run[n].i) && run[n].i < |s0.tasks|
    && html == Html(s0.tasks[run[n].i].job.page, run[n].body, s0.clock + m)
  }

  /** The extraction was cached from the start, or is what an extraction of the run returned, begun at startedAt. */
  ghost predicate ExtractionOrigin(s0: State, run: seq<Action>, x: Extraction) {
    || (exists k :: k in s0.extractions && s0.extractions[k] == x)
    || (exists m: nat, n: nat :: m < n < |run| && ExtractedAt(s0, run, m, n, x))
  }

  /** Action m took the content lock with a page of the run, and action n brought the output. */
  ghost predicate ExtractedAt(s0: State, run: seq<Action>, m: nat, n: nat, x: Extraction)
    requires m < n < |run|
  {
    && run[n].ExtractOk? && run[m] == TakeContent(run[n].i) && run[n].i < |s0.tasks|
    && s0.tasks[run[n].i].job.Content? && x.key == s0.tasks[run[n].i].job.Key()
    && x.output == run[n].output && x.startedAt == s0.clock + m && PageOrigin(s0, run, x.html)
  }

  /** The action fails the call of task i. */
  predicate Fails(a: Action, i: nat) {
    a == FetchFail(i) || a == ExtractFail(i) || (a.FetchUnusable? && a.i == i)
  }

  /** The action of task i happened at time at. */
  ghost predicate Happened(s0: State, run: seq<Action>, a: Action, at: nat) {
    exists m: nat :: m < |run| && run[m] == a && at == s0.clock + m
  }

  /** Where the data of task i come from, and why it failed. */
  ghost predicate TaskOrigin(s0: State, run: seq<Action>, i: nat, t: Task) {
    && (!t.phase.NotStarted? ==> Happened(s0, run, Start(i), t.began))
    && (t.phase.Fetching? ==> Happened(s0, run, TakePage(i), t.phase.since))
    && (t.phase.Extracting? ==> Happened(s0, run, TakeContent(i), t.phase.since))
    && (t.phase.WaitContent? || t.phase.Extracting? || t.phase.Done? ==> PageOrigin(s0, run, t.phase.html))
    && (t.phase.Done? && t.phase.extraction.Some? ==> ExtractionOrigin(s0, run, t.phase.extraction.value))
    && (t.phase.Failed? <==> exists n: nat :: n < |run| && Fails(run[n], i))
  }

  ghost predicate Origins(s0: State, run: seq<Action>, s: State) {
    && s.clock == s0.clock + |run| && |s.tasks| == |s0.tasks|
    && (forall p :: p in s.pages ==> PageOrigin(s0, run, s.pages[p]))
    && (forall k :: k in s.extractions ==> ExtractionOrigin(s0, run, s.extractions[k]))
    && (forall i: nat :: i < |s.tasks| ==> s.tasks[i].job == s0.tasks[i].job && TaskOrigin(s0, run, i, s.tasks[i]))
  }

  // ----- Longer runs keep origins

  lemma PageOriginKept(s0: State, run: seq<Action>, a: Action, html: Html)
    requires PageOrigin(s0, run, html)
    ensures PageOrigin(s0, run + [a], html)
  {
    if m: nat, n: nat :| m < n < |run| && FetchedAt(s0, run, m, n, html) {
      assert FetchedAt(s0, run + [a], m, n, html);
    }
  }

  lemma ExtractionOriginKept(s0: State, run: seq<Action>, a: Action, x: Extraction)
    requires ExtractionOrigin(s0, run, x)
    ensures ExtractionOrigin(s0, run + [a], x)
  {
    hide PageOrigin;
    if m: nat, n: nat :| m < n < |run| && ExtractedAt(s0, run, m, n, x) {
      PageOriginKept(s0, run, a, x.html);
      assert ExtractedAt(s0, run + [a], m, n, x);
    }
  }

  lemma HappenedKept(s0: State, run: seq<Action>, a: Action, b: Action, at: nat)
    requires Happened(s0, run, b, at)
    ensures Happened(s0, run + [a], b, at)
  {
    var m: nat :| m < |run| && run[m] == b && at == s0.clock + m;
    assert (run + [a])[m] == b;
  }

  lemma HappensNow(s0: State, run: seq<Action>, a: Action)
    ensures Happened(s0, run + [a], a, s0.clock + |run|)
  {
    assert (run + [a])[|run|] == a;
  }

  lemma FailedKept(run: seq<Action>, a: Action, i: nat)
    ensures (exists n: nat :: n < |run + [a]| && Fails((run + [a])[n], i)) <==>
            (exists n: nat :: n < |run| && Fails(run[n], i)) || Fails(a, i)
  {
    if n: nat :| n < |run| && Fails(run[n], i) {
      assert Fails((run + [a])[n], i);
    }
    if Fails(a, i) {
      assert Fails((run + [a])[|run|], i);
    }
    if n: nat :| n < |run + [a]| && Fails((run + [a])[n], i) && !Fails(a, i) {
      assert Fails(run[n], i);
    }
  }

  /** A task that the action does not move keeps its origins. */
  lemma TaskOriginKept(s0: State, run: seq<Action>, a: Action, i: nat, t: Task)
    requires TaskOrigin(s0, run, i, t) && !Fails(a, i)
    ensures TaskOrigin(s0, run + [a], i, t)
  {
    hide PageOrigin, ExtractionOrigin, Happened, Fails;
    FailedKept(run, a, i);
    if !t.phase.NotStarted? {
      HappenedKept(s0, run, a, Start(i), t.began);
    }
    match t.phase
    case Fetching(since) =>
      HappenedKept(s0, run, a, TakePage(i), since);
    case WaitContent(html) =>
      PageOriginKept(s0, run, a, html);
    case Extracting(html, since) =>
      PageOriginKept(s0, run, a, html);
      HappenedKept(s0, run, a, TakeContent(i), since);
    case Done(html, extraction) =>
      PageOriginKept(s0, run, a, html);
      if extraction.Some? {
        ExtractionOriginKept(s0, run, a, extraction.value);
      }
    case _ =>
  }

  // ----- One step

  lemma FetchedNow(s0: State, run: seq<Action>, s: State, a: Action)
    requires Origins(s0, run, s) && Enabled(s, a) && (a.FetchOk? || a.FetchUnusable?)
    ensures PageOrigin(s0, run + [a], Html(s.tasks[a.i].job.page, a.body, s.tasks[a.i].phase.since))
  {
    hide PageOrigin, ExtractionOrigin;
    var since := s.tasks[a.i].phase.since;
    assert TaskOrigin(s0, run, a.i, s.tasks[a.i]);
    var m: nat :| m < |run| && run[m] == TakePage(a.i) && since == s0.clock + m;
    BroughtNow(s0, run, a, m, Html(s.tasks[a.i].job.page, a.body, since));
  }

  lemma BroughtNow(s0: State, run: seq<Action>, a: Action, m: nat, html: Html)
    requires (a.FetchOk? || a.FetchUnusable?) && m < |run| && run[m] == TakePage(a.i) && a.i < |s0.tasks|
    requires html == Html(s0.tasks[a.i].job.page, a.body, s0.clock + m)
    ensures PageOrigin(s0, run + [a], html)
  {
    assert FetchedAt(s0, run + [a], m, |run|, html);
  }

  lemma ExtractedNow(s0: State, run: seq<Action>, s: State, a: Action)
    requires Origins(s0, run, s) && Enabled(s, a) && a.ExtractOk?
    ensures var t := s.tasks[a.i];
      && PageOrigin(s0, run + [a], t.phase.html)
      && ExtractionOrigin(s0, run + [a], Extraction(t.job.Key(), a.output, t.phase.since, t.phase.html))
  {
    hide PageOrigin;
    var t := s.tasks[a.i];
    assert TaskOrigin(s0, run, a.i, t);
    var m: nat :| m < |run| && run[m] == TakeContent(a.i) && t.phase.since == s0.clock + m;
    PageOriginKept(s0, run, a, t.phase.html);
    var x := Extraction(t.job.Key(), a.output, t.phase.since, t.phase.html);
    assert ExtractedAt(s0, run + [a], m, |run|, x);
  }

  /** What the caches hold still has its origin. */
  lemma CachesHaveOrigins(s0: State, run: seq<Action>, s: State, a: Action)
    requires Origins(s0, run, s) && Enabled(s, a) && CachesMoved(s, a, Step(s, a))
    ensures forall p :: p in Step(s, a).pages ==> PageOrigin(s0, run + [a], Step(s, a).pages[p])
    ensures forall k :: k in Step(s, a).extractions ==> ExtractionOrigin(s0, run + [a], Step(s, a).extractions[k])
  {
    hide PageOrigin, ExtractionOrigin, TaskOrigin, Step, Job.Key;
    var s' := Step(s, a);
    forall p | p in s'.pages
      ensures PageOrigin(s0, run + [a], s'.pages[p])
    {
      if a.FetchOk? || a.FetchUnusable? {
        FetchedNow(s0, run, s, a);
      }
      if p in s.pages {
        PageOriginKept(s0, run, a, s.pages[p]);
      }
    }
    forall k | k in s'.extractions
      ensures ExtractionOrigin(s0, run + [a], s'.extractions[k])
    {
      if a.ExtractOk? {
        ExtractedNow(s0, run, s, a);
      }
      if k in s.extractions {
        ExtractionOriginKept(s0, run, a, s.extractions[k]);
      }
    }
  }

  /** The data of a task right after a step, if what is new in it has its origin. */
  ghost predicate PhaseOrigin(s0: State, run: seq<Action>, i: nat, phase: Phase) {
    && (phase.Fetching? ==> Happened(s0, run, TakePage(i), phase.since))
    && (phase.Extracting? ==> Happened(s0, run, TakeContent(i), phase.since))
    && (phase.WaitContent? || phase.Extracting? || phase.Done? ==> PageOrigin(s0, run, phase.html))
    && (phase.Done? && phase.extraction.Some? ==> ExtractionOrigin(s0, run, phase.extraction.value))
  }

  lemma MovedOrigin(s0: State, run: seq<Action>, a: Action, i: nat, t: Task, t': Task)
    requires TaskOrigin(s0, run, i, t) && !t.phase.Failed? && PhaseOrigin(s0, run + [a], i, t'.phase)
    requires (!t.phase.NotStarted? && t'.began == t.began) || (a == Start(i) && t'.began == s0.clock + |run|)
    requires t'.phase.Failed? <==> Fails(a, i)
    ensures TaskOrigin(s0, run + [a], i, t')
  {
    hide PageOrigin, ExtractionOrigin, Happened, Fails;
    FailedKept(run, a, i);
    HappensNow(s0, run, a);
    if !t.phase.NotStarted? && t'.began == t.began {
      HappenedKept(s0, run, a, Start(i), t.began);
    }
  }

  /** What a call goes on with after html was found or fetched. */
  lemma WithHtmlOrigin(s0: State, run: seq<Action>, s: State, i: nat, html: Html)
    requires i < |s.tasks| && s.tasks[i].job.Content? && PageOrigin(s0, run, html)
    requires forall k :: k in s.extractions ==> ExtractionOrigin(s0, run, s.extractions[k])
    ensures i < |WithHtml(s, i, html).tasks|
    ensures var t := WithHtml(s, i, html).tasks[i];
      PhaseOrigin(s0, run, i, t.phase) && !t.phase.Failed? && t.began == s.tasks[i].began
  {
    hide PageOrigin, ExtractionOrigin, Happened;
  }

  /** Every cached page and extraction keeps its origin in a longer run. */
  lemma CachedKept(s0: State, run: seq<Action>, s: State, a: Action)
    requires Origins(s0, run, s)
    ensures forall p :: p in s.pages ==> PageOrigin(s0, run + [a], s.pages[p])
    ensures forall k :: k in s.extractions ==> ExtractionOrigin(s0, run + [a], s.extractions[k])
  {
    hide PageOrigin, ExtractionOrigin, TaskOrigin;
    forall p | p in s.pages
      ensures PageOrigin(s0, run + [a], s.pages[p])
    {
      PageOriginKept(s0, run, a, s.pages[p]);
    }
    forall k | k in s.extractions
      ensures ExtractionOrigin(s0, run + [a], s.extractions[k])
    {
      ExtractionOriginKept(s0, run, a, s.extractions[k]);
    }
  }

  lemma AdmittedOrigin(s0: State, run: seq<Action>, s: State, a: Action)
    requires Origins(s0, run, s) && Enabled(s, a) && (a.Start? || a.TakePermit? || a.TakePage?)
    requires OwnData(s, s.tasks[a.i])
    ensures a.i < |Step(s, a).tasks| && TaskOrigin(s0, run + [a], a.i, Step(s, a).tasks[a.i])
  {
    hide PageOrigin, ExtractionOrigin, Happened, WithHtml, Job.Key, TaskOrigin;
    var t := s.tasks[a.i];
    CachedKept(s0, run, s, a);
    HappensNow(s0, run, a);
    if t.job.Content? && t.job.page in s.pages {
      if a.TakePermit? {
        WithHtmlOrigin(s0, run + [a], s.(permits := s.permits - 1), a.i, s.pages[t.job.page]);
      } else if a.TakePage? {
        WithHtmlOrigin(s0, run + [a], s, a.i, s.pages[t.job.page]);
      }
    }
    MovedOrigin(s0, run, a, a.i, t, Step(s, a).tasks[a.i]);
  }

  lemma FetcherOrigin(s0: State, run: seq<Action>, s: State, a: Action)
    requires Origins(s0, run, s) && Enabled(s, a) && (a.FetchOk? || a.FetchUnusable? || a.FetchFail?)
    ensures a.i < |Step(s, a).tasks| && TaskOrigin(s0, run + [a], a.i, Step(s, a).tasks[a.i])
  {
    hide PageOrigin, ExtractionOrigin, Happened, WithHtml, Job.Key, TaskOrigin;
    var t := s.tasks[a.i];
    CachedKept(s0, run, s, a);
    if a.FetchOk? {
      FetchedNow(s0, run, s, a);
      var html := Html(t.job.page, a.body, t.phase.since);
      if t.job.Content? {
        WithHtmlOrigin(s0, run + [a],
                       s.(pages := s.pages[t.job.page := html], pageLocks := s.pageLocks - {t.job.page}), a.i, html);
      }
    }
    MovedOrigin(s0, run, a, a.i, t, Step(s, a).tasks[a.i]);
  }

  lemma ExtractorOrigin(s0: State, run: seq<Action>, s: State, a: Action)
    requires Origins(s0, run, s) && Enabled(s, a) && (a.TakeContent? || a.ExtractOk? || a.ExtractFail?)
    ensures a.i < |Step(s, a).tasks| && TaskOrigin(s0, run + [a], a.i, Step(s, a).tasks[a.i])
  {
    hide PageOrigin, ExtractionOrigin, Happened, Job.Key;
    var t := s.tasks[a.i];
    assert TaskOrigin(s0, run, a.i, t);
    hide TaskOrigin;
    PageOriginKept(s0, run, a, t.phase.html);
    CachedKept(s0, run, s, a);
    HappensNow(s0, run, a);
    if a.ExtractOk? {
      ExtractedNow(s0, run, s, a);
    }
    MovedOrigin(s0, run, a, a.i, t, Step(s, a).tasks[a.i]);
  }

  lemma MoverOrigin(s0: State, run: seq<Action>, s: State, a: Action)
    requires Origins(s0, run, s) && Enabled(s, a) && Mover(a).Some? && a.i < |s.tasks| && OwnData(s, s.tasks[a.i])
    ensures a.i < |Step(s, a).tasks| && TaskOrigin(s0, run + [a], a.i, Step(s, a).tasks[a.i])
  {
    hide Origins, Enabled, Step, TaskOrigin, OwnData;
    if a.Start? || a.TakePermit? || a.TakePage? {
      AdmittedOrigin(s0, run, s, a);
    } else if a.FetchOk? || a.FetchUnusable? || a.FetchFail? {
      FetcherOrigin(s0, run, s, a);
    } else {
      ExtractorOrigin(s0, run, s, a);
    }
  }

  /** Every step keeps the origins. */
  lemma StepKeepsOrigins(s0: State, run: seq<Action>, s: State, a: Action, capacity: nat)
    requires Inv(s, capacity) && Enabled(s, a) && Origins(s0, run, s)
    ensures Origins(s0, run + [a], Step(s, a))
  {
    hide PageOrigin, ExtractionOrigin, TaskOrigin, Step, Enabled, OwnData, MissesOnly, PagesLocked, ContentsLocked,
      CachesOk, Holders, LocksMoved, CachesMoved;
    var s' := Step(s, a);
    EnabledMover(s, a);
    StepMoves(s, a);
    CacheMoves(s, a);
    CachesHaveOrigins(s0, run, s, a);
    forall i: nat | i < |s'.tasks|
      ensures s'.tasks[i].job == s0.tasks[i].job && TaskOrigin(s0, run + [a], i, s'.tasks[i])
    {
      if Mover(a) == Some(i) {
        MoverOrigin(s0, run, s, a);
      } else {
        TaskOriginKept(s0, run, a, i, s.tasks[i]);
      }
    }
  }

  lemma InitialOrigins(s0: State, capacity: nat)
    requires Initial(s0, capacity)
    ensures Origins(s0, [], s0)
  {
    hide CachesOk;
  }

  /**
   In every run, everything in the caches and in the hands of the callers was cached from the
   start or comes from a fetch or extraction of the run, with the time at which it began; a call
   failed exactly if a fetch or an extraction of its own failed.
   */
  lemma {:induction false} RunKeepsOrigins(s0: State, run: seq<Action>, capacity: nat)
    requires Initial(s0, capacity) && Legal(s0, run)
    ensures Origins(s0, run, After(s0, run).value)
  {
    hide Origins, Initial, Inv, Step, Enabled;
    if run == [] {
      InitialOrigins(s0, capacity);
    } else {
      var init, a := run[..|run| - 1], run[|run| - 1];
      LegalPrefix(s0, run);
      RunKeepsInv(s0, init, capacity);
      RunKeepsOrigins(s0, init, capacity);
      StepKeepsOrigins(s0, init, After(s0, init).value, a, capacity);
      assert init + [a] == run;
    }
  }

  // ----- What a call gets

  /** The call failed, or holds a page with this body. */
  predicate HoldsBody(t: Task, body: string) {
    || t.phase.Failed?
    || ((t.phase.WaitContent? || t.phase.Extracting? || t.phase.Done?) && t.phase.html.body == body)
  }

  lemma StepHoldsBody(s: State, a: Action, i: nat, body: string)
    requires Enabled(s, a) && i < |s.tasks| && (Mover(a).Some? ==> OwnData(s, s.tasks[Mover(a).value]))
    requires HoldsBody(s.tasks[i], body) || a == FetchOk(i, body)
    ensures i < |Step(s, a).tasks| && HoldsBody(Step(s, a).tasks[i], body)
  {
    hide Job.Key, LocksMoved, OwnData;
    if Mover(a) != Some(i) {
      hide Step;
      StepMoves(s, a);
    }
  }

  /** A call that fetched its page itself works with what it fetched, or fails. */
  lemma {:induction false} OwnFetchIsUsed(s0: State, run: seq<Action>, capacity: nat, n: nat)
    requires Initial(s0, capacity) && Legal(s0, run) && n < |run| && run[n].FetchOk?
    ensures run[n].i < |After(s0, run).value.tasks| && HoldsBody(After(s0, run).value.tasks[run[n].i], run[n].body)
  {
    hide Initial, Inv, Step, HoldsBody, Enabled;
    var init, a := run[..|run| - 1], run[|run| - 1];
    LegalPrefix(s0, run);
    RunKeepsInv(s0, init, capacity);
    var s := After(s0, init).value;
    EnabledMover(s, a);
    assert Mover(a).Some? ==> OwnData(s, s.tasks[Mover(a).value]) by {
      InvOwnData(s, capacity);
    }
    if n < |init| {
      OwnFetchIsUsed(s0, init, capacity, n);
    }
    StepHoldsBody(s, a, run[n].i, run[n].body);
  }

  lemma InvOwnData(s: State, capacity: nat)
    requires Inv(s, capacity)
    ensures forall i :: 0 <= i < |s.tasks| ==> OwnData(s, s.tasks[i])
  {
  }

  /**
   A call that need not refresh and finds its page cached takes no lock: it is done at once if the
   extraction is cached as well, and otherwise goes on to extract from the cached page.
   */
  lemma {:induction false} CacheHitTakesNoLock(s: State, i: nat)
    requires Enabled(s, TakePermit(i)) && !s.tasks[i].job.force && s.tasks[i].job.page in s.pages
    ensures var s', job := Step(s, TakePermit(i)), s.tasks[i].job;
      && s'.pageLocks == s.pageLocks && s'.contentLocks == s.contentLocks
      && s'.pages == s.pages && s'.extractions == s.extractions
      && i < |s'.tasks|
      && s'.tasks[i].phase == (if (job.page, job.modified) in s.extractions
                               then Done(s.pages[job.page], Some(s.extractions[(job.page, job.modified)]))
                               else WaitContent(s.pages[job.page]))
  {
  }
}
