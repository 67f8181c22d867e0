/** Facts, suggestions and the FIFO analysis cache of the issue analyser. */
module IssueAnalysis {
  import opened Collections
  import opened Text

  /** A date or time stamp: its text, and its day number if the text parses. */
  datatype Stamp = Stamp(text: string, day: Option<int>)

  datatype Comment = Comment(id: string, author: string, body: string, created: int)

  datatype Change = Change(toValue: string, at: Stamp)

  datatype IssueDetail = IssueDetail(
    key: string,
    summary: Option<string>,
    priority: Option<string>,
    assignee: Option<string>,
    dueDate: Option<Stamp>,
    flagged: bool,
    comments: seq<Comment>,
    links: seq<string>,          // linked issue keys
    changelog: seq<Change>)      // status transitions, oldest first

  datatype Reference = Reference(pageId: string, title: string, excerpt: string, passage: string)

  datatype BlockedReason = LatestComment(author: string, body: string) | NoComments | Unavailable(reason: string)

  datatype Suggestions = Suggestions(
    resolution: string, mitigation: string, risk: string, evidence: seq<(string, Option<string>)>)

  datatype BlockerAnalysis = BlockerAnalysis(
    issueKey: string,
    summary: string,
    blockedReason: BlockedReason,
    daysBlocked: int,
    owner: string,
    priority: Option<string>,
    dependents: seq<string>,
    dueDate: Option<Stamp>,
    flagged: bool,
    suggestions: Suggestions,
    score: int,
    refs: seq<Reference>)

  // ----- Days blocked

  function DaysSince(at: Stamp, today: int): int {
    match at.day
    case Some(day) => if today - day > 0 then today - day else 0
    case None => 0
  }

  predicate IsBlocked(c: Change, statuses: set<string>) {
    Normalised(c.toValue) in statuses
  }

  /** Days since the latest status change, if that change was into a blocked status. */
  function DaysBlocked(changelog: seq<Change>, statuses: set<string>, today: int): int {
    if changelog == [] then 0
    else
      var last := changelog[|changelog| - 1];
      if IsBlocked(last, statuses) then DaysSince(last.at, today) else 0
  }

  method ComputeDaysBlocked(issue: IssueDetail, statuses: set<string>, today: int) returns (days: int)
    ensures days == DaysBlocked(issue.changelog, statuses, today)
  {
    for i := |issue.changelog| downto 0
      invariant i == |issue.changelog|
    {
      var entry := issue.changelog[i];
      if Normalised(entry.toValue) !in statuses {
        return 0;
      }
      match entry.at.day
      case Some(day) =>
        return if 0 < today - day then today - day else 0;
      case None =>
        return 0;
    }
    return 0;
  }

  /** The changes into blocked statuses at the end of the changelog: the current blocked stretch. */
  function BlockedStretch(changelog: seq<Change>, statuses: set<string>): seq<Change> {
    if changelog != [] && IsBlocked(changelog[|changelog| - 1], statuses)
    then BlockedStretch(changelog[..|changelog| - 1], statuses) + [changelog[|changelog| - 1]]
    else []
  }

  /** Days for which the issue has been blocked without interruption. */
  function ContinuouslyBlocked(changelog: seq<Change>, statuses: set<string>, today: int): int {
    var stretch := BlockedStretch(changelog, statuses);
    if stretch == [] then 0 else DaysSince(stretch[0].at, today)
  }

  lemma {:induction false} StretchIsSuffix(changelog: seq<Change>, statuses: set<string>)
    ensures var stretch := BlockedStretch(changelog, statuses);
      |stretch| <= |changelog| && stretch == changelog[|changelog| - |stretch|..]
    ensures BlockedStretch(changelog, statuses) != [] <==>
            changelog != [] && IsBlocked(changelog[|changelog| - 1], statuses)
  {
    if changelog != [] && IsBlocked(changelog[|changelog| - 1], statuses) {
      StretchIsSuffix(changelog[..|changelog| - 1], statuses);
    }
  }

  /** Days from an earlier stamp are never fewer, and as many exactly if it is as late, or neither is before today. */
  lemma DaysSinceOrder(first: Stamp, last: Stamp, today: int)
    requires first.day.Some? && last.day.Some?
    ensures first.day.value <= last.day.value ==> DaysSince(last, today) <= DaysSince(first, today)
    ensures DaysSince(last, today) == DaysSince(first, today) <==>
            first.day == last.day || (first.day.value >= today && last.day.value >= today)
  {
  }

  /**
   The days reported count from the last change of the blocked stretch, although they are meant
   to be the days for which the issue has been blocked without interruption. With readable stamps
   the two agree exactly if the stretch begins on the day of its last change (as it does when it
   has one change), or not before today; in a changelog in ascending order the days reported are
   never more. An unreadable stamp counts as no days.
   */
  lemma {:induction false} DaysBlockedVersusStretch(changelog: seq<Change>, statuses: set<string>, today: int)
    ensures var stretch := BlockedStretch(changelog, statuses);
      var days, meant := DaysBlocked(changelog, statuses, today), ContinuouslyBlocked(changelog, statuses, today);
      && (stretch == [] ==> days == meant == 0)
      && (stretch != [] ==>
            var first, last := stretch[0].at, stretch[|stretch| - 1].at;
            && days == DaysSince(last, today) && meant == DaysSince(first, today)
            && (first.day.Some? && last.day.Some? ==>
                  && (days == meant <==>
                        first.day == last.day || (first.day.value >= today && last.day.value >= today))
                  && (first.day.value <= last.day.value ==> days <= meant)))
  {
    hide IsBlocked;
    StretchIsSuffix(changelog, statuses);
    var stretch := BlockedStretch(changelog, statuses);
    if stretch != [] {
      assert stretch[0] == changelog[|changelog| - |stretch|];
      assert stretch[|stretch| - 1] == changelog[|changelog| - 1];
      if stretch[0].at.day.Some? && stretch[|stretch| - 1].at.day.Some? {
        DaysSinceOrder(stretch[0].at, stretch[|stretch| - 1].at, today);
      }
    }
  }

  /** Blocked on day 0 and moved to another blocked status on day 9: on day 10 one day is reported instead of ten. */
  lemma MoveRestartsCount()
    ensures var changelog := [Change("blocked", Stamp("day 0", Some(0))), Change("waiting", Stamp("day 9", Some(9)))];
      var statuses := {"blocked", "waiting"};
      && DaysBlocked(changelog, statuses, 10) == 1
      && ContinuouslyBlocked(changelog, statuses, 10) == 10
  {
    var first, last := Change("blocked", Stamp("day 0", Some(0))), Change("waiting", Stamp("day 9", Some(9)));
    var statuses := {"blocked", "waiting"};
    NormalisedStatus("blocked");
    NormalisedStatus("waiting");
    assert [first, last][..1] == [first] && [first][..0] == [];
    assert BlockedStretch([first], statuses) == [] + [first];
    assert BlockedStretch([first, last], statuses) == [first] + [last];
  }

  /** A word in lower case is its own normal form. */
  lemma NormalisedStatus(s: string)
    requires s != "" && !IsSpace(s[0]) && !IsSpace(s[|s| - 1]) && Lower(s) == s
    ensures Normalised(s) == s
  {
  }

  // ----- Analyses

  function OrElse(o: Option<string>, other: string): string {
    if o.Some? && o.value != "" then o.value else other
  }

  /** The newest comment: the first in a stable sort by creation, newest first. */
  function Newest(comments: seq<Comment>): Comment
    requires comments != []
  {
    if |comments| == 1 then comments[0]
    else
      var best := Newest(comments[..|comments| - 1]);
      if comments[|comments| - 1].created > best.created then comments[|comments| - 1] else best
  }

  lemma {:induction false} NewestIsFirstMaximum(comments: seq<Comment>) returns (i: nat)
    requires comments != []
    ensures i < |comments| && Newest(comments) == comments[i]
    ensures forall j :: 0 <= j < |comments| ==> comments[j].created <= comments[i].created
    ensures forall j :: 0 <= j < i ==> comments[j].created < comments[i].created
  {
    i := 0;
    if |comments| > 1 {
      i := NewestIsFirstMaximum(comments[..|comments| - 1]);
      if comments[|comments| - 1].created > comments[i].created {
        i := |comments| - 1;
      }
    }
  }

  /** The fields computed from Jira data alone. */
  datatype Facts = Facts(
    blockedReason: BlockedReason, daysBlocked: int, owner: string, priority: Option<string>,
    dependents: seq<string>, dueDate: Option<Stamp>, flagged: bool)

  function FactsOf(issue: IssueDetail, statuses: set<string>, today: int): Facts {
    Facts(
      if issue.comments == [] then NoComments
      else var c := Newest(issue.comments); LatestComment(c.author, Take(c.body, 200)),
      DaysBlocked(issue.changelog, statuses, today),
      OrElse(issue.assignee, "Unassigned"),
      issue.priority,
      issue.links,
      issue.dueDate,
      issue.flagged)
  }

  function FactsIn(a: BlockerAnalysis): Facts {
    Facts(a.blockedReason, a.daysBlocked, a.owner, a.priority, a.dependents, a.dueDate, a.flagged)
  }

  /** A completed analysis: facts from the issue, suggestions from the language model. */
  function Build(issue: IssueDetail, statuses: set<string>, today: int, summaries: map<string, string>,
                 refs: seq<Reference>, suggestions: Suggestions): (a: BlockerAnalysis)
    ensures a.issueKey == issue.key && FactsIn(a) == FactsOf(issue, statuses, today)
    ensures a.suggestions == suggestions && a.refs == refs
  {
    var f := FactsOf(issue, statuses, today);
    var listed := if issue.key in summaries then Some(summaries[issue.key]) else None;
    BlockerAnalysis(issue.key, OrElse(issue.summary, OrElse(listed, "(no summary)")), f.blockedReason, f.daysBlocked,
                    f.owner, f.priority, f.dependents, f.dueDate, f.flagged, suggestions, 0, refs)
  }

  lemma OrElseMeans(o: Option<string>, other: string)
    ensures OrElse(o, other) == if o in {None, Some("")} then other else o.value
  {
  }

  /** What a completed analysis says about the issue. */
  lemma {:induction false} AnalysisOfIssue(issue: IssueDetail, statuses: set<string>, today: int,
                                           summaries: map<string, string>, refs: seq<Reference>,
                                           suggestions: Suggestions)
    returns (newest: nat)
    ensures var a := Build(issue, statuses, today, summaries, refs, suggestions);
      && a.issueKey == issue.key && a.suggestions == suggestions && a.refs == refs && a.score == 0
      && a.priority == issue.priority && a.dependents == issue.links && a.dueDate == issue.dueDate
      && a.flagged == issue.flagged
      && a.owner == (if issue.assignee in {None, Some("")} then "Unassigned" else issue.assignee.value)
      && a.summary == (if issue.summary !in {None, Some("")} then issue.summary.value
                       else if issue.key in summaries && summaries[issue.key] != "" then summaries[issue.key]
                       else "(no summary)")
      && a.daysBlocked ==
         (if issue.changelog == [] then 0
          else var last := issue.changelog[|issue.changelog| - 1];
            if Normalised(last.toValue) !in statuses || last.at.day.None? || last.at.day.value >= today then 0
            else today - last.at.day.value)
      && (if issue.comments == [] then a.blockedReason == NoComments
          else
            && newest < |issue.comments|
            && (forall j :: 0 <= j < |issue.comments| ==>
                  issue.comments[j].created <= issue.comments[newest].created &&
                  (j < newest ==> issue.comments[j].created < issue.comments[newest].created))
            && var c := issue.comments[newest];
              a.blockedReason == LatestComment(c.author, if |c.body| <= 200 then c.body else c.body[..200]))
  {
    hide Newest, OrElse;
    var listed := if issue.key in summaries then Some(summaries[issue.key]) else None;
    OrElseMeans(issue.assignee, "Unassigned");
    OrElseMeans(listed, "(no summary)");
    OrElseMeans(issue.summary, OrElse(listed, "(no summary)"));
    newest := 0;
    if issue.comments != [] {
      newest := NewestIsFirstMaximum(issue.comments);
    }
  }

  function Degraded(key: string, reason: string): BlockerAnalysis {
    BlockerAnalysis(key, "(analysis unavailable)", Unavailable(reason), 0, "unknown", None, [], None, false,
                    Suggestions("(unavailable)", "(unavailable)", "(unavailable)", []), 0, [])
  }

  // ----- The cache

  /** Issue key and time stamp of the last change. */
  type CacheKey = (string, string)

  type Cache = Dict<CacheKey, BlockerAnalysis>

  function KeyFor(issue: IssueDetail): CacheKey {
    (issue.key, if issue.changelog == [] then "" else issue.changelog[|issue.changelog| - 1].at.text)
  }

  /** A cached analysis gets the current references if it has none. */
  function Reattach(a: BlockerAnalysis, refs: seq<Reference>): (r: BlockerAnalysis)
    ensures r.(refs := a.refs) == a
  {
    if refs != [] && a.refs == [] then a.(refs := refs) else a
  }

  function CacheHit(cache: Cache, issue: IssueDetail, refs: seq<Reference>, force: bool): Option<BlockerAnalysis> {
    if !force && KeyFor(issue) in cache.vals then Some(Reattach(cache.vals[KeyFor(issue)], refs)) else None
  }

  /** Write back: a full cache first drops its oldest entry. */
  function Remember(cache: Cache, maxSize: int, key: CacheKey, a: BlockerAnalysis): (c: Cache)
    requires cache.Valid()
    ensures c.Valid()
  {
    if maxSize <= 0 then cache
    else
      var room := if |cache.keys| >= maxSize then cache.Remove(cache.keys[0]) else cache;
      room.Put(key, a)
  }

  /**
   The size after a write: overwriting a present key in a full cache still drops the oldest
   entry, so the cache shrinks unless the key is itself the oldest.
   */
  lemma {:induction false} SizeAfterWrite(cache: Cache, maxSize: int, key: CacheKey, a: BlockerAnalysis)
    requires cache.Valid() && maxSize > 0 && |cache.keys| <= maxSize
    ensures var c := Remember(cache, maxSize, key, a);
      && key in c.vals && c.vals[key] == a
      && |c.keys| <= maxSize
      && (|c.keys| < |cache.keys| <==> |cache.keys| == maxSize && key in cache.vals && key != cache.keys[0])
      && (forall k :: k in cache.vals && k !in c.vals ==> |cache.keys| == maxSize && k == cache.keys[0])
  {
    if |cache.keys| >= maxSize {
      RemoveKeyProperties(cache.keys, cache.keys[0]);
    }
  }

  /** One completed analysis, written back to the cache when it finished. */
  datatype Written = Written(
    issue: IssueDetail, today: int, summaries: map<string, string>, refs: seq<Reference>, suggestions: Suggestions)

  function Analysis(w: Written, statuses: set<string>): BlockerAnalysis {
    Build(w.issue, statuses, w.today, w.summaries, w.refs, w.suggestions)
  }

  /** The cache after analyses finished in the order of history, whatever calls they belong to. */
  function Replay(cache: Cache, maxSize: int, statuses: set<string>, history: seq<Written>): (c: Cache)
    requires cache.Valid()
    ensures c.Valid()
  {
    if history == [] then cache
    else
      var w := history[|history| - 1];
      Remember(Replay(cache, maxSize, statuses, history[..|history| - 1]), maxSize, KeyFor(w.issue),
               Analysis(w, statuses))
  }

  function LastWritten(history: seq<Written>, key: CacheKey): Option<Written> {
    if history == [] then None
    else if KeyFor(history[|history| - 1].issue) == key then Some(history[|history| - 1])
    else LastWritten(history[..|history| - 1], key)
  }

  /** In every interleaving an entry is the latest analysis written under its key, and the size is bounded. */
  lemma {:induction false} CacheHoldsLatest(maxSize: int, statuses: set<string>, history: seq<Written>, key: CacheKey)
    ensures var c := Replay(EmptyDict(), maxSize, statuses, history);
      && |c.keys| <= (if maxSize > 0 then maxSize else 0)
      && (key in c.vals ==>
            && LastWritten(history, key).Some?
            && KeyFor(LastWritten(history, key).value.issue) == key
            && c.vals[key] == Analysis(LastWritten(history, key).value, statuses)
            && c.vals[key].issueKey == key.0)
  {
    hide Build, KeyFor;
    if history != [] {
      var init, w := history[..|history| - 1], history[|history| - 1];
      CacheHoldsLatest(maxSize, statuses, init, key);
      var before := Replay(EmptyDict(), maxSize, statuses, init);
      if maxSize > 0 {
        SizeAfterWrite(before, maxSize, KeyFor(w.issue), Analysis(w, statuses));
      }
      assert KeyFor(w.issue).0 == w.issue.key by {
        KeyForIssue(w.issue);
      }
    }
  }

  lemma KeyForIssue(issue: IssueDetail)
    ensures KeyFor(issue).0 == issue.key
  {
  }

  /** The stamp of the last change, if it was into a blocked status. */
  function BlockedSince(changelog: seq<Change>, statuses: set<string>): Option<Stamp> {
    if changelog != [] && IsBlocked(changelog[|changelog| - 1], statuses) then Some(changelog[|changelog| - 1].at)
    else None
  }

  /** No days to count: not blocked, since an unreadable stamp, or not before today. */
  predicate NoDays(since: Option<Stamp>, today: int) {
    since.None? || since.value.day.None? || today <= since.value.day.value
  }

  /**
   The same days blocked: none to count either time, or as many days after the stamp then as now;
   so for an unchanged stamp on the same day, and if only one of the two is blocked, when its
   stamp counts no days.
   */
  predicate SameDays(a: seq<Change>, dayA: int, b: seq<Change>, dayB: int, statuses: set<string>) {
    var x, y := BlockedSince(a, statuses), BlockedSince(b, statuses);
    if NoDays(x, dayA) || NoDays(y, dayB) then NoDays(x, dayA) && NoDays(y, dayB)
    else dayA - x.value.day.value == dayB - y.value.day.value
  }

  /** The newest comments read the same, as far as they are quoted. */
  predicate SameComment(a: seq<Comment>, b: seq<Comment>) {
    if a == [] || b == [] then a == b
    else Newest(a).author == Newest(b).author && Take(Newest(a).body, 200) == Take(Newest(b).body, 200)
  }

  /** The issue as analysed then and the issue now agree in every field that a fact is taken from. */
  predicate SameFields(a: IssueDetail, dayA: int, b: IssueDetail, dayB: int, statuses: set<string>) {
    && OrElse(a.assignee, "Unassigned") == OrElse(b.assignee, "Unassigned")
    && a.priority == b.priority && a.links == b.links && a.dueDate == b.dueDate && a.flagged == b.flagged
    && SameComment(a.comments, b.comments)
    && SameDays(a.changelog, dayA, b.changelog, dayB, statuses)
  }

  lemma SameFieldsSameFacts(a: IssueDetail, dayA: int, b: IssueDetail, dayB: int, statuses: set<string>)
    ensures FactsOf(a, statuses, dayA) == FactsOf(b, statuses, dayB) <==> SameFields(a, dayA, b, dayB, statuses)
  {
    hide Newest, IsBlocked, Take, OrElse;
  }

  /**
   A hit has the facts of a recomputation exactly when the issue agrees, field by field, with the
   one that the latest write analysed: assignee, priority, links, due date, flag, newest comment,
   and the days blocked; in particular for an unchanged issue on an unchanged day.
   */
  lemma {:induction false} HitAgreesWithRecomputation(maxSize: int, statuses: set<string>, history: seq<Written>,
                                                      issue: IssueDetail, today: int, refs: seq<Reference>,
                                                      hit: BlockerAnalysis)
    requires CacheHit(Replay(EmptyDict(), maxSize, statuses, history), issue, refs, false) == Some(hit)
    ensures LastWritten(history, KeyFor(issue)).Some?
    ensures var w := LastWritten(history, KeyFor(issue)).value;
      && hit.issueKey == issue.key
      && hit.(refs := w.refs) == Analysis(w, statuses)
      && (FactsIn(hit) == FactsOf(issue, statuses, today) <==> SameFields(w.issue, w.today, issue, today, statuses))
      && (w.issue == issue && w.today == today ==> FactsIn(hit) == FactsOf(issue, statuses, today))
  {
    hide FactsOf, KeyFor, SameFields;
    CacheHoldsLatest(maxSize, statuses, history, KeyFor(issue));
    KeyForIssue(issue);
    var w := LastWritten(history, KeyFor(issue)).value;
    SameFieldsSameFacts(w.issue, w.today, issue, today, statuses);
  }

  /** The key does not cover everything: after a reassignment without a status change a hit names the old owner. */
  lemma {:induction false} ReassignmentIsNotNoticed(maxSize: int, statuses: set<string>, w: Written, assignee: string)
    requires maxSize > 0 && assignee != "" && assignee != OrElse(w.issue.assignee, "Unassigned")
    ensures var issue := w.issue.(assignee := Some(assignee));
      var hit := CacheHit(Replay(EmptyDict(), maxSize, statuses, [w]), issue, [], false);
      hit.Some? && FactsOf(issue, statuses, w.today).owner == assignee != hit.value.owner
  {
    hide DaysBlocked, Newest;
    assert [w][..0] == [];
    SizeAfterWrite(EmptyDict(), maxSize, KeyFor(w.issue), Analysis(w, statuses));
    assert Replay(EmptyDict(), maxSize, statuses, [w]) ==
      Remember(EmptyDict(), maxSize, KeyFor(w.issue), Analysis(w, statuses));
  }
}
