/** Briefing sections: collect issue keys, cap them, analyse, rank per topic. */
module Sections {
  import opened Collections
  import opened Clarification
  import opened Briefings
  import opened IssueAnalysis
  import opened Ranking

  /** issue.get(name) or issue.get(other, ""), with a missing or null value as "". */
  function Field(issue: Issue, name: string, other: string): string {
    if name in issue.vals && Truthy(issue.vals[name]) then issue.vals[name].value
    else if other in issue.vals then issue.vals[other].GetOr("")
    else ""
  }

  function IssueKey(issue: Issue): string {
    Field(issue, "key", "Key")
  }

  function IssueSummary(issue: Issue): string {
    Field(issue, "summary", "Summary")
  }

  /** The keys of the issues that have one, in order. */
  function KeysOf(issues: seq<Issue>): seq<string> {
    if issues == [] then []
    else
      var key := IssueKey(issues[|issues| - 1]);
      KeysOf(issues[..|issues| - 1]) + if key != "" then [key] else []
  }

  function AddSummaries(summaries: map<string, string>, issues: seq<Issue>): map<string, string> {
    if issues == [] then summaries
    else
      var rest, issue := AddSummaries(summaries, issues[..|issues| - 1]), issues[|issues| - 1];
      if IssueKey(issue) != "" && IssueSummary(issue) != "" then rest[IssueKey(issue) := IssueSummary(issue)] else rest
  }

  function TopicIssues(topic: Topic, completed: Completed): seq<Issue> {
    if topic.topicId in completed then completed[topic.topicId].issues else []
  }

  function TopicKeys(topic: Topic, completed: Completed): seq<string> {
    KeysOf(TopicIssues(topic, completed))
  }

  /** The keys of all topics, one topic after the other. */
  function AllKeys(topics: seq<Topic>, completed: Completed): seq<string> {
    if topics == [] then []
    else AllKeys(topics[..|topics| - 1], completed) + TopicKeys(topics[|topics| - 1], completed)
  }

  function AllSummaries(topics: seq<Topic>, completed: Completed): map<string, string> {
    if topics == [] then map[]
    else AddSummaries(AllSummaries(topics[..|topics| - 1], completed), TopicIssues(topics[|topics| - 1], completed))
  }

  /** The keys to analyse: distinct, in order of first occurrence, cut at the cap (a Python slice). */
  function Kept(topics: seq<Topic>, completed: Completed, cap: int): seq<string> {
    Take(Dedup(AllKeys(topics, completed)), cap)
  }

  /** The occurrences in keys of kept keys. */
  function Surviving(keys: seq<string>, kept: seq<string>): seq<string> {
    if keys == [] then []
    else Surviving(keys[..|keys| - 1], kept) + if keys[|keys| - 1] in kept then [keys[|keys| - 1]] else []
  }

  function Dropped(keys: seq<string>, kept: seq<string>): nat {
    if keys == [] then 0 else Dropped(keys[..|keys| - 1], kept) + if keys[|keys| - 1] in kept then 0 else 1
  }

  datatype BriefingError =
    | FromTopic(error: TopicError)
    | AllSkipped(topicId: string, count: nat, cap: int)
    | DetailsError(message: string)
    | DetailsUnavailable(message: string)

  /** Some topic of the list has this id. */
  predicate HasId(topics: seq<Topic>, id: string) {
    exists t :: t in topics && t.topicId == id
  }

  /** The errors for topics all of whose keys were dropped; topics sharing an id are reported once. */
  function SkipErrors(topics: seq<Topic>, completed: Completed, kept: seq<string>, cap: int): seq<BriefingError> {
    if topics == [] then []
    else
      var topic := topics[|topics| - 1];
      var keys := TopicKeys(topic, completed);
      SkipErrors(topics[..|topics| - 1], completed, kept, cap) +
      if !HasId(topics[..|topics| - 1], topic.topicId) && Dropped(keys, kept) > 0 && Dropped(keys, kept) == |keys|
      then [AllSkipped(topic.topicId, Dropped(keys, kept), cap)] else []
  }

  // ----- The cap

  lemma {:induction false} DropAccounting(keys: seq<string>, kept: seq<string>)
    ensures |Surviving(keys, kept)| + Dropped(keys, kept) == |keys|
    ensures forall k :: k in Surviving(keys, kept) <==> k in keys && k in kept
    ensures Dropped(keys, kept) == |keys| <==> forall k :: k in keys ==> k !in kept
    ensures Dropped(keys, kept) == 0 <==> forall k :: k in keys ==> k in kept
  {
    if keys != [] {
      var init, last := keys[..|keys| - 1], keys[|keys| - 1];
      DropAccounting(init, kept);
      assert forall k :: k in keys <==> k in init || k == last;
    }
  }

  lemma {:induction false} TopicKeysInAll(topics: seq<Topic>, completed: Completed, i: nat)
    requires i < |topics|
    ensures forall k :: k in TopicKeys(topics[i], completed) ==> k in AllKeys(topics, completed)
  {
    if i < |topics| - 1 {
      TopicKeysInAll(topics[..|topics| - 1], completed, i);
    }
  }

  /**
   Conservation: the analysed keys are the first cap distinct keys of the concatenated topic
   lists, and for each topic the kept occurrences and the dropped ones add up to its keys.
   */
  lemma {:induction false} CapConservation(topics: seq<Topic>, completed: Completed, cap: nat, i: nat)
    requires i < |topics|
    ensures var all, kept := AllKeys(topics, completed), Kept(topics, completed, cap);
      var keys := TopicKeys(topics[i], completed);
      && Distinct(kept) && kept <= Dedup(all)
      && |kept| == (if |Dedup(all)| < cap then |Dedup(all)| else cap)
      && (forall n :: 0 <= n <= |all| ==> Dedup(all[..n]) <= Dedup(all))
      && |Surviving(keys, kept)| + Dropped(keys, kept) == |keys|
      && (|Dedup(all)| <= cap ==> Dropped(keys, kept) == 0)
  {
    hide AllKeys, TopicKeys, Dedup, Surviving, Dropped;
    var all, kept := AllKeys(topics, completed), Kept(topics, completed, cap);
    var keys := TopicKeys(topics[i], completed);
    DedupDistinct(all);
    DropAccounting(keys, kept);
    TopicKeysInAll(topics, completed, i);
    forall n | 0 <= n <= |all|
      ensures Dedup(all[..n]) <= Dedup(all)
    {
      DedupPrefix(all[..n], all[n..]);
      assert all[..n] + all[n..] == all;
    }
  }

  /** As a hard limit the cap works exactly when it is not negative, or removes everything. */
  lemma {:induction false} CapHonouredExactly(topics: seq<Topic>, completed: Completed, cap: int)
    ensures |Kept(topics, completed, cap)| <= Max(cap, 0) <==>
            cap >= 0 || |Dedup(AllKeys(topics, completed))| + cap <= 0
  {
  }

  function IssueWith(key: string): Issue {
    Dict(["key"], map["key" := Some(key)])
  }

  lemma KeysOfTwo()
    ensures KeysOf([IssueWith("A"), IssueWith("B")]) == ["A", "B"]
  {
    var issues := [IssueWith("A"), IssueWith("B")];
    assert IssueKey(issues[0]) == "A" && IssueKey(issues[1]) == "B";
    hide IssueKey;
    assert issues[..1] == [issues[0]] && issues[..1][..0] == [];
    assert KeysOf(issues[..1]) == [] + ["A"];
  }

  lemma DedupTwo()
    ensures Dedup(["A", "B"]) == ["A", "B"]
  {
    assert Distinct(["A", "B"]);
    DedupDistinct(["A", "B"]);
  }

  lemma OneTopic(topic: Topic, completed: Completed)
    ensures AllKeys([topic], completed) == TopicKeys(topic, completed)
  {
    assert [topic][..0] == [];
    assert [] + TopicKeys(topic, completed) == TopicKeys(topic, completed);
  }

  /** One topic with two issues and a cap of -1: one issue is still analysed. */
  lemma NegativeCapKeepsOne(topic: Topic, response: QueryResponse)
    requires response.issues == [IssueWith("A"), IssueWith("B")]
    ensures Kept([topic], map[topic.topicId := response], -1) == ["A"]
  {
    hide KeysOf, IssueWith, Dedup;
    var completed := map[topic.topicId := response];
    KeysOfTwo();
    DedupTwo();
    OneTopic(topic, completed);
    assert AllKeys([topic], completed) == ["A", "B"];
    assert Take(["A", "B"], -1) == ["A"];
  }

  ghost predicate SkippedTopic(topic: Topic, completed: Completed, kept: seq<string>) {
    var keys := TopicKeys(topic, completed);
    keys != [] && forall k :: k in keys ==> k !in kept
  }

  ghost predicate SkipReason(topics: seq<Topic>, completed: Completed, kept: seq<string>, cap: int, e: BriefingError,
                             i: nat) {
    && i < |topics| && SkippedTopic(topics[i], completed, kept)
    && e == AllSkipped(topics[i].topicId, |TopicKeys(topics[i], completed)|, cap)
  }

  lemma SameIdSameKeys(a: Topic, b: Topic, completed: Completed)
    requires a.topicId == b.topicId
    ensures TopicKeys(a, completed) == TopicKeys(b, completed)
  {
  }

  lemma SkippedByCount(topic: Topic, completed: Completed, kept: seq<string>)
    ensures var keys := TopicKeys(topic, completed);
      SkippedTopic(topic, completed, kept) <==> Dropped(keys, kept) > 0 && Dropped(keys, kept) == |keys|
  {
    var keys := TopicKeys(topic, completed);
    DropAccounting(keys, kept);
  }

  /**
   The "all skipped" errors are exactly the ones with a reason: for each topic that has keys of
   which none was kept, with the number of its keys.
   */
  lemma {:induction false} SkippedExactly(topics: seq<Topic>, completed: Completed, kept: seq<string>, cap: int,
                                          e: BriefingError)
    ensures e in SkipErrors(topics, completed, kept, cap) <==> exists i: nat :: SkipReason(topics, completed, kept,
                                                                                           cap, e, i)
  {
    hide TopicKeys, Dropped, SkippedTopic;
    if topics != [] {
      var init, n := topics[..|topics| - 1], |topics| - 1;
      SkippedExactly(init, completed, kept, cap, e);
      SkippedByCount(topics[n], completed, kept);
      if HasId(init, topics[n].topicId) && SkipReason(topics, completed, kept, cap, e, n) {
        var t :| t in init && t.topicId == topics[n].topicId;
        var j: nat :| j < |init| && init[j] == t;
        SameIdSameKeys(t, topics[n], completed);
        SkippedByCount(t, completed, kept);
        assert SkipReason(init, completed, kept, cap, e, j);
      }
      if i: nat :| SkipReason(init, completed, kept, cap, e, i) {
        assert SkipReason(topics, completed, kept, cap, e, i);
      }
      if e in SkipErrors(topics, completed, kept, cap) && e !in SkipErrors(init, completed, kept, cap) {
        assert SkipReason(topics, completed, kept, cap, e, n);
      }
      if i: nat :| SkipReason(topics, completed, kept, cap, e, i) && i < n {
        assert SkipReason(init, completed, kept, cap, e, i);
      }
    } else {
      assert forall i: nat :: !SkipReason(topics, completed, kept, cap, e, i);
    }
  }

  // ----- The sections

  datatype SectionError = Own(warning: Warning) | Partial(dropped: nat, cap: int)

  datatype Section = Section(
    topicId: string,
    description: string,
    query: string,
    jql: Option<string>,
    topIssues: seq<BlockerAnalysis>,
    totalFound: int,
    errors: seq<SectionError>)

  /** What get_issue_details replied. */
  datatype DetailsReply = Details(issues: seq<IssueDetail>, error: Option<string>) | NoDetails(message: string)

  datatype Settings = Settings(weights: Weights, today: int, topN: int, cap: int)

  /** The analyses by issue key; of two with one key the later counts. */
  function AnalysisMap(analyses: seq<BlockerAnalysis>): map<string, BlockerAnalysis> {
    if analyses == [] then map[]
    else
      var a := analyses[|analyses| - 1];
      AnalysisMap(analyses[..|analyses| - 1])[a.issueKey := a]
  }

  /** The analyses for a list of keys, skipping keys without one. */
  function Selected(keys: seq<string>, analyses: map<string, BlockerAnalysis>): seq<BlockerAnalysis> {
    if keys == [] then []
    else
      Selected(keys[..|keys| - 1], analyses) +
      if keys[|keys| - 1] in analyses then [analyses[keys[|keys| - 1]]] else []
  }

  function OwnErrors(warnings: seq<Warning>): seq<SectionError> {
    seq(|warnings|, i requires 0 <= i < |warnings| => Own(warnings[i]))
  }

  function SectionFor(topic: Topic, completed: Completed, kept: seq<string>, analyses: map<string, BlockerAnalysis>,
                      st: Settings): Section
  {
    var keys := TopicKeys(topic, completed);
    var known := topic.topicId in completed;
    var ranked := Rank(st.weights, Selected(keys, analyses), st.today, st.topN);
    Section(topic.topicId, topic.description, topic.query,
            if known then completed[topic.topicId].jql else None,
            ranked,
            if known then completed[topic.topicId].total else 0,
            (if known then OwnErrors(completed[topic.topicId].errors) else []) +
            (if Dropped(keys, kept) > 0 then [Partial(Dropped(keys, kept), st.cap)] else []))
  }

  /** One analysis per key, in key order. */
  ghost predicate Covers(analyses: seq<BlockerAnalysis>, keys: seq<string>) {
    |analyses| == |keys| && (forall i :: 0 <= i < |keys| ==> analyses[i].issueKey == keys[i])
  }

  lemma {:induction false} MapCovers(analyses: seq<BlockerAnalysis>, keys: seq<string>)
    requires Covers(analyses, keys)
    ensures forall k :: k in AnalysisMap(analyses) <==> k in keys
    ensures forall k :: k in AnalysisMap(analyses) ==>
      AnalysisMap(analyses)[k].issueKey == k && AnalysisMap(analyses)[k] in analyses
  {
    if keys != [] {
      var init, last := keys[..|keys| - 1], keys[|keys| - 1];
      MapCovers(analyses[..|keys| - 1], init);
      assert forall k :: k in keys <==> k in init || k == last;
    }
  }

  lemma {:induction false} SelectedKeys(keys: seq<string>, kept: seq<string>, analyses: map<string, BlockerAnalysis>)
    requires forall k :: k in analyses <==> k in kept
    requires forall k :: k in analyses ==> analyses[k].issueKey == k
    ensures Covers(Selected(keys, analyses), Surviving(keys, kept))
  {
    if keys != [] {
      SelectedKeys(keys[..|keys| - 1], kept, analyses);
    }
  }

  /**
   A section shows only issues of its own topic that were kept, and as many of them as survive,
   up to the top-N limit. Its errors are the topic's own warnings, followed by the notice that
   results are partial exactly if an occurrence was dropped.
   */
  lemma {:induction false} SectionContents(topic: Topic, completed: Completed, kept: seq<string>,
                                           analyses: seq<BlockerAnalysis>, st: Settings)
    requires Covers(analyses, kept)
    ensures var section := SectionFor(topic, completed, kept, AnalysisMap(analyses), st);
      var keys := TopicKeys(topic, completed);
      && (forall a :: a in section.topIssues ==> a.issueKey in keys && a.issueKey in kept)
      && (st.topN >= 0 ==> |section.topIssues| == Min(st.topN, |Surviving(keys, kept)|))
      && var own, lost := if topic.topicId in completed then completed[topic.topicId].errors else [],
                          |keys| - |Surviving(keys, kept)|;
        && |section.errors| == |own| + (if forall k :: k in keys ==> k in kept then 0 else 1)
        && (forall i :: 0 <= i < |own| ==> section.errors[i] == Own(own[i]))
        && (|section.errors| > |own| ==> lost > 0 && section.errors[|own|] == Partial(lost, st.cap))
  {
    hide TopicKeys, Rank, ScoreOf;
    var keys := TopicKeys(topic, completed);
    var analysed := AnalysisMap(analyses);
    MapCovers(analyses, kept);
    SelectedKeys(keys, kept, analysed);
    DropAccounting(keys, kept);
    var selected := Selected(keys, analysed);
    var ranked := Rank(st.weights, selected, st.today, st.topN);
    forall a | a in ranked
      ensures a.issueKey in keys && a.issueKey in kept
    {
      var x := RankedFrom(st.weights, selected, st.today, st.topN, a);
      var i :| 0 <= i < |selected| && selected[i] == x;
      assert x.issueKey == Surviving(keys, kept)[i];
      assert Surviving(keys, kept)[i] in Surviving(keys, kept);
    }
    if st.topN >= 0 {
      RankLength(st.weights, selected, st.today, st.topN);
    }
  }

  lemma RankLength(w: Weights, xs: seq<BlockerAnalysis>, today: int, n: nat)
    ensures |Rank(w, xs, today, n)| == Min(n, |xs|)
  {
    Sorting.SortDescending(ScoreAll(w, xs, today), ScoreKey());
  }
}
