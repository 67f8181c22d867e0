/** What a section shows and where its keys and summaries come from, element by element. */
module SectionFacts {
  import opened Collections
  import opened Clarification
  import opened Briefings
  import opened IssueAnalysis
  import opened Ranking
  import opened Sections

  // ----- Keys and summaries

  /** The text under the name, or else, if that is missing, null or empty, under the other name. */
  function TextUnder(issue: Issue, name: string, other: string): string {
    if name in issue.vals && issue.vals[name] !in {None, Some("")} then issue.vals[name].value
    else if other in issue.vals && issue.vals[other].Some? then issue.vals[other].value
    else ""
  }

  function KeyPick(): Issue -> Option<string> {
    (issue: Issue) => var key := TextUnder(issue, "key", "Key"); if key == "" then None else Some(key)
  }

  lemma FieldIsText(issue: Issue, name: string, other: string)
    ensures Field(issue, name, other) == TextUnder(issue, name, other)
  {
    if name in issue.vals {
      TruthyValue(issue.vals[name]);
    }
  }

  lemma TruthyValue(o: Option<string>)
    ensures Truthy(o) <==> o !in {None, Some("")}
  {
  }

  /** The keys of the issues that have one, in issue order. */
  lemma {:induction false} KeysOfIssues(issues: seq<Issue>)
    ensures KeysOf(issues) == Picked(issues, KeyPick())
  {
    hide Field, TextUnder;
    if issues != [] {
      KeysOfIssues(issues[..|issues| - 1]);
      FieldIsText(issues[|issues| - 1], "key", "Key");
    }
  }

  /** The issues of all topics, one topic after the other; a topic without an answer has none. */
  function AllIssues(topics: seq<Topic>, completed: Completed): seq<Issue> {
    if topics == [] then []
    else
      AllIssues(topics[..|topics| - 1], completed) +
      var id := topics[|topics| - 1].topicId;
      if id in completed then completed[id].issues else []
  }

  lemma {:induction false} PickedAppend<A, B>(a: seq<A>, b: seq<A>, pick: A -> Option<B>)
    ensures Picked(a + b, pick) == Picked(a, pick) + Picked(b, pick)
  {
    if b == [] {
      assert a + b == a;
    } else {
      PickedAppend(a, b[..|b| - 1], pick);
      assert (a + b)[..|a + b| - 1] == a + b[..|b| - 1];
    }
  }

  /** The keys of all topics are those of all their issues, in order. */
  lemma {:induction false} KeysOfTopics(topics: seq<Topic>, completed: Completed)
    ensures AllKeys(topics, completed) == Picked(AllIssues(topics, completed), KeyPick())
  {
    hide KeysOf, Picked;
    if topics == [] {
      NothingPicked();
    } else {
      var init, last := topics[..|topics| - 1], topics[|topics| - 1];
      KeysOfTopics(init, completed);
      KeysOfIssues(TopicIssues(last, completed));
      PickedAppend(AllIssues(init, completed), TopicIssues(last, completed), KeyPick());
    }
  }

  lemma NothingPicked()
    ensures Picked([], KeyPick()) == []
  {
  }

  /** The summary of the last issue that has this key and a summary. */
  function LastSummary(issues: seq<Issue>, key: string): Option<string> {
    if issues == [] then None
    else
      var issue := issues[|issues| - 1];
      if key != "" && TextUnder(issue, "key", "Key") == key && TextUnder(issue, "summary", "Summary") != ""
      then Some(TextUnder(issue, "summary", "Summary"))
      else LastSummary(issues[..|issues| - 1], key)
  }

  /** The last summary given for a key counts. */
  lemma {:induction false} LastSummaryCounts(before: map<string, string>, issues: seq<Issue>, key: string)
    ensures var summaries := AddSummaries(before, issues);
      match LastSummary(issues, key)
      case Some(summary) => key in summaries && summaries[key] == summary
      case None => (key in summaries <==> key in before) && (key in before ==> summaries[key] == before[key])
  {
    hide Field, TextUnder;
    if issues != [] {
      LastSummaryCounts(before, issues[..|issues| - 1], key);
      FieldIsText(issues[|issues| - 1], "key", "Key");
      FieldIsText(issues[|issues| - 1], "summary", "Summary");
    }
  }

  lemma {:induction false} SummariesAppend(before: map<string, string>, a: seq<Issue>, b: seq<Issue>)
    ensures AddSummaries(before, a + b) == AddSummaries(AddSummaries(before, a), b)
  {
    hide Field;
    if b == [] {
      assert a + b == a;
    } else {
      SummariesAppend(before, a, b[..|b| - 1]);
      assert (a + b)[..|a + b| - 1] == a + b[..|b| - 1];
    }
  }

  /** The summaries of all topics are those of all their issues, in order. */
  lemma {:induction false} SummariesOfTopics(topics: seq<Topic>, completed: Completed)
    ensures AllSummaries(topics, completed) == AddSummaries(map[], AllIssues(topics, completed))
  {
    hide Field;
    if topics != [] {
      var init, last := topics[..|topics| - 1], topics[|topics| - 1];
      SummariesOfTopics(init, completed);
      SummariesAppend(map[], AllIssues(init, completed), TopicIssues(last, completed));
    }
  }

  // ----- The topics that lost all their keys

  function SkipPick(completed: Completed, kept: seq<string>, cap: int): Topic -> Option<BriefingError> {
    (topic: Topic) =>
      var keys := Picked(if topic.topicId in completed then completed[topic.topicId].issues else [], KeyPick());
      if keys != [] && (forall k :: k in keys ==> k !in kept) then Some(AllSkipped(topic.topicId, |keys|, cap))
      else None
  }

  /** With distinct ids: one error per topic that has keys of which none was kept, in topic order. */
  lemma {:induction false} SkipErrorsInOrder(topics: seq<Topic>, completed: Completed, kept: seq<string>, cap: int)
    requires DistinctIds(topics)
    ensures SkipErrors(topics, completed, kept, cap) == Picked(topics, SkipPick(completed, kept, cap))
  {
    hide KeysOf, Dropped;
    if topics != [] {
      var init, last := topics[..|topics| - 1], topics[|topics| - 1];
      SkipErrorsInOrder(init, completed, kept, cap);
      KeysOfIssues(TopicIssues(last, completed));
      if last.topicId !in completed {
        NothingPicked();
      }
      SkippedByCount(last, completed, kept);
      assert forall i :: 0 <= i < |init| ==> init[i] == topics[i];
    }
  }

  // ----- What a section shows

  /** Of the analyses with one key the last one counts. */
  lemma {:induction false} LastAnalysisCounts(analyses: seq<BlockerAnalysis>, n: nat)
    requires n < |analyses| && (forall m :: n < m < |analyses| ==> analyses[m].issueKey != analyses[n].issueKey)
    ensures analyses[n].issueKey in AnalysisMap(analyses)
    ensures AnalysisMap(analyses)[analyses[n].issueKey] == analyses[n]
  {
    if n < |analyses| - 1 {
      LastAnalysisCounts(analyses[..|analyses| - 1], n);
    }
  }

  function KeptPick(kept: seq<string>): string -> Option<string> {
    k => if k in kept then Some(k) else None
  }

  /** The analyses selected for a topic are those of its kept keys, in order. */
  lemma {:induction false} SelectedAre(keys: seq<string>, kept: seq<string>, analyses: map<string, BlockerAnalysis>)
    requires forall k :: k in analyses <==> k in kept
    ensures var picked := Picked(keys, KeptPick(kept));
      && |Selected(keys, analyses)| == |picked|
      && (forall i :: 0 <= i < |picked| ==> picked[i] in analyses && Selected(keys, analyses)[i] == analyses[picked[i]])
  {
    if keys != [] {
      SelectedAre(keys[..|keys| - 1], kept, analyses);
    }
  }

  /**
   A section is the ranking of the analyses of its topic's kept keys, in issue order: from[i] is the
   place of the i-th shown issue among these keys, its analysis that of this key. Its head is the
   topic's, its query's JQL and total those of the topic's answer, if it has one.
   */
  lemma {:induction false} SectionShowsRanking(topic: Topic, completed: Completed, kept: seq<string>,
                                               analyses: seq<BlockerAnalysis>, st: Settings) returns (from: seq<nat>)
    requires Covers(analyses, kept) && Distinct(kept)
    ensures var section := SectionFor(topic, completed, kept, AnalysisMap(analyses), st);
      var answer := if topic.topicId in completed then Some(completed[topic.topicId]) else None;
      var keys := Picked(if answer.Some? then Picked(answer.value.issues, KeyPick()) else [], KeptPick(kept));
      var top := section.topIssues;
      && section.topicId == topic.topicId && section.description == topic.description && section.query == topic.query
      && section.jql == (if answer.Some? then answer.value.jql else None)
      && section.totalFound == (if answer.Some? then answer.value.total else 0)
      && |from| == |top| == (if st.topN >= 0 then Min(st.topN, |keys|) else Max(|keys| + st.topN, 0))
      && (forall i :: 0 <= i < |top| ==>
            && from[i] < |keys|
            && (exists j :: 0 <= j < |kept| && kept[j] == keys[from[i]] &&
                  top[i] == analyses[j].(score := ScoreOf(st.weights, analyses[j], st.today))))
      && (forall i, j :: 0 <= i < j < |top| ==>
            top[i].score > top[j].score || (top[i].score == top[j].score && from[i] < from[j]))
      && (forall i, k: nat, j :: 0 <= i < |top| && k < |keys| && k !in from && 0 <= j < |kept| && kept[j] == keys[k] ==>
            top[i].score >= ScoreOf(st.weights, analyses[j], st.today))
  {
    hide ScoreOf, KeysOf, Selected, Picked, AnalysisMap, Dropped;
    var issues := TopicIssues(topic, completed);
    KeysOfIssues(issues);
    if topic.topicId !in completed {
      NothingPicked();
    }
    var analysed := AnalysisMap(analyses);
    MapCovers(analyses, kept);
    var keys := KeysOf(issues);
    SelectedAre(keys, kept, analysed);
    var selected := Selected(keys, analysed);
    forall j | 0 <= j < |kept|
      ensures kept[j] in analysed && analysed[kept[j]] == analyses[j]
    {
      LastAnalysisCounts(analyses, j);
    }
    from := RankingMeans(st.weights, selected, st.today, st.topN);
    var picked := Picked(keys, KeptPick(kept));
    forall i | 0 <= i < |from|
      ensures exists j :: 0 <= j < |kept| && kept[j] == picked[from[i]] && selected[from[i]] == analyses[j]
    {
      var j :| 0 <= j < |kept| && kept[j] == picked[from[i]];
    }
  }
}
