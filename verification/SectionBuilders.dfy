/** The section builder as it runs: loops over topics, one details request, one analysis call. */
module SectionBuilders {
  import opened Collections
  import opened Clarification
  import opened Briefings
  import opened IssueAnalysis
  import opened IssueAnalysers
  import opened Ranking
  import opened Sections

  /** The outside world of one build: the details reply, the language model, what happens during the analyses. */
  datatype BuildWorld = BuildWorld(
    details: DetailsReply,
    refs: map<string, seq<Reference>>,
    force: bool,
    llm: nat -> Result<Suggestions>,
    analysisDay: nat -> int,
    moves: seq<Move>)

  /** The errors of the details request, which is only made if there are keys. */
  method DetailErrors(kept: seq<string>, reply: DetailsReply) returns (errors: seq<BriefingError>)
    ensures errors == if kept == [] then []
                      else if reply.NoDetails? then [DetailsUnavailable(reply.message)]
                      else if reply.error in {None, Some("")} then []
                      else [DetailsError(reply.error.value)]
  {
    errors := [];
    if kept != [] {
      match reply
      case Details(_, error) =>
        if Truthy(error) {
          errors := [DetailsError(error.value)];
        }
      case NoDetails(message) =>
        errors := [DetailsUnavailable(message)];
    }
  }

  /** The keys of one topic; their summaries are added to those collected before. */
  method CollectTopic(issues: seq<Issue>, before: map<string, string>)
    returns (keys: seq<string>, summaries: map<string, string>)
    ensures keys == KeysOf(issues) && summaries == AddSummaries(before, issues)
  {
    hide Field;
    keys, summaries := [], before;
    for n := 0 to |issues|
      invariant keys == KeysOf(issues[..n])
      invariant summaries == AddSummaries(before, issues[..n])
    {
      assert issues[..n + 1][..n] == issues[..n];
      var key := IssueKey(issues[n]);
      if key != "" {
        keys := keys + [key];
        var summary := IssueSummary(issues[n]);
        if summary != "" {
          summaries := summaries[key := summary];
        }
      }
    }
    assert issues[..|issues|] == issues;
  }

  /** The keys and summaries of all topics. */
  method Collect(topics: seq<Topic>, completed: Completed)
    returns (allKeys: seq<string>, summaries: map<string, string>, topicKeys: seq<seq<string>>)
    ensures allKeys == AllKeys(topics, completed) && summaries == AllSummaries(topics, completed)
    ensures |topicKeys| == |topics| && forall i :: 0 <= i < |topics| ==> topicKeys[i] == TopicKeys(topics[i], completed)
  {
    hide KeysOf, AddSummaries, TopicIssues;
    allKeys, summaries, topicKeys := [], map[], [];
    for i := 0 to |topics|
      invariant allKeys == AllKeys(topics[..i], completed) && summaries == AllSummaries(topics[..i], completed)
      invariant |topicKeys| == i && forall j :: 0 <= j < i ==> topicKeys[j] == TopicKeys(topics[j], completed)
    {
      assert topics[..i + 1][..i] == topics[..i];
      var keys;
      keys, summaries := CollectTopic(TopicIssues(topics[i], completed), summaries);
      topicKeys := topicKeys + [keys];
      allKeys := allKeys + keys;
    }
    assert topics[..|topics|] == topics;
  }

  method CountDropped(keys: seq<string>, kept: seq<string>) returns (dropped: nat)
    ensures dropped == Dropped(keys, kept)
  {
    dropped := 0;
    for i := 0 to |keys|
      invariant dropped == Dropped(keys[..i], kept)
    {
      assert keys[..i + 1][..i] == keys[..i];
      if keys[i] !in kept {
        dropped := dropped + 1;
      }
    }
    assert keys[..|keys|] == keys;
  }

  /** Cut the distinct keys at the cap and report the topics that lost all of theirs. */
  method ApplyCap(topics: seq<Topic>, ghost completed: Completed, allKeys: seq<string>, topicKeys: seq<seq<string>>,
                  cap: int)
    returns (kept: seq<string>, dropped: seq<nat>, errors: seq<BriefingError>)
    requires allKeys == AllKeys(topics, completed)
    requires |topicKeys| == |topics|
    requires forall i :: 0 <= i < |topics| ==> topicKeys[i] == TopicKeys(topics[i], completed)
    ensures kept == Kept(topics, completed, cap)
    ensures |dropped| == |topics| && forall i :: 0 <= i < |topics| ==> dropped[i] == Dropped(topicKeys[i], kept)
    ensures errors == SkipErrors(topics, completed, kept, cap)
  {
    hide TopicKeys, Dedup, AllKeys, Dropped;
    var distinct := Dedup(allKeys);
    kept, dropped, errors := distinct, [], [];
    if |distinct| > cap {
      kept := Take(distinct, cap);
    }
    var seen: set<string> := {};
    for i := 0 to |topics|
      invariant forall id :: id in seen <==> HasId(topics[..i], id)
      invariant |dropped| == i && forall j :: 0 <= j < i ==> dropped[j] == Dropped(topicKeys[j], kept)
      invariant errors == SkipErrors(topics[..i], completed, kept, cap)
    {
      assert topics[..i + 1][..i] == topics[..i];
      var n := CountDropped(topicKeys[i], kept);
      dropped := dropped + [n];
      if topics[i].topicId !in seen && n > 0 && n == |topicKeys[i]| {
        errors := errors + [AllSkipped(topics[i].topicId, n, cap)];
      }
      seen := seen + {topics[i].topicId};
      assert forall t :: t in topics[..i + 1] <==> t in topics[..i] || t == topics[i];
    }
    assert topics[..|topics|] == topics;
  }

  method Select(keys: seq<string>, analyses: map<string, BlockerAnalysis>) returns (selected: seq<BlockerAnalysis>)
    ensures selected == Selected(keys, analyses)
  {
    selected := [];
    for i := 0 to |keys|
      invariant selected == Selected(keys[..i], analyses)
    {
      assert keys[..i + 1][..i] == keys[..i];
      if keys[i] in analyses {
        selected := selected + [analyses[keys[i]]];
      }
    }
    assert keys[..|keys|] == keys;
  }

  method MapAnalyses(analyses: seq<BlockerAnalysis>) returns (m: map<string, BlockerAnalysis>)
    ensures m == AnalysisMap(analyses)
  {
    m := map[];
    for i := 0 to |analyses|
      invariant m == AnalysisMap(analyses[..i])
    {
      assert analyses[..i + 1][..i] == analyses[..i];
      m := m[analyses[i].issueKey := analyses[i]];
    }
    assert analyses[..|analyses|] == analyses;
  }

  method BuildSection(topic: Topic, keys: seq<string>, dropped: nat, completed: Completed, ghost kept: seq<string>,
                      analyses: map<string, BlockerAnalysis>, st: Settings)
    returns (section: Section)
    requires keys == TopicKeys(topic, completed) && dropped == Dropped(keys, kept)
    ensures section == SectionFor(topic, completed, kept, analyses, st)
  {
    hide TopicKeys, Rank, Dropped, Selected;
    var selected := Select(keys, analyses);
    var ranked := RankIssues(st.weights, selected, st.today, st.topN);
    var errors := [];
    var jql, total := None, 0;
    if topic.topicId in completed {
      var result := completed[topic.topicId];
      errors := OwnErrors(result.errors);
      jql, total := result.jql, result.total;
    }
    if dropped > 0 {
      errors := errors + [Partial(dropped, st.cap)];
    }
    section := Section(topic.topicId, topic.description, topic.query, jql, ranked, total, errors);
  }

  /** What the analysis call of a build works on. */
  function AnalysisInputs(kept: seq<string>, summaries: map<string, string>, world: BuildWorld): Inputs {
    Inputs(if world.details.Details? then world.details.issues else [], kept, summaries, world.refs, world.force,
           world.llm, world.analysisDay)
  }

  /** One analysis per kept key; without keys neither details nor analyses are requested. */
  method AnalyseKept(kept: seq<string>, summaries: map<string, string>, analyser: IssueAnalyser, world: BuildWorld)
    returns (analyses: seq<BlockerAnalysis>, ghost writes: seq<Written>)
    requires analyser.Valid() && (analyser.maxConcurrency > 0 || kept == [])
    modifies analyser`cache
    ensures analyser.Valid() && Covers(analyses, kept)
    ensures forall i :: 0 <= i < |kept| ==>
      Justified(old(analyser.cache), analyser.maxSize, analyser.statuses, writes,
                AnalysisInputs(kept, summaries, world), i, analyses[i])
  {
    analyses, writes := [], [];
    if kept != [] {
      analyses, writes := analyser.Analyse(AnalysisInputs(kept, summaries, world), world.moves);
    }
  }

  /**
   Builds the sections of a briefing. The analyses cover exactly the kept keys, so
   SectionContents applies to every section; each is justified by the details, the language
   model or a cache hit.
   */
  method BuildSections(topics: seq<Topic>, completed: Completed, analyser: IssueAnalyser, st: Settings,
                       world: BuildWorld)
    returns (sections: seq<Section>, errors: seq<BriefingError>, analyses: seq<BlockerAnalysis>,
             ghost writes: seq<Written>)
    requires analyser.Valid() && (analyser.maxConcurrency > 0 || Kept(topics, completed, st.cap) == [])
    modifies analyser`cache
    ensures analyser.Valid()
    ensures var kept := Kept(topics, completed, st.cap);
      && Covers(analyses, kept) && |sections| == |topics|
      && (forall i :: 0 <= i < |topics| ==>
            sections[i] == SectionFor(topics[i], completed, kept, AnalysisMap(analyses), st))
      && errors == SkipErrors(topics, completed, kept, st.cap) +
                   (if kept == [] then []
                    else if world.details.NoDetails? then [DetailsUnavailable(world.details.message)]
                    else if world.details.error in {None, Some("")} then []
                    else [DetailsError(world.details.error.value)])
    ensures var kept := Kept(topics, completed, st.cap);
      var input := Inputs(if world.details.Details? then world.details.issues else [], kept,
                          AllSummaries(topics, completed), world.refs, world.force, world.llm, world.analysisDay);
      forall i :: 0 <= i < |kept| ==>
        Justified(old(analyser.cache), analyser.maxSize, analyser.statuses, writes, input, i, analyses[i])
  {
    hide TopicKeys, Kept, AllKeys, AllSummaries, SkipErrors, AnalysisMap, SectionFor, KeysMatch, Justified;
    var allKeys, summaries, topicKeys := Collect(topics, completed);
    var kept, dropped, skipped := ApplyCap(topics, completed, allKeys, topicKeys, st.cap);
    var detailErrors := DetailErrors(kept, world.details);
    errors := skipped + detailErrors;
    analyses, writes := AnalyseKept(kept, summaries, analyser, world);
    var analysisMap := MapAnalyses(analyses);
    sections := [];
    for i := 0 to |topics|
      invariant analyser.Valid() && |sections| == i
      invariant forall j :: 0 <= j < i ==> sections[j] == SectionFor(topics[j], completed, kept, analysisMap, st)
    {
      var section := BuildSection(topics[i], topicKeys[i], dropped[i], completed, kept, analysisMap, st);
      sections := sections + [section];
    }
  }
}
