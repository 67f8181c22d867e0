/** Concurrent analysis of the issues of one call, in any order the scheduler chooses. */
module IssueAnalysers {
  import opened Collections
  import opened IssueAnalysis
  import opened IssueCacheLaws

  /** What the analysis of a call works on. */
  datatype Inputs = Inputs(
    details: seq<IssueDetail>,
    keys: seq<string>,
    summaries: map<string, string>,
    refs: map<string, seq<Reference>>,
    force: bool,
    llm: nat -> Result<Suggestions>,   // the language model's reply for keys[i]
    today: nat -> int)                 // the day on which keys[i] is analysed

  /** The details by key; of two details with one key the later counts. */
  function IssueMap(details: seq<IssueDetail>): (m: map<string, IssueDetail>)
    ensures forall k :: k in m ==> m[k].key == k && m[k] in details
    ensures forall d :: d in details ==> d.key in m
  {
    if details == [] then map[]
    else
      var init, d := details[..|details| - 1], details[|details| - 1];
      assert forall x :: x in details <==> x in init || x == d;
      IssueMap(init)[d.key := d]
  }

  function RefsFor(input: Inputs, key: string): seq<Reference> {
    if key in input.refs then input.refs[key] else []
  }

  /** The analysis of keys[i]: not begun, waiting for the language model, or finished. */
  datatype Slot = Waiting | Running(issue: IssueDetail) | Finished(result: BlockerAnalysis)

  /**
   What happens during a call: keys[i] may take its next step; another call on the same analyser
   writes back w; the other calls now hold n permits of the semaphore.
   */
  datatype Move = Own(i: nat) | Foreign(w: Written) | Load(n: nat)

  function RunningCount(slots: seq<Slot>): nat {
    if slots == [] then 0 else RunningCount(slots[..|slots| - 1]) + if slots[|slots| - 1].Running? then 1 else 0
  }

  lemma {:induction false} RunningUpdate(slots: seq<Slot>, i: nat, slot: Slot)
    requires i < |slots|
    ensures RunningCount(slots[i := slot]) + (if slots[i].Running? then 1 else 0) ==
            RunningCount(slots) + (if slot.Running? then 1 else 0)
  {
    var n := |slots| - 1;
    if i < n {
      assert slots[i := slot][..n] == slots[..n][i := slot];
      RunningUpdate(slots[..n], i, slot);
    } else {
      assert slots[i := slot][..n] == slots[..n];
    }
  }

  /** Every entry is filed under its own issue key. */
  ghost predicate KeysMatch(cache: Cache) {
    cache.Valid() && (forall k :: k in cache.vals ==> cache.vals[k].issueKey == k.0)
  }

  /** The write-back of keys[i] when the language model replied suggestions. */
  function WriteOf(input: Inputs, i: nat, issue: IssueDetail, suggestions: Suggestions): Written {
    Written(issue, input.today(i), input.summaries, RefsFor(input, issue.key), suggestions)
  }

  /** A hit in the cache as it was after the first n write-backs. */
  ghost predicate HitDuring(cache: Cache, maxSize: int, statuses: set<string>, writes: seq<Written>, input: Inputs,
                            issue: IssueDetail, result: BlockerAnalysis)
    requires cache.Valid()
  {
    exists n :: 0 <= n <= |writes| &&
      CacheHit(Replay(cache, maxSize, statuses, writes[..n]), issue, RefsFor(input, issue.key),
               input.force) == Some(result)
  }

  /** Why keys[i] got this result. */
  ghost predicate Justified(cache: Cache, maxSize: int, statuses: set<string>, writes: seq<Written>, input: Inputs,
                            i: nat, result: BlockerAnalysis)
    requires cache.Valid() && i < |input.keys|
  {
    var key, issues := input.keys[i], IssueMap(input.details);
    if key !in issues then result == Degraded(key, "issue not found in /issue_details response")
    else
      || HitDuring(cache, maxSize, statuses, writes, input, issues[key], result)
      || match input.llm(i)
         case Ok(suggestions) =>
           var w := WriteOf(input, i, issues[key], suggestions);
           w in writes && result == Analysis(w, statuses)
         case Err(message) => result == Degraded(key, "analysis failed: " + message)
  }

  /** w is the analysis of one of the requested keys. */
  ghost predicate OwnWrite(w: Written, input: Inputs) {
    exists i :: 0 <= i < |input.keys| && w.issue.key == input.keys[i] && w.issue in input.details
      && input.llm(i) == Ok(w.suggestions) && w == WriteOf(input, i, w.issue, w.suggestions)
  }

  /** Every write-back is one of this call or one of the others. */
  ghost predicate Accounted(writes: seq<Written>, input: Inputs, moves: seq<Move>) {
    forall w :: w in writes ==> OwnWrite(w, input) || Foreign(w) in moves
  }

  lemma {:induction false} ReplayKeepsKeys(cache: Cache, maxSize: int, statuses: set<string>, writes: seq<Written>)
    requires KeysMatch(cache)
    ensures KeysMatch(Replay(cache, maxSize, statuses, writes))
  {
    hide FactsOf;
    if writes != [] {
      ReplayKeepsKeys(cache, maxSize, statuses, writes[..|writes| - 1]);
    }
  }

  /** A justified result is about its own key. */
  lemma {:induction false} JustifiedKey(cache: Cache, maxSize: int, statuses: set<string>, writes: seq<Written>,
                                        input: Inputs, i: nat, result: BlockerAnalysis)
    requires KeysMatch(cache) && i < |input.keys| && Justified(cache, maxSize, statuses, writes, input, i, result)
    ensures result.issueKey == input.keys[i]
  {
    hide FactsOf;
    var key, issues := input.keys[i], IssueMap(input.details);
    if key in issues && HitDuring(cache, maxSize, statuses, writes, input, issues[key], result) {
      var n :| 0 <= n <= |writes| &&
        CacheHit(Replay(cache, maxSize, statuses, writes[..n]), issues[key], RefsFor(input, key),
                 input.force) == Some(result);
      ReplayKeepsKeys(cache, maxSize, statuses, writes[..n]);
    }
  }

  lemma {:induction false} ReplayAppend(cache: Cache, maxSize: int, statuses: set<string>, a: seq<Written>,
                                        b: seq<Written>)
    requires cache.Valid()
    ensures Replay(Replay(cache, maxSize, statuses, a), maxSize, statuses, b) == Replay(cache, maxSize, statuses, a + b)
  {
    hide Remember, KeyFor, Analysis;
    if b == [] {
      assert a + b == a;
    } else {
      ReplayAppend(cache, maxSize, statuses, a, b[..|b| - 1]);
      assert (a + b)[..|a + b| - 1] == a + b[..|b| - 1];
    }
  }

  /** An analysis that was written before or during the call, of the issue as it was last changed. */
  ghost predicate FromCache(written: seq<Written>, statuses: set<string>, issue: IssueDetail, refs: seq<Reference>,
                            result: BlockerAnalysis)
  {
    exists w :: w in written && SameLastChange(w.issue, issue) &&
      result == Analysis(w, statuses).(refs := if w.refs == [] then refs else w.refs)
  }

  /**
   The result for a key says that its details are missing, that the model failed, or it is the new
   analysis of its issue; or else, unless the call must refresh, it is an earlier analysis of the
   issue that saw the same last change. history is what was written before the call.
   */
  lemma {:induction false} ResultSawLastChange(maxSize: int, statuses: set<string>, history: seq<Written>,
                                               writes: seq<Written>, input: Inputs, i: nat, result: BlockerAnalysis)
    requires i < |input.keys|
    requires Justified(Replay(EmptyDict(), maxSize, statuses, history), maxSize, statuses, writes, input, i, result)
    ensures var key, issues := input.keys[i], IssueMap(input.details);
      if key !in issues then result == Degraded(key, "issue not found in /issue_details response")
      else
        var issue, refs := issues[key], if key in input.refs then input.refs[key] else [];
        || (!input.force && FromCache(history + writes, statuses, issue, refs, result))
        || (match input.llm(i)
            case Ok(suggestions) =>
              result == Analysis(Written(issue, input.today(i), input.summaries, refs, suggestions), statuses)
            case Err(message) => result == Degraded(key, "analysis failed: " + message))
  {
    hide Replay, CacheHit, Analysis, SameLastChange, FromCache, Degraded;
    var cache := Replay(EmptyDict(), maxSize, statuses, history);
    var key, issues := input.keys[i], IssueMap(input.details);
    if key in issues && HitDuring(cache, maxSize, statuses, writes, input, issues[key], result) {
      var n :| 0 <= n <= |writes| &&
        CacheHit(Replay(cache, maxSize, statuses, writes[..n]), issues[key], RefsFor(input, key),
                 input.force) == Some(result);
      ReplayAppend(EmptyDict(), maxSize, statuses, history, writes[..n]);
      HitIsFromCache(maxSize, statuses, history + writes[..n], input, issues[key], result);
      MoreFromCache(history, writes, n, statuses, issues[key], RefsFor(input, key), result);
    }
  }

  lemma HitIsFromCache(maxSize: int, statuses: set<string>, written: seq<Written>, input: Inputs, issue: IssueDetail,
                       result: BlockerAnalysis)
    requires CacheHit(Replay(EmptyDict(), maxSize, statuses, written), issue, RefsFor(input, issue.key),
                      input.force) == Some(result)
    ensures !input.force && FromCache(written, statuses, issue, RefsFor(input, issue.key), result)
  {
    hide Replay, Analysis, SameLastChange, KeyFor, Reattach;
    var n := HitSawLastChange(maxSize, statuses, written, issue, RefsFor(input, issue.key), result);
    assert written[n] in written;
  }

  lemma MoreFromCache(history: seq<Written>, writes: seq<Written>, n: nat, statuses: set<string>, issue: IssueDetail,
                      refs: seq<Reference>, result: BlockerAnalysis)
    requires n <= |writes| && FromCache(history + writes[..n], statuses, issue, refs, result)
    ensures FromCache(history + writes, statuses, issue, refs, result)
  {
    hide SameLastChange, Analysis;
    assert forall w :: w in history + writes[..n] ==> w in history + writes;
  }

  /** Of the details with one key the last one counts. */
  lemma {:induction false} LastDetailCounts(details: seq<IssueDetail>, n: nat)
    requires n < |details| && (forall m :: n < m < |details| ==> details[m].key != details[n].key)
    ensures IssueMap(details)[details[n].key] == details[n]
  {
    if n < |details| - 1 {
      LastDetailCounts(details[..|details| - 1], n);
    }
  }

  /** More write-backs leave earlier results justified. */
  lemma JustifiedLater(cache: Cache, maxSize: int, statuses: set<string>, writes: seq<Written>, w: Written,
                       input: Inputs, i: nat, result: BlockerAnalysis)
    requires cache.Valid() && i < |input.keys| && Justified(cache, maxSize, statuses, writes, input, i, result)
    ensures Justified(cache, maxSize, statuses, writes + [w], input, i, result)
  {
    hide Replay, CacheHit, Analysis;
    var key, issues := input.keys[i], IssueMap(input.details);
    if key in issues && HitDuring(cache, maxSize, statuses, writes, input, issues[key], result) {
      var n :| 0 <= n <= |writes| &&
        CacheHit(Replay(cache, maxSize, statuses, writes[..n]), issues[key], RefsFor(input, key),
                 input.force) == Some(result);
      assert (writes + [w])[..n] == writes[..n];
      assert HitDuring(cache, maxSize, statuses, writes + [w], input, issues[key], result);
    }
  }

  lemma ReplayNext(cache: Cache, maxSize: int, statuses: set<string>, writes: seq<Written>, w: Written)
    requires cache.Valid()
    ensures Replay(cache, maxSize, statuses, writes + [w]) ==
            Remember(Replay(cache, maxSize, statuses, writes), maxSize, KeyFor(w.issue), Analysis(w, statuses))
  {
    assert (writes + [w])[..|writes|] == writes;
  }

  lemma AccountedNext(writes: seq<Written>, input: Inputs, moves: seq<Move>, w: Written)
    requires Accounted(writes, input, moves) && (OwnWrite(w, input) || Foreign(w) in moves)
    ensures Accounted(writes + [w], input, moves)
  {
    hide OwnWrite;
  }

  /** A key whose analysis was just written back is justified by it. */
  lemma JustifiedNow(cache: Cache, maxSize: int, statuses: set<string>, writes: seq<Written>, input: Inputs, i: nat,
                     issue: IssueDetail, suggestions: Suggestions)
    requires cache.Valid() && i < |input.keys| && input.llm(i) == Ok(suggestions)
    requires input.keys[i] in IssueMap(input.details) && issue == IssueMap(input.details)[input.keys[i]]
    ensures var w := WriteOf(input, i, issue, suggestions);
      OwnWrite(w, input) && Justified(cache, maxSize, statuses, writes + [w], input, i, Analysis(w, statuses))
  {
    hide HitDuring, Analysis;
  }

  class IssueAnalyser {
    const statuses: set<string>
    const maxSize: int
    const maxConcurrency: nat
    var cache: Cache

    constructor (statuses: set<string>, maxSize: int, maxConcurrency: nat)
      ensures this.statuses == statuses && this.maxSize == maxSize && this.maxConcurrency == maxConcurrency
      ensures cache == EmptyDict()
    {
      this.statuses := statuses;
      this.maxSize := maxSize;
      this.maxConcurrency := maxConcurrency;
      cache := EmptyDict();
    }

    ghost predicate Valid()
      reads this
    {
      KeysMatch(cache)
    }

    /** The state of a call in progress. */
    ghost predicate InProgress(input: Inputs, moves: seq<Move>, before: Cache, slots: seq<Slot>, writes: seq<Written>)
      reads this
    {
      && KeysMatch(before) && |slots| == |input.keys|
      && cache == Replay(before, maxSize, statuses, writes)
      && Accounted(writes, input, moves)
      && RunningCount(slots) <= maxConcurrency
      && (forall i :: 0 <= i < |slots| ==> SlotOk(input, before, slots[i], i, writes))
    }

    ghost predicate SlotOk(input: Inputs, before: Cache, slot: Slot, i: nat, writes: seq<Written>)
      requires before.Valid() && i < |input.keys|
    {
      match slot
      case Waiting => true
      case Running(issue) => input.keys[i] in IssueMap(input.details) && issue == IssueMap(input.details)[input.keys[i]]
      case Finished(result) => Justified(before, maxSize, statuses, writes, input, i, result)
    }

    method Insert(key: CacheKey, a: BlockerAnalysis)
      requires cache.Valid()
      modifies this`cache
      ensures cache == Remember(old(cache), maxSize, key, a)
    {
      if maxSize > 0 {
        if |cache.keys| >= maxSize {
          cache := cache.Remove(cache.keys[0]);
        }
        cache := cache.Put(key, a);
      }
    }

    /** The analysis of keys[i] is admitted by the semaphore: look for the issue, then for a hit. */
    method Admit(input: Inputs, ghost moves: seq<Move>, i: nat, ghost before: Cache, slots: seq<Slot>,
                 ghost writes: seq<Written>)
      returns (slot: Slot)
      requires i < |slots| && slots[i].Waiting? && InProgress(input, moves, before, slots, writes)
      ensures !slot.Waiting? && SlotOk(input, before, slot, i, writes)
    {
      hide Replay, Accounted, Analysis;
      var key, issues := input.keys[i], IssueMap(input.details);
      if key !in issues {
        return Finished(Degraded(key, "issue not found in /issue_details response"));
      }
      var hit := CacheHit(cache, issues[key], RefsFor(input, key), input.force);
      if hit.Some? {
        assert writes[..|writes|] == writes;
        assert HitDuring(before, maxSize, statuses, writes, input, issues[key], hit.value);
        return Finished(hit.value);
      }
      return Running(issues[key]);
    }

    /** The language model has replied for keys[i]. */
    method Complete(input: Inputs, ghost moves: seq<Move>, i: nat, ghost before: Cache, slots: seq<Slot>,
                    ghost writes: seq<Written>)
      returns (slot: Slot, ghost writes': seq<Written>)
      requires i < |slots| && slots[i].Running? && InProgress(input, moves, before, slots, writes)
      modifies this`cache
      ensures slot.Finished? && SlotOk(input, before, slot, i, writes')
      ensures writes' == writes || exists w :: writes' == writes + [w]
      ensures cache == Replay(before, maxSize, statuses, writes') && Accounted(writes', input, moves)
    {
      hide Remember, Analysis, KeyFor, HitDuring, Replay, Accounted;
      var issue := slots[i].issue;
      assert SlotOk(input, before, slots[i], i, writes);
      match input.llm(i)
      case Err(message) =>
        slot, writes' := Finished(Degraded(input.keys[i], "analysis failed: " + message)), writes;
      case Ok(suggestions) =>
        var w := WriteOf(input, i, issue, suggestions);
        writes' := writes + [w];
        ReplayNext(before, maxSize, statuses, writes, w);
        JustifiedNow(before, maxSize, statuses, writes, input, i, issue, suggestions);
        AccountedNext(writes, input, moves, w);
        Insert(KeyFor(issue), Analysis(w, statuses));
        slot := Finished(Analysis(w, statuses));
    }

    /** The scheduler lets keys[i] take its next step, if the semaphore allows one; others hold load permits. */
    method Advance(input: Inputs, ghost moves: seq<Move>, i: nat, load: nat, ghost before: Cache, slots: seq<Slot>,
                   ghost writes: seq<Written>)
      returns (slots': seq<Slot>, ghost writes': seq<Written>)
      requires i < |slots| && InProgress(input, moves, before, slots, writes)
      modifies this`cache
      ensures InProgress(input, moves, before, slots', writes') && writes <= writes'
      ensures |slots'| == |slots| && forall j :: 0 <= j < |slots| && j != i ==> slots'[j] == slots[j]
      ensures slots[i].Finished? ==> slots'[i] == slots[i]
      ensures slots[i].Running? ==> slots'[i].Finished?
      ensures slots[i].Waiting? ==> (slots'[i].Waiting? <==> RunningCount(slots) + load >= maxConcurrency)
    {
      hide Replay, Accounted, Justified;
      slots', writes' := slots, writes;
      var running := RunningCount(slots);
      if slots[i].Waiting? && running + load < maxConcurrency {
        var slot := Admit(input, moves, i, before, slots, writes);
        RunningUpdate(slots, i, slot);
        slots' := slots[i := slot];
      } else if slots[i].Running? {
        var slot;
        slot, writes' := Complete(input, moves, i, before, slots, writes);
        RunningUpdate(slots, i, slot);
        slots' := slots[i := slot];
        if writes' != writes {
          var w :| writes' == writes + [w];
          SlotsLater(input, before, slots, writes, w);
        }
      }
    }

    /** More write-backs leave all slots as they should be. */
    lemma SlotsLater(input: Inputs, before: Cache, slots: seq<Slot>, writes: seq<Written>, w: Written)
      requires before.Valid() && |slots| == |input.keys|
      requires forall i :: 0 <= i < |slots| ==> SlotOk(input, before, slots[i], i, writes)
      ensures forall i :: 0 <= i < |slots| ==> SlotOk(input, before, slots[i], i, writes + [w])
    {
      hide Justified;
      forall i | 0 <= i < |slots|
        ensures SlotOk(input, before, slots[i], i, writes + [w])
      {
        if slots[i].Finished? {
          JustifiedLater(before, maxSize, statuses, writes, w, input, i, slots[i].result);
        }
      }
    }

    /** Another call on this analyser writes back w. */
    method WriteBack(input: Inputs, ghost moves: seq<Move>, w: Written, ghost before: Cache, slots: seq<Slot>,
                     ghost writes: seq<Written>)
      requires InProgress(input, moves, before, slots, writes) && Foreign(w) in moves
      modifies this`cache
      ensures cache == Remember(old(cache), maxSize, KeyFor(w.issue), Analysis(w, statuses))
      ensures InProgress(input, moves, before, slots, writes + [w])
    {
      hide Remember, Analysis, KeyFor, Justified, Replay, Accounted;
      SlotsLater(input, before, slots, writes, w);
      ReplayNext(before, maxSize, statuses, writes, w);
      AccountedNext(writes, input, moves, w);
      Insert(KeyFor(w.issue), Analysis(w, statuses));
    }

    /**
     Analyses all keys while other calls use the same analyser: first along the given moves, in any
     order, then in key order until all are finished. One result per key, in key order, each about
     its key and justified; the cache has exactly the write-backs of this call and of the others,
     in the order they were made. With a limit of zero no key would ever be admitted (Advance), and
     the call would never return.
     */
    method Analyse(input: Inputs, moves: seq<Move>)
      returns (results: seq<BlockerAnalysis>, ghost writes: seq<Written>)
      requires Valid() && (maxConcurrency > 0 || input.keys == [])
      modifies this`cache
      ensures Valid()
      ensures |results| == |input.keys|
      ensures forall i :: 0 <= i < |results| ==> results[i].issueKey == input.keys[i]
      ensures forall i :: 0 <= i < |results| ==>
        Justified(old(cache), maxSize, statuses, writes, input, i, results[i])
      ensures cache == Replay(old(cache), maxSize, statuses, writes)
      ensures Accounted(writes, input, moves) && forall w :: Foreign(w) in moves ==> w in writes
    {
      hide Replay, Justified, Accounted, KeysMatch;
      ghost var before := cache;
      var slots, load := seq(|input.keys|, _ => Waiting), 0;
      writes := [];
      StartOk(input, moves, before, slots);
      for n := 0 to |moves|
        invariant InProgress(input, moves, before, slots, writes)
        invariant forall w :: Foreign(w) in moves[..n] ==> w in writes
      {
        match moves[n]
        case Own(i) =>
          if i < |slots| {
            slots, writes := Advance(input, moves, i, load, before, slots, writes);
          }
        case Foreign(w) =>
          WriteBack(input, moves, w, before, slots, writes);
          writes := writes + [w];
        case Load(k) =>
          load := k;
      }
      ghost var during := writes;
      for i := 0 to |slots|
        invariant |slots| == |input.keys| && InProgress(input, moves, before, slots, writes) && during <= writes
        invariant forall j :: 0 <= j < i ==> !slots[j].Running?
      {
        if slots[i].Running? {
          slots, writes := Advance(input, moves, i, 0, before, slots, writes);
        }
      }
      for i := 0 to |slots|
        invariant |slots| == |input.keys| && InProgress(input, moves, before, slots, writes) && during <= writes
        invariant forall j :: 0 <= j < i ==> slots[j].Finished?
        invariant forall j :: 0 <= j < |slots| ==> !slots[j].Running?
      {
        NoneRunning(slots);
        slots, writes := Advance(input, moves, i, 0, before, slots, writes);
        slots, writes := Advance(input, moves, i, 0, before, slots, writes);
      }
      results := [];
      for i := 0 to |slots|
        invariant |results| == i
        invariant forall j :: 0 <= j < i ==> results[j] == slots[j].result
      {
        results := results + [slots[i].result];
      }
      forall i | 0 <= i < |results|
        ensures results[i].issueKey == input.keys[i]
        ensures Justified(before, maxSize, statuses, writes, input, i, results[i])
      {
        assert SlotOk(input, before, slots[i], i, writes);
        JustifiedKey(before, maxSize, statuses, writes, input, i, results[i]);
      }
      ReplayKeepsKeys(before, maxSize, statuses, writes);
    }

    lemma StartOk(input: Inputs, moves: seq<Move>, before: Cache, slots: seq<Slot>)
      requires KeysMatch(before) && cache == before && slots == seq(|input.keys|, _ => Waiting)
      ensures InProgress(input, moves, before, slots, [])
    {
      NoneRunning(slots);
    }
  }

  lemma {:induction false} NoneRunning(slots: seq<Slot>)
    requires forall j :: 0 <= j < |slots| ==> !slots[j].Running?
    ensures RunningCount(slots) == 0
  {
    if slots != [] {
      NoneRunning(slots[..|slots| - 1]);
    }
  }
}
