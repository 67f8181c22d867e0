/** When the analysis cache answers, in terms of the issues and their last changes. */
module IssueCacheLaws {
  import opened Collections
  import opened IssueAnalysis

  /** The same issue with the same last change: both changelogs are empty, or their last stamps read the same. */
  predicate SameLastChange(a: IssueDetail, b: IssueDetail) {
    && a.key == b.key
    && (if a.changelog == [] then b.changelog == [] || b.changelog[|b.changelog| - 1].at.text == ""
        else if b.changelog == [] then a.changelog[|a.changelog| - 1].at.text == ""
        else a.changelog[|a.changelog| - 1].at.text == b.changelog[|b.changelog| - 1].at.text)
  }

  lemma SameKeyExactly(a: IssueDetail, b: IssueDetail)
    ensures KeyFor(a) == KeyFor(b) <==> SameLastChange(a, b)
  {
  }

  /** Write n is the latest one for the issue as it was last changed. */
  ghost predicate LatestFor(history: seq<Written>, n: nat, issue: IssueDetail) {
    && n < |history| && SameLastChange(history[n].issue, issue)
    && (forall m :: n < m < |history| ==> !SameLastChange(history[m].issue, issue))
  }

  lemma {:induction false} LastWrittenIsLatest(history: seq<Written>, issue: IssueDetail) returns (n: nat)
    requires LastWritten(history, KeyFor(issue)).Some?
    ensures LatestFor(history, n, issue) && LastWritten(history, KeyFor(issue)) == Some(history[n])
  {
    hide KeyFor, SameLastChange;
    n := |history| - 1;
    SameKeyExactly(history[n].issue, issue);
    if KeyFor(history[n].issue) != KeyFor(issue) {
      n := LastWrittenIsLatest(history[..n], issue);
    }
  }

  /**
   Whatever was written before, by whatever calls: a hit is the latest analysis of the issue that
   saw the same last change, with the current references if it had none. A call that must refresh
   never hits.
   */
  lemma {:induction false} HitSawLastChange(maxSize: int, statuses: set<string>, history: seq<Written>,
                                            issue: IssueDetail, refs: seq<Reference>, hit: BlockerAnalysis)
    returns (n: nat)
    requires CacheHit(Replay(EmptyDict(), maxSize, statuses, history), issue, refs, false) == Some(hit)
    ensures LatestFor(history, n, issue)
    ensures hit == Analysis(history[n], statuses).(refs := if history[n].refs == [] then refs else history[n].refs)
    ensures CacheHit(Replay(EmptyDict(), maxSize, statuses, history), issue, refs, true) == None
  {
    hide KeyFor, Replay, LastWritten, LatestFor;
    CacheHoldsLatest(maxSize, statuses, history, KeyFor(issue));
    n := LastWrittenIsLatest(history, issue);
  }

  /** After a change that no analysis saw, the cache does not answer. */
  lemma {:induction false} ChangedIssueMisses(maxSize: int, statuses: set<string>, history: seq<Written>,
                                              issue: IssueDetail, refs: seq<Reference>)
    requires forall w :: w in history ==> !SameLastChange(w.issue, issue)
    ensures CacheHit(Replay(EmptyDict(), maxSize, statuses, history), issue, refs, false) == None
  {
    hide CacheHit, SameLastChange;
    var found := CacheHit(Replay(EmptyDict(), maxSize, statuses, history), issue, refs, false);
    if found.Some? {
      var n := HitSawLastChange(maxSize, statuses, history, issue, refs, found.value);
    }
  }

  // ----- How long an entry survives

  /** The entry is followed by the last n - 1 entries of the cache. */
  ghost predicate FollowedBy(cache: Cache, key: CacheKey, n: nat) {
    && cache.Valid() && n <= |cache.keys| && n > 0 && cache.keys[|cache.keys| - n] == key
  }

  /** One more write moves an entry at most one place towards the front, and drops it only from the front. */
  lemma WriteMovesOne(cache: Cache, maxSize: int, key: CacheKey, n: nat, other: CacheKey, a: BlockerAnalysis)
    returns (m: nat)
    requires FollowedBy(cache, key, n) && n < maxSize && |cache.keys| <= maxSize && other != key
    ensures m <= n + 1 && FollowedBy(Remember(cache, maxSize, other, a), key, m)
  {
    var room := if |cache.keys| >= maxSize then cache.Remove(cache.keys[0]) else cache;
    assert |cache.keys| >= maxSize ==> room.keys == cache.keys[1..];
    assert room.keys[|room.keys| - n] == key;
    m := if other in room.vals then n else n + 1;
    if m > n {
      assert room.Put(other, a).keys == room.keys + [other];
    }
  }

  /** A key that is not in the cache when it is written comes last. */
  lemma NewKeyIsLast(cache: Cache, maxSize: int, key: CacheKey, a: BlockerAnalysis)
    requires cache.Valid() && maxSize > 0 && key !in cache.vals
    ensures FollowedBy(Remember(cache, maxSize, key, a), key, 1)
  {
    var room := if |cache.keys| >= maxSize then cache.Remove(cache.keys[0]) else cache;
    assert room.Put(key, a).keys == room.keys + [key];
  }

  /** The history, with one more analysis of w and then later ones of other keys. */
  lemma {:induction false} Survives(maxSize: int, statuses: set<string>, history: seq<Written>, w: Written,
                                    later: seq<Written>) returns (n: nat)
    requires |later| < maxSize
    requires KeyFor(w.issue) !in Replay(EmptyDict(), maxSize, statuses, history).vals
    requires forall x :: x in later ==> KeyFor(x.issue) != KeyFor(w.issue)
    ensures n <= |later| + 1
    ensures FollowedBy(Replay(EmptyDict(), maxSize, statuses, history + [w] + later), KeyFor(w.issue), n)
  {
    hide KeyFor, Remember, Analysis, FollowedBy, CacheHit;
    var key := KeyFor(w.issue);
    if later == [] {
      assert history + [w] + later == history + [w];
      assert (history + [w])[..|history|] == history;
      NewKeyIsLast(Replay(EmptyDict(), maxSize, statuses, history), maxSize, key, Analysis(w, statuses));
      n := 1;
    } else {
      var init, last := later[..|later| - 1], later[|later| - 1];
      var all := history + [w] + later;
      assert all[..|all| - 1] == history + [w] + init;
      assert last in later;
      n := Survives(maxSize, statuses, history, w, init);
      CacheHoldsLatest(maxSize, statuses, history + [w] + init, key);
      n := WriteMovesOne(Replay(EmptyDict(), maxSize, statuses, history + [w] + init), maxSize, key, n,
                         KeyFor(last.issue), Analysis(last, statuses));
    }
  }

  /**
   An analysis made on a miss answers for the unchanged issue at least until maxSize - 1 further
   analyses were written: with any other issues or changes, by any calls.
   */
  lemma {:induction false} UnchangedIssueHits(maxSize: int, statuses: set<string>, history: seq<Written>, w: Written,
                                              later: seq<Written>, issue: IssueDetail, refs: seq<Reference>)
    requires CacheHit(Replay(EmptyDict(), maxSize, statuses, history), w.issue, refs, false) == None
    requires SameLastChange(w.issue, issue) && |later| < maxSize
    requires forall x :: x in later ==> !SameLastChange(x.issue, issue)
    ensures CacheHit(Replay(EmptyDict(), maxSize, statuses, history + [w] + later), issue, refs, false).Some?
  {
    hide KeyFor, Replay, SameLastChange;
    SameKeyExactly(w.issue, issue);
    forall x | x in later
      ensures KeyFor(x.issue) != KeyFor(w.issue)
    {
      SameKeyExactly(x.issue, issue);
    }
    var n := Survives(maxSize, statuses, history, w, later);
  }
}
