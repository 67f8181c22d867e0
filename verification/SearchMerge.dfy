/** search_context: pinned pages first, keyword hits after, within the limit. */
module SearchMerge {
  import opened Collections

  datatype Page = Page(id: string, title: string, space: string, url: string, lastModified: string, excerpt: string)

  // ----- Several searches, one list

  /** The pages of the searches that succeeded, in order. */
  function Hits(results: seq<Result<seq<Page>>>): seq<Page> {
    if results == [] then []
    else
      Hits(results[..|results| - 1]) +
      match results[|results| - 1]
      case Ok(pages) => pages
      case Err(_) => []
  }

  /** The dict that keeps the first page of every id. */
  function FirstById(pages: seq<Page>): (d: Dict<string, Page>)
    ensures d.Valid()
  {
    if pages == [] then EmptyDict()
    else
      var d, page := FirstById(pages[..|pages| - 1]), pages[|pages| - 1];
      if page.id in d.vals then d else d.Put(page.id, page)
  }

  lemma FirstByIdNext(pages: seq<Page>, page: Page)
    ensures var d := FirstById(pages); FirstById(pages + [page]) == if page.id in d.vals then d else d.Put(page.id,
                                                                                                           page)
  {
    assert (pages + [page])[..|pages|] == pages;
  }

  /** Adds the pages of one search that are not yet seen. */
  method AddNew(seen: Dict<string, Page>, ghost before: seq<Page>, found: seq<Page>) returns (all: Dict<string, Page>)
    requires seen == FirstById(before)
    ensures all == FirstById(before + found)
  {
    hide FirstById;
    all := seen;
    assert before + found[..0] == before;
    for n := 0 to |found|
      invariant all == FirstById(before + found[..n])
    {
      assert before + found[..n + 1] == (before + found[..n]) + [found[n]];
      FirstByIdNext(before + found[..n], found[n]);
      if found[n].id !in all.vals {
        all := all.Put(found[n].id, found[n]);
      }
    }
    assert found[..|found|] == found;
  }

  method SearchPagesMulti(results: seq<Result<seq<Page>>>) returns (pages: seq<Page>)
    ensures pages == FirstById(Hits(results)).Items()
  {
    hide FirstById;
    var seen := FirstById([]);
    for i := 0 to |results|
      invariant seen.Valid() && seen == FirstById(Hits(results[..i]))
    {
      assert results[..i + 1][..i] == results[..i];
      if results[i].Ok? {
        seen := AddNew(seen, Hits(results[..i]), results[i].value);
      } else {
        assert Hits(results[..i]) + [] == Hits(results[..i]);
      }
    }
    assert results[..|results|] == results;
    pages := seen.Items();
  }

  ghost predicate DistinctPages(pages: seq<Page>) {
    forall i, j :: 0 <= i < j < |pages| ==> pages[i].id != pages[j].id
  }

  function PageIds(pages: seq<Page>): set<string> {
    if pages == [] then {} else PageIds(pages[..|pages| - 1]) + {pages[|pages| - 1].id}
  }

  lemma {:induction false} PageIdsMembers(pages: seq<Page>, p: Page)
    requires p in pages
    ensures p.id in PageIds(pages)
  {
    if p != pages[|pages| - 1] {
      PageIdsMembers(pages[..|pages| - 1], p);
    }
  }

  lemma {:induction false} FirstByIdProperties(pages: seq<Page>)
    ensures var d := FirstById(pages);
      && d.vals.Keys == PageIds(pages)
      && (forall id :: id in d.vals ==> d.vals[id].id == id && d.vals[id] in pages)
  {
    if pages != [] {
      var init, last := pages[..|pages| - 1], pages[|pages| - 1];
      FirstByIdProperties(init);
      assert forall p :: p in init ==> p in pages;
      assert last in pages;
    }
  }

  /** The merged search has each found page id once, with a page that was found. */
  lemma {:induction false} SearchIsDistinct(results: seq<Result<seq<Page>>>)
    ensures var pages := FirstById(Hits(results)).Items();
      && DistinctPages(pages)
      && (forall p :: p in pages ==> p in Hits(results))
      && (forall h :: h in Hits(results) ==> exists p :: p in pages && p.id == h.id)
  {
    hide FirstById, Hits, PageIds;
    var hits := Hits(results);
    var d := FirstById(hits);
    FirstByIdProperties(hits);
    var pages := d.Items();
    forall i | 0 <= i < |pages|
      ensures pages[i].id == d.keys[i] && pages[i] in hits
    {
      assert d.keys[i] in d.vals;
    }
    forall h | h in hits
      ensures exists p :: p in pages && p.id == h.id
    {
      PageIdsMembers(hits, h);
      assert h.id in d.vals;
      var i :| 0 <= i < |d.keys| && d.keys[i] == h.id;
      assert pages[i] in pages && pages[i].id == h.id;
    }
  }

  // ----- Merging with pinned pages

  /** The pages whose id is not among ids, in order. */
  function Without(pages: seq<Page>, ids: set<string>): seq<Page> {
    if pages == [] then []
    else Without(pages[..|pages| - 1], ids) + if pages[|pages| - 1].id in ids then [] else [pages[|pages| - 1]]
  }

  /** The plain merge: pinned pages, then all hits that are not pinned, cut once at the end. */
  function NaiveMerge(pinned: seq<Page>, hits: seq<Page>, limit: int): seq<Page> {
    Take(pinned + Without(hits, PageIds(pinned)), limit)
  }

  lemma {:induction false} PageIdsSize(pages: seq<Page>)
    ensures |PageIds(pages)| <= |pages|
  {
    if pages != [] {
      PageIdsSize(pages[..|pages| - 1]);
    }
  }

  lemma {:induction false} WithoutAppend(a: seq<Page>, b: seq<Page>, ids: set<string>)
    ensures Without(a + b, ids) == Without(a, ids) + Without(b, ids)
  {
    if b == [] {
      assert a + b == a;
    } else {
      assert (a + b)[..|a + b| - 1] == a + b[..|b| - 1];
      WithoutAppend(a, b[..|b| - 1], ids);
    }
  }

  lemma {:induction false} WithoutAbsent(pages: seq<Page>, ids: set<string>, id: string)
    requires forall i :: 0 <= i < |pages| ==> pages[i].id != id
    ensures Without(pages, ids - {id}) == Without(pages, ids)
  {
    if pages != [] {
      WithoutAbsent(pages[..|pages| - 1], ids, id);
    }
  }

  /** Pigeonhole: of pages with distinct ids, at most |ids| are removed. */
  lemma {:induction false} FewRemoved(pages: seq<Page>, ids: set<string>)
    requires DistinctPages(pages)
    ensures |Without(pages, ids)| >= |pages| - |ids|
  {
    if pages != [] {
      var init, last := pages[..|pages| - 1], pages[|pages| - 1];
      if last.id in ids {
        WithoutAbsent(init, ids, last.id);
        FewRemoved(init, ids - {last.id});
      } else {
        FewRemoved(init, ids);
      }
    }
  }

  /** Cutting the hits at the limit before removing pinned ones loses nothing. */
  lemma {:induction false} EarlyTruncationLossless(pinned: seq<Page>, hits: seq<Page>, limit: nat)
    requires DistinctPages(hits)
    ensures NaiveMerge(pinned, Take(hits, limit), limit) == NaiveMerge(pinned, hits, limit)
  {
    if limit < |hits| {
      var ids := PageIds(pinned);
      var first, rest := hits[..limit], hits[limit..];
      assert first + rest == hits;
      WithoutAppend(first, rest, ids);
      FewRemoved(first, ids);
      PageIdsSize(pinned);
      assert |pinned + Without(first, ids)| >= limit;
      assert pinned + Without(hits, ids) == (pinned + Without(first, ids)) + Without(rest, ids);
    }
  }

  /** Distinct hits are needed: with a repeated hit the early cut can lose a page. */
  lemma {:induction false} RepeatedHitsLosePages(a: Page, b: Page)
    requires a.id != b.id
    ensures NaiveMerge([a], Take([a, a, b], 2), 2) == [a] && NaiveMerge([a], [a, a, b], 2) == [a, b]
  {
    assert [a][..0] == [] && PageIds([a]) == {a.id};
    assert [a, a][..1] == [a] && [a, a, b][..2] == [a, a];
    assert Without([a], {a.id}) == [];
    assert Without([a, a], {a.id}) == [];
    assert Without([a, a, b], {a.id}) == [b];
  }

  /** Skipping the search changes nothing exactly if the pinned pages fill the limit or every hit is pinned. */
  lemma {:induction false} SkipLosslessExactly(pinned: seq<Page>, hits: seq<Page>, limit: nat)
    ensures NaiveMerge(pinned, [], limit) == NaiveMerge(pinned, hits, limit) <==>
            |pinned| >= limit || Without(hits, PageIds(pinned)) == []
  {
    var more := Without(hits, PageIds(pinned));
    assert pinned + [] == pinned;
    if |pinned| < limit && more != [] {
      assert |NaiveMerge(pinned, hits, limit)| > |pinned|;
    }
  }

  // ----- The whole call

  datatype PinReply = Fetched(page: Page) | PinFailed(message: string) | PinCancelled

  datatype Extract = Extract(keys: seq<string>, mitigations: seq<string>, owners: seq<string>)

  datatype ExtractReply = Extracted(extract: Extract) | ExtractFailed(message: string) | ExtractCancelled

  datatype SearchError =
    | NoPageId(url: string)
    | PinError(url: string, message: string)
    | PageError(page: string, message: string)

  datatype SearchWorld = SearchWorld(
    pageIdOf: string -> Option<string>,            // the URL parser
    searches: seq<Result<seq<Page>>>,              // the keyword searches
    pins: string -> PinReply,                      // the metadata fetch for a page id
    extracts: Page -> ExtractReply)                // fetch and extraction of a merged page

  type Pin = (string, string)

  function PinIds(pins: seq<Pin>): set<string> {
    if pins == [] then {} else PinIds(pins[..|pins| - 1]) + {pins[|pins| - 1].1}
  }

  /** The URLs with a page id, one per page id, and the errors for the others. */
  function ParsePins(urls: seq<string>, world: SearchWorld): (seq<Pin>, seq<SearchError>) {
    if urls == [] then ([], [])
    else
      var (pins, errors) := ParsePins(urls[..|urls| - 1], world);
      var url := urls[|urls| - 1];
      match world.pageIdOf(url)
      case None => (pins, errors + [NoPageId(url)])
      case Some(id) => (if id in PinIds(pins) then pins else pins + [(url, id)], errors)
  }

  function PinnedPages(pins: seq<Pin>, world: SearchWorld): seq<Page> {
    if pins == [] then []
    else
      var reply := world.pins(pins[|pins| - 1].1);
      PinnedPages(pins[..|pins| - 1], world) + if reply.Fetched? then [reply.page] else []
  }

  function PinErrors(pins: seq<Pin>, world: SearchWorld): seq<SearchError> {
    if pins == [] then []
    else
      var reply := world.pins(pins[|pins| - 1].1);
      PinErrors(pins[..|pins| - 1], world) +
      if reply.PinFailed? then [PinError(pins[|pins| - 1].0, reply.message)] else []
  }

  function Results(pages: seq<Page>, world: SearchWorld): seq<(Page, Extract)> {
    if pages == [] then []
    else
      var reply := world.extracts(pages[|pages| - 1]);
      Results(pages[..|pages| - 1], world) + if reply.Extracted? then [(pages[|pages| - 1], reply.extract)] else []
  }

  function PageErrors(pages: seq<Page>, world: SearchWorld): seq<SearchError> {
    if pages == [] then []
    else
      var reply := world.extracts(pages[|pages| - 1]);
      PageErrors(pages[..|pages| - 1], world) +
      if reply.ExtractFailed? then [PageError(pages[|pages| - 1].id, reply.message)] else []
  }

  /** The merged pages as search_context computes them. */
  function MergedPages(pins: seq<Pin>, world: SearchWorld, limit: int): seq<Page> {
    var hits := if |pins| < limit then Take(FirstById(Hits(world.searches)).Items(), limit) else [];
    NaiveMerge(PinnedPages(pins, world), hits, limit)
  }

  ghost predicate AllPinsFetched(pins: seq<Pin>, world: SearchWorld) {
    forall i :: 0 <= i < |pins| ==> world.pins(pins[i].1).Fetched?
  }

  lemma {:induction false} PinnedCount(pins: seq<Pin>, world: SearchWorld)
    ensures |PinnedPages(pins, world)| <= |pins|
    ensures AllPinsFetched(pins, world) ==> |PinnedPages(pins, world)| == |pins|
  {
    if pins != [] {
      PinnedCount(pins[..|pins| - 1], world);
    }
  }

  lemma {:induction false} PinIdsMembers(pins: seq<Pin>, i: nat)
    requires i < |pins|
    ensures pins[i].1 in PinIds(pins)
  {
    if i < |pins| - 1 {
      PinIdsMembers(pins[..|pins| - 1], i);
    }
  }

  /** Each page id is pinned once, with a URL that names it. */
  ghost predicate ProperPins(pins: seq<Pin>, world: SearchWorld) {
    && (forall i :: 0 <= i < |pins| ==> world.pageIdOf(pins[i].0) == Some(pins[i].1))
    && (forall i, j :: 0 <= i < j < |pins| ==> pins[i].1 != pins[j].1)
  }

  lemma {:induction false} PinsAreProper(urls: seq<string>, world: SearchWorld)
    ensures ProperPins(ParsePins(urls, world).0, world)
  {
    if urls != [] {
      PinsAreProper(urls[..|urls| - 1], world);
      var before, pins := ParsePins(urls[..|urls| - 1], world).0, ParsePins(urls, world).0;
      if pins != before {
        forall i: nat | i < |before|
          ensures before[i].1 in PinIds(before)
        {
          PinIdsMembers(before, i);
        }
      }
    }
  }

  /**
   For a non-negative limit there are at most limit pages, the pinned ones first, and they are
   those of the plain merge over all keyword hits unless the search was skipped, the pinned pages
   that could be fetched leave room, and some hit is not pinned. So a skipped search loses
   nothing if every pinned page was fetched.
   */
  lemma {:induction false} MergeIsNaive(urls: seq<string>, world: SearchWorld, limit: nat)
    ensures var pins := ParsePins(urls, world).0;
      var pinned, hits := PinnedPages(pins, world), FirstById(Hits(world.searches)).Items();
      var merged := MergedPages(pins, world, limit);
      && (merged == NaiveMerge(pinned, hits, limit) <==>
            |pins| < limit || |pinned| >= limit || Without(hits, PageIds(pinned)) == [])
      && (AllPinsFetched(pins, world) ==> merged == NaiveMerge(pinned, hits, limit))
      && |merged| <= limit
      && Take(merged, |pinned|) == Take(pinned, limit)
  {
    hide ParsePins, PinnedPages, FirstById, Hits, Without, PageIds;
    var pins := ParsePins(urls, world).0;
    var pinned, hits := PinnedPages(pins, world), FirstById(Hits(world.searches)).Items();
    SearchIsDistinct(world.searches);
    PinnedCount(pins, world);
    EarlyTruncationLossless(pinned, hits, limit);
    SkipLosslessExactly(pinned, hits, limit);
  }

  /** A negative limit is a slice from the end: it skips the search and drops the last pinned pages. */
  lemma {:induction false} NegativeLimit(pins: seq<Pin>, world: SearchWorld, limit: int)
    requires limit < 0
    ensures MergedPages(pins, world, limit) == Take(PinnedPages(pins, world), limit)
    ensures |MergedPages(pins, world, limit)| ==
      if |PinnedPages(pins, world)| + limit > 0 then |PinnedPages(pins, world)| + limit else 0
  {
    assert PinnedPages(pins, world) + [] == PinnedPages(pins, world);
  }

  /** Of two pinned pages and a limit of -1, the first is returned. */
  lemma NegativeLimitExample(a: Page, b: Page, world: SearchWorld)
    requires world.pins(a.id) == Fetched(a) && world.pins(b.id) == Fetched(b)
    ensures MergedPages([("u", a.id), ("v", b.id)], world, -1) == [a]
  {
    var pins := [("u", a.id), ("v", b.id)];
    assert pins[..1] == [("u", a.id)] && pins[..1][..0] == [];
    assert PinnedPages(pins[..1], world) == [] + [a];
    assert PinnedPages(pins, world) == [a] + [b];
    NegativeLimit(pins, world, -1);
  }

  datatype SearchResponse = SearchResponse(results: seq<(Page, Extract)>, totalPages: nat, errors: seq<SearchError>)

  method ParseUrls(urls: seq<string>, world: SearchWorld) returns (pins: seq<Pin>, errors: seq<SearchError>)
    ensures (pins, errors) == ParsePins(urls, world)
  {
    pins, errors := [], [];
    var seen: set<string> := {};
    for i := 0 to |urls|
      invariant (pins, errors) == ParsePins(urls[..i], world) && seen == PinIds(pins)
    {
      assert urls[..i + 1][..i] == urls[..i];
      var id := world.pageIdOf(urls[i]);
      if id.None? {
        errors := errors + [NoPageId(urls[i])];
      } else if id.value !in seen {
        seen := seen + {id.value};
        assert (pins + [(urls[i], id.value)])[..|pins|] == pins;
        pins := pins + [(urls[i], id.value)];
      }
    }
    assert urls[..|urls|] == urls;
  }

  method FetchPins(pins: seq<Pin>, world: SearchWorld) returns (pinned: seq<Page>, errors: seq<SearchError>)
    ensures pinned == PinnedPages(pins, world) && errors == PinErrors(pins, world)
  {
    pinned, errors := [], [];
    for i := 0 to |pins|
      invariant pinned == PinnedPages(pins[..i], world) && errors == PinErrors(pins[..i], world)
    {
      assert pins[..i + 1][..i] == pins[..i];
      match world.pins(pins[i].1)
      case Fetched(page) => pinned := pinned + [page];
      case PinFailed(message) => errors := errors + [PinError(pins[i].0, message)];
      case PinCancelled =>
    }
    assert pins[..|pins|] == pins;
  }

  method ExtractPages(pages: seq<Page>, world: SearchWorld)
    returns (results: seq<(Page, Extract)>, errors: seq<SearchError>)
    ensures results == Results(pages, world) && errors == PageErrors(pages, world)
  {
    results, errors := [], [];
    for i := 0 to |pages|
      invariant results == Results(pages[..i], world) && errors == PageErrors(pages[..i], world)
    {
      assert pages[..i + 1][..i] == pages[..i];
      match world.extracts(pages[i])
      case Extracted(extract) => results := results + [(pages[i], extract)];
      case ExtractFailed(message) => errors := errors + [PageError(pages[i].id, message)];
      case ExtractCancelled =>
    }
    assert pages[..|pages|] == pages;
  }

  /** The pages of found whose id is not in seen. */
  method Unseen(found: seq<Page>, seen: set<string>) returns (unseen: seq<Page>)
    ensures unseen == Without(found, seen)
  {
    unseen := [];
    for i := 0 to |found|
      invariant unseen == Without(found[..i], seen)
    {
      assert found[..i + 1][..i] == found[..i];
      if found[i].id !in seen {
        unseen := unseen + [found[i]];
      }
    }
    assert found[..|found|] == found;
  }

  /** search_context with all collaborators configured. */
  method SearchContext(urls: seq<string>, limit: int, world: SearchWorld) returns (response: SearchResponse)
    ensures var (pins, urlErrors) := ParsePins(urls, world);
      var merged := MergedPages(pins, world, limit);
      && response.results == Results(merged, world)
      && response.totalPages == |merged|
      && response.errors == urlErrors + PinErrors(pins, world) + PageErrors(merged, world)
  {
    var pins, errors := ParseUrls(urls, world);
    var hits := [];
    if |pins| < limit {
      hits := SearchPagesMulti(world.searches);
      hits := Take(hits, limit);
    }
    var pinned, pinErrors := FetchPins(pins, world);
    errors := errors + pinErrors;
    var unseen := Unseen(hits, PageIds(pinned));
    var pages := Take(pinned + unseen, limit);
    var results, pageErrors := ExtractPages(pages, world);
    response := SearchResponse(results, |pages|, errors + pageErrors);
  }
}
