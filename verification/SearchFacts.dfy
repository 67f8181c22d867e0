/** What the parts of search_context pick from their inputs, element by element. */
module SearchFacts {
  import opened Collections
  import opened SearchMerge

  // ----- The keyword hits

  /** A search contributes its pages, a failed one nothing. */
  lemma HitsOfOne(r: Result<seq<Page>>)
    ensures Hits([r]) == if r.Ok? then r.value else []
  {
    assert [r][..0] == [];
    assert Hits([r]) == [] + if r.Ok? then r.value else [];
  }

  /** One search after the other. */
  lemma {:induction false} HitsJoin(a: seq<Result<seq<Page>>>, b: seq<Result<seq<Page>>>)
    ensures Hits(a + b) == Hits(a) + Hits(b)
  {
    if b == [] {
      assert a + b == a;
    } else {
      var init, last := b[..|b| - 1], b[|b| - 1];
      HitsJoin(a, init);
      HitsMoved(a, init, last);
      assert init + [last] == b;
    }
  }

  lemma HitsMoved(a: seq<Result<seq<Page>>>, b: seq<Result<seq<Page>>>, r: Result<seq<Page>>)
    requires Hits(a + b) == Hits(a) + Hits(b)
    ensures Hits(a + (b + [r])) == Hits(a) + Hits(b + [r])
  {
    hide Hits;
    HitsNext(a + b, r);
    HitsNext(b, r);
    assert a + (b + [r]) == (a + b) + [r];
  }

  lemma HitsNext(a: seq<Result<seq<Page>>>, r: Result<seq<Page>>)
    ensures Hits(a + [r]) == Hits(a) + if r.Ok? then r.value else []
  {
    assert (a + [r])[..|a|] == a;
  }

  /** The page is the hit at this position, and the first with its id. */
  ghost predicate FirstHit(hits: seq<Page>, page: Page, at: nat) {
    at < |hits| && hits[at] == page && (forall j :: 0 <= j < at ==> hits[j].id != page.id)
  }

  /** The entries of d are the first hits with their ids, at these positions. */
  ghost predicate FirstAt(d: Dict<string, Page>, hits: seq<Page>, from: seq<nat>) {
    && |from| == |d.keys|
    && (forall i :: 0 <= i < |from| ==> d.keys[i] in d.vals && FirstHit(hits, d.vals[d.keys[i]], from[i]))
    && (forall i, j :: 0 <= i < j < |from| ==> from[i] < from[j])
    && (forall i :: 0 <= i < |from| ==> from[i] < |hits|)
    && (forall j :: 0 <= j < |hits| ==> hits[j].id in d.vals)
  }

  lemma FirstHitKept(hits: seq<Page>, more: Page, page: Page, at: nat)
    requires FirstHit(hits, page, at)
    ensures FirstHit(hits + [more], page, at)
  {
    assert forall j :: 0 <= j < |hits| ==> (hits + [more])[j] == hits[j];
  }

  lemma FirstAtKept(d: Dict<string, Page>, hits: seq<Page>, from: seq<nat>, page: Page)
    requires FirstAt(d, hits, from) && page.id in d.vals
    ensures FirstAt(d, hits + [page], from)
  {
    hide FirstHit;
    forall i | 0 <= i < |from|
      ensures FirstHit(hits + [page], d.vals[d.keys[i]], from[i])
    {
      FirstHitKept(hits, page, d.vals[d.keys[i]], from[i]);
    }
  }

  lemma FirstAtNew(d: Dict<string, Page>, hits: seq<Page>, from: seq<nat>, page: Page)
    requires FirstAt(d, hits, from) && page.id !in d.vals
    ensures FirstAt(d.Put(page.id, page), hits + [page], from + [|hits|])
  {
    assert FirstHit(hits + [page], page, |hits|);
    hide FirstHit, Distinct;
    var d', from' := d.Put(page.id, page), from + [|hits|];
    assert d'.keys == d.keys + [page.id];
    forall i | 0 <= i < |from'|
      ensures d'.keys[i] in d'.vals && FirstHit(hits + [page], d'.vals[d'.keys[i]], from'[i])
    {
      if i < |from| {
        assert d.keys[i] in d.vals && d'.keys[i] == d.keys[i] != page.id;
        FirstHitKept(hits, page, d.vals[d.keys[i]], from[i]);
      }
    }
  }

  lemma {:induction false} FirstByIdFrom(hits: seq<Page>) returns (from: seq<nat>)
    ensures FirstAt(FirstById(hits), hits, from)
  {
    hide FirstAt, FirstById, Distinct;
    from := [];
    if hits == [] {
      NoHits();
    } else {
      var init, page := hits[..|hits| - 1], hits[|hits| - 1];
      from := FirstByIdFrom(init);
      FirstByIdNext(init, page);
      assert init + [page] == hits;
      if page.id in FirstById(init).vals {
        FirstAtKept(FirstById(init), init, from, page);
      } else {
        FirstAtNew(FirstById(init), init, from, page);
        from := from + [|init|];
      }
    }
  }

  lemma NoHits()
    ensures FirstAt(FirstById([]), [], [])
  {
  }

  /** The merged search has, in the order found, the first hit of every page id. */
  lemma {:induction false} SearchKeepsFirst(results: seq<Result<seq<Page>>>) returns (from: seq<nat>)
    ensures var hits, pages := Hits(results), FirstById(Hits(results)).Items();
      && |from| == |pages|
      && (forall i :: 0 <= i < |from| ==> from[i] < |hits| && pages[i] == hits[from[i]])
      && (forall i, j :: 0 <= i < |from| && 0 <= j < from[i] ==> hits[j].id != pages[i].id)
      && (forall i, j :: 0 <= i < j < |from| ==> from[i] < from[j])
  {
    hide Hits;
    from := FirstByIdFrom(Hits(results));
  }

  // ----- The pinned pages

  function BadUrl(world: SearchWorld): string -> Option<SearchError> {
    url => if world.pageIdOf(url) == None then Some(NoPageId(url)) else None
  }

  /** Each URL without a page id is reported, in order. */
  lemma {:induction false} BadUrlsReported(urls: seq<string>, world: SearchWorld)
    ensures ParsePins(urls, world).1 == Picked(urls, BadUrl(world))
  {
    if urls != [] {
      BadUrlsReported(urls[..|urls| - 1], world);
    }
  }

  /** The pins are the URLs at these positions, each the first that names its page. */
  ghost predicate PinnedAt(pins: seq<Pin>, urls: seq<string>, world: SearchWorld, from: seq<nat>) {
    && |from| == |pins|
    && (forall i :: 0 <= i < |from| ==>
          && from[i] < |urls| && pins[i].0 == urls[from[i]] && world.pageIdOf(urls[from[i]]) == Some(pins[i].1)
          && (forall j :: 0 <= j < from[i] ==> world.pageIdOf(urls[j]) != Some(pins[i].1)))
    && (forall i, j :: 0 <= i < j < |from| ==> from[i] < from[j])
    && (forall j :: 0 <= j < |urls| && world.pageIdOf(urls[j]).Some? ==> world.pageIdOf(urls[j]).value in PinIds(pins))
  }

  lemma {:induction false} PinIdsExactly(pins: seq<Pin>, id: string)
    ensures id in PinIds(pins) <==> exists i :: 0 <= i < |pins| && pins[i].1 == id
  {
    if pins != [] {
      PinIdsExactly(pins[..|pins| - 1], id);
      if i :| 0 <= i < |pins| && pins[i].1 == id {
        assert i < |pins| - 1 ==> pins[..|pins| - 1][i].1 == id;
      }
    }
  }

  lemma PinnedAtNext(pins: seq<Pin>, urls: seq<string>, world: SearchWorld, from: seq<nat>, url: string)
    requires PinnedAt(pins, urls, world, from)
    ensures world.pageIdOf(url) == None || world.pageIdOf(url).value in PinIds(pins) ==>
      PinnedAt(pins, urls + [url], world, from)
    ensures world.pageIdOf(url).Some? && world.pageIdOf(url).value !in PinIds(pins) ==>
      PinnedAt(pins + [(url, world.pageIdOf(url).value)], urls + [url], world, from + [|urls|])
  {
    var all := urls + [url];
    assert forall j :: 0 <= j < |urls| ==> all[j] == urls[j];
    if world.pageIdOf(url).Some? {
      var more := pins + [(url, world.pageIdOf(url).value)];
      assert more[..|pins|] == pins;
    }
  }

  /** Every page that some URL names is pinned, with the first such URL, in the order of these URLs. */
  lemma {:induction false} EveryPagePinned(urls: seq<string>, world: SearchWorld) returns (from: seq<nat>)
    ensures PinnedAt(ParsePins(urls, world).0, urls, world, from)
  {
    from := [];
    if urls != [] {
      hide PinnedAt;
      var init, url := urls[..|urls| - 1], urls[|urls| - 1];
      from := EveryPagePinned(init, world);
      PinnedAtNext(ParsePins(init, world).0, init, world, from, url);
      assert init + [url] == urls;
      from := if |ParsePins(urls, world).0| == |ParsePins(init, world).0| then from else from + [|init|];
    } else {
      NoPins(world);
    }
  }

  lemma NoPins(world: SearchWorld)
    ensures PinnedAt(ParsePins([], world).0, [], world, [])
  {
  }

  function FetchedPage(world: SearchWorld): Pin -> Option<Page> {
    (pin: Pin) => match world.pins(pin.1) case Fetched(page) => Some(page) case _ => None
  }

  function FailedPin(world: SearchWorld): Pin -> Option<SearchError> {
    (pin: Pin) => match world.pins(pin.1) case PinFailed(message) => Some(PinError(pin.0, message)) case _ => None
  }

  /** One page for every pin that was fetched and one error, with its URL, for every one that failed. */
  lemma {:induction false} PinsFetched(pins: seq<Pin>, world: SearchWorld)
    ensures PinnedPages(pins, world) == Picked(pins, FetchedPage(world))
    ensures PinErrors(pins, world) == Picked(pins, FailedPin(world))
  {
    if pins != [] {
      PinsFetched(pins[..|pins| - 1], world);
    }
  }

  // ----- The merged pages

  function Unpinned(ids: set<string>): Page -> Option<Page> {
    (page: Page) => if page.id in ids then None else Some(page)
  }

  lemma {:induction false} UnpinnedHits(pages: seq<Page>, ids: set<string>)
    ensures Without(pages, ids) == Picked(pages, Unpinned(ids))
  {
    if pages != [] {
      UnpinnedHits(pages[..|pages| - 1], ids);
    }
  }

  function PageResult(world: SearchWorld): Page -> Option<(Page, Extract)> {
    (page: Page) => match world.extracts(page) case Extracted(extract) => Some((page, extract)) case _ => None
  }

  function FailedPage(world: SearchWorld): Page -> Option<SearchError> {
    (page: Page) =>
      match world.extracts(page) case ExtractFailed(message) => Some(PageError(page.id, message)) case _ => None
  }

  /** In page order, each extracted page with its own extraction, and an error for each one that failed. */
  lemma {:induction false} PagesExtracted(pages: seq<Page>, world: SearchWorld)
    ensures Results(pages, world) == Picked(pages, PageResult(world))
    ensures PageErrors(pages, world) == Picked(pages, FailedPage(world))
  {
    if pages != [] {
      PagesExtracted(pages[..|pages| - 1], world);
    }
  }

  /**
   The results are the merged pages that were extracted: from[i] is the position of the i-th result
   among them, in ascending order, and no extracted page is left out.
   */
  lemma {:induction false} ResultsOfPages(pages: seq<Page>, world: SearchWorld) returns (from: seq<nat>)
    ensures var results := Results(pages, world);
      && |from| == |results|
      && (forall i :: 0 <= i < |from| ==>
            from[i] < |pages| && results[i].0 == pages[from[i]] &&
            world.extracts(pages[from[i]]) == Extracted(results[i].1))
      && (forall i, j :: 0 <= i < j < |from| ==> from[i] < from[j])
      && (forall k: nat :: k < |pages| && world.extracts(pages[k]).Extracted? ==> k in from)
  {
    hide Results, Picked;
    PagesExtracted(pages, world);
    from := PickedExactly(pages, PageResult(world));
  }
}
