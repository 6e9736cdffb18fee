/** Free-text search: scan a collection page by page, then filter it. */
module Searching {
  import opened Wrappers
  import opened JsonValues
  import opened Paging

  const SEARCH_SCAN_CAP: nat := 5000
  const SEARCH_PAGE_SIZE: nat := 200

  datatype FetchFailed = FetchFailed

  /** A remote collection that honours offset and limit; some fetches may fail. */
  class PagedSource {
    const items: seq<Json>
    const fails: nat -> bool
    var fetches: nat

    constructor (items: seq<Json>, fails: nat -> bool)
      ensures this.items == items && this.fails == fails && fetches == 0
    {
      this.items, this.fails, this.fetches := items, fails, 0;
    }

    method FetchPage(offset: nat, limit: nat) returns (r: Result<seq<Json>, FetchFailed>)
      modifies this
      ensures fetches == old(fetches) + 1
      ensures r.Err? <==> fails(old(fetches))
      ensures r.Ok? ==> r.value == Window(items, offset, limit)
    {
      r := if fails(fetches) then Err(FetchFailed)
           else Ok(Window(items, offset, limit));
      fetches := fetches + 1;
    }
  }

  /** Every match, in order. */
  function Matches(items: seq<Json>, hit: Json -> bool): seq<Json> {
    if items == [] then [] else
    Matches(items[..|items| - 1], hit) + (if hit(items[|items| - 1]) then [items[|items| - 1]] else [])
  }

  /** The first `limit` matches, in order. */
  function FirstMatches(items: seq<Json>, hit: Json -> bool, limit: nat): seq<Json> {
    Matches(items, hit)[..Least(limit, |Matches(items, hit)|)]
  }

  /** Exactly the matching items, as often as they occur. */
  lemma {:induction false} MatchesAreTheHits(items: seq<Json>, hit: Json -> bool, j: Json)
    ensures multiset(Matches(items, hit))[j] == if hit(j) then multiset(items)[j] else 0
  {
    if items != [] {
      MatchesAreTheHits(items[..|items| - 1], hit, j);
      assert items == items[..|items| - 1] + [items[|items| - 1]];
    }
  }

  /** Places in a list, each after the one before. */
  ghost predicate Ascending(places: seq<nat>, count: nat) {
    && (forall k :: 0 <= k < |places| ==> places[k] < count)
    && (forall k, l :: 0 <= k < l < |places| ==> places[k] < places[l])
  }

  /** And in the order of the list: the matches are what stands at some ascending places of it. */
  lemma {:induction false} MatchesKeepOrder(items: seq<Json>, hit: Json -> bool) returns (places: seq<nat>)
    ensures |places| == |Matches(items, hit)| && Ascending(places, |items|)
    ensures forall k :: 0 <= k < |places| ==> Matches(items, hit)[k] == items[places[k]]
  {
    places := [];
    if items != [] {
      var last := |items| - 1;
      var before := MatchesKeepOrder(items[..last], hit);
      places := before + (if hit(items[last]) then [last] else []);
    }
  }

  lemma MatchesGrow(items: seq<Json>, hit: Json -> bool, next: Json)
    ensures Matches(items + [next], hit) == Matches(items, hit) + (if hit(next) then [next] else [])
  {
    assert (items + [next])[..|items|] == items;
  }

  /** The lazy filter-and-take: stops at the limit, and still returns the first matches of the whole. */
  method FilterByQuery(items: seq<Json>, hit: Json -> bool, limit: nat) returns (found: seq<Json>)
    ensures found == FirstMatches(items, hit, limit)
    // A prefix of all the matches, and all of them unless that would be more than the limit.
    ensures |found| <= limit && found <= Matches(items, hit)
    ensures |found| < limit ==> found == Matches(items, hit)
  {
    found := [];
    var i := 0;
    while i < |items| && |found| < limit
      invariant i <= |items| && |found| <= limit
      invariant found == Matches(items[..i], hit)
    {
      assert items[..i + 1] == items[..i] + [items[i]];
      MatchesGrow(items[..i], hit, items[i]);
      if hit(items[i]) {
        found := found + [items[i]];
      }
      i := i + 1;
    }
    MatchesOfPrefix(items, hit, i);
    assert items[..|items|] == items;
  }

  /** The matches of a prefix are a prefix of the matches. */
  lemma {:induction false} MatchesOfPrefix(items: seq<Json>, hit: Json -> bool, k: nat)
    requires k <= |items|
    ensures |Matches(items[..k], hit)| <= |Matches(items, hit)|
    ensures Matches(items[..k], hit) == Matches(items, hit)[..|Matches(items[..k], hit)|]
    decreases |items|
  {
    if k == |items| {
      assert items[..k] == items;
    } else {
      MatchesOfPrefix(items[..|items| - 1], hit, k);
      assert items[..|items| - 1][..k] == items[..k];
    }
  }

  datatype ScanResult = ScanResult(items: seq<Json>, capped: bool)

  /** What the scan saw: everything, or the first 5000 items. */
  function Scanned(items: seq<Json>): seq<Json> {
    items[..Least(SEARCH_SCAN_CAP, |items|)]
  }

  lemma ScannedIs(items: seq<Json>)
    ensures Scanned(items) == if |items| >= 5000 then items[..5000] else items
  {
  }

  /** The pages, one after another, until one is short or the cap is reached. */
  method Scan(source: PagedSource) returns (r: Result<ScanResult, FetchFailed>)
    modifies source
    ensures old(source.fetches) < source.fetches <= old(source.fetches) + 25
    ensures r.Ok? ==> r.value.items == Scanned(source.items) && (r.value.capped <==> |source.items| >= 5000)
    ensures r.Err? <==> exists n :: old(source.fetches) <= n < source.fetches && source.fails(n)
  {
    var all: seq<Json> := [];
    var offset := 0;
    var capped := false;
    while true
      invariant offset == SEARCH_PAGE_SIZE * (source.fetches - old(source.fetches))
      invariant source.fetches >= old(source.fetches) && offset < SEARCH_SCAN_CAP
      invariant offset <= |source.items| && all == source.items[..offset] && !capped
      invariant forall n :: old(source.fetches) <= n < source.fetches ==> !source.fails(n)
      decreases SEARCH_SCAN_CAP - offset
    {
      var page := source.FetchPage(offset, SEARCH_PAGE_SIZE);
      if page.Err? {
        assert source.fails(source.fetches - 1);
        return Err(FetchFailed);
      }
      all := all + page.value;
      assert all == source.items[..Least(offset + SEARCH_PAGE_SIZE, |source.items|)];
      if |all| >= SEARCH_SCAN_CAP {
        capped := |page.value| >= SEARCH_PAGE_SIZE;
        break;
      }
      if |page.value| < SEARCH_PAGE_SIZE {
        break;
      }
      offset := offset + SEARCH_PAGE_SIZE;
    }
    assert all == Scanned(source.items);
    r := Ok(ScanResult(all, capped));
  }

  /**
  Searching is filtering the whole collection. In at most 25 fetches it returns the first `limit` matches of
  everything, and says it was capped exactly when the collection reaches the cap, in which case the matches
  are those of exactly the first 5000 items. It fails only if one of the fetches it needed fails.
  */
  method ScanAndFilter(source: PagedSource, hit: Json -> bool, limit: nat) returns (r: Result<ScanResult, FetchFailed>)
    modifies source
    ensures old(source.fetches) < source.fetches <= old(source.fetches) + 25
    ensures r.Ok? ==> (r.value.capped <==> |source.items| >= 5000) && |r.value.items| <= limit
    ensures r.Ok? && !r.value.capped ==> r.value.items == FirstMatches(source.items, hit, limit)
    ensures r.Ok? && r.value.capped ==> r.value.items == FirstMatches(source.items[..5000], hit, limit)
    ensures r.Err? <==> exists n :: old(source.fetches) <= n < source.fetches && source.fails(n)
  {
    hide FirstMatches, Matches, Scanned;
    var scanned := Scan(source);
    if scanned.Err? {
      return scanned;
    }
    ScannedIs(source.items);
    var found := FilterByQuery(scanned.value.items, hit, limit);
    r := Ok(ScanResult(found, scanned.value.capped));
  }
}
