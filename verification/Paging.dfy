/** Local paging, the statistics answer built on it, and a caller reading a collection page by page. */
module Paging {
  import opened Wrappers
  import opened JsonValues
  import opened ResourceKinds
  import opened Rendering
  import opened Shrinking

  /** The configured maxima a page is validated against. */
  datatype PageLimits = PageLimits(maxFrom: nat, maxSize: nat)

  datatype PageError = ZeroSize | SizeTooLarge | OffsetTooLarge

  const DEFAULT_PAGE_SIZE: nat := 200

  datatype Paged = Paged(items: seq<Json>, offset: nat, limit: nat, total: nat)

  function ValidPage(from: nat, size: nat, limits: PageLimits): Result<(), PageError> {
    if size == 0 then Err(ZeroSize)
    else if size > limits.maxSize then Err(SizeTooLarge)
    else if from > limits.maxFrom then Err(OffsetTooLarge)
    else Ok(())
  }

  function Least(a: nat, b: nat): nat {
    if a <= b then a else b
  }

  /** Skip, then take, each stopping at the end. */
  function Window(items: seq<Json>, from: nat, size: nat): (page: seq<Json>)
    ensures |page| == Least(size, |items| - Least(from, |items|))
    ensures forall i :: 0 <= i < |page| ==> page[i] == items[from + i]
  {
    var start := Least(from, |items|);
    items[start..Least(start + size, |items|)]
  }

  function Paginate(items: seq<Json>, offset: Option<nat>, limit: Option<nat>, limits: PageLimits)
    : (r: Result<Paged, PageError>)
    ensures r.Ok? ==> r.value.offset == (if offset.Some? then offset.value else 0)
    ensures r.Ok? ==> r.value.limit == (if limit.Some? then limit.value else DEFAULT_PAGE_SIZE)
    ensures r.Ok? ==> r.value.items == Window(items, r.value.offset, r.value.limit)
    ensures r.Ok? ==> r.value.total == |items| && r.value.limit > 0 && |r.value.items| <= r.value.limit
    ensures r.Ok? ==> (|r.value.items| < r.value.limit ==> r.value.offset + |r.value.items| >= |items|)
    ensures limit == Some(0) ==> r == Err(ZeroSize)
    ensures var from := if offset.Some? then offset.value else 0;
            var size := if limit.Some? then limit.value else 200;
            r.Ok? <==> 0 < size <= limits.maxSize && from <= limits.maxFrom
  {
    var from := if offset.Some? then offset.value else 0;
    var size := if limit.Some? then limit.value else DEFAULT_PAGE_SIZE;
    match ValidPage(from, size, limits)
    case Err(e) => Err(e)
    case Ok(_) => Ok(Paged(Window(items, from, size), from, size, |items|))
  }

  /** Pages a collection locally on the surfaces that ignore the page they are asked for. */
  function ApplyPageIfUpstreamIgnoredIt(surface: ApiSurface, from: nat, size: nat, parsed: Json): (page: Json)
    ensures !parsed.Arr? ==> page == parsed
  {
    if surface.Supported? || !parsed.Arr? then parsed else Arr(Window(parsed.items, from, size))
  }

  /** The page is applied once and only once, whichever side applied it. */
  lemma PageAppliedOnce(surface: ApiSurface, collection: seq<Json>, from: nat, size: nat)
    ensures var upstream := if surface.Supported? then Window(collection, from, size) else collection;
            ApplyPageIfUpstreamIgnoredIt(surface, from, size, Arr(upstream)) == Arr(Window(collection, from, size))
  {
  }

  /** Applying it twice is harmless only for a first page or one past the end; any other loses items. */
  lemma PagingTwiceLosesUnless(collection: seq<Json>, from: nat, size: nat)
    requires size > 0
    ensures Window(Window(collection, from, size), from, size) == Window(collection, from, size)
            <==> (from == 0 || from >= |collection|)
  {
    var page := Window(collection, from, size);
    assert |Window(page, from, size)| == Least(size, |page| - Least(from, |page|));
  }

  // ---- The statistics answer ----

  /** The projection a subject's items go through, one item in, one item out. */
  type View = Json -> Json

  function Viewed(view: View, items: seq<Json>): seq<Json> {
    seq(|items|, i requires 0 <= i < |items| => view(items[i]))
  }

  const STATS_KEYS := ["data", "offset", "limit", "total"]

  function StatsRest(page: Paged): map<string, Json> {
    map["offset" := Num(page.offset), "limit" := Num(page.limit), "total" := Num(page.total)]
  }

  function StatsAnswer(view: View, page: Paged): Json {
    Obj(StatsRest(page)["data" := Arr(Viewed(view, page.items))])
  }

  /** A statistics answer has four keys: the page asked for, item by item, where it starts, its size, the total. */
  lemma StatsAnswerSays(view: View, items: seq<Json>, offset: nat, limit: nat, limits: PageLimits)
    requires Paginate(items, Some(offset), Some(limit), limits).Ok?
    ensures var answer := StatsAnswer(view, Paginate(items, Some(offset), Some(limit), limits).value);
            && answer.Obj? && answer.fields.Keys == {"data", "offset", "limit", "total"}
            && answer.Get("offset") == Some(Num(offset)) && answer.Get("limit") == Some(Num(limit))
            && answer.Get("total") == Some(Num(|items|))
            && answer.fields["data"].Arr?
            && |answer.fields["data"].items|
               == (if offset >= |items| then 0 else if offset + limit > |items| then |items| - offset else limit)
            && forall i :: 0 <= i < |answer.fields["data"].items| ==>
                 answer.fields["data"].items[i] == view(items[offset + i])
  {
  }

  /** The paged array is the one shrinking cuts, and everything else it keeps. */
  lemma StatsCutsData(view: View, page: Paged)
    ensures Lists(StatsAnswer(view, page), STATS_KEYS)
    ensures SplitOf(StatsAnswer(view, page), STATS_KEYS)
            == Some(Split(StatsRest(page), "data", Viewed(view, page.items)))
  {
    var fields := StatsAnswer(view, page).fields;
    assert fields.Keys == {"data", "offset", "limit", "total"};
    assert forall key :: key in STATS_KEYS <==> key in {"data", "offset", "limit", "total"} by {
      assert STATS_KEYS[0] == "data" && STATS_KEYS[1] == "offset";
      assert STATS_KEYS[2] == "limit" && STATS_KEYS[3] == "total";
    }
    LargestArrayIs(fields, STATS_KEYS);
    assert "data" in STATS_KEYS && fields["data"].Arr?;
    assert LargestArray(fields, STATS_KEYS) == Some("data");
    assert fields - {"data"} == StatsRest(page);
  }

  // ---- The caller ----

  /** The items an answer shows. */
  function Shown(answer: Json): seq<Json> {
    answer.GetItems("data")
  }

  /** The next page: where the answer points if it does, `offset + limit` otherwise. */
  function NextCursor(answer: Json, page: Paged): nat {
    match answer.Get("next_offset")
    case Some(Num(n)) => if n >= 0 then n else page.offset + page.limit
    case _ => page.offset + page.limit
  }

  /** Whether an answer is what the server sends for a page under a budget. */
  ghost predicate Answers(view: View, page: Paged, budget: nat, answer: Json) {
    && Lists(StatsAnswer(view, page), STATS_KEYS)
    && Shrunk(StatsAnswer(view, page), STATS_KEYS, budget, answer)
  }

  /** A page showing a single item stays within the budget. */
  ghost predicate OneItemFits(view: View, page: Paged, budget: nat) {
    |page.items| > 0 ==> Fits(StatsRest(page), "data", Viewed(view, page.items), 1, budget)
  }

  /** The page at an offset of a collection. */
  ghost predicate PageOf(items: seq<Json>, page: Paged) {
    page.limit > 0 && page.total == |items| && page.items == Window(items, page.offset, page.limit)
  }

  /** The answer to a page that had to be cut: how many items it shows, and the cursor just past them. */
  lemma CutAnswer(view: View, page: Paged, budget: nat, answer: Json) returns (n: nat)
    requires page.offset <= U64_MAX && PrettyLen(StatsAnswer(view, page), 0) > budget
    requires Answers(view, page, budget, answer)
    ensures MostThatFit(StatsRest(page), "data", Viewed(view, page.items), n, budget)
    ensures Shown(answer) == Viewed(view, page.items)[..n]
    ensures answer.Get("next_offset") == Some(Num(SaturatingAdd(page.offset, n)))
  {
    hide PrettyLen, LargestArray, Viewed;
    StatsCutsData(view, page);
    assert OffsetOf(StatsRest(page)) == Some(page.offset);
    n :| MostThatFit(StatsRest(page), "data", Viewed(view, page.items), n, budget)
         && answer == Cut(StatsRest(page), "data", Viewed(view, page.items), n);
    MostIsAPrefix(StatsRest(page), "data", Viewed(view, page.items), n, budget);
    CutKeeps(StatsRest(page), "data", Viewed(view, page.items), n);
  }

  lemma MostIsAPrefix(rest: map<string, Json>, field: string, items: seq<Json>, n: nat, budget: nat)
    requires MostThatFit(rest, field, items, n, budget)
    ensures n <= |items|
  {
  }

  /** An answer shows a prefix of its page; its cursor is just past what it shows, or past the whole page. */
  lemma AnswerShape(view: View, items: seq<Json>, page: Paged, budget: nat, answer: Json) returns (n: nat)
    requires PageOf(items, page) && page.offset < |items| <= U64_MAX
    requires Answers(view, page, budget, answer)
    ensures n <= |page.items| && Shown(answer) == Viewed(view, page.items)[..n]
    ensures || NextCursor(answer, page) == page.offset + n
            || (NextCursor(answer, page) == page.offset + page.limit && n == |page.items|)
  {
    if PrettyLen(StatsAnswer(view, page), 0) <= budget {
      assert answer == StatsAnswer(view, page);
      n := |page.items|;
      assert Viewed(view, page.items)[..n] == Viewed(view, page.items);
    } else {
      n := CutAnswer(view, page, budget, answer);
      MostIsAPrefix(StatsRest(page), "data", Viewed(view, page.items), n, budget);
    }
  }

  /** The cursor moves on exactly when the page fits whole or at least one item of it fits. */
  lemma CursorAdvancesIff(view: View, items: seq<Json>, page: Paged, budget: nat, answer: Json)
    requires PageOf(items, page) && page.offset < |items| <= U64_MAX
    requires Answers(view, page, budget, answer)
    ensures NextCursor(answer, page) > page.offset
            <==> (PrettyLen(StatsAnswer(view, page), 0) <= budget || OneItemFits(view, page, budget))
  {
    if PrettyLen(StatsAnswer(view, page), 0) <= budget {
      assert answer == StatsAnswer(view, page);
    } else {
      var n := CutAnswer(view, page, budget, answer);
      hide Fits, Viewed;
      if n > 0 {
        FewerFit(StatsRest(page), "data", Viewed(view, page.items), 1, n, budget);
      }
    }
  }

  lemma FewerFit(rest: map<string, Json>, field: string, items: seq<Json>, few: nat, many: nat, budget: nat)
    requires few <= many <= |items| && Fits(rest, field, items, many, budget)
    ensures Fits(rest, field, items, few, budget)
  {
    CutGrows(rest, field, items, few, many);
  }

  /**
  What a caller reads from an offset on: a page, then on from its cursor, until the collection is read. A
  cursor that does not move ends the reading short.
  */
  ghost function Crawl(view: View, items: seq<Json>, limit: nat, limits: PageLimits, budget: nat, offset: nat)
    : seq<Json>
    decreases |items| - offset
  {
    if offset >= |items| then [] else
    match Paginate(items, Some(offset), Some(limit), limits)
    case Err(_) => []
    case Ok(page) =>
      var answer := AnswerTo(view, page, budget);
      var next := NextCursor(answer, page);
      if next <= offset then Shown(answer) else Shown(answer) + Crawl(view, items, limit, limits, budget, next)
  }

  ghost function AnswerTo(view: View, page: Paged, budget: nat): (answer: Json)
    ensures Answers(view, page, budget, answer)
  {
    AnswerExists(view, page, budget);
    var answer :| Answers(view, page, budget, answer);
    answer
  }

  /** Every page has an answer. */
  lemma AnswerExists(view: View, page: Paged, budget: nat)
    ensures exists answer :: Answers(view, page, budget, answer)
  {
    StatsCutsData(view, page);
    var shown := Viewed(view, page.items);
    if PrettyLen(StatsAnswer(view, page), 0) <= budget {
      assert Answers(view, page, budget, StatsAnswer(view, page));
    } else {
      var n := MostExists(StatsRest(page), "data", shown, |shown|, budget);
      assert Answers(view, page, budget, Cut(StatsRest(page), "data", shown, n));
    }
  }

  lemma {:induction false} MostExists(rest: map<string, Json>, field: string, items: seq<Json>, from: nat, budget: nat)
    returns (n: nat)
    requires from <= |items| && forall m :: from < m <= |items| ==> !Fits(rest, field, items, m, budget)
    ensures MostThatFit(rest, field, items, n, budget)
  {
    if from == 0 || Fits(rest, field, items, from, budget) {
      n := from;
    } else {
      n := MostExists(rest, field, items, from - 1, budget);
    }
  }

  /**
  The cursor loses nothing: as long as each one-item page fits the budget, following the cursor reads every
  item of the collection exactly once and in order, whatever the page size.
  */
  lemma {:induction false} CrawlReadsEverything(view: View, items: seq<Json>, limit: nat, limits: PageLimits,
                                                budget: nat, offset: nat)
    requires 0 < limit <= limits.maxSize && offset <= |items| <= limits.maxFrom <= U64_MAX
    requires forall from :: offset <= from < |items| ==>
               OneItemFits(view, Paged(Window(items, from, limit), from, limit, |items|), budget)
    ensures Crawl(view, items, limit, limits, budget, offset) == Viewed(view, items[offset..])
    decreases |items| - offset
  {
    hide Answers, OneItemFits, Viewed;
    if offset >= |items| {
      NothingLeft(view, items);
    } else {
      var page := Paged(Window(items, offset, limit), offset, limit, |items|);
      assert Paginate(items, Some(offset), Some(limit), limits) == Ok(page);
      var answer := AnswerTo(view, page, budget);
      var n := AnswerShape(view, items, page, budget, answer);
      CursorAdvancesIff(view, items, page, budget, answer);
      assert OneItemFits(view, page, budget);
      var next := NextCursor(answer, page);
      ViewedSplits(view, items, page, n);
      if next < |items| {
        CrawlReadsEverything(view, items, limit, limits, budget, next);
      } else {
        NothingLeft(view, items);
        assert items[offset + n..] == items[|items|..];
      }
    }
  }

  lemma NothingLeft(view: View, items: seq<Json>)
    ensures Viewed(view, items[|items|..]) == []
  {
  }

  lemma ViewedSplits(view: View, items: seq<Json>, page: Paged, n: nat)
    requires PageOf(items, page) && page.offset < |items| && n <= |page.items|
    ensures page.offset + n <= |items| && |Viewed(view, page.items)| == |page.items|
    ensures Viewed(view, items[page.offset..])
            == Viewed(view, page.items)[..n] + Viewed(view, items[page.offset + n..])
  {
  }

  /** And when a one-item page is over the budget, the caller that reaches it stays there. */
  lemma OversizedItemStops(view: View, items: seq<Json>, limit: nat, limits: PageLimits, budget: nat, offset: nat)
    requires 0 < limit <= limits.maxSize && offset < |items| <= limits.maxFrom <= U64_MAX
    requires var page := Paged(Window(items, offset, limit), offset, limit, |items|);
             !OneItemFits(view, page, budget) && PrettyLen(StatsAnswer(view, page), 0) > budget
    ensures Crawl(view, items, limit, limits, budget, offset) == []
  {
    var page := Paged(Window(items, offset, limit), offset, limit, |items|);
    assert Paginate(items, Some(offset), Some(limit), limits) == Ok(page);
    var answer := AnswerTo(view, page, budget);
    CursorAdvancesIff(view, items, page, budget, answer);
    var n := CutAnswer(view, page, budget, answer);
    if n > 0 {
      FewerFit(StatsRest(page), "data", Viewed(view, page.items), 1, n, budget);
    }
  }
}
