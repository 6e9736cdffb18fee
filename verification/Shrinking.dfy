/** Cutting the largest array of an oversized answer to the longest prefix that fits. */
module Shrinking {
  import opened Wrappers
  import opened JsonValues
  import opened Rendering

  const U64_MAX: nat := 0xFFFF_FFFF_FFFF_FFFF

  /** The array-valued field with most elements; of equals, the last in key order. */
  function LargestArray(fields: map<string, Json>, order: seq<string>): Option<string>
    requires forall key :: key in order ==> key in fields
  {
    if order == [] then None else
    var key := order[|order| - 1];
    var best := LargestArray(fields, order[..|order| - 1]);
    if fields[key].Arr? && (best.Some? && best.value in fields && fields[best.value].Arr? ==>
                              |fields[best.value].items| <= |fields[key].items|)
    then Some(key) else best
  }

  /** No array listed later has as many elements. */
  ghost predicate OutnumbersAfter(fields: map<string, Json>, order: seq<string>, i: nat)
    requires i < |order| && order[i] in fields && fields[order[i]].Arr?
    requires forall key :: key in order ==> key in fields
  {
    forall j :: i < j < |order| && fields[order[j]].Arr? ==> |fields[order[j]].items| < |fields[order[i]].items|
  }

  /** A field that is an array no other array outnumbers; of equals, the one listed last. */
  lemma {:induction false} LargestArrayIs(fields: map<string, Json>, order: seq<string>)
    requires forall key :: key in order ==> key in fields
    ensures LargestArray(fields, order).None? <==> forall key :: key in order ==> !fields[key].Arr?
    ensures LargestArray(fields, order).Some? ==>
              var best := LargestArray(fields, order).value;
              && best in order && fields[best].Arr?
              && (forall key :: key in order && fields[key].Arr? ==> |fields[key].items| <= |fields[best].items|)
              && exists i :: 0 <= i < |order| && order[i] == best && OutnumbersAfter(fields, order, i)
  {
    if order != [] {
      var init := order[..|order| - 1];
      assert order == init + [order[|order| - 1]];
      LargestArrayIs(fields, init);
    }
  }

  /** A cursor the transport can carry. */
  function OffsetOf(rest: map<string, Json>): Option<nat> {
    match Obj(rest).Get("offset")
    case Some(Num(n)) => if 0 <= n <= U64_MAX then Some(n) else None
    case _ => None
  }

  function SaturatingAdd(a: nat, b: nat): nat {
    if a + b <= U64_MAX then a + b else U64_MAX
  }

  function Marker(field: string, shown: nat, of: nat): Json {
    Obj(map["field" := Str(field), "shown" := Num(shown), "of" := Num(of)])
  }

  /** The cursor of the answer: a non-negative `offset` a 64-bit cursor can hold, moved on and capped there. */
  lemma CursorIs(rest: map<string, Json>, at: int, n: nat)
    requires "offset" in rest && rest["offset"] == Num(at)
    ensures OffsetOf(rest).Some? <==> 0 <= at <= 18446744073709551615
    ensures OffsetOf(rest).Some? ==> OffsetOf(rest).value == at
    ensures OffsetOf(rest).Some? ==>
              SaturatingAdd(OffsetOf(rest).value, n)
              == if at + n <= 18446744073709551615 then at + n else 18446744073709551615
  {
  }

  /** Anything but a number there is no cursor. */
  lemma NoCursor(rest: map<string, Json>)
    ensures "offset" !in rest || !rest["offset"].Num? ==> OffsetOf(rest).None?
  {
  }

  /** The answer showing the first `n` items, with its markers. */
  function Cut(rest: map<string, Json>, field: string, items: seq<Json>, n: nat): Json
    requires n <= |items|
  {
    var shown := rest[field := Arr(items[..n])];
    var flagged := if "partial" in shown then shown["partial" := Bool(true)] else shown;
    var cursor := if OffsetOf(rest).Some?
                  then flagged["next_offset" := Num(SaturatingAdd(OffsetOf(rest).value, n))] else flagged;
    Obj(cursor["truncation" := Marker(field, n, |items|)])
  }

  ghost predicate Fits(rest: map<string, Json>, field: string, items: seq<Json>, n: nat, budget: nat)
    requires n <= |items|
  {
    PrettyLen(Cut(rest, field, items, n), 0) <= budget
  }

  lemma MarkerGrows(field: string, few: nat, many: nat, of: nat, depth: nat)
    requires few <= many
    ensures PrettyLen(Marker(field, few, of), depth) <= PrettyLen(Marker(field, many, of), depth)
  {
    DigitsGrow(few, many);
    ObjectGrows(Marker(field, few, of), Marker(field, many, of), depth);
  }

  lemma CursorGrows(few: nat, many: nat)
    requires few <= many
    ensures PrettyLen(Num(few), 1) <= PrettyLen(Num(many), 1)
  {
    DigitsGrow(few, many);
  }

  /** Showing more items never renders shorter, digits of the markers and the saturating cursor included. */
  lemma CutGrows(rest: map<string, Json>, field: string, items: seq<Json>, few: nat, many: nat)
    requires few <= many <= |items|
    ensures PrettyLen(Cut(rest, field, items, few), 0) <= PrettyLen(Cut(rest, field, items, many), 0)
  {
    hide PrettyLen, Marker, DigitsLen;
    var a, b := Cut(rest, field, items, few), Cut(rest, field, items, many);
    ArrayGrows(items, few, many, 1);
    MarkerGrows(field, few, many, |items|, 1);
    if OffsetOf(rest).Some? {
      CursorGrows(SaturatingAdd(OffsetOf(rest).value, few), SaturatingAdd(OffsetOf(rest).value, many));
    }
    assert a.fields.Keys == b.fields.Keys;
    forall key | key in a.fields
      ensures PrettyLen(a.fields[key], 1) <= PrettyLen(b.fields[key], 1)
    {
      if key != "truncation" && key != "next_offset" && key != "partial" && key != field {
        assert a.fields[key] == rest[key] == b.fields[key];
      }
    }
    ObjectGrows(a, b, 0);
  }

  /** The most items that fit, or none. */
  ghost predicate MostThatFit(rest: map<string, Json>, field: string, items: seq<Json>, n: nat, budget: nat) {
    && n <= |items|
    && (n == 0 || Fits(rest, field, items, n, budget))
    && forall m :: n < m <= |items| ==> !Fits(rest, field, items, m, budget)
  }

  /** The binary search over prefix lengths. */
  method LongestFit(rest: map<string, Json>, field: string, items: seq<Json>, budget: nat) returns (lo: nat)
    ensures MostThatFit(rest, field, items, lo, budget)
  {
    lo := 0;
    var hi := |items|;
    while lo < hi
      invariant lo <= hi <= |items|
      invariant lo == 0 || Fits(rest, field, items, lo, budget)
      invariant forall m :: hi < m <= |items| ==> !Fits(rest, field, items, m, budget)
    {
      var mid := lo + (hi - lo + 1) / 2;
      var len := Measure(Cut(rest, field, items, mid), 0);
      if len <= budget {
        lo := mid;
      } else {
        forall m | mid <= m <= |items|
          ensures !Fits(rest, field, items, m, budget)
        {
          CutGrows(rest, field, items, mid, m);
        }
        hi := mid - 1;
      }
    }
  }

  /** What is cut: the array, the field it is shown under, and everything else. */
  datatype Split = Split(rest: map<string, Json>, field: string, items: seq<Json>)

  function SplitOf(value: Json, order: seq<string>): Option<Split>
    requires value.Obj? ==> forall key :: key in order ==> key in value.fields
  {
    match value
    case Arr(items) => Some(Split(map[], "data", items))
    case Obj(fields) =>
      (match LargestArray(fields, order)
       case Some(key) =>
         if key in fields && fields[key].Arr? then Some(Split(fields - {key}, key, fields[key].items)) else None
       case None => None)
    case _ => None
  }

  /** `order` lists the object's keys as its map iterates them. */
  ghost predicate Lists(value: Json, order: seq<string>) {
    value.Obj? ==> forall key :: key in order <==> key in value.fields
  }

  /** The result of shrinking: unchanged if it fits or has nothing to cut, otherwise the most that fits. */
  ghost predicate Shrunk(value: Json, order: seq<string>, budget: nat, r: Json)
    requires Lists(value, order)
  {
    if PrettyLen(value, 0) <= budget || SplitOf(value, order).None? then r == value
    else
      var s := SplitOf(value, order).value;
      exists n :: MostThatFit(s.rest, s.field, s.items, n, budget) && r == Cut(s.rest, s.field, s.items, n)
  }

  method ShrinkLargestArray(value: Json, order: seq<string>, budget: nat) returns (r: Json)
    requires Lists(value, order)
    ensures Shrunk(value, order, budget, r)
  {
    var len := Measure(value, 0);
    if len <= budget {
      return value;
    }
    var split := SplitOf(value, order);
    if split.None? {
      return value;
    }
    var s := split.value;
    var n := LongestFit(s.rest, s.field, s.items, budget);
    r := Cut(s.rest, s.field, s.items, n);
  }

  /** Shrinking leaves one answer. */
  lemma ShrunkIsUnique(value: Json, order: seq<string>, budget: nat, a: Json, b: Json)
    requires Lists(value, order) && Shrunk(value, order, budget, a) && Shrunk(value, order, budget, b)
    ensures a == b
  {
  }

  /** A bare array over the budget becomes an object: a prefix of it under `data`, the marker, and nothing else. */
  lemma BareArrayIsWrapped(items: seq<Json>, order: seq<string>, budget: nat, r: Json)
    requires Lists(Arr(items), order) && Shrunk(Arr(items), order, budget, r) && PrettyLen(Arr(items), 0) > budget
    ensures r.Obj? && r.fields.Keys == {"data", "truncation"}
    ensures r.fields["data"].Arr? && r.fields["data"].items <= items
    ensures r.fields["truncation"] == Obj(map["field" := Str("data"), "shown" := Num(|r.fields["data"].items|),
                                              "of" := Num(|items|)])
  {
    hide PrettyLen, Fits;
    assert SplitOf(Arr(items), order) == Some(Split(map[], "data", items));
    var n: nat :| MostThatFit(map[], "data", items, n, budget) && r == Cut(map[], "data", items, n);
    assert OffsetOf(map[]).None?;
    assert items[..n] <= items;
  }

  /** Nothing is left to cut only when there is no array at all. */
  lemma SplitWhenArray(value: Json, order: seq<string>)
    requires Lists(value, order)
    ensures SplitOf(value, order).None? <==>
              !value.Arr? && (value.Obj? ==> forall key :: key in value.fields ==> !value.fields[key].Arr?)
    ensures value.Obj? && SplitOf(value, order).Some? ==>
              var s := SplitOf(value, order).value;
              && s.field in value.fields && value.fields[s.field] == Arr(s.items) && s.rest == value.fields - {s.field}
              && forall key :: key in value.fields && value.fields[key].Arr? ==> |value.fields[key].items| <= |s.items|
  {
    if value.Obj? {
      LargestArrayIs(value.fields, order);
    }
  }

  /** The names a cut writes itself. */
  predicate IsMarker(rest: map<string, Json>, field: string, key: string) {
    || key == "truncation"
    || (key == "partial" && ("partial" in rest || field == "partial"))
    || (key == "next_offset" && OffsetOf(rest).Some?)
  }

  /**
  A cut keeps every other key, names nothing new but its markers, and shows a prefix of the chosen array
  exactly when that array does not itself go by the name of a marker.
  */
  lemma CutKeeps(rest: map<string, Json>, field: string, items: seq<Json>, n: nat)
    requires n <= |items|
    ensures var r := Cut(rest, field, items, n);
            && (forall key :: key in rest && key != field && !IsMarker(rest, field, key) ==>
                  r.Get(key) == Some(rest[key]))
            && (forall key :: key in r.fields ==> key in rest || key == field || IsMarker(rest, field, key))
            && (r.Get(field) == Some(Arr(items[..n])) <==> !IsMarker(rest, field, field))
            && r.Get("truncation") == Some(Obj(map["field" := Str(field), "shown" := Num(n), "of" := Num(|items|)]))
            && (OffsetOf(rest).Some? ==> r.Get("next_offset") == Some(Num(SaturatingAdd(OffsetOf(rest).value, n))))
            && ("partial" in rest ==> r.Get("partial") == Some(Bool(true)))
  {
  }
}
