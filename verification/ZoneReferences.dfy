/** The check that every zone a staged body names is one the controller listed. */
module ZoneReferences {
  import opened Wrappers
  import opened JsonValues
  import opened StagedPlans

  datatype ZoneIndex = ZoneIndex(byId: set<string>, byExternalId: map<string, string>)

  datatype ListError = NotAnArray | MissingId(position: nat)

  datatype ReferenceError = IsExternalId(named: string, id: string) | Absent(named: string)

  /** The `_id`s of a zone list, in order, if every entry has one. */
  predicate WellFormedList(items: seq<Json>) {
    forall i :: 0 <= i < |items| ==> items[i].GetStr("_id").Some?
  }

  /** The last entry carrying this external id; the index keeps its `_id`. */
  ghost predicate LastNamed(items: seq<Json>, i: nat, external: string) {
    && i < |items| && items[i].GetStr("external_id") == Some(external)
    && forall j :: i < j < |items| ==> items[j].GetStr("external_id") != Some(external)
  }

  /** The external ids indexed are exactly those listed, each for the last entry that carries it. */
  ghost predicate IndexesExternal(items: seq<Json>, index: map<string, string>) {
    && (forall i :: 0 <= i < |items| && items[i].GetStr("external_id").Some? ==>
          items[i].GetStr("external_id").value in index)
    && (forall x :: x in index ==> exists i: nat :: LastNamed(items, i, x) && items[i].GetStr("_id") == Some(index[x]))
  }

  lemma IndexGrows(items: seq<Json>, item: Json, index: map<string, string>, id: string)
    requires IndexesExternal(items, index) && item.GetStr("_id") == Some(id)
    ensures var external := item.GetStr("external_id");
            IndexesExternal(items + [item], if external.Some? then index[external.value := id] else index)
  {
    var external := item.GetStr("external_id");
    var grown := if external.Some? then index[external.value := id] else index;
    forall x | x in grown
      ensures exists i: nat :: LastNamed(items + [item], i, x) && (items + [item])[i].GetStr("_id") == Some(grown[x])
    {
      if external == Some(x) {
        assert LastNamed(items + [item], |items|, x);
      } else {
        var i: nat :| LastNamed(items, i, x) && items[i].GetStr("_id") == Some(index[x]);
        assert LastNamed(items + [item], i, x);
      }
    }
  }

  method FromZoneList(raw: Json) returns (r: Result<ZoneIndex, ListError>)
    ensures r.Ok? <==> raw.Arr? && WellFormedList(raw.items)
    ensures r.Ok? ==> forall id :: id in r.value.byId <==>
              exists item :: item in raw.items && item.GetStr("_id") == Some(id)
    ensures r.Ok? ==> IndexesExternal(raw.items, r.value.byExternalId)
    ensures r.Err? && r.error.NotAnArray? ==> !raw.Arr?
    ensures r.Err? && r.error.MissingId? ==>
              raw.Arr? && r.error.position < |raw.items| && raw.items[r.error.position].GetStr("_id").None?
              && WellFormedList(raw.items[..r.error.position])
  {
    if !raw.Arr? {
      return Err(NotAnArray);
    }
    var byId: set<string>, byExternalId: map<string, string> := {}, map[];
    for i := 0 to |raw.items|
      invariant WellFormedList(raw.items[..i])
      invariant forall id :: id in byId <==> exists j :: 0 <= j < i && raw.items[j].GetStr("_id") == Some(id)
      invariant IndexesExternal(raw.items[..i], byExternalId)
    {
      hide IndexesExternal;
      var id := raw.items[i].GetStr("_id");
      if id.None? {
        return Err(MissingId(i));
      }
      var external := raw.items[i].GetStr("external_id");
      IndexGrows(raw.items[..i], raw.items[i], byExternalId, id.value);
      assert raw.items[..i + 1] == raw.items[..i] + [raw.items[i]];
      if external.Some? {
        byExternalId := byExternalId[external.value := id.value];
      }
      byId := byId + {id.value};
    }
    assert raw.items[..|raw.items|] == raw.items;
    r := Ok(ZoneIndex(byId, byExternalId));
  }

  function SideRefs(body: Json): seq<string> {
    (match ZoneOf(body, "source") case Some(z) => [z] case None => []) +
    (match ZoneOf(body, "destination") case Some(z) => [z] case None => [])
  }

  function RefsOf(m: Mutation): seq<string> {
    if m.Create? || m.Update? then SideRefs(m.body) else []
  }

  /** Every zone a staged body names, with repetitions, in staging order. */
  function AllRefs(plan: seq<Mutation>): seq<string> {
    if plan == [] then [] else AllRefs(plan[..|plan| - 1]) + RefsOf(plan[|plan| - 1])
  }

  /** A staged body carries a zone on one of its two sides; a delete and a restore have no body. */
  predicate Stages(m: Mutation, zone: string) {
    (m.Create? || m.Update?) && (Carries(m.body, "source", zone) || Carries(m.body, "destination", zone))
  }

  lemma RefsAre(m: Mutation, zone: string)
    ensures zone in RefsOf(m) <==> Stages(m, zone)
  {
    if m.Create? || m.Update? {
      NamesAreCarried(m.body, zone);
    }
  }

  /** The references are exactly the zones the staged bodies carry. */
  lemma {:induction false} AllRefsAre(plan: seq<Mutation>, zone: string)
    ensures zone in AllRefs(plan) <==> exists m :: m in plan && Stages(m, zone)
  {
    hide RefsOf, Stages;
    if plan != [] {
      var last := |plan| - 1;
      AllRefsAre(plan[..last], zone);
      RefsAre(plan[last], zone);
      assert plan == plan[..last] + [plan[last]];
      assert forall m :: m in plan <==> m in plan[..last] || m == plan[last];
    }
  }

  lemma AllStagedAreListed(ids: set<string>, plan: seq<Mutation>)
    ensures (forall id :: id in AllRefs(plan) ==> id in ids)
            <==> (forall m, zone :: m in plan && Stages(m, zone) ==> zone in ids)
  {
    hide AllRefs, Stages;
    forall zone
      ensures zone in AllRefs(plan) <==> exists m :: m in plan && Stages(m, zone)
    {
      AllRefsAre(plan, zone);
    }
  }

  /** In staging order, the source of a body before its destination. */
  lemma AllRefsInOrder(plan: seq<Mutation>, m: Mutation, source: string, destination: string)
    ensures m.Delete? || m.Restore? ==> AllRefs(plan + [m]) == AllRefs(plan)
    ensures (m.Create? || m.Update?) && Carries(m.body, "source", source)
            && Carries(m.body, "destination", destination) ==>
              AllRefs(plan + [m]) == AllRefs(plan) + [source, destination]
  {
    assert (plan + [m])[..|plan|] == plan;
    if m.Create? || m.Update? {
      NamesAreCarried(m.body, source);
      NamesAreCarried(m.body, destination);
    }
  }

  /** The list with every repetition dropped, first uses kept in order. */
  function FirstUses(ids: seq<string>): seq<string> {
    if ids == [] then []
    else
      var before := FirstUses(ids[..|ids| - 1]);
      if ids[|ids| - 1] in before then before else before + [ids[|ids| - 1]]
  }

  lemma FirstUsesExtends(ids: seq<string>, id: string)
    ensures FirstUses(ids + [id]) == if id in FirstUses(ids) then FirstUses(ids) else FirstUses(ids) + [id]
  {
    assert (ids + [id])[..|ids|] == ids;
  }

  /** Same ids, no repetition, and of two ids kept the one used first comes first. */
  lemma {:induction false} FirstUsesKeepsOrder(ids: seq<string>)
    ensures forall id :: id in FirstUses(ids) <==> id in ids
    ensures forall a, b :: 0 <= a < b < |FirstUses(ids)| ==> FirstUses(ids)[a] != FirstUses(ids)[b]
    ensures forall a, b, k :: 0 <= a < b < |FirstUses(ids)| && 0 <= k < |ids| && ids[k] == FirstUses(ids)[b] ==>
              FirstUses(ids)[a] in ids[..k]
  {
    if ids != [] {
      var last := |ids| - 1;
      var init := ids[..last];
      FirstUsesKeepsOrder(init);
      var before := FirstUses(init);
      assert ids == init + [ids[last]];
      forall a, b, k | 0 <= a < b < |FirstUses(ids)| && 0 <= k < |ids| && ids[k] == FirstUses(ids)[b]
        ensures FirstUses(ids)[a] in ids[..k]
      {
        assert FirstUses(ids)[a] == before[a];
        if k < last {
          assert init[k] in init && ids[k] in before;
          assert b < |before|;
          assert before[a] in init[..k] && init[..k] == ids[..k];
        } else {
          assert before[a] in init && ids[..k] == init;
        }
      }
    }
  }

  /** The references of one body, appended where they are new. */
  method AppendNew(ghost before: seq<string>, referenced: seq<string>, refs: seq<string>) returns (all: seq<string>)
    requires referenced == FirstUses(before)
    ensures all == FirstUses(before + refs)
  {
    hide FirstUses;
    all := referenced;
    assert before + refs[..0] == before;
    for j := 0 to |refs|
      invariant all == FirstUses(before + refs[..j])
    {
      FirstUsesExtends(before + refs[..j], refs[j]);
      assert before + refs[..j + 1] == before + refs[..j] + [refs[j]];
      if refs[j] !in all {
        all := all + [refs[j]];
      }
    }
    assert refs[..|refs|] == refs;
  }

  method ReferencedZoneIds(plan: seq<Mutation>) returns (referenced: seq<string>)
    ensures referenced == FirstUses(AllRefs(plan))
  {
    hide RefsOf;
    referenced := [];
    for i := 0 to |plan|
      invariant referenced == FirstUses(AllRefs(plan[..i]))
    {
      assert plan[..i + 1][..i] == plan[..i];
      referenced := AppendNew(AllRefs(plan[..i]), referenced, RefsOf(plan[i]));
    }
    assert plan[..|plan|] == plan;
  }

  /** The first reference of the list that the index does not hold. */
  ghost predicate FirstUnresolved(zones: ZoneIndex, refs: seq<string>, k: nat) {
    k < |refs| && refs[k] !in zones.byId && forall j :: 0 <= j < k ==> refs[j] in zones.byId
  }

  /** One body's references, source side first: how many resolve before the first that does not. */
  method ResolvedInBody(zones: ZoneIndex, refs: seq<string>) returns (j: nat)
    ensures j <= |refs| && forall k :: 0 <= k < j ==> refs[k] in zones.byId
    ensures j < |refs| ==> refs[j] !in zones.byId
  {
    j := 0;
    while j < |refs| && refs[j] in zones.byId
      invariant j <= |refs| && forall k :: 0 <= k < j ==> refs[k] in zones.byId
    {
      j := j + 1;
    }
  }

  /** A body's first missing reference is the plan's, if everything before the body resolved. */
  lemma FirstMissing(zones: ZoneIndex, plan: seq<Mutation>, i: nat, j: nat)
    requires i < |plan| && j < |RefsOf(plan[i])| && RefsOf(plan[i])[j] !in zones.byId
    requires forall id :: id in AllRefs(plan[..i]) ==> id in zones.byId
    requires forall k :: 0 <= k < j ==> RefsOf(plan[i])[k] in zones.byId
    ensures var k := |AllRefs(plan[..i])| + j;
            FirstUnresolved(zones, AllRefs(plan), k) && AllRefs(plan)[k] == RefsOf(plan[i])[j]
  {
    hide RefsOf;
    assert plan[..i + 1][..i] == plan[..i];
    AllRefsPrefix(plan, i + 1);
    assert AllRefs(plan[..i + 1]) == AllRefs(plan[..i]) + RefsOf(plan[i]);
    var before := AllRefs(plan[..i]);
    assert forall k :: 0 <= k < |before| ==> AllRefs(plan)[k] == before[k] && before[k] in before;
  }

  method CheckZoneReferences(zones: ZoneIndex, plan: seq<Mutation>) returns (r: Result<(), ReferenceError>)
    ensures r.Ok? <==> forall m, zone :: m in plan && Stages(m, zone) ==> zone in zones.byId
    ensures r.Ok? <==> forall id :: id in AllRefs(plan) ==> id in zones.byId
    ensures r.Err? ==> exists k: nat :: FirstUnresolved(zones, AllRefs(plan), k) && r.error.named == AllRefs(plan)[k]
    ensures r.Err? ==> (r.error.IsExternalId? <==> r.error.named in zones.byExternalId)
    ensures r.Err? && r.error.IsExternalId? ==> r.error.id == zones.byExternalId[r.error.named]
  {
    AllStagedAreListed(zones.byId, plan);
    hide RefsOf, Stages;
    for i := 0 to |plan|
      invariant forall id :: id in AllRefs(plan[..i]) ==> id in zones.byId
    {
      assert plan[..i + 1][..i] == plan[..i];
      var refs := RefsOf(plan[i]);
      var j := ResolvedInBody(zones, refs);
      if j < |refs| {
        FirstMissing(zones, plan, i, j);
        return Err(if refs[j] in zones.byExternalId then IsExternalId(refs[j], zones.byExternalId[refs[j]])
                   else Absent(refs[j]));
      }
    }
    assert plan[..|plan|] == plan;
    r := Ok(());
  }

  lemma {:induction false} AllRefsPrefix(plan: seq<Mutation>, k: nat)
    requires k <= |plan|
    ensures AllRefs(plan[..k]) <= AllRefs(plan)
    decreases |plan|
  {
    if k == |plan| {
      assert plan[..k] == plan;
    } else {
      AllRefsPrefix(plan[..|plan| - 1], k);
      assert plan[..|plan| - 1][..k] == plan[..k];
    }
  }

  /** A zone a staged body names is among the plan's references. */
  lemma {:induction false} NamedIsReferenced(plan: seq<Mutation>, m: Mutation)
    requires m in plan && (m.Create? || m.Update?)
    ensures forall z :: z in Names(m.body) ==> z in AllRefs(plan)
  {
    var last := |plan| - 1;
    if m == plan[last] {
      assert forall z :: z in Names(m.body) ==> z in SideRefs(m.body);
    } else {
      assert plan == plan[..last] + [plan[last]];
      NamedIsReferenced(plan[..last], m);
    }
  }

  datatype ReferenceVerdict = Resolved | ListUnread | Unresolved(error: ReferenceError)

  /**
  The reference phase of validation: the zone list is fetched only when something was collected. It passes
  exactly when every id collected is an `_id` on the list, and when nothing is collected no list, readable
  or not, would change that.
  */
  method ValidateReferences(fetched: Result<Json, ListError>, plan: seq<Mutation>) returns (r: ReferenceVerdict)
    ensures r.Resolved? <==>
              || FirstUses(AllRefs(plan)) == []
              || (&& fetched.Ok? && fetched.value.Arr? && WellFormedList(fetched.value.items)
                  && forall id :: id in FirstUses(AllRefs(plan)) ==>
                       exists item :: item in fetched.value.items && item.GetStr("_id") == Some(id))
    ensures r.ListUnread? ==>
              fetched.Err? || !fetched.value.Arr? || !WellFormedList(fetched.value.items)
  {
    FirstUsesKeepsOrder(AllRefs(plan));
    var collected := ReferencedZoneIds(plan);
    if collected == [] {
      return Resolved;
    }
    if fetched.Err? {
      return ListUnread;
    }
    var index := FromZoneList(fetched.value);
    if index.Err? {
      return ListUnread;
    }
    var checked := CheckZoneReferences(index.value, plan);
    r := if checked.Ok? then Resolved else Unresolved(checked.error);
  }
}
