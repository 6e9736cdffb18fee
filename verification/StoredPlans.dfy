/** A plan and its pre-image folded into the stored actions of a change set, and read back. */
module StoredPlans {
  import opened Wrappers
  import opened JsonValues
  import opened StagedPlans

  datatype StagedAction = StagedAction(mutation: Mutation, preimage: Option<Json>)

  /** A stored action that is not one, by position. */
  datatype StoreError = NotAnAction(position: nat)

  function ActionFor(m: Mutation, pre: Preimage): StagedAction {
    StagedAction(m, if m.ResourceId().Some? then pre.GetResource(m.ResourceId().value) else None)
  }

  function ActionsFor(plan: seq<Mutation>, pre: Preimage): seq<StagedAction> {
    seq(|plan|, i requires 0 <= i < |plan| => ActionFor(plan[i], pre))
  }

  // ---- Serialization ----

  function MutationToJson(m: Mutation): Json {
    match m
    case Create(kind, body) => Obj(map["Create" := Obj(map["kind" := Str(kind), "body" := body])])
    case Update(kind, id, body) => Obj(map["Update" := Obj(map["kind" := Str(kind), "id" := Str(id), "body" := body])])
    case Delete(kind, id) => Obj(map["Delete" := Obj(map["kind" := Str(kind), "id" := Str(id)])])
    case Restore(backup) => Obj(map["Restore" := Obj(map["backup_id" := Str(backup)])])
  }

  /** An absent pre-image is left out, not written as null. */
  function ActionToJson(a: StagedAction): Json {
    Obj(map["mutation" := MutationToJson(a.mutation)] +
        (if a.preimage.Some? then map["preimage" := a.preimage.value] else map[]))
  }

  /** A variant is an object with exactly one key, and its fields must be there with the right types. */
  function MutationFromJson(j: Json): Option<Mutation> {
    if !j.Obj? || |j.fields| != 1 then None
    else if "Create" in j.fields then
      var inner := j.fields["Create"];
      if inner.GetStr("kind").Some? && inner.Get("body").Some?
      then Some(Create(inner.GetStr("kind").value, inner.Get("body").value)) else None
    else if "Update" in j.fields then
      var inner := j.fields["Update"];
      if inner.GetStr("kind").Some? && inner.GetStr("id").Some? && inner.Get("body").Some?
      then Some(Update(inner.GetStr("kind").value, inner.GetStr("id").value, inner.Get("body").value)) else None
    else if "Delete" in j.fields then
      var inner := j.fields["Delete"];
      if inner.GetStr("kind").Some? && inner.GetStr("id").Some?
      then Some(Delete(inner.GetStr("kind").value, inner.GetStr("id").value)) else None
    else if "Restore" in j.fields then
      var inner := j.fields["Restore"];
      if inner.GetStr("backup_id").Some? then Some(Restore(inner.GetStr("backup_id").value)) else None
    else None
  }

  /** Unknown keys are refused; a null pre-image reads back as absent. */
  function ActionFromJson(j: Json): Option<StagedAction> {
    if !j.Obj? || !(j.fields.Keys <= {"mutation", "preimage"}) || "mutation" !in j.fields then None
    else
      match MutationFromJson(j.fields["mutation"])
      case None => None
      case Some(m) =>
        Some(StagedAction(m, if "preimage" in j.fields && !j.fields["preimage"].Null? then Some(j.fields["preimage"])
                             else None))
  }

  /** Reads stored actions up to the first that is not one. */
  function ActionsOf(stored: seq<Json>): Result<seq<StagedAction>, StoreError> {
    if stored == [] then Ok([]) else
    var last := |stored| - 1;
    match ActionsOf(stored[..last])
    case Err(e) => Err(e)
    case Ok(before) =>
      match ActionFromJson(stored[last])
      case None => Err(NotAnAction(last))
      case Some(a) => Ok(before + [a])
  }

  function MutationsOf(stored: seq<Json>): Result<seq<Mutation>, StoreError> {
    match ActionsOf(stored)
    case Err(e) => Err(e)
    case Ok(actions) => Ok(seq(|actions|, i requires 0 <= i < |actions| => actions[i].mutation))
  }

  function PreimagesIn(actions: seq<StagedAction>): seq<Json> {
    if actions == [] then [] else
    PreimagesIn(actions[..|actions| - 1]) +
    (if actions[|actions| - 1].preimage.Some? then [actions[|actions| - 1].preimage.value] else [])
  }

  function PreimageOf(stored: seq<Json>): Result<Preimage, StoreError> {
    match ActionsOf(stored)
    case Err(e) => Err(e)
    case Ok(actions) => Ok(FromResources(PreimagesIn(actions)))
  }

  function Stored(plan: seq<Mutation>, pre: Preimage): seq<Json> {
    seq(|plan|, i requires 0 <= i < |plan| => ActionToJson(ActionFor(plan[i], pre)))
  }

  // ---- What reads as what ----

  /** An object with the variant's name as its only key, over an object with that variant's fields. */
  ghost predicate Spells(j: Json, m: Mutation) {
    && j.Obj?
    && match m
       case Create(kind, body) =>
         && j.fields.Keys == {"Create"}
         && j.fields["Create"].Get("kind") == Some(Str(kind)) && j.fields["Create"].Get("body") == Some(body)
       case Update(kind, id, body) =>
         && j.fields.Keys == {"Update"}
         && j.fields["Update"].Get("kind") == Some(Str(kind)) && j.fields["Update"].Get("id") == Some(Str(id))
         && j.fields["Update"].Get("body") == Some(body)
       case Delete(kind, id) =>
         && j.fields.Keys == {"Delete"}
         && j.fields["Delete"].Get("kind") == Some(Str(kind)) && j.fields["Delete"].Get("id") == Some(Str(id))
       case Restore(backup) =>
         j.fields.Keys == {"Restore"} && j.fields["Restore"].Get("backup_id") == Some(Str(backup))
  }

  lemma OnlyKey(fields: map<string, Json>, key: string)
    requires key in fields
    ensures |fields| == 1 <==> fields.Keys == {key}
  {
    assert fields.Keys == {key} + (fields.Keys - {key});
    assert |fields.Keys| == 1 + |fields.Keys - {key}|;
  }

  /** A JSON value reads as a mutation exactly when it spells it. */
  lemma MutationReadsAs(j: Json, m: Mutation)
    ensures MutationFromJson(j) == Some(m) <==> Spells(j, m)
  {
    if j.Obj? {
      forall key | key in j.fields
        ensures |j.fields| == 1 <==> j.fields.Keys == {key}
      {
        OnlyKey(j.fields, key);
      }
    }
  }

  /**
  And as a stored action exactly when it spells one under `mutation` and has no key but that and `preimage`,
  whose value is the pre-image unless it is null.
  */
  lemma ActionReadsAs(j: Json, a: StagedAction)
    ensures ActionFromJson(j) == Some(a) <==>
              && j.Obj? && "mutation" in j.fields && j.fields.Keys <= {"mutation", "preimage"}
              && Spells(j.fields["mutation"], a.mutation)
              && (if "preimage" in j.fields && j.fields["preimage"] != Null
                  then a.preimage == Some(j.fields["preimage"]) else a.preimage == None)
  {
    hide Spells, MutationFromJson;
    if j.Obj? && "mutation" in j.fields {
      MutationReadsAs(j.fields["mutation"], a.mutation);
    }
  }

  // ---- Round trip ----

  lemma MutationRoundTrips(m: Mutation)
    ensures MutationFromJson(MutationToJson(m)) == Some(m)
  {
  }

  /** An action reads back unchanged exactly when its pre-image is not a bare null. */
  lemma ActionRoundTrips(a: StagedAction)
    ensures ActionFromJson(ActionToJson(a)) == Some(a) <==> a.preimage != Some(Null)
  {
    MutationRoundTrips(a.mutation);
    var fields := ActionToJson(a).fields;
    assert fields["mutation"] == MutationToJson(a.mutation);
    assert fields.Keys <= {"mutation", "preimage"};
  }

  /** A recorded entry carries an `_id`, so it is never the null that would read back as absent. */
  lemma RecordedIsNeverNull(m: Mutation, pre: Preimage)
    ensures ActionFor(m, pre).preimage != Some(Null)
  {
    if m.ResourceId().Some? {
      FoundCarriesId(pre.resources.GetItems("data"), m.id);
    }
  }

  lemma {:induction false} StoredPrefixReads(plan: seq<Mutation>, pre: Preimage, k: nat)
    requires k <= |plan|
    ensures ActionsOf(Stored(plan, pre)[..k]) == Ok(ActionsFor(plan, pre)[..k])
  {
    hide ActionToJson, ActionFromJson, ActionFor;
    if k != 0 {
      var j := k - 1;
      StoredPrefixReads(plan, pre, j);
      assert Stored(plan, pre)[..k][..j] == Stored(plan, pre)[..j];
      RecordedIsNeverNull(plan[j], pre);
      ActionRoundTrips(ActionFor(plan[j], pre));
      assert Stored(plan, pre)[..k][j] == ActionToJson(ActionFor(plan[j], pre));
      assert ActionsFor(plan, pre)[..k] == ActionsFor(plan, pre)[..j] + [ActionFor(plan[j], pre)];
    }
  }

  /** Every stored plan reads back as the same mutations in the same order. */
  lemma StoredPlanRoundTrips(plan: seq<Mutation>, pre: Preimage)
    ensures ActionsOf(Stored(plan, pre)) == Ok(ActionsFor(plan, pre))
    ensures MutationsOf(Stored(plan, pre)) == Ok(plan)
  {
    hide ActionToJson, ActionFromJson, ActionsOf;
    StoredPrefixReads(plan, pre, |plan|);
    assert Stored(plan, pre)[..|plan|] == Stored(plan, pre);
    assert ActionsFor(plan, pre)[..|plan|] == ActionsFor(plan, pre);
    var read := MutationsOf(Stored(plan, pre)).value;
    assert |read| == |plan| && forall i :: 0 <= i < |plan| ==> read[i] == ActionsFor(plan, pre)[i].mutation == plan[i];
    assert read == plan;
  }

  /** A reading is all or nothing: as many actions as were stored, or the first one that is not an action. */
  lemma {:induction false} NeverAShorterPlan(stored: seq<Json>)
    ensures ActionsOf(stored).Ok? ==> |ActionsOf(stored).value| == |stored|
    ensures ActionsOf(stored).Err? ==>
              && ActionsOf(stored).error.position < |stored|
              && ActionFromJson(stored[ActionsOf(stored).error.position]).None?
              && forall i :: 0 <= i < ActionsOf(stored).error.position ==> ActionFromJson(stored[i]).Some?
    ensures ActionsOf(stored).Ok? <==> forall i :: 0 <= i < |stored| ==> ActionFromJson(stored[i]).Some?
  {
    if stored != [] {
      NeverAShorterPlan(stored[..|stored| - 1]);
    }
  }

  lemma {:induction false} PreimagesInAre(actions: seq<StagedAction>)
    ensures forall j :: j in PreimagesIn(actions) <==> exists a :: a in actions && a.preimage == Some(j)
  {
    if actions != [] {
      var last := |actions| - 1;
      PreimagesInAre(actions[..last]);
      assert actions == actions[..last] + [actions[last]];
    }
  }

  /** The reloaded pre-image agrees with the original on every addressed id and holds nothing else. */
  lemma ReloadedPreimageAgrees(plan: seq<Mutation>, pre: Preimage, id: string)
    ensures PreimageOf(Stored(plan, pre)).Ok?
    ensures PreimageOf(Stored(plan, pre)).value.GetResource(id)
            == if id in Addressed(plan) then pre.GetResource(id) else None
  {
    StoredPlanRoundTrips(plan, pre);
    var actions := ActionsFor(plan, pre);
    var items := PreimagesIn(actions);
    assert FromResources(items).resources.GetItems("data") == items;
    PreimagesInAre(actions);
    FoundCarriesId(items, id);
    FoundIffPresent(items, id);
    forall j | j in items && j.GetStr("_id") == Some(id)
      ensures id in Addressed(plan) && pre.GetResource(id) == Some(j)
    {
      var a :| a in actions && a.preimage == Some(j);
      var i :| 0 <= i < |plan| && a == actions[i];
      FoundCarriesId(pre.resources.GetItems("data"), plan[i].id);
      assert plan[i] in plan;
    }
    if id in Addressed(plan) && pre.GetResource(id).Some? {
      FoundCarriesId(pre.resources.GetItems("data"), id);
      var m :| m in plan && (m.Update? || m.Delete?) && m.id == id;
      var i :| 0 <= i < |plan| && plan[i] == m;
      assert actions[i] in actions;
      assert pre.GetResource(id).value in items;
    }
  }
}
