/** What a run of a plan leaves stored: which ids, under which kinds, and what their bodies name. */
module Footprints {
  import opened Wrappers
  import opened JsonValues
  import opened ResourceKinds
  import opened StagedPlans
  import opened Worlds

  function Deleted(plan: seq<Mutation>): set<string> {
    set m | m in plan && m.Delete? :: m.id
  }

  predicate NoChosenIds(plan: seq<Mutation>) {
    forall m :: m in plan && m.Create? ==> m.body.Get("_id").None?
  }

  predicate Holds(w: World, id: string, kind: string) {
    id in w.store && ParseKind(kind) == Some(w.store[id].kind)
  }

  lemma DeletedGrows(plan: seq<Mutation>)
    requires plan != []
    ensures Deleted(plan) == Deleted(plan[..|plan| - 1])
                             + (if plan[|plan| - 1].Delete? then {plan[|plan| - 1].id} else {})
  {
    assert plan == plan[..|plan| - 1] + [plan[|plan| - 1]];
  }

  /**
  What the original resources have become when the deletes of `plan` stand: the deleted ones are gone, those in
  `must` and not deleted are there, and none has changed its kind.
  */
  ghost predicate Kept(original: World, plan: seq<Mutation>, must: set<string>, w: World) {
    forall id :: id in original.store ==>
      && (id in w.store ==> w.store[id].kind == original.store[id].kind)
      && (id in Deleted(plan) ==> id !in w.store)
      && (id in must && id !in Deleted(plan) ==> id in w.store)
  }

  /** Every create of `plan` stands under an id of its own that the controller had never used. */
  ghost predicate Made(original: World, plan: seq<Mutation>, ids: seq<Option<string>>, w: World)
    requires |ids| == |plan|
  {
    && w.Valid() && original.known <= w.known
    && (forall i :: 0 <= i < |plan| ==> (plan[i].Create? <==> ids[i].Some?))
    && (forall i :: 0 <= i < |plan| && ids[i].Some? ==>
          Holds(w, ids[i].value, plan[i].kind) && ids[i].value !in original.known)
    && (forall i, j :: 0 <= i < j < |plan| && ids[i].Some? && ids[j].Some? ==> ids[i].value != ids[j].value)
  }

  lemma AddressedIsKnown(original: World, pre: Preimage, plan: seq<Mutation>, m: Mutation)
    requires original.Valid() && GateHolds(original, pre, plan) && m in plan && (m.Update? || m.Delete?)
    ensures m.id in original.known && m.id in original.store && Holds(original, m.id, m.kind)
    ensures Prior(pre, m) == Some(original.store[m.id].body) && original.store[m.id].body.GetStr("_id") == Some(m.id)
  {
    GateGives(original, pre, plan, m);
  }

  lemma StepKept(cfg: Config, pre: Preimage, original: World, plan: seq<Mutation>, before: Progress)
    requires cfg.MintsFresh() && original.Valid() && plan != [] && NoChosenIds(plan) && GateHolds(original, pre, plan)
    requires Run(cfg, original, plan[..|plan| - 1]) == Some(before)
    requires Kept(original, plan[..|plan| - 1], original.store.Keys, before.world)
    requires Made(original, plan[..|plan| - 1], before.ids, before.world)
    requires ApplyEffect(cfg, before.world, plan[|plan| - 1]).Some?
    ensures var (next, id) := ApplyEffect(cfg, before.world, plan[|plan| - 1]).value;
            && Kept(original, plan, original.store.Keys, next) && Made(original, plan, before.ids + [id], next)
  {
    hide ParseKind, Run, Deleted;
    var m := plan[|plan| - 1];
    assert m in plan;
    DeletedGrows(plan);
    match m {
      case Create(_, _) => CreateInverts(cfg, before.world, m);
      case Update(_, _, _) => UpdateInverts(cfg, before.world, m);
      case Delete(_, _) =>
        DeleteInverts(cfg, before.world, m);
        AddressedIsKnown(original, pre, plan, m);
    }
  }

  lemma {:induction false} RunKept(cfg: Config, pre: Preimage, original: World, plan: seq<Mutation>)
    requires cfg.MintsFresh() && original.Valid() && NoChosenIds(plan) && GateHolds(original, pre, plan)
    requires Run(cfg, original, plan).Some?
    ensures Kept(original, plan, original.store.Keys, Run(cfg, original, plan).value.world)
    ensures Made(original, plan, Run(cfg, original, plan).value.ids, Run(cfg, original, plan).value.world)
  {
    if plan == [] {
      NothingKept(original);
    } else {
      hide Kept, Made, ApplyEffect;
      var init := plan[..|plan| - 1];
      assert forall m :: m in init ==> m in plan;
      RunKept(cfg, pre, original, init);
      StepKept(cfg, pre, original, plan, Run(cfg, original, init).value);
    }
  }

  lemma NothingKept(original: World)
    requires original.Valid()
    ensures Kept(original, [], original.store.Keys, original) && Made(original, [], [], original)
  {
  }

  /** What a run updates or deletes, it had not deleted before. */
  lemma LastNotDeletedBefore(cfg: Config, pre: Preimage, original: World, plan: seq<Mutation>)
    requires cfg.MintsFresh() && original.Valid() && NoChosenIds(plan) && GateHolds(original, pre, plan)
    requires plan != [] && Run(cfg, original, plan).Some?
    ensures var m := plan[|plan| - 1];
            m.Update? || m.Delete? ==> m.id !in Deleted(plan[..|plan| - 1])
  {
    var init := plan[..|plan| - 1];
    var m := plan[|plan| - 1];
    assert m in plan && forall n :: n in init ==> n in plan;
    RunKept(cfg, pre, original, init);
    var before := Run(cfg, original, init).value.world;
    if m.Update? {
      UpdateInverts(cfg, before, m);
      AddressedIsKnown(original, pre, plan, m);
    } else if m.Delete? {
      DeleteInverts(cfg, before, m);
      AddressedIsKnown(original, pre, plan, m);
    }
  }

  /** A resource no mutation of a run addresses is as it was. */
  lemma {:induction false} RunLeaves(cfg: Config, w: World, plan: seq<Mutation>, id: string)
    requires cfg.MintsFresh() && w.Valid() && Run(cfg, w, plan).Some? && id in w.store && id !in Addressed(plan)
    ensures Run(cfg, w, plan).value.world.At(id) == w.At(id)
  {
    if plan != [] {
      var last := |plan| - 1;
      assert plan[last] in plan && Addressed(plan[..last]) <= Addressed(plan);
      RunLeaves(cfg, w, plan[..last], id);
      RunKeepsValid(cfg, w, plan[..last]);
      StepLeaves(cfg, Run(cfg, w, plan[..last]).value.world, plan[last], id);
    }
  }

  lemma StepLeaves(cfg: Config, w: World, m: Mutation, id: string)
    requires cfg.MintsFresh() && w.Valid() && ApplyEffect(cfg, w, m).Some? && id in w.store
    requires !((m.Update? || m.Delete?) && m.id == id)
    ensures ApplyEffect(cfg, w, m).value.0.At(id) == w.At(id)
  {
  }

  /** No update or delete of the plan names this id. */
  predicate Unaddressed(plan: seq<Mutation>, id: string) {
    forall m :: m in plan && (m.Update? || m.Delete?) ==> m.id != id
  }

  lemma AddressedIsNamed(plan: seq<Mutation>, id: string)
    ensures id !in Addressed(plan) <==> Unaddressed(plan, id)
  {
  }

  /** Every resource the plan does not address is as it was. */
  ghost predicate Untouched(plan: seq<Mutation>, before: World, after: World) {
    forall id :: id in before.store && Unaddressed(plan, id) ==>
      id in after.store && after.store[id] == before.store[id]
  }

  /** No run creates under the id of a resource it leaves alone. */
  lemma {:induction false} RunCreatesElsewhere(cfg: Config, w: World, plan: seq<Mutation>, id: string)
    requires cfg.MintsFresh() && w.Valid() && Run(cfg, w, plan).Some? && id in w.store && id !in Addressed(plan)
    ensures Some(id) !in Run(cfg, w, plan).value.ids
  {
    if plan != [] {
      var last := |plan| - 1;
      var m := plan[last];
      assert m in plan && Addressed(plan[..last]) <= Addressed(plan);
      RunCreatesElsewhere(cfg, w, plan[..last], id);
      RunLeaves(cfg, w, plan[..last], id);
      RunKeepsValid(cfg, w, plan[..last]);
      CreatesAnew(cfg, Run(cfg, w, plan[..last]).value.world, m);
    }
  }

  lemma CreatesAnew(cfg: Config, w: World, m: Mutation)
    requires cfg.MintsFresh() && w.Valid() && ApplyEffect(cfg, w, m).Some?
    ensures ApplyEffect(cfg, w, m).value.1.Some? ==> ApplyEffect(cfg, w, m).value.1.value !in w.store
  {
  }

  lemma RunUntouched(cfg: Config, w: World, plan: seq<Mutation>)
    requires cfg.MintsFresh() && w.Valid() && Run(cfg, w, plan).Some?
    ensures Untouched(plan, w, Run(cfg, w, plan).value.world)
    ensures forall id :: id in w.store && Unaddressed(plan, id) ==> Some(id) !in Run(cfg, w, plan).value.ids
  {
    hide Run, Addressed, Unaddressed;
    forall id | id in w.store && Unaddressed(plan, id)
      ensures Run(cfg, w, plan).value.world.At(id) == w.At(id) && Some(id) !in Run(cfg, w, plan).value.ids
    {
      AddressedIsNamed(plan, id);
      RunLeaves(cfg, w, plan, id);
      RunCreatesElsewhere(cfg, w, plan, id);
    }
  }

  /** A rollback leaves alone what its mutations neither address nor created. */
  ghost predicate Spares(landed: seq<Mutation>, ids: seq<Option<string>>, before: World, after: World) {
    forall id :: id in before.store && id !in Addressed(landed) && Some(id) !in ids ==> after.At(id) == before.At(id)
  }

  lemma UndoStepSpares(cfg: Config, landed: seq<Mutation>, ids: seq<Option<string>>, before: World, now: World,
                       m: Mutation, prior: Option<Json>, created: Option<string>)
    requires cfg.MintsFresh() && now.Valid() && m in landed && (created.Some? ==> created in ids)
    requires Spares(landed, ids, before, now) && UndoEffect(cfg, now, m, prior, created).Some?
    ensures Spares(landed, ids, before, UndoEffect(cfg, now, m, prior, created).value)
  {
    hide ParseKind, Names;
    forall id | id in before.store && id !in Addressed(landed) && Some(id) !in ids
      ensures UndoEffect(cfg, now, m, prior, created).value.At(id) == before.At(id)
    {
      assert now.At(id) == before.At(id);
    }
  }

  lemma UntouchedAfterRollback(cfg: Config, landed: seq<Mutation>, start: World, at: Progress, after: World)
    requires cfg.MintsFresh() && start.Valid() && Run(cfg, start, landed) == Some(at)
    requires Spares(landed, at.ids, at.world, after)
    ensures Untouched(landed, start, after)
  {
    RunUntouched(cfg, start, landed);
    hide Run, Addressed, Unaddressed;
    forall id | id in start.store && Unaddressed(landed, id)
      ensures after.At(id) == start.At(id)
    {
      AddressedIsNamed(landed, id);
      assert at.world.At(id) == start.At(id);
    }
  }

  // ---- References ----

  /** Every zone a stored body names is stored. */
  ghost predicate Intact(w: World) {
    forall id :: id in w.store ==> AllZones(w, Names(w.store[id].body))
  }

  /** A body a guarding controller took names zones it has. */
  lemma TakenNamesZones(cfg: Config, w: World, m: Mutation)
    requires cfg.guardsZones && ApplyEffect(cfg, w, m).Some?
    ensures m.Create? ==> AllZones(w, Names(m.body))
    ensures m.Update? ==> m.id in w.store && AllZones(w, Names(Written(w, m)))
    ensures m.Delete? ==> m.id in w.store && (w.HasZone(m.id) ==> !w.InUse(m.id))
  {
    hide ParseKind;
    if m.Update? {
      UpdateInverts(cfg, w, m);
      IdNamesNothing(m.id, m.body);
      IdNamesNothing(m.id, Overlaid(w.store[m.id].body, m.body));
    }
  }

  /** Storing a body that names stored zones, under a new id or an old one of the same kind. */
  lemma StoringKeepsIntact(w: World, id: string, r: Resource, known: set<string>)
    requires Intact(w) && AllZones(w, Names(r.body)) && (id in w.store ==> r.kind == w.store[id].kind)
    ensures Intact(World(w.store[id := r], known))
  {
    hide Names;
    var next := World(w.store[id := r], known);
    forall other, z | other in next.store && z in Names(next.store[other].body)
      ensures next.HasZone(z)
    {
      assert other != id ==> AllZones(w, Names(w.store[other].body));
      assert w.HasZone(z);
    }
  }

  lemma RemovingKeepsIntact(w: World, id: string)
    requires Intact(w) && id in w.store && (w.HasZone(id) ==> !w.InUse(id))
    ensures Intact(World(w.store - {id}, w.known))
  {
    hide Names;
    var next := World(w.store - {id}, w.known);
    forall other, z | other in next.store && z in Names(next.store[other].body)
      ensures next.HasZone(z)
    {
      assert AllZones(w, Names(w.store[other].body));
      assert w.HasZone(z);
    }
  }

  lemma StepKeepsIntact(cfg: Config, w: World, m: Mutation)
    requires cfg.MintsFresh() && cfg.guardsZones && w.Valid() && Intact(w) && ApplyEffect(cfg, w, m).Some?
    ensures Intact(ApplyEffect(cfg, w, m).value.0)
  {
    TakenNamesZones(cfg, w, m);
    hide Intact, Names, ParseKind, Written;
    match m {
      case Create(kind, body) =>
        CreateInverts(cfg, w, m);
        var id := ApplyEffect(cfg, w, m).value.1.value;
        IdNamesNothing(id, body);
        StoringKeepsIntact(w, id, Resource(ParseKind(kind).value, Assigned(id, body)), w.known + {id});
      case Update(_, id, _) =>
        UpdateInverts(cfg, w, m);
        StoringKeepsIntact(w, id, Resource(w.store[id].kind, Written(w, m)), w.known);
      case Delete(_, id) =>
        DeleteInverts(cfg, w, m);
        RemovingKeepsIntact(w, id);
    }
  }

  lemma {:induction false} RunKeepsIntact(cfg: Config, w: World, plan: seq<Mutation>)
    requires cfg.MintsFresh() && cfg.guardsZones && w.Valid() && Intact(w) && Run(cfg, w, plan).Some?
    ensures Intact(Run(cfg, w, plan).value.world)
  {
    if plan != [] {
      RunKeepsIntact(cfg, w, plan[..|plan| - 1]);
      RunKeepsValid(cfg, w, plan[..|plan| - 1]);
      StepKeepsIntact(cfg, Run(cfg, w, plan[..|plan| - 1]).value.world, plan[|plan| - 1]);
    }
  }
}
