/** What the writable-field check buys: every id keeps addressing the resource it was planned against. */
module IdentityProofs {
  import opened Wrappers
  import opened ResourceKinds
  import opened StagedPlans
  import opened Worlds
  import opened WritableFieldChecks

  /** Every stored body carries the id it is stored under. */
  ghost predicate Identified(w: World) {
    forall id :: id in w.store ==> w.store[id].body.GetStr("_id") == Some(id)
  }

  lemma NoKindWritesIdentity(kind: ResourceKind)
    ensures WritableFields(kind).Some? ==> "_id" !in WritableFields(kind).value
    ensures kind == FirewallZone ==>
              "source" !in WritableFields(kind).value && "destination" !in WritableFields(kind).value
  {
  }

  /**
  An accepted update keeps identity exactly when the surface merges, the body leaves `_id` alone, or it
  repeats the resource's own. A Private v1 body is stored as sent, so any other `_id` would stick.
  */
  lemma UpdateKeepsIdentityIff(cfg: Config, w: World, m: Mutation)
    requires w.Valid() && Identified(w) && m.Update? && ApplyEffect(cfg, w, m).Some?
    ensures Identified(ApplyEffect(cfg, w, m).value.0)
            <==> (MergesPartially(m.kind) || m.body.Get("_id").None? || m.body.GetStr("_id") == Some(m.id))
  {
    UpdateInverts(cfg, w, m);
    var next := ApplyEffect(cfg, w, m).value.0;
    assert next.store[m.id].body == Written(w, m);
    assert Written(w, m).GetStr("_id") == Some(m.id)
           <==> (MergesPartially(m.kind) || m.body.Get("_id").None? || m.body.GetStr("_id") == Some(m.id));
    assert forall id :: id in next.store && id != m.id ==> next.store[id] == w.store[id];
  }

  lemma AcceptedStepKeepsIdentity(cfg: Config, w: World, m: Mutation)
    requires cfg.MintsFresh() && w.Valid() && Identified(w) && Writable(m) && ApplyEffect(cfg, w, m).Some?
    ensures Identified(ApplyEffect(cfg, w, m).value.0)
    ensures WritableFields(ParseKind(m.kind).value).Some?
    ensures forall id :: id in w.known && id in ApplyEffect(cfg, w, m).value.0.store ==>
              id in w.store && ApplyEffect(cfg, w, m).value.0.store[id].kind == w.store[id].kind
  {
    NoKindWritesIdentity(ParseKind(m.kind).value);
    match m {
      case Create(_, _) => CreateInverts(cfg, w, m);
      case Update(_, _, _) =>
        UpdateInverts(cfg, w, m);
        UpdateKeepsIdentityIff(cfg, w, m);
      case Delete(_, _) => DeleteInverts(cfg, w, m);
    }
  }

  /**
  Identity is stable over a run: after any prefix of an accepted plan every body still carries its own id,
  and an id that was ever in use either keeps its kind or is gone for good. So drift detection, the merge
  and rollback, which all look resources up by id, keep addressing the resource they were planned against.
  */
  lemma {:induction false} AcceptedRunKeepsIdentity(cfg: Config, w: World, plan: seq<Mutation>)
    requires cfg.MintsFresh() && w.Valid() && Identified(w)
    requires (forall m :: m in plan ==> Writable(m)) && Run(cfg, w, plan).Some?
    ensures Identified(Run(cfg, w, plan).value.world)
    ensures forall id :: id in w.known && id in Run(cfg, w, plan).value.world.store ==>
              id in w.store && Run(cfg, w, plan).value.world.store[id].kind == w.store[id].kind
  {
    if plan != [] {
      var last := |plan| - 1;
      assert plan[last] in plan;
      AcceptedRunKeepsIdentity(cfg, w, plan[..last]);
      RunKeepsValid(cfg, w, plan[..last]);
      AcceptedStepKeepsIdentity(cfg, Run(cfg, w, plan[..last]).value.world, plan[last]);
    }
  }
}
