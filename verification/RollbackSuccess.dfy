/** When a rollback goes through at all, and so when it gives the store back. */
module RollbackSuccess {
  import opened Wrappers
  import opened JsonValues
  import opened ResourceKinds
  import opened StagedPlans
  import opened Worlds
  import opened Footprints
  import opened RollbackProofs

  // ---- The condition ----

  /** Some resource is updated and later deleted by the same plan. */
  predicate UpdatedThenDeleted(plan: seq<Mutation>) {
    exists i, j :: 0 <= i < j < |plan| && plan[i].Update? && plan[j].Delete? && plan[j].id == plan[i].id
  }

  /** Undoing this mutation puts a recorded body back. */
  predicate PutsBack(m: Mutation) {
    m.Update? || m.Delete?
  }

  /**
  Some body to be put back names a zone the plan deleted: at or before that mutation, or anywhere in the plan
  when a deleted zone never comes back under its own id.
  */
  predicate Crosses(cfg: Config, original: World, plan: seq<Mutation>) {
    exists i, j :: 0 <= i < |plan| && 0 <= j < |plan| && PutsBack(plan[i]) && plan[j].Delete?
                   && plan[j].id in NamesIn(original, plan[i].id) && (cfg.reinstates ==> j <= i)
  }

  predicate Stuck(cfg: Config, original: World, plan: seq<Mutation>) {
    (!cfg.reinstates && UpdatedThenDeleted(plan)) || (cfg.guardsZones && Crosses(cfg, original, plan))
  }

  // ---- One undo ----

  /** What an accepted undo leaves: a created resource gone, or the original one written back. */
  lemma UndoShape(cfg: Config, pre: Preimage, original: World, plan: seq<Mutation>, m: Mutation, now: World,
                  created: Option<string>)
    requires cfg.MintsFresh() && original.Valid() && now.Valid() && GateHolds(original, pre, plan) && m in plan
    requires UndoEffect(cfg, now, m, Prior(pre, m), created).Some?
    ensures var next := UndoEffect(cfg, now, m, Prior(pre, m), created).value;
            && !m.Restore?
            && (m.Create? ==> created.Some? && next == World(now.store - {created.value}, now.known))
            && (PutsBack(m) ==> m.id in original.store
                                && (cfg.guardsZones ==> AllZones(now, Names(original.store[m.id].body))))
            && (m.Update? ==> m.id in now.store && next == World(now.store[m.id := original.store[m.id]], now.known))
            && (m.Delete? ==>
                  var r := original.store[m.id];
                  var id := NewId(cfg, now, r.body);
                  && next == World(now.store[id := Resource(r.kind, Assigned(id, r.body))], now.known + {id})
                  && id !in now.store && (id == m.id || id !in now.known)
                  && (cfg.reinstates && m.id !in now.store ==> id == m.id)
                  && (!cfg.reinstates ==> id !in now.known))
  {
    hide ParseKind, Names;
    if PutsBack(m) {
      AddressedIsKnown(original, pre, plan, m);
    }
  }

  /** What it takes for an undo to be accepted. */
  lemma UndoTaken(cfg: Config, pre: Preimage, original: World, plan: seq<Mutation>, m: Mutation, now: World,
                  created: Option<string>)
    requires original.Valid() && GateHolds(original, pre, plan) && m in plan && !m.Restore?
    requires m.Create? ==> created.Some? && Holds(now, created.value, m.kind)
                           && (cfg.guardsZones ==> !now.InUse(created.value))
    requires m.Update? ==> Holds(now, m.id, m.kind)
    requires PutsBack(m) && cfg.guardsZones ==> AllZones(now, NamesIn(original, m.id))
    ensures UndoEffect(cfg, now, m, Prior(pre, m), created).Some?
  {
    hide ParseKind, Names;
    if PutsBack(m) {
      AddressedIsKnown(original, pre, plan, m);
    }
  }

  lemma UndoneKept(cfg: Config, pre: Preimage, original: World, plan: seq<Mutation>, ids: seq<Option<string>>,
                   must: set<string>, now: World)
    requires cfg.MintsFresh() && original.Valid() && |ids| == |plan| > 0 && GateHolds(original, pre, plan)
    requires Kept(original, plan, must, now) && Made(original, plan, ids, now)
    requires var m := plan[|plan| - 1];
             && UndoEffect(cfg, now, m, Prior(pre, m), ids[|plan| - 1]).Some?
             && (PutsBack(m) ==> m.id !in Deleted(plan[..|plan| - 1]))
             && (m.Delete? ==> cfg.reinstates || m.id !in must)
    ensures Kept(original, plan[..|plan| - 1], must,
                 UndoEffect(cfg, now, plan[|plan| - 1], Prior(pre, plan[|plan| - 1]), ids[|plan| - 1]).value)
  {
    var m := plan[|plan| - 1];
    assert m in plan;
    UndoShape(cfg, pre, original, plan, m, now, ids[|plan| - 1]);
    DeletedGrows(plan);
    hide UndoEffect, Deleted, ParseKind, NewId, Names, Holds, GateHolds, Prior;
  }

  lemma UndoneMade(cfg: Config, pre: Preimage, original: World, plan: seq<Mutation>, ids: seq<Option<string>>,
                   now: World)
    requires cfg.MintsFresh() && original.Valid() && |ids| == |plan| > 0 && GateHolds(original, pre, plan)
    requires Made(original, plan, ids, now)
    requires UndoEffect(cfg, now, plan[|plan| - 1], Prior(pre, plan[|plan| - 1]), ids[|plan| - 1]).Some?
    ensures Made(original, plan[..|plan| - 1], ids[..|plan| - 1],
                 UndoEffect(cfg, now, plan[|plan| - 1], Prior(pre, plan[|plan| - 1]), ids[|plan| - 1]).value)
  {
    var m := plan[|plan| - 1];
    assert m in plan;
    UndoShape(cfg, pre, original, plan, m, now, ids[|plan| - 1]);
    hide UndoEffect, ParseKind, NewId, Names, GateHolds, Prior;
  }

  /** Every stored body is the prefix's own or names zones there were at the start. */
  ghost predicate Clean(original: World, prefix: World, now: World) {
    forall id :: id in now.store ==>
      (id in prefix.store && prefix.store[id] == now.store[id]) || AllZones(original, Names(now.store[id].body))
  }

  lemma UndoneClean(cfg: Config, pre: Preimage, original: World, plan: seq<Mutation>, before: World, m: Mutation,
                    now: World)
    requires cfg.MintsFresh() && original.Valid() && Intact(original) && before.Valid() && now.Valid()
    requires GateHolds(original, pre, plan) && m in plan && ApplyEffect(cfg, before, m).Some?
    requires Clean(original, ApplyEffect(cfg, before, m).value.0, now)
    requires UndoEffect(cfg, now, m, Prior(pre, m), ApplyEffect(cfg, before, m).value.1).Some?
    ensures Clean(original, before, UndoEffect(cfg, now, m, Prior(pre, m), ApplyEffect(cfg, before, m).value.1).value)
  {
    hide ParseKind, Names, Written;
    UndoShape(cfg, pre, original, plan, m, now, ApplyEffect(cfg, before, m).value.1);
    match m {
      case Create(_, _) => CreateInverts(cfg, before, m);
      case Update(_, _, _) => UpdateInverts(cfg, before, m);
      case Delete(_, id) =>
        DeleteInverts(cfg, before, m);
        IdNamesNothing(NewId(cfg, now, original.store[id].body), original.store[id].body);
    }
    hide UndoEffect, ApplyEffect, NewId;
  }

  /** A zone the plan created can be removed again: nothing that still stands names it. */
  lemma CreatedIsUnused(cfg: Config, original: World, before: World, m: Mutation, now: World)
    requires cfg.MintsFresh() && cfg.guardsZones && before.Valid() && original.Valid() && original.known <= before.known
    requires m.Create? && m.body.Get("_id").None? && ApplyEffect(cfg, before, m).Some? && Intact(before)
    requires Clean(original, ApplyEffect(cfg, before, m).value.0, now)
    ensures !now.InUse(ApplyEffect(cfg, before, m).value.1.value)
  {
    hide ParseKind, Names;
    CreateInverts(cfg, before, m);
    var c := ApplyEffect(cfg, before, m).value.1.value;
    hide ApplyEffect;
    forall id | id in now.store && id != c
      ensures c !in Names(now.store[id].body)
    {
      assert id in before.store && before.store[id] == now.store[id] ==> AllZones(before, Names(now.store[id].body));
    }
  }

  // ---- A replay that goes through ----

  /** Every zone this mutation's recorded body names must stand and is not deleted by then. */
  ghost predicate NamesStand(original: World, plan: seq<Mutation>, must: set<string>, i: nat)
    requires i < |plan|
  {
    PutsBack(plan[i]) ==>
      forall z :: z in NamesIn(original, plan[i].id) ==> z in must && z !in Deleted(plan[..i + 1])
  }

  /** What the mutations still to be undone will find. */
  ghost predicate Ready(cfg: Config, original: World, plan: seq<Mutation>, must: set<string>) {
    && (forall m :: m in plan && m.Update? ==> m.id in must)
    && (forall m :: m in plan && m.Delete? ==> cfg.reinstates || m.id !in must)
    && (cfg.guardsZones ==> forall i :: 0 <= i < |plan| ==> NamesStand(original, plan, must, i))
  }

  lemma ReadyShorter(cfg: Config, original: World, plan: seq<Mutation>, must: set<string>)
    requires plan != [] && Ready(cfg, original, plan, must)
    ensures Ready(cfg, original, plan[..|plan| - 1], must)
  {
    hide NamesIn, Deleted;
    var init := plan[..|plan| - 1];
    assert forall m :: m in init ==> m in plan;
    forall i | cfg.guardsZones && 0 <= i < |init|
      ensures NamesStand(original, init, must, i)
    {
      assert NamesStand(original, plan, must, i);
      assert init[i] == plan[i] && init[..i + 1] == plan[..i + 1];
    }
  }

  /** The next undo of a ready replay is accepted. */
  lemma UndoGoes(cfg: Config, pre: Preimage, original: World, plan: seq<Mutation>, before: World, must: set<string>,
                 now: World, created: Option<string>)
    requires cfg.MintsFresh() && original.Valid() && before.Valid() && original.known <= before.known
    requires plan != [] && NoChosenIds(plan) && GateHolds(original, pre, plan)
    requires cfg.guardsZones ==> Intact(original) && Intact(before)
    requires var m := plan[|plan| - 1];
             && ApplyEffect(cfg, before, m).Some? && created == ApplyEffect(cfg, before, m).value.1
             && (cfg.guardsZones ==> Clean(original, ApplyEffect(cfg, before, m).value.0, now))
             && (m.Create? ==> created.Some? && Holds(now, created.value, m.kind))
             && (PutsBack(m) ==> m.id !in Deleted(plan[..|plan| - 1]))
    requires Ready(cfg, original, plan, must) && Kept(original, plan, must, now)
    ensures UndoEffect(cfg, now, plan[|plan| - 1], Prior(pre, plan[|plan| - 1]), created).Some?
  {
    var last := |plan| - 1;
    var m := plan[last];
    assert m in plan && !m.Restore?;
    hide UndoEffect, ParseKind, Names, GateHolds;
    if m.Create? {
      if cfg.guardsZones {
        CreatedIsUnused(cfg, original, before, m, now);
      }
    } else {
      AddressedIsKnown(original, pre, plan, m);
      DeletedGrows(plan);
      assert plan[..last + 1] == plan;
      if cfg.guardsZones {
        NamedIsStillStored(cfg, original, plan, must, now);
      }
    }
    hide ApplyEffect, Ready, Kept, Clean, Intact, Deleted;
    UndoTaken(cfg, pre, original, plan, m, now, created);
  }

  lemma NamedIsStillStored(cfg: Config, original: World, plan: seq<Mutation>, must: set<string>, now: World)
    requires cfg.guardsZones && Intact(original) && plan != [] && PutsBack(plan[|plan| - 1])
    requires Ready(cfg, original, plan, must) && Kept(original, plan, must, now)
    ensures AllZones(now, NamesIn(original, plan[|plan| - 1].id))
  {
    hide Names, Deleted;
    var last := |plan| - 1;
    assert NamesStand(original, plan, must, last) && plan[..last + 1] == plan;
    forall z | z in NamesIn(original, plan[last].id)
      ensures now.HasZone(z)
    {
      assert original.HasZone(z);
    }
  }

  /** What a run of a plan says of the plan without its last mutation. */
  lemma OneShorter(cfg: Config, pre: Preimage, original: World, plan: seq<Mutation>)
    requires cfg.MintsFresh() && original.Valid() && plan != [] && Run(cfg, original, plan).Some?
    requires NoChosenIds(plan) && GateHolds(original, pre, plan)
    ensures var init := plan[..|plan| - 1];
            && NoChosenIds(init) && GateHolds(original, pre, init) && Run(cfg, original, init).Some?
            && Run(cfg, original, init).value.world.Valid()
            && original.known <= Run(cfg, original, init).value.world.known
            && (cfg.guardsZones && Intact(original) ==> Intact(Run(cfg, original, init).value.world))
            && (PutsBack(plan[|plan| - 1]) ==> plan[|plan| - 1].id !in Deleted(init))
  {
    var init := plan[..|plan| - 1];
    assert forall m :: m in init ==> m in plan;
    RunKeepsValid(cfg, original, init);
    LastNotDeletedBefore(cfg, pre, original, plan);
    if cfg.guardsZones && Intact(original) {
      RunKeepsIntact(cfg, original, init);
    }
  }

  lemma {:induction false} ReplayGoesThrough(cfg: Config, pre: Preimage, original: World, plan: seq<Mutation>,
                                             must: set<string>, now: World)
    requires cfg.MintsFresh() && original.Valid() && (cfg.guardsZones ==> Intact(original))
    requires NoChosenIds(plan) && GateHolds(original, pre, plan) && Run(cfg, original, plan).Some?
    requires Kept(original, plan, must, now) && Made(original, plan, Run(cfg, original, plan).value.ids, now)
    requires cfg.guardsZones ==> Clean(original, Run(cfg, original, plan).value.world, now)
    requires Ready(cfg, original, plan, must)
    ensures Undo(cfg, pre, plan, Run(cfg, original, plan).value.ids, now).Some?
  {
    if plan != [] {
      var last := |plan| - 1;
      var m := plan[last];
      var before := Run(cfg, original, plan[..last]).value;
      var ids := Run(cfg, original, plan).value.ids;
      assert m in plan && ids[..last] == before.ids;
      OneShorter(cfg, pre, original, plan);
      ReadyShorter(cfg, original, plan, must);
      hide ApplyEffect, UndoEffect, GateHolds, Intact, Holds, Deleted, NoChosenIds, Clean, Kept;
      UndoGoes(cfg, pre, original, plan, before.world, must, now, ids[last]);
      UndoneKept(cfg, pre, original, plan, ids, must, now);
      UndoneMade(cfg, pre, original, plan, ids, now);
      if cfg.guardsZones {
        UndoneClean(cfg, pre, original, plan, before.world, m, now);
      }
      hide Ready, Made;
      ReplayGoesThrough(cfg, pre, original, plan[..last], must,
                        UndoEffect(cfg, now, m, Prior(pre, m), ids[last]).value);
    }
  }

  // ---- A replay that does not ----

  lemma UndoStepKeepsLost(cfg: Config, w: World, m: Mutation, prior: Option<Json>, created: Option<string>, id: string)
    requires cfg.MintsFresh() && !cfg.reinstates && Lost(w, id) && UndoEffect(cfg, w, m, prior, created).Some?
    ensures Lost(UndoEffect(cfg, w, m, prior, created).value, id)
    ensures !(m.Update? && m.id == id)
    ensures cfg.guardsZones && PutsBack(m) && prior.Some? ==> id !in Names(prior.value)
  {
  }

  /** A resource lost for good cannot be put back, nor can a body that names it: the replay that gets there fails. */
  lemma {:induction false} LostStops(cfg: Config, pre: Preimage, plan: seq<Mutation>, ids: seq<Option<string>>,
                                     w: World, id: string)
    requires cfg.MintsFresh() && !cfg.reinstates && |ids| == |plan| && Lost(w, id)
    requires exists m :: m in plan && PutsBack(m) &&
               ((m.Update? && m.id == id)
                || (cfg.guardsZones && Prior(pre, m).Some? && id in Names(Prior(pre, m).value)))
    ensures Undo(cfg, pre, plan, ids, w).None?
  {
    hide UndoEffect, Prior, Names, Lost;
    var last := |plan| - 1;
    var step := UndoEffect(cfg, w, plan[last], Prior(pre, plan[last]), ids[last]);
    if step.Some? {
      UndoStepKeepsLost(cfg, w, plan[last], Prior(pre, plan[last]), ids[last], id);
      assert plan == plan[..last] + [plan[last]];
      LostStops(cfg, pre, plan[..last], ids[..last], step.value, id);
    }
  }

  lemma CrossedIsRefused(cfg: Config, pre: Preimage, original: World, plan: seq<Mutation>, z: string, now: World,
                         created: Option<string>)
    requires cfg.MintsFresh() && original.Valid() && cfg.guardsZones && Intact(original) && now.Valid()
    requires plan != [] && GateHolds(original, pre, plan) && Kept(original, plan, {}, now)
    requires PutsBack(plan[|plan| - 1]) && z in NamesIn(original, plan[|plan| - 1].id) && z in Deleted(plan)
    ensures UndoEffect(cfg, now, plan[|plan| - 1], Prior(pre, plan[|plan| - 1]), created).None?
  {
    var m := plan[|plan| - 1];
    assert m in plan && original.HasZone(z) && !now.HasZone(z);
    hide UndoEffect, GateHolds, Deleted, Names, Intact, Kept;
    if UndoEffect(cfg, now, m, Prior(pre, m), created).Some? {
      UndoShape(cfg, pre, original, plan, m, now, created);
    }
  }

  /** A body that names a zone still deleted is refused when its turn comes. */
  lemma {:induction false} CrossingStops(cfg: Config, pre: Preimage, original: World, plan: seq<Mutation>, at: Progress,
                                         i: nat, z: string, now: World)
    requires cfg.MintsFresh() && original.Valid() && cfg.guardsZones && cfg.reinstates && Intact(original)
    requires NoChosenIds(plan) && GateHolds(original, pre, plan) && Run(cfg, original, plan) == Some(at)
    requires Kept(original, plan, {}, now) && Made(original, plan, at.ids, now)
    requires i < |plan| && PutsBack(plan[i]) && z in NamesIn(original, plan[i].id) && z in Deleted(plan[..i + 1])
    ensures Undo(cfg, pre, plan, at.ids, now).None?
  {
    hide ApplyEffect, UndoEffect, GateHolds, Intact, Deleted, NoChosenIds, NamesIn, Kept, PutsBack, Prior;
    var last := |plan| - 1;
    var m := plan[last];
    if i == last {
      assert plan[..|plan|] == plan;
      CrossedIsRefused(cfg, pre, original, plan, z, now, at.ids[last]);
    } else if UndoEffect(cfg, now, m, Prior(pre, m), at.ids[last]).Some? {
      var next := UndoEffect(cfg, now, m, Prior(pre, m), at.ids[last]).value;
      UndoneShorter(cfg, pre, original, plan, at, now);
      assert plan[..last][..i + 1] == plan[..i + 1];
      hide Made;
      CrossingStops(cfg, pre, original, plan[..last], Run(cfg, original, plan[..last]).value, i, z, next);
    }
  }

  /** One accepted undo leaves what the shorter plan asks. */
  lemma UndoneShorter(cfg: Config, pre: Preimage, original: World, plan: seq<Mutation>, at: Progress, now: World)
    requires cfg.MintsFresh() && original.Valid() && cfg.reinstates && plan != [] && NoChosenIds(plan)
    requires GateHolds(original, pre, plan) && Run(cfg, original, plan) == Some(at)
    requires Kept(original, plan, {}, now) && Made(original, plan, at.ids, now)
    requires UndoEffect(cfg, now, plan[|plan| - 1], Prior(pre, plan[|plan| - 1]), at.ids[|plan| - 1]).Some?
    ensures var last := |plan| - 1;
            var next := UndoEffect(cfg, now, plan[last], Prior(pre, plan[last]), at.ids[last]).value;
            && NoChosenIds(plan[..last]) && GateHolds(original, pre, plan[..last])
            && Run(cfg, original, plan[..last]).Some? && Run(cfg, original, plan[..last]).value.ids == at.ids[..last]
            && Kept(original, plan[..last], {}, next) && Made(original, plan[..last], at.ids[..last], next)
  {
    hide ApplyEffect, UndoEffect, GateHolds, Intact, Deleted, NoChosenIds, Kept, Made, Prior;
    OneShorter(cfg, pre, original, plan);
    UndoneKept(cfg, pre, original, plan, at.ids, {}, now);
    UndoneMade(cfg, pre, original, plan, at.ids, now);
    assert at.ids[..|plan| - 1] == Run(cfg, original, plan[..|plan| - 1]).value.ids;
  }

  lemma StuckStops(cfg: Config, pre: Preimage, original: World, landed: seq<Mutation>)
    requires cfg.MintsFresh() && original.Valid() && (cfg.guardsZones ==> Intact(original))
    requires GateHolds(original, pre, landed) && NoChosenIds(landed) && Run(cfg, original, landed).Some?
    requires Stuck(cfg, original, landed)
    ensures Undo(cfg, pre, landed, Run(cfg, original, landed).value.ids, Run(cfg, original, landed).value.world).None?
  {
    hide Run, Undo, GateHolds, Intact, NamesIn;
    if cfg.reinstates {
      CrossedInTimeStops(cfg, pre, original, landed);
    } else if UpdatedThenDeleted(landed) {
      var i, j :| 0 <= i < j < |landed| && landed[i].Update? && landed[j].Delete? && landed[j].id == landed[i].id;
      LostForGoodStops(cfg, pre, original, landed, i, j);
    } else {
      var i, j :| 0 <= i < |landed| && 0 <= j < |landed| && PutsBack(landed[i]) && landed[j].Delete?
                  && landed[j].id in NamesIn(original, landed[i].id);
      LostForGoodStops(cfg, pre, original, landed, i, j);
    }
  }

  lemma CrossedInTimeStops(cfg: Config, pre: Preimage, original: World, landed: seq<Mutation>)
    requires cfg.MintsFresh() && original.Valid() && cfg.guardsZones && Intact(original) && cfg.reinstates
    requires GateHolds(original, pre, landed) && NoChosenIds(landed) && Run(cfg, original, landed).Some?
    requires Crosses(cfg, original, landed)
    ensures Undo(cfg, pre, landed, Run(cfg, original, landed).value.ids, Run(cfg, original, landed).value.world).None?
  {
    RunKept(cfg, pre, original, landed);
    AskingLess(original, landed, original.store.Keys, Run(cfg, original, landed).value.world);
    hide Run, Undo, GateHolds, Intact, NamesIn, Made, NoChosenIds, Kept;
    var i, j :| 0 <= i < |landed| && 0 <= j <= i && PutsBack(landed[i]) && landed[j].Delete?
                && landed[j].id in NamesIn(original, landed[i].id);
    assert landed[..i + 1][j] == landed[j];
    CrossingStops(cfg, pre, original, landed, Run(cfg, original, landed).value, i, landed[j].id,
                  Run(cfg, original, landed).value.world);
  }

  lemma AskingLess(original: World, plan: seq<Mutation>, must: set<string>, w: World)
    requires Kept(original, plan, must, w)
    ensures Kept(original, plan, {}, w)
  {
    hide Deleted;
  }

  /** An update of a deleted resource, or a body naming a deleted zone, where deleted ids never come back. */
  lemma LostForGoodStops(cfg: Config, pre: Preimage, original: World, landed: seq<Mutation>, i: nat, j: nat)
    requires cfg.MintsFresh() && !cfg.reinstates && original.Valid() && GateHolds(original, pre, landed)
    requires Run(cfg, original, landed).Some? && i < |landed| && j < |landed|
    requires PutsBack(landed[i]) && landed[j].Delete?
    requires || (landed[i].Update? && landed[i].id == landed[j].id)
             || (cfg.guardsZones && landed[j].id in NamesIn(original, landed[i].id))
    ensures Undo(cfg, pre, landed, Run(cfg, original, landed).value.ids, Run(cfg, original, landed).value.world).None?
  {
    assert landed[i] in landed && landed[j] in landed;
    AddressedIsKnown(original, pre, landed, landed[i]);
    DeletedIsLost(cfg, pre, original, landed, landed[j]);
    hide Run, Undo, GateHolds, Names, Lost, Prior;
    LostStops(cfg, pre, landed, Run(cfg, original, landed).value.ids, Run(cfg, original, landed).value.world,
              landed[j].id);
  }

  lemma DeletedIsLost(cfg: Config, pre: Preimage, original: World, landed: seq<Mutation>, m: Mutation)
    requires cfg.MintsFresh() && !cfg.reinstates && original.Valid() && GateHolds(original, pre, landed)
    requires Run(cfg, original, landed).Some? && m in landed && m.Delete?
    ensures Lost(Run(cfg, original, landed).value.world, m.id)
  {
    AddressedIsKnown(original, pre, landed, m);
    RunKeepsLost(cfg, original, landed, m.id);
  }

  // ---- Exactly when ----

  /** What must stand for the replay: everything, or what the plan never deletes if deleted ids do not come back. */
  function Musts(cfg: Config, original: World, landed: seq<Mutation>): set<string> {
    if cfg.reinstates then original.store.Keys else original.store.Keys - Deleted(landed)
  }

  /** What a run updates it had not deleted before, at any position. */
  lemma NotDeletedBefore(cfg: Config, pre: Preimage, original: World, landed: seq<Mutation>, i: nat)
    requires cfg.MintsFresh() && original.Valid() && i < |landed| && Run(cfg, original, landed).Some?
    requires GateHolds(original, pre, landed) && NoChosenIds(landed)
    ensures PutsBack(landed[i]) ==> landed[i].id !in Deleted(landed[..i])
  {
    RunPrefix(cfg, original, landed, i + 1);
    assert forall m :: m in landed[..i + 1] ==> m in landed;
    LastNotDeletedBefore(cfg, pre, original, landed[..i + 1]);
    assert landed[..i + 1][..i] == landed[..i];
  }

  lemma NotCrossed(cfg: Config, original: World, landed: seq<Mutation>, i: nat, z: string)
    requires !Crosses(cfg, original, landed) && i < |landed| && PutsBack(landed[i])
    requires z in NamesIn(original, landed[i].id)
    ensures z !in Deleted(landed[..i + 1])
    ensures !cfg.reinstates ==> z !in Deleted(landed)
  {
    hide NamesIn;
    forall m | m in landed[..i + 1] && m.Delete?
      ensures m.id != z
    {
      var j :| 0 <= j < i + 1 && landed[..i + 1][j] == m;
      assert landed[j] == m;
    }
    forall m | m in landed && m.Delete? && !cfg.reinstates
      ensures m.id != z
    {
      var j :| 0 <= j < |landed| && landed[j] == m;
    }
  }

  lemma UpdatedMustStand(cfg: Config, pre: Preimage, original: World, landed: seq<Mutation>, m: Mutation)
    requires cfg.MintsFresh() && original.Valid() && Run(cfg, original, landed).Some? && !Stuck(cfg, original, landed)
    requires GateHolds(original, pre, landed) && NoChosenIds(landed) && m in landed && m.Update?
    ensures m.id in Musts(cfg, original, landed)
  {
    hide Run, NoChosenIds, Crosses;
    AddressedIsKnown(original, pre, landed, m);
    hide GateHolds;
    var i :| 0 <= i < |landed| && landed[i] == m;
    NotDeletedBefore(cfg, pre, original, landed, i);
    forall j | !cfg.reinstates && 0 <= j < |landed| && landed[j].Delete?
      ensures landed[j].id != m.id
    {
      assert j < i ==> landed[j] in landed[..i];
    }
  }

  lemma NamedMustStand(cfg: Config, original: World, landed: seq<Mutation>, i: nat)
    requires cfg.guardsZones && Intact(original) && !Stuck(cfg, original, landed) && i < |landed|
    ensures NamesStand(original, landed, Musts(cfg, original, landed), i)
  {
    hide Deleted, Crosses, UpdatedThenDeleted, Names;
    forall z | PutsBack(landed[i]) && z in NamesIn(original, landed[i].id)
      ensures z in Musts(cfg, original, landed) && z !in Deleted(landed[..i + 1])
    {
      assert original.HasZone(z);
      NotCrossed(cfg, original, landed, i, z);
    }
  }

  lemma NotStuckIsReady(cfg: Config, pre: Preimage, original: World, landed: seq<Mutation>)
    requires cfg.MintsFresh() && original.Valid() && (cfg.guardsZones ==> Intact(original))
    requires GateHolds(original, pre, landed) && NoChosenIds(landed) && Run(cfg, original, landed).Some?
    requires !Stuck(cfg, original, landed)
    ensures Ready(cfg, original, landed, Musts(cfg, original, landed))
  {
    forall m | m in landed && m.Delete?
      ensures cfg.reinstates || m.id !in Musts(cfg, original, landed)
    {
      assert m.id in Deleted(landed);
    }
    hide Run, GateHolds, NoChosenIds, Names, NamesIn, Musts, Stuck, Deleted, Intact;
    forall m | m in landed && m.Update?
      ensures m.id in Musts(cfg, original, landed)
    {
      UpdatedMustStand(cfg, pre, original, landed, m);
    }
    forall i | cfg.guardsZones && 0 <= i < |landed|
      ensures NamesStand(original, landed, Musts(cfg, original, landed), i)
    {
      NamedMustStand(cfg, original, landed, i);
    }
    hide NamesStand;
  }

  /**
  When a rollback goes through, on every controller. Once the gate has passed, undoing what landed succeeds at
  every step if and only if the plan is not stuck: nothing was updated and then deleted unless ids come back,
  and on a controller that guards zones no body to be put back names a zone the plan had deleted by then.
  */
  lemma RollbackGoesThroughIff(cfg: Config, pre: Preimage, original: World, landed: seq<Mutation>)
    requires cfg.MintsFresh() && original.Valid() && (cfg.guardsZones ==> Intact(original))
    requires GateHolds(original, pre, landed) && NoChosenIds(landed) && Run(cfg, original, landed).Some?
    ensures Undo(cfg, pre, landed, Run(cfg, original, landed).value.ids, Run(cfg, original, landed).value.world).Some?
            <==> !Stuck(cfg, original, landed)
  {
    if Stuck(cfg, original, landed) {
      StuckStops(cfg, pre, original, landed);
    } else {
      RunKept(cfg, pre, original, landed);
      NotStuckIsReady(cfg, pre, original, landed);
      hide Run, Undo, Ready, Made, GateHolds, Stuck, Deleted, Intact;
      ReplayGoesThrough(cfg, pre, original, landed, Musts(cfg, original, landed),
                        Run(cfg, original, landed).value.world);
    }
  }

  /**
  So a rollback goes through and gives the whole store back exactly when nothing was deleted, or ids come back
  and, on a controller that guards zones, no body to be put back names a zone deleted by then.
  */
  lemma RollbackGivesBackIff(cfg: Config, pre: Preimage, original: World, landed: seq<Mutation>)
    requires cfg.MintsFresh() && original.Valid() && (cfg.guardsZones ==> Intact(original))
    requires GateHolds(original, pre, landed) && NoChosenIds(landed) && Run(cfg, original, landed).Some?
    ensures var applied := Run(cfg, original, landed).value;
            var undone := Undo(cfg, pre, landed, applied.ids, applied.world);
            (undone.Some? && undone.value.store == original.store)
            <==> (!HasDelete(landed) || (cfg.reinstates && !(cfg.guardsZones && Crosses(cfg, original, landed))))
  {
    RollbackGoesThroughIff(cfg, pre, original, landed);
    var applied := Run(cfg, original, landed).value;
    hide Run, Undo, GateHolds, Intact, NoChosenIds, NamesIn;
    forall j | 0 <= j < |landed| && landed[j].Delete?
      ensures HasDelete(landed)
    {
      assert landed[j] in landed;
    }
    if Undo(cfg, pre, landed, applied.ids, applied.world).Some? {
      RollbackRestores(cfg, pre, original, landed);
    }
  }

  // ---- At an input ----

  /**
  One deleted network on a controller that hands out new ids: rollback goes through, and the store is not the
  one before.
  */
  lemma DeletedNetworkStaysLost(cfg: Config, id: string)
    requires cfg.MintsFresh() && !cfg.reinstates
    ensures var start := World(map[id := Resource(Network, Obj(map["_id" := Str(id)]))], {id});
            var plan, pre := [Delete("network", id)], FromResources([Obj(map["_id" := Str(id)])]);
            && start.Valid() && GateHolds(start, pre, plan) && Run(cfg, start, plan).Some?
            && var applied := Run(cfg, start, plan).value;
               var undone := Undo(cfg, pre, plan, applied.ids, applied.world);
               undone.Some? && undone.value.store != start.store
  {
    var body := Obj(map["_id" := Str(id)]);
    var start := World(map[id := Resource(Network, body)], {id});
    var m, pre := Delete("network", id), FromResources([body]);
    ParseInvertsName("network", Network);
    hide ParseKind;
    assert pre.GetResource(id) == Some(body) by {
      assert pre.resources.GetItems("data") == [body];
    }
    LoneStepRuns(cfg, start, m);
    var applied := Run(cfg, start, [m]).value;
    assert UndoEffect(cfg, applied.world, m, Prior(pre, m), None).Some?;
    assert m in [m];
    RollbackRestores(cfg, pre, start, [m]);
  }

  /**
  A network updated and then deleted on a controller that hands out new ids: rollback cannot put the first
  value back, because the resource it would write is gone.
  */
  lemma UpdatedThenDeletedCannotBeUndone(cfg: Config, id: string)
    requires cfg.MintsFresh() && !cfg.reinstates
    ensures var body := Obj(map["_id" := Str(id)]);
            var start, pre := World(map[id := Resource(Network, body)], {id}), FromResources([body]);
            var plan := [Update("network", id, Obj(map["name" := Str("renamed")])), Delete("network", id)];
            && start.Valid() && Intact(start) && GateHolds(start, pre, plan) && Run(cfg, start, plan).Some?
            && var applied := Run(cfg, start, plan).value;
               Undo(cfg, pre, plan, applied.ids, applied.world).None?
  {
    var body := Obj(map["_id" := Str(id)]);
    var start, pre := World(map[id := Resource(Network, body)], {id}), FromResources([body]);
    var plan := [Update("network", id, Obj(map["name" := Str("renamed")])), Delete("network", id)];
    ParseInvertsName("network", Network);
    hide ParseKind;
    assert pre.GetResource(id) == Some(body) by {
      assert pre.resources.GetItems("data") == [body];
    }
    assert Names(body) == {};
    RenamedThenRemoved(cfg, start, id, plan);
    hide Run, Undo, Names, FindById;
    StuckStops(cfg, pre, start, plan);
  }

  lemma RenamedThenRemoved(cfg: Config, w: World, id: string, plan: seq<Mutation>)
    requires plan == [Update("network", id, Obj(map["name" := Str("renamed")])), Delete("network", id)]
    requires id in w.store && w.store[id].kind == Network
    ensures Run(cfg, w, plan).Some?
  {
    ParseInvertsName("network", Network);
    hide ParseKind;
    assert Names(plan[0].body) == {};
    var w1 := World(w.store[id := Resource(Network, Fill(id, plan[0].body))], w.known);
    assert ApplyEffect(cfg, w, plan[0]) == Some((w1, None));
    var w2 := World(w1.store - {id}, w1.known);
    assert ApplyEffect(cfg, w1, plan[1]) == Some((w2, None));
    hide ApplyEffect;
    assert Run(cfg, w, plan[..0]) == Some(Progress(w, []));
    RunExtends(cfg, w, plan, 0, Progress(w, []), w1, None);
    RunExtends(cfg, w, plan, 1, Progress(w1, [] + [None]), w2, None);
    assert plan[..2] == plan;
  }

  function PolicyNaming(id: string, zone: string): Json {
    Obj(map["_id" := Str(id), "source" := Obj(map["zone_id" := Str(zone)])])
  }

  function ZoneCalled(id: string): Resource {
    Resource(FirewallZone, Obj(map["_id" := Str(id)]))
  }

  function TwoZones(a: string, b: string, policy: string): World {
    World(map[a := ZoneCalled(a), b := ZoneCalled(b), policy := Resource(FirewallPolicy, PolicyNaming(policy, a))],
          {a, b, policy})
  }

  /** Off one zone, the zone deleted, and the same policy written again. */
  function Crossing(a: string, b: string, policy: string): seq<Mutation> {
    [Update("firewall_policy", policy, Obj(map["source" := Obj(map["zone_id" := Str(b)])])),
     Delete(ZONE_KIND, a),
     Update("firewall_policy", policy, Obj(map["name" := Str("renamed")]))]
  }

  lemma RunThree(cfg: Config, w: World, plan: seq<Mutation>, w1: World, w2: World, w3: World)
    requires |plan| == 3
    requires ApplyEffect(cfg, w, plan[0]) == Some((w1, None)) && ApplyEffect(cfg, w1, plan[1]) == Some((w2, None))
    requires ApplyEffect(cfg, w2, plan[2]) == Some((w3, None))
    ensures Run(cfg, w, plan).Some? && Run(cfg, w, plan).value.world == w3
    ensures Run(cfg, w, plan).value.ids[2] == None
  {
    hide ApplyEffect;
    assert Run(cfg, w, plan[..0]) == Some(Progress(w, []));
    hide Run;
    RunExtends(cfg, w, plan, 0, Progress(w, []), w1, None);
    RunExtends(cfg, w, plan, 1, Progress(w1, [] + [None]), w2, None);
    RunExtends(cfg, w, plan, 2, Progress(w2, [] + [None] + [None]), w3, None);
    assert plan[..3] == plan;
  }

  lemma ZoneNamesNothing(id: string)
    ensures Names(ZoneCalled(id).body) == {} && ZoneCalled(id).kind == FirewallZone
  {
  }

  lemma PolicyNames(id: string, zone: string)
    ensures Names(PolicyNaming(id, zone)) == {zone} && PolicyNaming(id, zone).Obj?
  {
    assert ZoneOf(PolicyNaming(id, zone), "source") == Some(zone);
    assert ZoneOf(PolicyNaming(id, zone), "destination") == None;
  }

  lemma PolicyUpdateTaken(cfg: Config, w: World, m: Mutation)
    requires m.Update? && ParseKind(m.kind) == Some(FirewallPolicy) && m.body.Obj?
    requires m.id in w.store && w.store[m.id].kind == FirewallPolicy && w.store[m.id].body.Obj?
    requires AllZones(w, Names(Overlaid(w.store[m.id].body, m.body)))
    ensures ApplyEffect(cfg, w, m)
            == (var r := Resource(FirewallPolicy, Fill(m.id, Overlaid(w.store[m.id].body, m.body)));
                Some((World(w.store[m.id := r], w.known), None)))
  {
    hide Names;
  }

  /** Off zone `a` onto zone `b`, and still on `b` after a write that leaves the source alone. */
  lemma CrossingNames(a: string, b: string, policy: string)
    ensures var first := Fill(policy, Overlaid(PolicyNaming(policy, a), Crossing(a, b, policy)[0].body));
            && first.Obj? && Names(first) == {b}
            && Names(Overlaid(PolicyNaming(policy, a), Crossing(a, b, policy)[0].body)) == {b}
            && Names(Overlaid(first, Crossing(a, b, policy)[2].body)) == {b}
  {
    var moved := Overlaid(PolicyNaming(policy, a), Crossing(a, b, policy)[0].body);
    IdNamesNothing(policy, moved);
    assert ZoneOf(moved, "source") == Some(b) && ZoneOf(moved, "destination") == None;
    var first := Fill(policy, moved);
    var second := Overlaid(first, Crossing(a, b, policy)[2].body);
    assert ZoneOf(second, "source") == Some(b) && ZoneOf(second, "destination") == None;
  }

  lemma CrossingRuns(cfg: Config, a: string, b: string, policy: string)
    requires a != b && policy != a && policy != b
    ensures var start, plan := TwoZones(a, b, policy), Crossing(a, b, policy);
            && Run(cfg, start, plan).Some? && Run(cfg, start, plan).value.ids[2] == None
            && !Run(cfg, start, plan).value.world.HasZone(a)
  {
    var w, plan := TwoZones(a, b, policy), Crossing(a, b, policy);
    ParseInvertsName("firewall_policy", FirewallPolicy);
    ParseInvertsName(ZONE_KIND, FirewallZone);
    CrossingNames(a, b, policy);
    PolicyNames(policy, a);
    ZoneNamesNothing(a);
    ZoneNamesNothing(b);
    hide ParseKind, Names, Overlaid, Fill, PolicyNaming, ZoneCalled;
    PolicyUpdateTaken(cfg, w, plan[0]);
    var w1 := ApplyEffect(cfg, w, plan[0]).value.0;
    assert !w1.InUse(a);
    var w2 := World(w1.store - {a}, w1.known);
    assert ApplyEffect(cfg, w1, plan[1]) == Some((w2, None));
    assert w2.HasZone(b);
    PolicyUpdateTaken(cfg, w2, plan[2]);
    hide ApplyEffect;
    RunThree(cfg, w, plan, w1, w2, ApplyEffect(cfg, w2, plan[2]).value.0);
  }

  lemma CrossingLookups(a: string, policy: string)
    requires policy != a
    ensures var pre := FromResources([PolicyNaming(policy, a), ZoneCalled(a).body]);
            pre.GetResource(policy) == Some(PolicyNaming(policy, a)) && pre.GetResource(a) == Some(ZoneCalled(a).body)
  {
    var items := [PolicyNaming(policy, a), ZoneCalled(a).body];
    assert FromResources(items).resources.GetItems("data") == items;
    assert items[1..] == [ZoneCalled(a).body];
    assert FindById(items, policy) == Some(items[0]);
    assert FindById(items[1..], a) == Some(items[1]) && FindById(items, a) == Some(items[1]);
  }

  lemma TwoZonesIntact(a: string, b: string, policy: string)
    requires a != b && policy != a && policy != b
    ensures TwoZones(a, b, policy).Valid() && Intact(TwoZones(a, b, policy))
  {
    ZoneNamesNothing(a);
    ZoneNamesNothing(b);
    PolicyNames(policy, a);
    hide Names, PolicyNaming, ZoneCalled;
    assert TwoZones(a, b, policy).HasZone(a);
  }

  predicate ReadsAsRecorded(w: World, pre: Preimage, m: Mutation)
    requires PutsBack(m)
  {
    && ParseKind(m.kind).Some? && pre.GetResource(m.id).Some?
    && Fetched(w, ParseKind(m.kind).value, m.id) == pre.GetResource(m.id)
  }

  lemma GateOfThree(w: World, pre: Preimage, a: Mutation, b: Mutation, c: Mutation)
    requires PutsBack(a) && PutsBack(b) && PutsBack(c)
    requires ReadsAsRecorded(w, pre, a) && ReadsAsRecorded(w, pre, b) && ReadsAsRecorded(w, pre, c)
    ensures GateHolds(w, pre, [a, b, c])
  {
    hide ParseKind, Fetched, FindById;
    assert forall m :: m in [a, b, c] ==> m == a || m == b || m == c;
  }

  lemma CrossingPassesGate(a: string, b: string, policy: string)
    requires a != b && policy != a && policy != b
    ensures GateHolds(TwoZones(a, b, policy), FromResources([PolicyNaming(policy, a), ZoneCalled(a).body]),
                      Crossing(a, b, policy))
  {
    ParseInvertsName("firewall_policy", FirewallPolicy);
    ParseInvertsName(ZONE_KIND, FirewallZone);
    CrossingLookups(a, policy);
    TwoZonesHold(a, b, policy);
    hide ParseKind, FindById, PolicyNaming, ZoneCalled, FromResources, TwoZones, Fetched, GateHolds;
    var plan := Crossing(a, b, policy);
    GateOfThree(TwoZones(a, b, policy), FromResources([PolicyNaming(policy, a), ZoneCalled(a).body]),
                plan[0], plan[1], plan[2]);
  }

  lemma TwoZonesHold(a: string, b: string, policy: string)
    requires a != b && policy != a && policy != b
    ensures Fetched(TwoZones(a, b, policy), FirewallPolicy, policy) == Some(PolicyNaming(policy, a))
    ensures Fetched(TwoZones(a, b, policy), FirewallZone, a) == Some(ZoneCalled(a).body)
  {
    hide PolicyNaming;
  }

  /**
  Off a zone, the zone deleted, the policy written again: undoing the last write puts back a body naming a zone
  that rollback has not re-created yet, and a controller that guards zones refuses it.
  */
  lemma CrossingCannotBeUndone(cfg: Config, a: string, b: string, policy: string)
    requires cfg.MintsFresh() && cfg.guardsZones && a != b && policy != a && policy != b
    ensures var start, plan := TwoZones(a, b, policy), Crossing(a, b, policy);
            var pre := FromResources([PolicyNaming(policy, a), ZoneCalled(a).body]);
            && start.Valid() && Intact(start) && GateHolds(start, pre, plan) && Run(cfg, start, plan).Some?
            && var applied := Run(cfg, start, plan).value;
               Undo(cfg, pre, plan, applied.ids, applied.world).None?
  {
    var start, plan := TwoZones(a, b, policy), Crossing(a, b, policy);
    var pre := FromResources([PolicyNaming(policy, a), ZoneCalled(a).body]);
    CrossingRuns(cfg, a, b, policy);
    CrossingPassesGate(a, b, policy);
    TwoZonesIntact(a, b, policy);
    PolicyNames(policy, a);
    CrossingCrosses(cfg, a, b, policy);
    hide Run, GateHolds, Intact, Names, PolicyNaming, NamesIn, TwoZones, ZoneCalled, Undo, Crosses, FromResources;
    CrossedStops(cfg, pre, start, plan);
  }

  lemma CrossingCrosses(cfg: Config, a: string, b: string, policy: string)
    requires a != b && policy != a && policy != b
    ensures Crosses(cfg, TwoZones(a, b, policy), Crossing(a, b, policy)) && NoChosenIds(Crossing(a, b, policy))
  {
    var plan := Crossing(a, b, policy);
    PolicyNames(policy, a);
    hide Names, PolicyNaming, ZoneCalled;
    assert PutsBack(plan[2]) && plan[1].Delete? && plan[1].id in NamesIn(TwoZones(a, b, policy), plan[2].id);
  }

  lemma CrossedStops(cfg: Config, pre: Preimage, original: World, landed: seq<Mutation>)
    requires cfg.MintsFresh() && original.Valid() && cfg.guardsZones && Intact(original)
    requires GateHolds(original, pre, landed) && NoChosenIds(landed) && Run(cfg, original, landed).Some?
    requires Crosses(cfg, original, landed)
    ensures Undo(cfg, pre, landed, Run(cfg, original, landed).value.ids, Run(cfg, original, landed).value.world).None?
  {
    StuckStops(cfg, pre, original, landed);
  }
}
