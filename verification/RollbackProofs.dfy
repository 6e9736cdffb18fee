/** What a completed rollback gives back, exactly. */
module RollbackProofs {
  import opened Wrappers
  import opened StagedPlans
  import opened Worlds

  /**
  The invariant of a reverse replay: the same ids exist as after the prefix still standing, and each holds
  either what that prefix left or its original value. Stepwise equality would be false, because every undo
  writes the original value even when an earlier mutation touched the same id.
  */
  ghost predicate Near(original: World, prefix: World, now: World) {
    && now.store.Keys == prefix.store.Keys
    && forall id :: id in now.store ==>
         now.store[id] == prefix.store[id] || (id in original.store && now.store[id] == original.store[id])
  }

  /** One undo moves the invariant back over one mutation. */
  lemma UndoStep(cfg: Config, pre: Preimage, original: World, before: World, m: Mutation, now: World)
    requires cfg.MintsFresh() && before.Valid()
    requires cfg.reinstates || !m.Delete?
    requires GateHolds(original, pre, [m])
    requires ApplyEffect(cfg, before, m).Some?
    requires Near(original, ApplyEffect(cfg, before, m).value.0, now)
    requires UndoEffect(cfg, now, m, Prior(pre, m), ApplyEffect(cfg, before, m).value.1).Some?
    ensures Near(original, before, UndoEffect(cfg, now, m, Prior(pre, m), ApplyEffect(cfg, before, m).value.1).value)
  {
    assert m in [m];
    if m.Update? || m.Delete? {
      FoundCarriesId(pre.resources.GetItems("data"), m.id);
    }
  }

  lemma {:induction false} ReplayStaysNear(cfg: Config, pre: Preimage, original: World, plan: seq<Mutation>, now: World)
    requires cfg.MintsFresh() && original.Valid()
    requires cfg.reinstates || !HasDelete(plan)
    requires GateHolds(original, pre, plan)
    requires Run(cfg, original, plan).Some?
    requires Near(original, Run(cfg, original, plan).value.world, now)
    requires Undo(cfg, pre, plan, Run(cfg, original, plan).value.ids, now).Some?
    ensures Near(original, original, Undo(cfg, pre, plan, Run(cfg, original, plan).value.ids, now).value)
  {
    if plan != [] {
      var last := |plan| - 1;
      var before := Run(cfg, original, plan[..last]).value;
      var ids := Run(cfg, original, plan).value.ids;
      RunKeepsValid(cfg, original, plan[..last]);
      assert plan[last] in plan;
      UndoStep(cfg, pre, original, before.world, plan[last], now);
      assert ids[..last] == before.ids;
      ReplayStaysNear(cfg, pre, original, plan[..last],
                      UndoEffect(cfg, now, plan[last], Prior(pre, plan[last]), ids[last]).value);
    }
  }

  /** An id the controller has used and no longer stores. */
  ghost predicate Lost(w: World, id: string) {
    w.Valid() && id in w.known && id !in w.store
  }

  /** A step that deletes an id loses it, and with ids never given back no later step finds it again. */
  lemma StepKeepsLost(cfg: Config, w: World, m: Mutation, id: string)
    requires cfg.MintsFresh() && !cfg.reinstates && w.Valid() && id in w.known
    requires ApplyEffect(cfg, w, m).Some?
    requires Lost(w, id) || (m.Delete? && m.id == id)
    ensures Lost(ApplyEffect(cfg, w, m).value.0, id)
  {
  }

  lemma {:induction false} RunKeepsLost(cfg: Config, w: World, plan: seq<Mutation>, id: string)
    requires cfg.MintsFresh() && !cfg.reinstates && w.Valid()
    requires Run(cfg, w, plan).Some?
    requires id in w.store
    requires exists m :: m in plan && m.Delete? && m.id == id
    ensures Lost(Run(cfg, w, plan).value.world, id)
  {
    var last := |plan| - 1;
    RunKeepsValid(cfg, w, plan[..last]);
    if exists m :: m in plan[..last] && m.Delete? && m.id == id {
      RunKeepsLost(cfg, w, plan[..last], id);
    } else {
      assert plan == plan[..last] + [plan[last]];
    }
    StepKeepsLost(cfg, Run(cfg, w, plan[..last]).value.world, plan[last], id);
  }

  lemma {:induction false} UndoKeepsLost(cfg: Config, pre: Preimage, plan: seq<Mutation>, ids: seq<Option<string>>,
                                         w: World, id: string)
    requires cfg.MintsFresh() && !cfg.reinstates
    requires |ids| == |plan|
    requires Undo(cfg, pre, plan, ids, w).Some?
    requires Lost(w, id)
    ensures Lost(Undo(cfg, pre, plan, ids, w).value, id)
  {
    if plan != [] {
      var last := |plan| - 1;
      UndoKeepsLost(cfg, pre, plan[..last], ids[..last],
                    UndoEffect(cfg, w, plan[last], Prior(pre, plan[last]), ids[last]).value, id);
    }
  }

  /**
  A rollback that reports success restores the store, every id of it, exactly when the controller gives a
  re-created body its old `_id` back or the prefix that landed deleted nothing. Otherwise the deleted id is
  gone for good, and rollback still reports success.
  */
  lemma RollbackRestores(cfg: Config, pre: Preimage, original: World, landed: seq<Mutation>)
    requires cfg.MintsFresh() && original.Valid()
    requires GateHolds(original, pre, landed)
    requires Run(cfg, original, landed).Some?
    requires Undo(cfg, pre, landed, Run(cfg, original, landed).value.ids, Run(cfg, original, landed).value.world).Some?
    ensures Undo(cfg, pre, landed, Run(cfg, original, landed).value.ids,
                 Run(cfg, original, landed).value.world).value.store == original.store
            <==> (cfg.reinstates || !HasDelete(landed))
  {
    var applied := Run(cfg, original, landed).value;
    if cfg.reinstates || !HasDelete(landed) {
      ReplayStaysNear(cfg, pre, original, landed, applied.world);
    } else {
      var m :| m in landed && m.Delete?;
      assert m.id in original.store;
      RunKeepsLost(cfg, original, landed, m.id);
      UndoKeepsLost(cfg, pre, landed, applied.ids, applied.world, m.id);
    }
  }
}
