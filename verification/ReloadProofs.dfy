/** A plan read back from the store decides, and rolls back, exactly as the original. */
module ReloadProofs {
  import opened Wrappers
  import opened StagedPlans
  import opened Worlds
  import opened ZoneDeletions
  import opened StoredPlans

  /** So every decision taken from a reloaded plan is the one the original would have given. */
  lemma ReloadedPlanDecidesAlike(plan: seq<Mutation>, pre: Preimage, w: World)
    ensures PreimageOf(Stored(plan, pre)).Ok?
    ensures var again := PreimageOf(Stored(plan, pre)).value;
            && (GateHolds(w, again, plan) <==> GateHolds(w, pre, plan))
            && Verdict(again, plan) == Verdict(pre, plan)
            && (forall m :: m in plan ==> Prior(again, m) == Prior(pre, m))
  {
    ReloadedPreimageAgrees(plan, pre, "");
    var again := PreimageOf(Stored(plan, pre)).value;
    forall id | id in Addressed(plan)
      ensures again.GetResource(id) == pre.GetResource(id)
    {
      ReloadedPreimageAgrees(plan, pre, id);
    }
    forall m | m in plan && (m.Update? || m.Delete?)
      ensures again.GetResource(m.id) == pre.GetResource(m.id)
    {
      assert m.id in Addressed(plan);
    }
    assert Seed(again, plan) == Seed(pre, plan);
  }

  /** And a rollback replayed from it writes the same values back. */
  lemma {:induction false} ReloadedUndoesAlike(cfg: Config, plan: seq<Mutation>, landed: seq<Mutation>, pre: Preimage,
                                               ids: seq<Option<string>>, w: World)
    requires |ids| == |landed| && forall m :: m in landed ==> m in plan
    requires PreimageOf(Stored(plan, pre)).Ok?
    ensures Undo(cfg, PreimageOf(Stored(plan, pre)).value, landed, ids, w) == Undo(cfg, pre, landed, ids, w)
  {
    if landed != [] {
      var last := |landed| - 1;
      ReloadedPlanDecidesAlike(plan, pre, w);
      assert landed[last] in landed;
      var step := UndoEffect(cfg, w, landed[last], Prior(pre, landed[last]), ids[last]);
      if step.Some? {
        ReloadedUndoesAlike(cfg, plan, landed[..last], pre, ids[..last], step.value);
      }
    }
  }
}
