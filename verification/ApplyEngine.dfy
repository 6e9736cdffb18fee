/** Sequential apply, best-effort rollback, and what every outcome says about the plan and the controller. */
module ApplyEngine {
  import opened Wrappers
  import opened JsonValues
  import opened ResourceKinds
  import opened StagedPlans
  import opened Worlds
  import opened Footprints
  import opened Replays
  import opened RollbackProofs
  import opened RollbackSuccess
  import opened CheckedPlans
  import opened ControllerClient
  import opened Outcomes

  /** The writes a plan asks for, in staging order. */
  ghost function ForwardLog(plan: seq<Mutation>): (log: seq<Attempt>)
    ensures |log| == |plan|
  {
    seq(|plan|, i requires 0 <= i < |plan| => Applying(i, plan[i]))
  }

  /**
  The undos rollback asks for: last mutation first, each with its own pre-image entry and created id. A
  restore is never attempted.
  */
  ghost function ReverseLog(pre: Preimage, landed: seq<Mutation>, ids: seq<Option<string>>): seq<Attempt>
    requires |ids| == |landed|
  {
    if landed == [] then [] else
    var last := |landed| - 1;
    (if landed[last].Restore? then [] else [RollingBack(last, landed[last], Prior(pre, landed[last]), ids[last])])
    + ReverseLog(pre, landed[..last], ids[..last])
  }

  /** Without restores that is every landed mutation exactly once, in reverse. */
  lemma {:induction false} ReverseLogIs(pre: Preimage, landed: seq<Mutation>, ids: seq<Option<string>>)
    requires |ids| == |landed| && forall m :: m in landed ==> !m.Restore?
    ensures |ReverseLog(pre, landed, ids)| == |landed|
    ensures forall i :: 0 <= i < |landed| ==>
              var j := |landed| - 1 - i;
              ReverseLog(pre, landed, ids)[i] == RollingBack(j, landed[j], Prior(pre, landed[j]), ids[j])
  {
    if landed != [] {
      ReverseLogIs(pre, landed[..|landed| - 1], ids[..|landed| - 1]);
    }
  }

  /** One more undo in the log. */
  lemma LogUnrolls(pre: Preimage, landed: seq<Mutation>, ids: seq<Option<string>>, i: nat)
    requires |ids| == |landed| && i < |landed|
    ensures ReverseLog(pre, landed[..i + 1], ids[..i + 1])
            == (if landed[i].Restore? then [] else [RollingBack(i, landed[i], Prior(pre, landed[i]), ids[i])])
               + ReverseLog(pre, landed[..i], ids[..i])
  {
    assert landed[..i + 1][..i] == landed[..i] && ids[..i + 1][..i] == ids[..i];
  }

  lemma LogShifts(log: seq<Attempt>, step: seq<Attempt>, rest: seq<Attempt>)
    ensures (log + step) + rest == log + (step + rest)
  {
  }

  lemma NothingLogged(pre: Preimage)
    ensures ReverseLog(pre, [], []) == []
  {
  }

  lemma RestoreNeverUndoes(cfg: Config, w: World, m: Mutation, prior: Option<Json>, created: Option<string>)
    requires m.Restore?
    ensures UndoEffect(cfg, w, m, prior, created).None?
  {
  }

  lemma NothingSpared(landed: seq<Mutation>, ids: seq<Option<string>>, w: World)
    ensures Spares(landed, ids, w, w)
  {
  }

  /** One undo: its own pre-image entry and created id for anything but a restore, which is not attempted. */
  method UndoOne(c: Controller, pre: Preimage, landed: seq<Mutation>, i: nat, created: map<nat, string>,
                 ghost ids: seq<Option<string>>)
    returns (ok: bool)
    requires c.Valid() && i < |landed| == |ids| && Records(created, ids)
    modifies c
    ensures c.Valid()
    ensures c.log == old(c.log) + (if landed[i].Restore? then []
                                   else [RollingBack(i, landed[i], Prior(pre, landed[i]), ids[i])])
    ensures var undone := UndoEffect(c.cfg, old(c.Now()), landed[i], Prior(pre, landed[i]), ids[i]);
            if ok then undone == Some(c.Now()) else c.Now() == old(c.Now()) && (c.NeverFails() ==> undone.None?)
  {
    hide UndoEffect, Prior;
    var m := landed[i];
    if m.Restore? {
      RestoreNeverUndoes(c.cfg, c.Now(), m, Prior(pre, m), ids[i]);
      return false;
    }
    var createdId := if i in created then Some(created[i]) else None;
    var r := c.RollbackMutation(i, m, Prior(pre, m), createdId);
    ok := r.Ok?;
  }

  /** Replays the pre-image over what landed, last mutation first, and carries on past a failed undo. */
  method RollbackToPreimage(c: Controller, pre: Preimage, landed: seq<Mutation>, created: map<nat, string>,
                            ghost ids: seq<Option<string>>)
    returns (failures: seq<nat>)
    requires c.Valid() && |ids| == |landed| && Records(created, ids)
    modifies c
    ensures c.Valid()
    ensures c.log == old(c.log) + ReverseLog(pre, landed, ids)
    // The list names, last first, exactly the undos that did not happen; if no call is lost, each was refused there.
    ensures Replayed(c.cfg, pre, landed, ids, failures, old(c.Now()), c.Now(), c.NeverFails())
    ensures failures == [] ==> Undo(c.cfg, pre, landed, ids, old(c.Now())) == Some(c.Now())
    ensures failures == [] <== c.NeverFails() && Undo(c.cfg, pre, landed, ids, old(c.Now())).Some?
    // Whatever fails, nothing is touched that the landed mutations neither address nor created.
    ensures Spares(landed, ids, old(c.Now()), c.Now())
  {
    hide UndoEffect, Undo, ReverseLog, Prior, Spares, Records;
    NothingSpared(landed, ids, c.Now());
    NothingLogged(pre);
    failures := [];
    ghost var states := [c.Now()];
    assert landed[..|landed|] == landed && ids[..|landed|] == ids;
    for i := |landed| downto 0
      invariant c.Valid()
      invariant c.log + ReverseLog(pre, landed[..i], ids[..i]) == old(c.log) + ReverseLog(pre, landed, ids)
      invariant Spares(landed, ids, old(c.Now()), c.Now())
      invariant ReplayedFrom(c.cfg, pre, landed, ids, failures, states, i, old(c.Now()), c.Now(), c.NeverFails())
    {
      hide ReplayedFrom, TriedAt;
      LogUnrolls(pre, landed, ids, i);
      ghost var now, log := c.Now(), c.log;
      var ok := UndoOne(c, pre, landed, i, created, ids);
      LogShifts(log, c.log[|log|..], ReverseLog(pre, landed[..i], ids[..i]));
      TryingOneMore(c.cfg, pre, landed, ids, failures, states, i, old(c.Now()), now, c.Now(), c.NeverFails(), ok);
      states := states + [c.Now()];
      if ok {
        UndoStepSpares(c.cfg, landed, ids, old(c.Now()), now, landed[i], Prior(pre, landed[i]), ids[i]);
      } else {
        failures := failures + [i];
      }
    }
    hide Spares;
    ReplayedMeansUndo(c.cfg, pre, landed, ids, failures, old(c.Now()), c.Now(), c.NeverFails());
  }

  lemma ForwardLogTakes(plan: seq<Mutation>, k: nat)
    requires k < |plan|
    ensures ForwardLog(plan)[..k + 1] == ForwardLog(plan)[..k] + [Applying(k, plan[k])]
  {
  }

  lemma RecordsGrow(created: map<nat, string>, ids: seq<Option<string>>, id: Option<string>)
    requires Records(created, ids)
    ensures Records(if id.Some? then created[|ids| := id.value] else created, ids + [id])
  {
  }

  /** The forward loop: stops at the first mutation the controller does not take. */
  method ApplyLoop(c: Controller, plan: seq<Mutation>)
    returns (landed: nat, created: map<nat, string>, ghost ids: seq<Option<string>>)
    requires c.Valid()
    modifies c
    ensures c.Valid() && landed <= |plan| && |ids| == landed && Records(created, ids)
    ensures Run(c.cfg, old(c.Now()), plan[..landed]) == Some(Progress(c.Now(), ids))
    ensures c.log == old(c.log) + ForwardLog(plan)[..if landed < |plan| then landed + 1 else landed]
    ensures c.NeverFails() && landed < |plan| ==> ApplyEffect(c.cfg, c.Now(), plan[landed]).None?
  {
    hide ApplyEffect, ForwardLog;
    landed, created, ids := 0, map[], [];
    while landed < |plan|
      invariant c.Valid() && landed <= |plan| && |ids| == landed && Records(created, ids)
      invariant Run(c.cfg, old(c.Now()), plan[..landed]) == Some(Progress(c.Now(), ids))
      invariant c.log == old(c.log) + ForwardLog(plan)[..landed]
    {
      hide Run, Records;
      ForwardLogTakes(plan, landed);
      ghost var at := Progress(c.Now(), ids);
      var r := c.ApplyMutation(landed, plan[landed]);
      if r.Err? {
        return;
      }
      RunExtends(c.cfg, old(c.Now()), plan, landed, at, c.Now(), r.value);
      RecordsGrow(created, ids, r.value);
      if r.value.Some? {
        created := created[landed := r.value.value];
      }
      ids := ids + [r.value];
      landed := landed + 1;
    }
  }

  /** No mutation that landed is a restore. */
  lemma {:induction false} NoRestoreLands(cfg: Config, w: World, plan: seq<Mutation>)
    requires Run(cfg, w, plan).Some?
    ensures forall m :: m in plan ==> !m.Restore?
  {
    if plan != [] {
      NoRestoreLands(cfg, w, plan[..|plan| - 1]);
      assert plan == plan[..|plan| - 1] + [plan[|plan| - 1]];
    }
  }

  /** So rollback undoes every mutation that landed, once, last first, each with its own value and created id. */
  lemma {:induction false} RollbackTouchesWhatLanded(cfg: Config, w: World, landed: seq<Mutation>, pre: Preimage)
    requires Run(cfg, w, landed).Some?
    ensures var ids := Run(cfg, w, landed).value.ids;
            && |ReverseLog(pre, landed, ids)| == |landed|
            && forall i :: 0 <= i < |landed| ==>
                 var j := |landed| - 1 - i;
                 ReverseLog(pre, landed, ids)[i] == RollingBack(j, landed[j], Prior(pre, landed[j]), ids[j])
  {
    NoRestoreLands(cfg, w, landed);
    ReverseLogIs(pre, landed, Run(cfg, w, landed).value.ids);
  }

  /** A passing gate leaves no kind the staleness check could fail to read. */
  lemma GateNeedsKinds(w: World, pre: Preimage, plan: seq<Mutation>)
    ensures GateHolds(w, pre, plan) ==>
              forall m :: m in plan && (m.Update? || m.Delete?) ==> ParseKind(m.kind).Some?
  {
  }

  /** The partial arm: roll back what landed, and say whether that gave the store back. */
  method UndoLanded(c: Controller, ghost start: World, pre: Preimage, plan: seq<Mutation>, landed: nat,
                    created: map<nat, string>, ghost ids: seq<Option<string>>)
    returns (failures: seq<nat>)
    requires c.Valid() && start.Valid() && landed < |plan| && |ids| == landed && Records(created, ids)
    requires Run(c.cfg, start, plan[..landed]) == Some(Progress(c.Now(), ids)) && GateHolds(start, pre, plan)
    modifies c
    ensures c.Valid()
    ensures c.log == old(c.log) + ReverseLog(pre, plan[..landed], ids)
    ensures failures == [] ==> (c.store == start.store <==> c.cfg.reinstates || !HasDelete(plan[..landed]))
    ensures (c.cfg.guardsZones ==> Intact(start)) && NoChosenIds(plan[..landed]) ==>
              && (failures == [] ==> !Stuck(c.cfg, start, plan[..landed]))
              && (c.NeverFails() && !Stuck(c.cfg, start, plan[..landed]) ==> failures == [])
    ensures Untouched(plan[..landed], start, c.Now())
    ensures Replayed(c.cfg, pre, plan[..landed], ids, failures, old(c.Now()), c.Now(), c.NeverFails())
  {
    assert GateHolds(start, pre, plan[..landed]);
    hide Run, Undo, HasDelete, GateHolds, ReverseLog, Stuck, NoChosenIds, Intact, Spares, Untouched, Records, Replayed;
    if (c.cfg.guardsZones ==> Intact(start)) && NoChosenIds(plan[..landed]) {
      RollbackGoesThroughIff(c.cfg, pre, start, plan[..landed]);
    }
    ghost var at := Progress(c.Now(), ids);
    failures := RollbackToPreimage(c, pre, plan[..landed], created, ids);
    UntouchedAfterRollback(c.cfg, plan[..landed], start, at, c.Now());
    if failures == [] {
      RollbackRestores(c.cfg, pre, start, plan[..landed]);
    }
  }

  /** A plan the controller takes whole is taken at every step. */
  lemma TakenPlanContinues(cfg: Config, w: World, plan: seq<Mutation>, landed: nat)
    requires landed <= |plan| && Run(cfg, w, plan).Some?
    ensures Run(cfg, w, plan[..landed]).Some?
    ensures landed < |plan| ==> ApplyEffect(cfg, Run(cfg, w, plan[..landed]).value.world, plan[landed]).Some?
  {
    hide ApplyEffect;
    RunPrefix(cfg, w, plan, landed);
    if landed < |plan| {
      RunPrefix(cfg, w, plan, landed + 1);
      assert plan[..landed + 1][..landed] == plan[..landed];
    }
  }

  lemma RecordsHold(created: map<nat, string>, ids: seq<Option<string>>)
    requires Records(created, ids)
    ensures forall i :: 0 <= i < |ids| && ids[i].Some? ==> i in created && created[i] == ids[i].value
  {
  }

  /** Every create of a run reports an id. */
  lemma {:induction false} CreatesAreRecorded(cfg: Config, w: World, plan: seq<Mutation>)
    requires Run(cfg, w, plan).Some?
    ensures forall i :: 0 <= i < |plan| && plan[i].Create? ==> Run(cfg, w, plan).value.ids[i].Some?
  {
    if plan != [] {
      CreatesAreRecorded(cfg, w, plan[..|plan| - 1]);
    }
  }

  lemma NothingTouched(plan: seq<Mutation>, w: World)
    ensures Untouched(plan, w, w)
  {
  }

  lemma UntouchedByMore(plan: seq<Mutation>, k: nat, before: World, after: World)
    requires k <= |plan| && Untouched(plan[..k], before, after)
    ensures Untouched(plan, before, after)
  {
    assert forall m :: m in plan[..k] ==> m in plan;
  }

  // ---- The three reports ----

  function Refused(plan: seq<Mutation>): (o: Outcome)
    ensures Conserves(o, plan)
  {
    Outcome(RefusedStale, [], plan, [], plan, [], None)
  }

  function Completed(plan: seq<Mutation>, verified: Result<(), UnifiError>): (o: Outcome)
    ensures Conserves(o, plan)
  {
    Outcome(if verified.Ok? then Applied else AppliedUnverified, plan, [], [], [], [],
            if verified.Ok? then None else Some(verified.error))
  }

  function Halted(plan: seq<Mutation>, landed: nat, failures: seq<nat>): (o: Outcome)
    requires landed < |plan|
    ensures Conserves(o, plan) && o.succeeded == plan[..landed] && o.attemptedAndFailed == [plan[landed]]
    ensures o.rollbackFailures == failures
  {
    Outcome(if failures == [] then Partial else PartialRollbackFailed,
            plan[..landed], plan[landed..], [plan[landed]], plan[landed + 1..], failures, None)
  }

  /**
  Applies the plan to a controller that may fail any call. `ids` names what each landed mutation created, for
  the contract only.
  */
  method ApplySequentially(c: Controller, pre: Preimage, plan: seq<Mutation>)
    returns (o: Outcome, ghost ids: seq<Option<string>>)
    requires c.Valid()
    modifies c
    ensures c.Valid()
    ensures Conserves(o, plan)
    // Every mutation is in exactly one list, in order, and at most one was tried and refused.
    ensures o.succeeded + o.attemptedAndFailed + o.neverAttempted == plan
    ensures o.failed == o.attemptedAndFailed + o.neverAttempted && |o.attemptedAndFailed| <= 1
    // A refused gate writes nothing; a passed one means the approval still describes the controller.
    ensures o.state.RefusedStale? ==> c.Now() == old(c.Now()) && c.log == old(c.log)
    ensures !o.state.RefusedStale? ==> GateHolds(old(c.Now()), pre, plan)
    ensures c.NeverFails() && GateHolds(old(c.Now()), pre, plan) ==> !o.state.RefusedStale?
    // What landed is a run of the plan's own prefix.
    ensures |ids| == |o.succeeded|
    ensures !o.state.RefusedStale? ==>
              Run(c.cfg, old(c.Now()), o.succeeded).Some? && Run(c.cfg, old(c.Now()), o.succeeded).value.ids == ids
    ensures o.state.Applied? || o.state.AppliedUnverified? ==>
              Run(c.cfg, old(c.Now()), plan) == Some(Progress(c.Now(), ids)) && c.log == old(c.log) + ForwardLog(plan)
    ensures o.state.Applied? ==> AllLanded(c.Now(), plan, ids)
    // `Applied` is a confirmation: updates there with their staged names, deletes gone, creates there.
    ensures o.state.Applied? ==> forall m :: m in plan && m.Update? ==>
              ParseKind(m.kind).Some? && m.id in c.store && c.store[m.id].kind == ParseKind(m.kind).value
              && (m.body.Get("name").Some? ==> c.store[m.id].body.Get("name") == m.body.Get("name"))
    ensures o.state.Applied? ==> forall m :: m in plan && m.Delete? ==>
              ParseKind(m.kind).Some? && !(m.id in c.store && c.store[m.id].kind == ParseKind(m.kind).value)
    ensures o.state.Applied? ==> forall i :: 0 <= i < |plan| && plan[i].Create? ==>
              ParseKind(plan[i].kind).Some? && ids[i].Some? && ids[i].value in c.store
              && c.store[ids[i].value].kind == ParseKind(plan[i].kind).value
    // A reachable controller that takes the whole plan leaves it applied, confirmed exactly when all of it landed.
    ensures c.NeverFails() && GateHolds(old(c.Now()), pre, plan) && Run(c.cfg, old(c.Now()), plan).Some? ==>
              o.state.Applied? || (o.state.AppliedUnverified? && !AllLanded(c.Now(), plan, ids))
    // Rollback touches exactly what landed, in reverse, each create under its own id.
    ensures o.state.Partial? || o.state.PartialRollbackFailed? ==>
              c.log == old(c.log) + ForwardLog(plan)[..|o.succeeded| + 1] + ReverseLog(pre, o.succeeded, ids)
    // A rollback that reports success restored the store exactly when nothing was lost for good.
    ensures o.state.Partial? ==>
              (c.store == old(c.store) <==> c.cfg.reinstates || !HasDelete(o.succeeded))
    // A rollback that reports success was not stuck, and on a reachable controller one that is not stuck succeeds.
    ensures o.state.Partial? || o.state.PartialRollbackFailed? ==>
              (c.cfg.guardsZones ==> Intact(old(c.Now()))) && NoChosenIds(o.succeeded) ==>
                && (o.state.Partial? ==> !Stuck(c.cfg, old(c.Now()), o.succeeded))
                && (c.NeverFails() && !Stuck(c.cfg, old(c.Now()), o.succeeded) ==> o.state.Partial?)
    // The failures reported are, last first, exactly the undos that did not happen.
    ensures o.state.Partial? || o.state.PartialRollbackFailed? ==>
              Replayed(c.cfg, pre, o.succeeded, ids, o.rollbackFailures,
                       Run(c.cfg, old(c.Now()), o.succeeded).value.world, c.Now(), c.NeverFails())
    // Whatever fails, a resource the plan does not address is as it was.
    ensures Untouched(plan, old(c.Now()), c.Now())
    // A plan that passed every check on a reachable controller does not stop halfway.
    ensures c.NeverFails() && CheckedPlan(old(c.Now()), pre, plan) ==> o.state.Applied?
  {
    hide Run, Undo, ApplyEffect, AllLanded, HasDelete, ReverseLog, ForwardLog, CheckedPlan, GateHolds;
    hide Conserves, Records, Stuck, NoChosenIds, Intact, Untouched, Replayed;
    ghost var before := c.Now();
    if c.NeverFails() && CheckedPlan(before, pre, plan) {
      CheckedGives(before, pre, plan);
    }
    var matches := c.PreimageMatches(pre, plan);
    if matches != Ok(true) {
      assert c.NeverFails() ==> !GateHolds(before, pre, plan) by { GateNeedsKinds(before, pre, plan); }
      NothingTouched(plan, before);
      return Refused(plan), [];
    }
    var landed, created;
    landed, created, ids := ApplyLoop(c, plan);
    if c.NeverFails() && CheckedPlan(before, pre, plan) {
      CheckedPlanRuns(c.cfg, before, pre, plan, landed);
    }
    if Run(c.cfg, before, plan).Some? {
      TakenPlanContinues(c.cfg, before, plan, landed);
    }
    if landed == |plan| {
      assert plan[..landed] == plan && ForwardLog(plan)[..landed] == ForwardLog(plan);
      CreatesAreRecorded(c.cfg, before, plan);
      RecordsHold(created, ids);
      var verified := c.VerifyApplied(plan, created, ids);
      RunUntouched(c.cfg, before, plan);
      return Completed(plan, verified), ids;
    }
    var failures := UndoLanded(c, before, pre, plan, landed, created, ids);
    UntouchedByMore(plan, landed, before, c.Now());
    o := Halted(plan, landed, failures);
  }

  /** One resource renamed twice by the same plan. */
  function RenamedTwice(kind: string, id: string, first: string, second: string): seq<Mutation> {
    [Update(kind, id, Obj(map["name" := Str(first)])), Update(kind, id, Obj(map["name" := Str(second)]))]
  }

  /** No state of a controller confirms both names. */
  lemma TwoNamesNeverLand(w: World, kind: string, id: string, first: string, second: string, ids: seq<Option<string>>)
    requires |ids| == 2 && first != second
    ensures !AllLanded(w, RenamedTwice(kind, id, first, second), ids)
  {
    var plan := RenamedTwice(kind, id, first, second);
    assert plan[0].body.Get("name") == Some(Str(first)) && plan[1].body.Get("name") == Some(Str(second));
    assert Landed(w, plan[0], ids[0]) ==> !Landed(w, plan[1], ids[1]);
  }

  /**
  A plan that names one resource twice is applied and never confirmed: verification looks for the first name
  too, and the second write has replaced it.
  */
  method ApplyTwoNames(c: Controller, pre: Preimage, kind: string, id: string, first: string, second: string)
    returns (o: Outcome)
    requires c.Valid() && c.NeverFails() && first != second
    requires GateHolds(c.Now(), pre, RenamedTwice(kind, id, first, second))
    requires Run(c.cfg, c.Now(), RenamedTwice(kind, id, first, second)).Some?
    modifies c
    ensures o.state.AppliedUnverified? && o.succeeded == RenamedTwice(kind, id, first, second)
  {
    hide Run, GateHolds, AllLanded;
    ghost var ids;
    o, ids := ApplySequentially(c, pre, RenamedTwice(kind, id, first, second));
    TwoNamesNeverLand(c.Now(), kind, id, first, second, ids);
  }
}
