/** What gets through: when a draft is held, staged, approved and applied. */
module LifecycleProgress {
  import opened Wrappers
  import opened StagedPlans
  import opened WritableFieldChecks
  import opened StoredPlans
  import opened Drafts
  import opened Lifecycle
  import opened LifecycleTheorems

  // ---- What is stored fits, on every run ----

  predicate PlanFits(r: Record) {
    |r.actions| <= 10 && forall a :: a in r.actions ==> Writable(a.mutation)
  }

  /** The record a call carries, if its plan has been built. */
  predicate CarriesFitting(c: Call) {
    c.Staging? || (PlanFits(c.record) && (c.StageReady? || c.StageHolding? ==> c.record.phase == Planned))
  }

  ghost predicate AllFit(s: Sys) {
    && (forall id :: id in s.records ==>
          PlanFits(s.records[id]) && (s.records[id].phase == Expired ==> s.now >= s.records[id].expires))
    && (forall c :: c in s.calls ==> CarriesFitting(s.calls[c]))
  }

  lemma BuiltPlanFits(plan: seq<Mutation>, pre: Preimage)
    ensures |ActionsFor(plan, pre)| == |plan|
  {
  }

  lemma StagingFits(env: Env, s: Sys, a: Action)
    requires AllFit(s)
    ensures a.BeginStage? || a.CreateDraft? || a.Insert? ==> AllFit(Step(env, s, a))
  {
    hide Held, Looked, Writable, Insertable, MayStage;
  }

  lemma BuildingFits(env: Env, s: Sys, a: Action)
    requires AllFit(s)
    ensures a.BuildPlan? ==> AllFit(Step(env, s, a))
  {
    hide Writable, ActionsFor;
    if a.BuildPlan? {
      BuiltPlanFits(a.plan, a.pre);
    }
  }

  lemma ApplyingFits(env: Env, s: Sys, a: Action)
    requires AllFit(s)
    ensures a.Claim? || a.CheckDeadline? || a.Start? ==> AllFit(Step(env, s, a))
  {
    hide Writable;
  }

  lemma SettlingFits(env: Env, s: Sys, a: Action)
    requires AllFit(s)
    ensures a.Finish? || a.Settle? ==> AllFit(Step(env, s, a))
  {
    hide Writable;
  }

  lemma ApprovingFits(env: Env, s: Sys, a: Action)
    requires AllFit(s)
    ensures a.BeginApprove? || a.Approve? ==> AllFit(Step(env, s, a))
  {
    hide Writable, MayApprove;
  }

  lemma LockingFits(env: Env, s: Sys, a: Action)
    requires AllFit(s)
    ensures a.TakeLock? || a.Propose? ==> AllFit(Step(env, s, a))
  {
    hide Writable;
  }

  lemma OthersFit(env: Env, s: Sys, a: Action)
    requires AllFit(s)
    ensures a.Tick? || a.Lapse? || a.Restart? || a.Drop? ==> AllFit(Step(env, s, a))
  {
    hide Writable, InFlight;
  }

  lemma {:induction false} RunFits(env: Env, s: Sys, actions: seq<Action>)
    requires AllFit(s)
    ensures AllFit(Exec(env, s, actions))
    decreases |actions|
  {
    if actions != [] {
      StagingFits(env, s, actions[0]);
      BuildingFits(env, s, actions[0]);
      LockingFits(env, s, actions[0]);
      ApprovingFits(env, s, actions[0]);
      ApplyingFits(env, s, actions[0]);
      SettlingFits(env, s, actions[0]);
      OthersFit(env, s, actions[0]);
      hide Step, AllFit;
      RunFits(env, Step(env, s, actions[0]), actions[1..]);
    }
  }

  /** Every set ever stored has at most ten mutations, all of them writable, and expires only past its window. */
  lemma StoredSetsFit(env: Env, authenticated: bool, actions: seq<Action>, id: string)
    requires id in Exec(env, Boot(authenticated), actions).records
    ensures var s := Exec(env, Boot(authenticated), actions);
            && |s.records[id].actions| <= 10
            && (forall a :: a in s.records[id].actions ==> Writable(a.mutation))
            && (s.records[id].phase == Expired ==> s.now >= s.records[id].expires)
  {
    RunFits(env, Boot(authenticated), actions);
    hide Exec;
  }

  // ---- Drafting ----

  /**
  A draft is held exactly when its creator may create and has no draft in its window on that controller, and fewer
  than 32 drafts are in their windows.
  */
  lemma DraftedIff(env: Env, s: Sys, caller: Caller, id: string, controller: string, description: string)
    requires id !in s.drafts && (caller.Some? <==> s.authenticated)
    ensures var t := Step(env, s, CreateDraft(caller, id, controller, description, false));
            var name := if caller.Some? then caller.value else "unknown";
            && (id in t.drafts <==>
                  && (caller.Some? ==> env.tokens(caller.value).canCreate)
                  && (forall other :: other in s.drafts && Young(s.drafts[other], s.now, env.ttl) ==>
                        s.drafts[other].owner != name || s.drafts[other].controller != controller)
                  && |Swept(s.drafts, s.now, env.ttl)| < 32)
            && (id in t.drafts ==> t.drafts[id] == Draft(controller, name, description, s.now))
  {
    forall other
      ensures other in Swept(s.drafts, s.now, env.ttl)
              <==> other in s.drafts && Young(s.drafts[other], s.now, env.ttl)
    {
      SweptKeepsTheYoung(s.drafts, s.now, env.ttl, other);
    }
    hide Swept, Young;
  }

  /** A draft looked up past its window is forgotten, and nothing is staged from it. */
  lemma LapsedDraftIsForgotten(env: Env, s: Sys, call: nat, caller: Caller, id: string)
    requires id in s.drafts && !Young(s.drafts[id], s.now, env.ttl) && call !in s.calls
    requires (caller.Some? <==> s.authenticated) && MayStage(env, caller)
    ensures Step(env, s, BeginStage(call, caller, id, s.drafts[id].controller)) == s.(drafts := s.drafts - {id})
  {
  }

  // ---- Approving ----

  lemma ApprovalBegins(env: Env, s: Sys, call: nat, caller: Caller, id: string, expected: Option<Digest>)
    requires id in s.records && call !in s.calls && (caller.Some? <==> s.authenticated)
    ensures var r := s.records[id];
            Step(env, s, BeginApprove(call, caller, id, r.device, expected))
            == if MayApprove(env, caller) && r.actions != [] && AllWritable(r.actions)
                  && (expected.Some? ==> expected.value == r.digest)
               then s.(calls := s.calls[call := Approving(caller, id, r, expected)]) else s
  {
    hide AllWritable, MayApprove;
  }

  lemma ApprovalLocks(env: Env, s: Sys, call: nat, caller: Caller, id: string, r: Record, expected: Option<Digest>)
    requires s.lock.None?
    ensures Step(env, s.(calls := s.calls[call := Approving(caller, id, r, expected)]), TakeLock(call))
            == s.(calls := s.calls[call := ApproveHolding(caller, id, r, expected)], lock := Some(call))
  {
    var c := Approving(caller, id, r, expected);
    assert s.calls[call := c][call := ApproveHolding(caller, id, r, expected)]
        == s.calls[call := ApproveHolding(caller, id, r, expected)];
  }

  lemma ApprovalLands(env: Env, s: Sys, call: nat, caller: Caller, id: string, expected: Option<Digest>)
    requires id in s.records && s.records[id].phase == Planned && call !in s.calls && s.lock.None?
    ensures var r := s.records[id];
            var t := Step(env, s.(calls := s.calls[call := ApproveHolding(caller, id, r, expected)],
                                  lock := Some(call)), Approve(call));
            var name := if caller.Some? then caller.value else "unknown";
            var entitled := if name == r.owner then env.lab
                            else caller.Some? && env.tokens(caller.value).actor == Human;
            && call !in t.calls && t.lock.None? && id in t.records
            && (if entitled && s.now < r.expires
                then t.records[id].phase == Approved && |t.log| == |s.log| + 1 && t.log[..|s.log|] == s.log
                     && t.log[|s.log|].Attested? && t.log[|s.log|].id == id && t.log[|s.log|].who == caller
                     && t.log[|s.log|].approval.waived == (name == r.owner)
                else t.records[id].phase == Planned && t.log == s.log)
  {
    hide AllWritable, MayApprove;
  }

  /**
  A planned set is approved by one uninterrupted approval exactly when its window is open, the plan has something
  to apply and is writable, the digest the caller named is the stored one, and the caller may: by scope, and as a
  human other than the owner, or as the owner in lab mode. Otherwise it stays planned and nothing is recorded.
  */
  lemma ApprovedIff(env: Env, s: Sys, call: nat, caller: Caller, id: string, expected: Option<Digest>)
    requires id in s.records && s.records[id].phase == Planned && call !in s.calls && s.lock.None?
    requires caller.Some? <==> s.authenticated
    ensures var r := s.records[id];
            var t := Exec(env, s, [BeginApprove(call, caller, id, r.device, expected), TakeLock(call), Approve(call)]);
            var name := if caller.Some? then caller.value else "unknown";
            var scoped := caller.Some? ==>
                            env.tokens(caller.value).canApprove && (env.lab || !env.tokens(caller.value).canStage);
            var entitled := if name == r.owner then env.lab
                            else caller.Some? && env.tokens(caller.value).actor == Human;
            var sound := r.actions != [] && (forall a :: a in r.actions ==> Writable(a.mutation))
                         && (expected.Some? ==> expected.value == r.digest) && s.now < r.expires;
            && call !in t.calls && t.lock.None? && id in t.records
            && (if scoped && entitled && sound
                then t.records[id].phase == Approved && |t.log| == |s.log| + 1 && t.log[..|s.log|] == s.log
                     && t.log[|s.log|].Attested? && t.log[|s.log|].id == id && t.log[|s.log|].who == caller
                     && t.log[|s.log|].approval.waived == (name == r.owner)
                else t.records[id].phase == Planned && t.log == s.log)
  {
    var r := s.records[id];
    ExecThree(env, s, BeginApprove(call, caller, id, r.device, expected), TakeLock(call), Approve(call));
    ApprovalBegins(env, s, call, caller, id, expected);
    ApprovalLocks(env, s, call, caller, id, r, expected);
    ApprovalLands(env, s, call, caller, id, expected);
    if Step(env, s, BeginApprove(call, caller, id, r.device, expected)) == s {
      assert Step(env, s, TakeLock(call)) == s && Step(env, s, Approve(call)) == s;
    }
    hide Exec, Step, Writable;
  }

  // ---- Staging ----

  /** The record an open draft is staged as. */
  function StagedFrom(env: Env, s: Sys, d: Draft, plan: seq<Mutation>, pre: Preimage): Record {
    var actions := ActionsFor(plan, pre);
    Record(d.owner, d.controller, actions, Digest(d.owner, d.controller, actions), Planned, None, s.now + env.ttl)
  }

  lemma StagingBegins(env: Env, s: Sys, call: nat, caller: Caller, id: string)
    requires id in s.drafts && Young(s.drafts[id], s.now, env.ttl) && call !in s.calls
    requires caller.Some? <==> s.authenticated
    ensures var d := s.drafts[id];
            Step(env, s, BeginStage(call, caller, id, d.controller))
            == if MayStage(env, caller) then s.(calls := s.calls[call := Staging(caller, id, d.controller, d)]) else s
  {
    hide MayStage;
  }

  lemma StagingBuilds(env: Env, s: Sys, call: nat, caller: Caller, id: string, d: Draft, plan: seq<Mutation>,
                      pre: Preimage)
    requires call !in s.calls && s.lock.None?
    ensures var begun := s.(calls := s.calls[call := Staging(caller, id, d.controller, d)]);
            Step(env, begun, BuildPlan(call, plan, pre))
            == if AllWritable(ActionsFor(plan, pre)) && |plan| <= 10
               then s.(calls := s.calls[call := StageReady(caller, id, StagedFrom(env, s, d, plan, pre))]) else s
  {
    hide AllWritable, ActionsFor;
    assert s.calls[call := Staging(caller, id, d.controller, d)] - {call} == s.calls;
  }

  lemma StagingLocks(env: Env, s: Sys, call: nat, caller: Caller, id: string, r: Record)
    requires s.lock.None?
    ensures Step(env, s.(calls := s.calls[call := StageReady(caller, id, r)]), TakeLock(call))
            == s.(calls := s.calls[call := StageHolding(caller, id, r)], lock := Some(call))
  {
    assert s.calls[call := StageReady(caller, id, r)][call := StageHolding(caller, id, r)]
        == s.calls[call := StageHolding(caller, id, r)];
  }

  lemma StagingLands(env: Env, s: Sys, call: nat, caller: Caller, id: string, r: Record)
    requires call !in s.calls && id !in s.records
    ensures var holding := s.(calls := s.calls[call := StageHolding(caller, id, r)], lock := Some(call));
            var t := Step(env, Step(env, holding, Insert(call)), Propose(call));
            && (id in t.records <==> Insertable(s.records, id, r, s.now))
            && (id in t.records ==> t.records[id] == r && id in t.proposals && t.proposals[id] == r.digest
                                    && id !in t.drafts)
  {
    hide Insertable;
  }

  lemma NothingInTheWay(records: map<string, Record>, id: string, r: Record, now: nat)
    requires id !in records
    ensures Insertable(records, id, r, now) <==>
              forall other :: other in records && records[other].owner == r.owner
                              && records[other].device == r.device ==>
                || records[other].phase in {Phase.Applied, Failed, Expired}
                || (records[other].phase in {Planned, Approved} && now >= records[other].expires)
  {
  }

  lemma AbsentCallDoesNothing(env: Env, s: Sys, call: nat, plan: seq<Mutation>, pre: Preimage)
    requires call !in s.calls
    ensures Step(env, s, BuildPlan(call, plan, pre)) == s && Step(env, s, TakeLock(call)) == s
    ensures Step(env, s, Insert(call)) == s && Step(env, s, Propose(call)) == s
  {
  }

  /**
  An open draft under an unused id becomes a planned set exactly when the caller may stage, the plan has at most
  ten mutations and is writable, and no set of the draft's owner on that controller is in the way. What is stored
  is then the draft owner's plan with the whole approval window before it, and the draft is gone.
  */
  lemma StagedIff(env: Env, s: Sys, call: nat, caller: Caller, id: string, plan: seq<Mutation>, pre: Preimage)
    requires id in s.drafts && Young(s.drafts[id], s.now, env.ttl) && call !in s.calls && s.lock.None?
    requires id !in s.records && (caller.Some? <==> s.authenticated)
    ensures var d := s.drafts[id];
            var t := Exec(env, s, [BeginStage(call, caller, id, d.controller), BuildPlan(call, plan, pre),
                                   TakeLock(call), Insert(call), Propose(call)]);
            var scoped := caller.Some? ==>
                            env.tokens(caller.value).canStage && (env.lab || !env.tokens(caller.value).canApprove);
            var fits := |plan| <= 10 && forall m :: m in plan ==> Writable(m);
            var free := forall other :: other in s.records && s.records[other].owner == d.owner
                                        && s.records[other].device == d.controller ==>
                          || s.records[other].phase in {Phase.Applied, Failed, Expired}
                          || (s.records[other].phase in {Planned, Approved} && s.now >= s.records[other].expires);
            && (id in t.records <==> scoped && fits && free)
            && (id in t.records ==>
                  && t.records[id].owner == d.owner && t.records[id].device == d.controller
                  && t.records[id].phase == Planned && t.records[id].expires == s.now + env.ttl
                  && |t.records[id].actions| == |plan|
                  && (forall i :: 0 <= i < |plan| ==> t.records[id].actions[i].mutation == plan[i])
                  && id in t.proposals && t.proposals[id] == t.records[id].digest && id !in t.drafts)
  {
    var d := s.drafts[id];
    var r := StagedFrom(env, s, d, plan, pre);
    ExecFive(env, s, BeginStage(call, caller, id, d.controller), BuildPlan(call, plan, pre), TakeLock(call),
             Insert(call), Propose(call));
    StagingBegins(env, s, call, caller, id);
    StagingBuilds(env, s, call, caller, id, d, plan, pre);
    StagingLocks(env, s, call, caller, id, r);
    StagingLands(env, s, call, caller, id, r);
    AbsentCallDoesNothing(env, s, call, plan, pre);
    ActionsAre(plan, pre);
    NothingInTheWay(s.records, id, r, s.now);
    hide Exec, Step, Writable, ActionsFor, Insertable, AllWritable, Young;
  }

  lemma ActionsAre(plan: seq<Mutation>, pre: Preimage)
    ensures |ActionsFor(plan, pre)| == |plan|
    ensures forall i :: 0 <= i < |plan| ==> ActionsFor(plan, pre)[i].mutation == plan[i]
    ensures AllWritable(ActionsFor(plan, pre)) <==> forall m :: m in plan ==> Writable(m)
  {
    var actions := ActionsFor(plan, pre);
    hide Writable;
    forall m | m in plan
      ensures exists a :: a in actions && a.mutation == m
    {
      var i :| 0 <= i < |plan| && plan[i] == m;
      assert actions[i] in actions;
    }
    forall a | a in actions
      ensures a.mutation in plan
    {
      var i :| 0 <= i < |actions| && actions[i] == a;
      assert plan[i] in plan;
    }
  }

  lemma ExecFive(env: Env, s: Sys, a: Action, b: Action, c: Action, d: Action, e: Action)
    ensures Exec(env, s, [a, b, c, d, e])
            == Step(env, Step(env, Step(env, Step(env, Step(env, s, a), b), c), d), e)
  {
    hide Step;
    ExecConcat(env, s, [a, b, c], [d, e]);
    assert [a, b, c] + [d, e] == [a, b, c, d, e];
    ExecThree(env, s, a, b, c);
    assert [d, e][1..] == [e];
    ExecOne(env, Step(env, Exec(env, s, [a, b, c]), d), e);
  }

  // ---- Applying ----

  lemma ClaimLands(env: Env, s: Sys, call: nat, caller: Caller, id: string)
    requires id in s.records && s.records[id].phase == Approved && call !in s.calls
    requires (caller.Some? <==> s.authenticated) && (caller.Some? ==> env.tokens(caller.value).canApply)
    ensures var claimed := Step(env, s, Claim(call, caller, id, s.records[id].device));
            claimed.now == s.now && call in claimed.calls
            && claimed.calls[call] == Claimed(caller, id, s.records[id].(phase := Applying))
  {
  }

  /**
  An approved set can be applied: a caller who may apply, claiming it and going through to the end, leaves it
  `Applied` exactly when the claim is inside the window, its plan reads back and is writable, and the outcome
  says every write landed. Any other way it is `Failed`, and its approval is spent.
  */
  lemma ApprovedSetIsApplied(env: Env, s: Sys, call: nat, caller: Caller, id: string, ready: bool,
                             outcome: Outcomes.State)
    requires id in s.records && s.records[id].phase == Approved && call !in s.calls
    requires (caller.Some? <==> s.authenticated) && (caller.Some? ==> env.tokens(caller.value).canApply)
    ensures var r := s.records[id];
            var t := Exec(env, s, [Claim(call, caller, id, r.device), CheckDeadline(call), Start(call, ready),
                                   Finish(call, outcome), Settle(call, true)]);
            && id in t.records && (t.records[id].phase == Phase.Applied || t.records[id].phase == Failed)
            && (t.records[id].phase == Phase.Applied <==>
                  && ready && s.now < r.expires && (forall a :: a in r.actions ==> Writable(a.mutation))
                  && (outcome == Outcomes.Applied || outcome == Outcomes.AppliedUnverified))
  {
    var r := s.records[id];
    var claim := Claim(call, caller, id, r.device);
    ExecOne(env, s, claim);
    var claimed := Step(env, s, claim);
    ClaimLands(env, s, call, caller, id);
    hide Step;
    EveryClaimCanSettle(env, claimed, call, ready, outcome, [], [], [], []);
    assert Exec(env, claimed, []).now == s.now;
    hide Exec;
    var rest := [CheckDeadline(call), Start(call, ready), Finish(call, outcome), Settle(call, true)];
    ExecConcat(env, s, [claim], rest);
    assert [] + [CheckDeadline(call)] + [] + [Start(call, ready)] + [] + [Finish(call, outcome)] + []
           + [Settle(call, true)] == rest;
    assert [claim] + rest
        == [claim, CheckDeadline(call), Start(call, ready), Finish(call, outcome), Settle(call, true)];
  }
}
