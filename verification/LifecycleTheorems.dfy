/** The promises of the lifecycle, over every run of any callers and any restarts. */
module LifecycleTheorems {
  import opened Wrappers
  import opened StagedPlans
  import opened WritableFieldChecks
  import opened StoredPlans
  import opened Drafts
  import opened Lifecycle
  import opened LifecycleProofs

  /**
  Attestation under the lock: whenever an approval is emitted it covers the stored plan, and the plan stored
  under that id is still the one approved. The recorder attests exactly that plan's digest if the set was
  staged in the approving process. A set an earlier process staged is approved with nothing attested, never
  with another digest. An approver who named a digest named that plan's, every approval falls inside the
  window, and no set is approved twice.
  */
  lemma EveryApprovalAttestsTheStoredPlan(env: Env, authenticated: bool, actions: seq<Action>)
    ensures var s := Exec(env, Boot(authenticated), actions);
            forall e :: e in s.log && e.Attested? ==>
              && e.id in s.records
              && e.approval.digest == s.records[e.id].digest
              && s.records[e.id].digest
                 == Digest(s.records[e.id].owner, s.records[e.id].device, s.records[e.id].actions)
              && (if exists a :: a in s.log && a.StagedBy? && a.id == e.id && a.process == e.process
                  then e.attested == Some(s.records[e.id].digest)
                  else e.attested == None
                       && exists a :: a in s.log && a.StagedBy? && a.id == e.id && a.process < e.process)
              && (e.expected.Some? ==> e.expected.value == s.records[e.id].digest)
              && e.at < s.records[e.id].expires
    ensures var log := Exec(env, Boot(authenticated), actions).log;
            forall i, j :: 0 <= i < j < |log| && log[i].Attested? && log[j].Attested? ==> log[i].id != log[j].id
  {
    ReachableInv(env, authenticated, actions);
    var s := Exec(env, Boot(authenticated), actions);
    hide Exec;
    forall e | e in s.log && e.Attested?
      ensures AttestOk(s.records, s.log, e) && EventOk(env, s.records, e) && RecordOk(env, s.records[e.id])
    {
      assert EventOk(env, s.records, e);
      RecordGives(env, s, 0, e.id);
    }
  }

  /**
  Every step was within its caller's scopes: staged by a token that may stage, approved by one that may approve,
  applied by one that may apply, owned by one that may create. Outside lab mode no token used to stage may also
  approve, and none used to approve may also stage.
  */
  lemma ScopesHold(env: Env, authenticated: bool, actions: seq<Action>)
    ensures var s := Exec(env, Boot(authenticated), actions);
            && (forall e :: e in s.log && e.StagedBy? && e.who.Some? ==>
                  env.tokens(e.who.value).canStage && (env.lab || !env.tokens(e.who.value).canApprove))
            && (forall e :: e in s.log && e.Attested? && e.who.Some? ==>
                  env.tokens(e.who.value).canApprove && (env.lab || !env.tokens(e.who.value).canStage))
            && (forall e :: e in s.log && e.Started? && e.who.Some? ==> env.tokens(e.who.value).canApply)
            && (forall id :: id in s.records ==>
                  s.records[id].owner == "unknown" || env.tokens(s.records[id].owner).canCreate)
  {
    ReachableInv(env, authenticated, actions);
    var s := Exec(env, Boot(authenticated), actions);
    hide Exec;
    forall e | e in s.log
      ensures EventOk(env, s.records, e)
    {
    }
    forall id | id in s.records
      ensures MayOwn(env, s.records[id].owner)
    {
      RecordGives(env, s, 0, id);
    }
  }

  /**
  One at a time: of one owner's sets on one controller at most one is planned, approved or being applied inside
  its window. And each id is staged at most once.
  */
  lemma OneOpenSetEach(env: Env, authenticated: bool, actions: seq<Action>, a: string, b: string)
    requires var s := Exec(env, Boot(authenticated), actions);
             && a in s.records && b in s.records && a != b
             && s.records[a].owner == s.records[b].owner && s.records[a].device == s.records[b].device
    ensures var s := Exec(env, Boot(authenticated), actions);
            || s.now >= s.records[a].expires || s.now >= s.records[b].expires
            || s.records[a].phase in {Phase.Applied, Failed, Expired}
            || s.records[b].phase in {Phase.Applied, Failed, Expired}
    ensures var log := Exec(env, Boot(authenticated), actions).log;
            forall i, j :: 0 <= i < j < |log| && log[i].StagedBy? && log[j].StagedBy? ==> log[i].id != log[j].id
  {
    ReachableInv(env, authenticated, actions);
    hide Exec, StoreOk, CallsOk, ApplyOk, RecorderOk;
    var s := Exec(env, Boot(authenticated), actions);
    assert SameQueueAs(s.records[a], s.records[b]);
  }

  /** Nothing is approved or started later than the approval window counted from the moment it was staged. */
  lemma WindowCountsFromStaging(env: Env, authenticated: bool, actions: seq<Action>, a: Event, e: Event)
    requires a in Exec(env, Boot(authenticated), actions).log && e in Exec(env, Boot(authenticated), actions).log
    requires a.StagedBy?
    ensures e.Attested? && e.id == a.id ==> e.at < a.at + env.ttl
    ensures e.Started? && e.id == a.id ==> e.checkedAt < a.at + env.ttl
  {
    ReachableInv(env, authenticated, actions);
    var s := Exec(env, Boot(authenticated), actions);
    hide Exec;
    assert EventOk(env, s.records, a) && EventOk(env, s.records, e);
  }

  /**
  At most one execution: over any interleaving and any restarts, apply starts at most once per change set, and
  only for a claimed and approved set, inside its window at the check, whose plan is writable.
  */
  lemma AtMostOneExecution(env: Env, authenticated: bool, actions: seq<Action>)
    ensures var s := Exec(env, Boot(authenticated), actions);
            && (forall i, j :: 0 <= i < j < |s.log| && s.log[i].Started? && s.log[j].Started? ==>
                  s.log[i].id != s.log[j].id)
            && (forall e :: e in s.log && e.Started? ==>
                  && e.id in s.records && s.records[e.id].approval.Some?
                  && s.records[e.id].phase in {Applying, Phase.Applied, Failed}
                  && e.checkedAt < s.records[e.id].expires
                  && (forall a :: a in s.records[e.id].actions ==> Writable(a.mutation)))
  {
    ReachableInv(env, authenticated, actions);
    var s := Exec(env, Boot(authenticated), actions);
    forall e | e in s.log && e.Started?
      ensures EventOk(env, s.records, e) && s.records[e.id].approval.Some?
      ensures s.records[e.id].phase in {Applying, Phase.Applied, Failed}
    {
      assert EventOk(env, s.records, e);
      RecordGives(env, s, 0, e.id);
      assert HasStarted(s.log, e.id);
    }
  }

  /**
  Always settled, over every interleaving. A set is `Applied` exactly when a settlement on one of the two
  outcomes that say every write landed was recorded, and then apply had started. It is `Failed` exactly when one
  on any of the three others, or on none, was. It is settled at most once, and `Applying` only while a call
  works on it or after that call was lost.
  */
  lemma ClaimsAreSettled(env: Env, authenticated: bool, actions: seq<Action>, id: string)
    requires id in Exec(env, Boot(authenticated), actions).records
    ensures var s := Exec(env, Boot(authenticated), actions);
            && (s.records[id].phase == Phase.Applied <==>
                  exists e :: e in s.log && e.SettledAs? && e.id == id
                              && (e.outcome == Some(Outcomes.Applied) || e.outcome == Some(Outcomes.AppliedUnverified)))
            && (s.records[id].phase == Failed <==>
                  exists e :: e in s.log && e.SettledAs? && e.id == id
                              && (e.outcome == None || e.outcome == Some(Outcomes.Partial)
                                  || e.outcome == Some(Outcomes.PartialRollbackFailed)
                                  || e.outcome == Some(Outcomes.RefusedStale)))
            && (s.records[id].phase == Phase.Applied ==> exists e :: e in s.log && e.Started? && e.id == id)
            && (s.records[id].phase == Applying ==> HasApply(s.calls, id) || WasLost(s.log, id))
            && (forall i, j :: 0 <= i < j < |s.log| && s.log[i].SettledAs? && s.log[j].SettledAs? ==>
                  s.log[i].id != s.log[j].id)
  {
    ReachableInv(env, authenticated, actions);
    var s := Exec(env, Boot(authenticated), actions);
    hide Exec;
    forall e | e in s.log && e.SettledAs?
      ensures EventOk(env, s.records, e)
    {
      assert EventOk(env, s.records, e);
    }
    if Finished(s.records[id]) {
      var e :| e in s.log && e.SettledAs? && e.id == id && e.phase == s.records[id].phase;
      SplitOutcomes(e.outcome);
    }
    forall e | e in s.log && e.SettledAs? && e.id == id
      ensures s.records[id].phase == PhaseFor(e.outcome)
    {
      SplitOutcomes(e.outcome);
    }
  }

  /** The two outcomes that settle as `Applied`, and the four that do not. */
  lemma SplitOutcomes(outcome: Option<Outcomes.State>)
    ensures PhaseFor(outcome) == Phase.Applied
            <==> outcome == Some(Outcomes.Applied) || outcome == Some(Outcomes.AppliedUnverified)
    ensures PhaseFor(outcome) == Failed
            <==> outcome == None || outcome == Some(Outcomes.Partial)
                 || outcome == Some(Outcomes.PartialRollbackFailed) || outcome == Some(Outcomes.RefusedStale)
  {
  }

  /** A run in two parts. */
  lemma {:induction false} ExecConcat(env: Env, s: Sys, first: seq<Action>, second: seq<Action>)
    ensures Exec(env, s, first + second) == Exec(env, Exec(env, s, first), second)
    decreases |first|
  {
    hide Step;
    if first == [] {
      assert first + second == second;
    } else {
      assert (first + second)[1..] == first[1..] + second;
      ExecConcat(env, Step(env, s, first[0]), first[1..], second);
    }
  }

  lemma StepLogGrows(env: Env, s: Sys, a: Action)
    ensures s.log <= Step(env, s, a).log
  {
    hide DoClaim, DoCheckDeadline, DoStart, DoFinish, DoSettle, DoApprove, DoBeginApprove;
    hide Looked, Held, ActionsFor, AllWritable, Insertable, MayStage;
    ApplyLogGrows(env, s, a);
  }

  lemma ApplyLogGrows(env: Env, s: Sys, a: Action)
    ensures a.Claim? || a.CheckDeadline? || a.Start? || a.Finish? || a.Settle? || a.Approve? || a.BeginApprove? ==>
              s.log <= Step(env, s, a).log
  {
    hide DoDrop, DoRestart, DoCreate, DoBeginStage, DoBuildPlan, DoTakeLock, DoInsert, DoPropose, DoLapse;
    hide AllWritable, Approvable, MayApprove, PhaseFor, Principal, ActorOf;
  }

  lemma {:induction false} LogGrows(env: Env, s: Sys, actions: seq<Action>)
    ensures s.log <= Exec(env, s, actions).log
    decreases |actions|
  {
    hide Step;
    if actions != [] {
      StepLogGrows(env, s, actions[0]);
      LogGrows(env, Step(env, s, actions[0]), actions[1..]);
    }
  }

  /** A settlement is final: however the run goes on, a set once `Applied` or `Failed` stays that. */
  lemma SettlementIsFinal(env: Env, authenticated: bool, first: seq<Action>, later: seq<Action>, id: string)
    requires id in Exec(env, Boot(authenticated), first).records
    requires Finished(Exec(env, Boot(authenticated), first).records[id])
    ensures var t := Exec(env, Boot(authenticated), first + later);
            id in t.records && t.records[id].phase == Exec(env, Boot(authenticated), first).records[id].phase
  {
    hide Exec;
    var s := Exec(env, Boot(authenticated), first);
    ReachableInv(env, authenticated, first);
    ReachableInv(env, authenticated, first + later);
    ExecConcat(env, Boot(authenticated), first, later);
    LogGrows(env, s, later);
    var e :| e in s.log && e.SettledAs? && e.id == id && e.phase == s.records[id].phase;
    var t := Exec(env, Boot(authenticated), first + later);
    assert e in t.log && EventOk(env, t.records, e);
  }

  // ---- No claim is stuck ----

  /** A step that neither moves this call nor ends the process it is in. */
  predicate Elsewhere(call: nat, a: Action) {
    match a
    case Tick(_) => true
    case Lapse(_) => true
    case Restart(_) => false
    case CreateDraft(_, _, _, _, _) => true
    case _ => a.call != call
  }

  lemma ApplyElsewhere(env: Env, s: Sys, a: Action, call: nat)
    requires call in s.calls && Elsewhere(call, a) && (a.CheckDeadline? || a.Start?)
    ensures call in Step(env, s, a).calls && Step(env, s, a).calls[call] == s.calls[call]
  {
    hide AllWritable;
  }

  lemma FinishElsewhere(env: Env, s: Sys, a: Action, call: nat)
    requires call in s.calls && Elsewhere(call, a) && (a.Finish? || a.Settle?)
    ensures call in Step(env, s, a).calls && Step(env, s, a).calls[call] == s.calls[call]
  {
    hide PhaseFor;
  }

  lemma ApproveElsewhere(env: Env, s: Sys, a: Action, call: nat)
    requires call in s.calls && Elsewhere(call, a)
    requires a.Claim? || a.Approve? || a.BeginApprove?
    ensures call in Step(env, s, a).calls && Step(env, s, a).calls[call] == s.calls[call]
  {
    hide AllWritable, Approvable, MayApprove, Principal, ActorOf;
  }

  lemma StepElsewhere(env: Env, s: Sys, a: Action, call: nat)
    requires call in s.calls && Elsewhere(call, a)
    ensures call in Step(env, s, a).calls && Step(env, s, a).calls[call] == s.calls[call]
  {
    if a.CheckDeadline? || a.Start? {
      ApplyElsewhere(env, s, a, call);
    } else if a.Finish? || a.Settle? {
      FinishElsewhere(env, s, a, call);
    } else if a.Claim? || a.Approve? || a.BeginApprove? {
      ApproveElsewhere(env, s, a, call);
    } else {
      hide Looked, Held, ActionsFor, AllWritable, Insertable, MayStage;
    }
  }

  lemma {:induction false} StaysPut(env: Env, s: Sys, actions: seq<Action>, call: nat)
    requires call in s.calls && forall a :: a in actions ==> Elsewhere(call, a)
    ensures call in Exec(env, s, actions).calls && Exec(env, s, actions).calls[call] == s.calls[call]
    decreases |actions|
  {
    hide Step;
    if actions != [] {
      assert actions[0] in actions;
      StepElsewhere(env, s, actions[0], call);
      StaysPut(env, Step(env, s, actions[0]), actions[1..], call);
    }
  }

  /** A run, a stretch in which this call stays where it is, and one step. */
  lemma ExecThen(env: Env, s: Sys, before: seq<Action>, gap: seq<Action>, a: Action, call: nat)
    requires call in Exec(env, s, before).calls && forall b :: b in gap ==> Elsewhere(call, b)
    ensures var mid := Exec(env, Exec(env, s, before), gap);
            && Exec(env, s, before + gap + [a]) == Step(env, mid, a)
            && call in mid.calls && mid.calls[call] == Exec(env, s, before).calls[call]
  {
    hide Step;
    StaysPut(env, Exec(env, s, before), gap, call);
    ExecConcat(env, s, before, gap);
    ExecConcat(env, s, before + gap, [a]);
    assert [a][1..] == [];
  }

  /** The outcome an apply call will settle with, if its deadline is checked at `at`. */
  function Promised(c: Call, at: nat, ready: bool, outcome: Outcomes.State): Option<Outcomes.State>
    requires c.IsApply()
  {
    match c
    case Settling(_, _, _, reached) => reached
    case Running(_, _, _) => Some(outcome)
    case Cleared(_, _, r, _) => if ready && AllWritable(r.actions) then Some(outcome) else None
    case Claimed(_, _, r) => if at < r.expires && ready && AllWritable(r.actions) then Some(outcome) else None
  }

  /** One of the call's own steps leads from `c` to `d` and leaves what it will settle as it was. */
  predicate Advances(c: Call, d: Call, at: nat, ready: bool, outcome: Outcomes.State) {
    && c.IsApply() && d.IsApply() && !d.Claimed? && d.id == c.id && d.record == c.record
    && Promised(d, at, ready, outcome) == Promised(c, at, ready, outcome)
  }

  lemma CheckAdvances(s: Sys, call: nat, ready: bool, outcome: Outcomes.State)
    requires call in s.calls && s.calls[call].IsApply()
    ensures call in DoCheckDeadline(s, call).calls
    ensures Advances(s.calls[call], DoCheckDeadline(s, call).calls[call], s.now, ready, outcome)
  {
    hide AllWritable;
  }

  lemma StartAdvances(s: Sys, call: nat, at: nat, ready: bool, outcome: Outcomes.State)
    requires call in s.calls && s.calls[call].IsApply() && !s.calls[call].Claimed?
    ensures call in DoStart(s, call, ready).calls && !DoStart(s, call, ready).calls[call].Cleared?
    ensures Advances(s.calls[call], DoStart(s, call, ready).calls[call], at, ready, outcome)
  {
    hide AllWritable;
  }

  lemma FinishAdvances(s: Sys, call: nat, at: nat, ready: bool, outcome: Outcomes.State)
    requires call in s.calls && (s.calls[call].Running? || s.calls[call].Settling?)
    ensures call in DoFinish(s, call, outcome).calls && DoFinish(s, call, outcome).calls[call].Settling?
    ensures Advances(s.calls[call], DoFinish(s, call, outcome).calls[call], at, ready, outcome)
  {
    hide AllWritable;
  }

  lemma SettleEnds(s: Sys, call: nat)
    requires call in s.calls && s.calls[call].Settling?
    ensures var c := s.calls[call];
            var t := DoSettle(s, call, true);
            && call !in t.calls && c.id in t.records && t.records[c.id] == c.record.(phase := PhaseFor(c.outcome))
            && t.log == s.log + [SettledAs(c.id, c.outcome, PhaseFor(c.outcome))]
  {
  }

  /** After this run the call is further on, and still settles to the same. */
  ghost predicate Reached(env: Env, s: Sys, run: seq<Action>, call: nat, c: Call, at: nat, ready: bool,
                          outcome: Outcomes.State) {
    call in Exec(env, s, run).calls && Advances(c, Exec(env, s, run).calls[call], at, ready, outcome)
  }

  lemma CheckLeg(env: Env, s: Sys, call: nat, ready: bool, outcome: Outcomes.State, gap: seq<Action>)
    requires call in s.calls && s.calls[call].IsApply() && forall a :: a in gap ==> Elsewhere(call, a)
    ensures Reached(env, s, gap + [CheckDeadline(call)], call, s.calls[call], Exec(env, s, gap).now, ready, outcome)
  {
    hide DoCheckDeadline, Elsewhere, Advances;
    assert Exec(env, s, []) == s && [] + gap == gap;
    ExecThen(env, s, [], gap, CheckDeadline(call), call);
    CheckAdvances(Exec(env, s, gap), call, ready, outcome);
  }

  lemma StartLeg(env: Env, s: Sys, run: seq<Action>, call: nat, c: Call, at: nat, ready: bool, outcome: Outcomes.State,
                 gap: seq<Action>)
    requires Reached(env, s, run, call, c, at, ready, outcome) && forall a :: a in gap ==> Elsewhere(call, a)
    ensures Reached(env, s, run + gap + [Start(call, ready)], call, c, at, ready, outcome)
    ensures !Exec(env, s, run + gap + [Start(call, ready)]).calls[call].Cleared?
  {
    hide Exec, DoStart, Elsewhere, Promised;
    ExecThen(env, s, run, gap, Start(call, ready), call);
    StartAdvances(Exec(env, Exec(env, s, run), gap), call, at, ready, outcome);
  }

  lemma FinishLeg(env: Env, s: Sys, run: seq<Action>, call: nat, c: Call, at: nat, ready: bool, outcome: Outcomes.State,
                  gap: seq<Action>)
    requires Reached(env, s, run, call, c, at, ready, outcome) && forall a :: a in gap ==> Elsewhere(call, a)
    requires !Exec(env, s, run).calls[call].Cleared?
    ensures Reached(env, s, run + gap + [Finish(call, outcome)], call, c, at, ready, outcome)
    ensures Exec(env, s, run + gap + [Finish(call, outcome)]).calls[call].Settling?
  {
    hide Exec, DoFinish, Elsewhere, Promised;
    ExecThen(env, s, run, gap, Finish(call, outcome), call);
    FinishAdvances(Exec(env, Exec(env, s, run), gap), call, at, ready, outcome);
  }

  lemma SettleLeg(env: Env, s: Sys, run: seq<Action>, call: nat, c: Call, at: nat, ready: bool, outcome: Outcomes.State,
                  gap: seq<Action>)
    requires Reached(env, s, run, call, c, at, ready, outcome) && forall a :: a in gap ==> Elsewhere(call, a)
    requires Exec(env, s, run).calls[call].Settling?
    ensures var t := Exec(env, s, run + gap + [Settle(call, true)]);
            var settled := Promised(c, at, ready, outcome);
            && call !in t.calls && c.id in t.records
            && t.records[c.id] == c.record.(phase := PhaseFor(settled))
            && |t.log| > 0 && t.log[|t.log| - 1] == SettledAs(c.id, settled, PhaseFor(settled))
  {
    hide Exec, DoSettle, Elsewhere;
    ExecThen(env, s, run, gap, Settle(call, true), call);
    SettleEnds(Exec(env, Exec(env, s, run), gap), call);
  }

  /** Where the call stands, it has started or still will. */
  predicate Starts(c: Call, at: nat, ready: bool) {
    || c.Running?
    || (c.Cleared? && ready && AllWritable(c.record.actions))
    || (c.Claimed? && ready && AllWritable(c.record.actions) && at < c.record.expires)
  }

  lemma PromisedMeans(c: Call, at: nat, ready: bool, outcome: Outcomes.State)
    requires c.IsApply()
    ensures !c.Settling? ==> Promised(c, at, ready, outcome) == if Starts(c, at, ready) then Some(outcome) else None
    ensures c.Settling? ==> Promised(c, at, ready, outcome) == c.outcome
  {
    hide AllWritable;
  }

  /**
  No claim is stuck: wherever its call stands, whatever others do between its steps, whatever the gate answers
  and whatever the controller does, the call's own steps settle it, provided its process lives and the
  settling write succeeds. It ends `Applied` exactly when it starts and the outcome is one of the two that say
  every write landed, and `Failed` otherwise; a call already settling ends as its own outcome says.
  */
  lemma EveryClaimCanSettle(env: Env, s: Sys, call: nat, ready: bool, outcome: Outcomes.State,
                            g0: seq<Action>, g1: seq<Action>, g2: seq<Action>, g3: seq<Action>)
    requires call in s.calls
    requires s.calls[call].Claimed? || s.calls[call].Cleared? || s.calls[call].Running? || s.calls[call].Settling?
    requires forall a :: a in g0 || a in g1 || a in g2 || a in g3 ==> Elsewhere(call, a)
    ensures var c := s.calls[call];
            var t := Exec(env, s, g0 + [CheckDeadline(call)] + g1 + [Start(call, ready)] + g2 + [Finish(call, outcome)]
                                  + g3 + [Settle(call, true)]);
            var at := Exec(env, s, g0).now;
            var writable := forall a :: a in c.record.actions ==> Writable(a.mutation);
            var starts := || c.Running? || (c.Cleared? && ready && writable)
                          || (c.Claimed? && ready && writable && at < c.record.expires);
            var landed := if c.Settling? then c.outcome == Some(Outcomes.Applied)
                                              || c.outcome == Some(Outcomes.AppliedUnverified)
                          else starts && (outcome == Outcomes.Applied || outcome == Outcomes.AppliedUnverified);
            && call !in t.calls && c.id in t.records
            && t.records[c.id] == c.record.(phase := if landed then Phase.Applied else Failed)
            && |t.log| > 0 && t.log[|t.log| - 1].SettledAs? && t.log[|t.log| - 1].id == c.id
  {
    var c, at := s.calls[call], Exec(env, s, g0).now;
    PromisedMeans(c, at, ready, outcome);
    SplitOutcomes(Promised(c, at, ready, outcome));
    hide Exec, Promised, Elsewhere, Advances, PhaseFor;
    CheckLeg(env, s, call, ready, outcome, g0);
    var checked := g0 + [CheckDeadline(call)];
    StartLeg(env, s, checked, call, c, at, ready, outcome, g1);
    var started := checked + g1 + [Start(call, ready)];
    FinishLeg(env, s, started, call, c, at, ready, outcome, g2);
    SettleLeg(env, s, started + g2 + [Finish(call, outcome)], call, c, at, ready, outcome, g3);
  }

  lemma ExecOne(env: Env, s: Sys, a: Action)
    ensures Exec(env, s, [a]) == Step(env, s, a)
  {
    hide Step;
    assert [a][1..] == [];
  }

  // ---- Drafts ----

  /** Drafts stay bounded and one per owner and controller, on every run. */
  lemma DraftsStayTidy(env: Env, authenticated: bool, actions: seq<Action>)
    ensures var drafts := Exec(env, Boot(authenticated), actions).drafts;
            && |drafts| <= 32
            && forall a, b :: a in drafts && b in drafts && a != b ==>
                 drafts[a].owner != drafts[b].owner || drafts[a].controller != drafts[b].controller
  {
    ReachableInv(env, authenticated, actions);
    hide Exec, StoreOk, CallsOk, LogOk, ApplyOk, RecorderOk, LockOk, OneOpenEach;
  }

  // ---- Two-person control ----

  /**
  Outside lab mode every set that reached apply was approved, for its stored plan, by a token of a human that is
  not the owner's.
  */
  lemma SecondHumanApproved(env: Env, authenticated: bool, actions: seq<Action>, id: string)
    requires !env.lab
    requires id in Exec(env, Boot(authenticated), actions).records
    requires Exec(env, Boot(authenticated), actions).records[id].phase in {Applying, Phase.Applied, Failed}
    ensures var s := Exec(env, Boot(authenticated), actions);
            exists e :: e in s.log && e.Attested? && e.id == id && !e.approval.waived
                        && e.approval.digest == s.records[id].digest && e.who.Some?
                        && env.tokens(e.who.value).actor == Human && e.who.value != s.records[id].owner
  {
    ReachableInv(env, authenticated, actions);
    var s := Exec(env, Boot(authenticated), actions);
    hide Exec;
    RecordGives(env, s, 0, id);
    var e :| e in s.log && e.Attested? && e.id == id && e.approval == s.records[id].approval.value;
    assert EventOk(env, s.records, e);
  }

  /** On any run, lab mode or not, an approval that is no waiver came from a human's token other than the owner's. */
  lemma OnlyHumansApprove(env: Env, authenticated: bool, actions: seq<Action>, e: Event)
    requires e in Exec(env, Boot(authenticated), actions).log && e.Attested? && !e.approval.waived
    ensures e.id in Exec(env, Boot(authenticated), actions).records
    ensures e.who.Some? && env.tokens(e.who.value).actor == Human
    ensures e.who.value != Exec(env, Boot(authenticated), actions).records[e.id].owner
  {
    ReachableInv(env, authenticated, actions);
    var s := Exec(env, Boot(authenticated), actions);
    hide Exec;
    assert EventOk(env, s.records, e);
  }

  /** One principal staged a change set and approved it; callers without a token share the name `unknown`. */
  ghost predicate SelfApproved(s: Sys) {
    exists a, b :: a in s.log && b in s.log && a.StagedBy? && b.Attested? && a.id == b.id
                   && (if a.who.Some? then a.who.value else "unknown")
                      == (if b.who.Some? then b.who.value else "unknown")
  }

  /**
  Two-person control over whole runs: outside lab mode and with fixed token scopes no principal both stages
  and approves a set, even by staging into another owner's draft, and even when the process that approves has
  another transport than the one that staged.
  */
  lemma NoSelfApproval(env: Env, authenticated: bool, actions: seq<Action>)
    requires !env.lab
    ensures !SelfApproved(Exec(env, Boot(authenticated), actions))
  {
    ReachableInv(env, authenticated, actions);
    var s := Exec(env, Boot(authenticated), actions);
    hide Exec;
    forall a, b | a in s.log && b in s.log && a.StagedBy? && b.Attested? && a.id == b.id
      ensures b.who.Some? && (if a.who.Some? then a.who.value else "unknown") != b.who.value
    {
      assert EventOk(env, s.records, a) && EventOk(env, s.records, b);
    }
  }

  /** In lab mode a principal can do both only as the set's owner, and then the approval says it is a waiver. */
  lemma SelfApprovalIsWaived(env: Env, authenticated: bool, actions: seq<Action>)
    ensures var s := Exec(env, Boot(authenticated), actions);
            forall e :: e in s.log && e.Attested? ==>
              e.id in s.records && (e.approval.waived <==> e.approval.approver == s.records[e.id].owner)
              && (e.approval.waived ==> env.lab)
  {
    ReachableInv(env, authenticated, actions);
    var s := Exec(env, Boot(authenticated), actions);
    forall e | e in s.log && e.Attested?
      ensures EventOk(env, s.records, e)
    {
      assert EventOk(env, s.records, e);
    }
  }

  // ---- A set approved by the process after the one that staged it ----

  lemma ExecThree(env: Env, s: Sys, a: Action, b: Action, c: Action)
    ensures Exec(env, s, [a, b, c]) == Step(env, Step(env, Step(env, s, a), b), c)
  {
    hide Step;
    assert [a, b, c][1..] == [b, c] && [b, c][1..] == [c] && [c][1..] == [];
    assert Exec(env, Step(env, Step(env, s, a), b), [c]) == Step(env, Step(env, Step(env, s, a), b), c);
  }

  function OwnersDraft(owner: string): Draft {
    Draft("home", owner, "", 0)
  }

  function StagedRestore(env: Env, owner: string): Record {
    var actions := ActionsFor([Restore("backup")], FromResources([]));
    Record(owner, "home", actions, Digest(owner, "home", actions), Planned, None, env.ttl)
  }

  /** The first process, holding the draft and at most one call. */
  function Drafted(owner: string, calls: map<nat, Call>): Sys {
    Boot(true).(drafts := map["cs" := OwnersDraft(owner)], calls := calls)
  }

  /** It again, the set staged and proposed. */
  function Proposed(env: Env, owner: string): Sys {
    var r := StagedRestore(env, owner);
    Boot(true).(records := map["cs" := r], log := [StagedBy("cs", Some(owner), 0, 0)],
                proposals := map["cs" := r.digest])
  }

  /** The next process, some time later: the record, and a recorder that holds nothing. */
  function Restored(env: Env, owner: string, wait: nat): Sys {
    var r := StagedRestore(env, owner);
    Boot(true).(now := wait, records := map["cs" := r], process := 1,
                log := [StagedBy("cs", Some(owner), 0, 0), Restarted({})])
  }

  lemma FirstDraftIsHeld(env: Env, owner: string)
    ensures Held(map[], "cs", OwnersDraft(owner), 0, env.ttl) == map["cs" := OwnersDraft(owner)]
  {
    assert Swept(map[], 0, env.ttl) == map[];
  }

  lemma SetIsDrafted(env: Env, owner: string)
    requires env.ttl > 0 && env.tokens(owner).canCreate && env.tokens(owner).canStage && !env.tokens(owner).canApprove
    ensures Step(env, Boot(true), CreateDraft(Some(owner), "cs", "home", "", false)) == Drafted(owner, map[])
    ensures Step(env, Drafted(owner, map[]), BeginStage(0, Some(owner), "cs", "home"))
            == Drafted(owner, map[0 := Staging(Some(owner), "cs", "home", OwnersDraft(owner))])
  {
    FirstDraftIsHeld(env, owner);
    hide Held;
  }

  lemma SetIsBuilt(env: Env, owner: string)
    requires env.ttl > 0 && env.tokens(owner).canCreate && env.tokens(owner).canStage && !env.tokens(owner).canApprove
    ensures Exec(env, Boot(true), [CreateDraft(Some(owner), "cs", "home", "", false),
                                   BeginStage(0, Some(owner), "cs", "home"),
                                   BuildPlan(0, [Restore("backup")], FromResources([]))])
            == Drafted(owner, map[0 := StageReady(Some(owner), "cs", StagedRestore(env, owner))])
  {
    hide Exec;
    SetIsDrafted(env, owner);
    ExecThree(env, Boot(true), CreateDraft(Some(owner), "cs", "home", "", false),
              BeginStage(0, Some(owner), "cs", "home"), BuildPlan(0, [Restore("backup")], FromResources([])));
    var staging := Drafted(owner, map[0 := Staging(Some(owner), "cs", "home", OwnersDraft(owner))]);
    assert Step(env, staging, BuildPlan(0, [Restore("backup")], FromResources([])))
        == Drafted(owner, map[0 := StageReady(Some(owner), "cs", StagedRestore(env, owner))]);
    hide Step, Drafted;
  }

  /** Between the insert and the proposal the call still holds the lock. */
  function Inserting(owner: string, r: Record): Sys {
    Boot(true).(records := map["cs" := r], log := [StagedBy("cs", Some(owner), 0, 0)], lock := Some(0),
                calls := map[0 := StageInserted(Some(owner), "cs", r)])
  }

  lemma SetIsInserted(env: Env, owner: string, r: Record)
    ensures Step(env, Drafted(owner, map[0 := StageReady(Some(owner), "cs", r)]), TakeLock(0))
            == Drafted(owner, map[0 := StageHolding(Some(owner), "cs", r)]).(lock := Some(0))
    ensures Step(env, Drafted(owner, map[0 := StageHolding(Some(owner), "cs", r)]).(lock := Some(0)), Insert(0))
            == Inserting(owner, r)
  {
    var who := Some(owner);
    var holding := map[0 := StageHolding(who, "cs", r)];
    assert map[0 := StageReady(who, "cs", r)][0 := StageHolding(who, "cs", r)] == holding;
    assert holding[0 := StageInserted(who, "cs", r)] == map[0 := StageInserted(who, "cs", r)];
    assert map["cs" := OwnersDraft(owner)] - {"cs"} == map[];
  }

  lemma SetIsProposed(env: Env, owner: string)
    ensures Step(env, Inserting(owner, StagedRestore(env, owner)), Propose(0)) == Proposed(env, owner)
  {
    hide StagedRestore;
    assert map[0 := StageInserted(Some(owner), "cs", StagedRestore(env, owner))] - {0} == map[];
  }

  lemma SetIsPublished(env: Env, owner: string)
    ensures Exec(env, Drafted(owner, map[0 := StageReady(Some(owner), "cs", StagedRestore(env, owner))]),
                 [TakeLock(0), Insert(0), Propose(0)]) == Proposed(env, owner)
  {
    hide Exec, Step, Drafted, Inserting, Proposed, StagedRestore;
    SetIsInserted(env, owner, StagedRestore(env, owner));
    SetIsProposed(env, owner);
    ExecThree(env, Drafted(owner, map[0 := StageReady(Some(owner), "cs", StagedRestore(env, owner))]),
              TakeLock(0), Insert(0), Propose(0));
  }

  lemma SetIsRestored(env: Env, owner: string, wait: nat)
    ensures Step(env, Proposed(env, owner), Restart(true)) == Restored(env, owner, 0)
    ensures Step(env, Restored(env, owner, 0), Tick(wait)) == Restored(env, owner, wait)
  {
    hide StagedRestore;
    assert InFlight(map[]) == {};
  }

  lemma RestoredIsApproved(env: Env, owner: string, approver: string, wait: nat)
    requires wait < env.ttl && env.tokens(approver).canApprove && !env.tokens(approver).canStage
    requires env.tokens(approver).actor == Human && approver != owner
    ensures var log := Exec(env, Restored(env, owner, wait), [BeginApprove(0, Some(approver), "cs", "home", None),
                                                             TakeLock(0), Approve(0)]).log;
            && |log| == 3 && log[2].Attested? && log[2].who == Some(approver)
            && log[2].attested == None && log[2].at == wait
  {
    var who, r, s := Some(approver), StagedRestore(env, owner), Restored(env, owner, wait);
    ExecThree(env, s, BeginApprove(0, who, "cs", "home", None), TakeLock(0), Approve(0));
    hide Exec;
    var reading := s.(calls := map[0 := Approving(who, "cs", r, None)]);
    var holding := s.(calls := map[0 := ApproveHolding(who, "cs", r, None)], lock := Some(0));
    assert Step(env, s, BeginApprove(0, who, "cs", "home", None)) == reading;
    assert reading.calls[0 := ApproveHolding(who, "cs", r, None)] == holding.calls;
    assert Step(env, reading, TakeLock(0)) == holding;
    hide ActionsFor;
  }

  /**
  A set staged and proposed by one process and approved, by a second human, in the next: at any moment of the
  window the approval goes through, and it carries no attested digest. Any token table with such an owner and
  such an approver has this run.
  */
  lemma RestoredSetIsUnattested(env: Env, owner: string, approver: string, wait: nat)
    requires wait < env.ttl
    requires env.tokens(owner).canCreate && env.tokens(owner).canStage && !env.tokens(owner).canApprove
    requires env.tokens(approver).canApprove && !env.tokens(approver).canStage && env.tokens(approver).actor == Human
    requires approver != owner
    ensures exists actions ::
              var log := Exec(env, Boot(true), actions).log;
              exists e :: e in log && e.Attested? && e.who == Some(approver) && e.attested == None && e.at == wait
  {
    hide Exec, Step, Drafted, Proposed, Restored, StagedRestore;
    var building := [CreateDraft(Some(owner), "cs", "home", "", false), BeginStage(0, Some(owner), "cs", "home"),
                     BuildPlan(0, [Restore("backup")], FromResources([]))];
    var publishing := [TakeLock(0), Insert(0), Propose(0)];
    var approving := [BeginApprove(0, Some(approver), "cs", "home", None), TakeLock(0), Approve(0)];
    SetIsBuilt(env, owner);
    SetIsPublished(env, owner);
    ExecConcat(env, Boot(true), building, publishing);
    SetIsRestored(env, owner, wait);
    ExecOne(env, Proposed(env, owner), Restart(true));
    var before := building + publishing;
    ExecConcat(env, Boot(true), before, [Restart(true)]);
    ExecOne(env, Restored(env, owner, 0), Tick(wait));
    ExecConcat(env, Boot(true), before + [Restart(true)], [Tick(wait)]);
    RestoredIsApproved(env, owner, approver, wait);
    ExecConcat(env, Boot(true), before + [Restart(true)] + [Tick(wait)], approving);
    var log := Exec(env, Boot(true), before + [Restart(true)] + [Tick(wait)] + approving).log;
    assert log[2] in log;
  }
}
