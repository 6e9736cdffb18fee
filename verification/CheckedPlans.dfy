/** A plan that passed every local check runs to the end on a controller that refuses only for zone reasons. */
module CheckedPlans {
  import opened Wrappers
  import opened JsonValues
  import opened ResourceKinds
  import opened StagedPlans
  import opened Worlds
  import opened ZoneDeletions
  import opened ZoneExactness
  import opened ZoneReferences
  import opened WritableFieldChecks
  import opened IdentityProofs

  /** No id is addressed twice. */
  ghost predicate AddressedOnce(plan: seq<Mutation>) {
    forall i, j :: 0 <= i < j < |plan| && plan[i].ResourceId().Some? ==> plan[i].ResourceId() != plan[j].ResourceId()
  }

  /**
  What the checks before an apply establish, the zone-deletion check aside, and the two things about the
  controller they cannot see: its own references are intact, and no resource outside the plan holds a zone the
  plan deletes.
  */
  ghost predicate OtherwiseChecked(w: World, pre: Preimage, plan: seq<Mutation>) {
    && GateHolds(w, pre, plan)
    && (forall m :: m in plan ==> Writable(m) && !m.Restore?)
    && (forall z :: z in AllRefs(plan) ==> w.HasZone(z))
    && AddressedOnce(plan)
    && (forall id :: id in w.store ==> AllZones(w, NamesIn(w, id)) && (w.HasZone(id) ==> NamesIn(w, id) == {}))
    && (forall id :: id in w.store && id !in Addressed(plan) ==> NamesIn(w, id) * ZonesDeletedBy(plan) == {})
  }

  ghost predicate CheckedPlan(w: World, pre: Preimage, plan: seq<Mutation>) {
    OtherwiseChecked(w, pre, plan) && Verdict(pre, plan).Ok?
  }

  lemma CheckedGives(w: World, pre: Preimage, plan: seq<Mutation>)
    requires CheckedPlan(w, pre, plan)
    ensures ZonesAreLeaves(w, plan) && GateHolds(w, pre, plan) && Verdict(pre, plan).Ok?
    ensures forall i :: 0 <= i < |plan| ==> !plan[i].Restore?
  {
    hide OtherwiseChecked, ZonesAreLeaves, GateHolds, Verdict;
    OtherwiseGives(w, pre, plan);
  }

  /** An otherwise checked plan meets the hypotheses of the exactness theorem. */
  lemma OtherwiseGives(w: World, pre: Preimage, plan: seq<Mutation>)
    requires OtherwiseChecked(w, pre, plan)
    ensures ZonesAreLeaves(w, plan) && GateHolds(w, pre, plan)
    ensures forall i :: 0 <= i < |plan| ==> !plan[i].Restore?
  {
    hide Verdict, GateHolds, AllRefs, ParseKind;
    forall m | m in plan
      ensures m.Update? && m.kind == ZONE_KIND ==> Names(m.body) == {}
      ensures m.Create? ==> m.body.Get("_id").None?
    {
      NoKindWritesIdentity(ParseKind(m.kind).value);
      if m.kind == ZONE_KIND {
        ParseInvertsName(m.kind, FirewallZone);
      }
    }
  }

  lemma NothingDeletedNothingRefused(p: Projection, plan: seq<Mutation>, m: Mutation)
    requires p.deleted == {} && ZonesDeletedBy(plan) == {} && m in plan
    ensures CheckStep(p, m).Ok? && CheckStep(p, m).value.deleted == {}
  {
    if m.Delete? {
      ZoneDeleteCounts(plan, m);
    }
  }

  lemma ZoneDeleteCounts(plan: seq<Mutation>, m: Mutation)
    requires m in plan && m.Delete?
    ensures m.kind == ZONE_KIND ==> m.id in ZonesDeletedBy(plan)
  {
  }

  lemma {:induction false} NoDeletesNoRefusal(p: Projection, plan: seq<Mutation>)
    requires ZonesDeletedBy(plan) == {} && p.deleted == {}
    ensures Walk(p, plan).Ok? && Walk(p, plan).value.deleted == {}
  {
    if plan != [] {
      var last := |plan| - 1;
      assert plan[last] in plan;
      assert ZonesDeletedBy(plan[..last]) <= ZonesDeletedBy(plan);
      NoDeletesNoRefusal(p, plan[..last]);
      NothingDeletedNothingRefused(Walk(p, plan[..last]).value, plan, plan[last]);
    }
  }

  /** A passing verdict means every prefix of the walk passed. */
  lemma VerdictWalks(pre: Preimage, plan: seq<Mutation>, k: nat)
    requires k <= |plan| && Verdict(pre, plan).Ok?
    ensures Walk(Seed(pre, plan), plan[..k]).Ok?
  {
    if ZonesDeletedBy(plan) == {} {
      NoDeletesNoRefusal(Seed(pre, plan), plan);
    }
    WalkPrefix(Seed(pre, plan), plan, k);
  }

  /** What holds after k steps, besides the projection tracking the controller. */
  ghost predicate Sound(w: World, plan: seq<Mutation>, k: nat, at: Progress)
    requires k <= |plan| && |at.ids| == k
  {
    && (forall id :: id in at.world.store ==> id in w.store || id in Minted(at.ids))
    && (forall id :: id in w.store && id !in Addressed(plan[..k]) ==> at.world.At(id) == w.At(id))
    && (forall z :: w.HasZone(z) && z !in ZonesDeletedBy(plan[..k]) ==> at.world.HasZone(z))
    && (forall i :: 0 <= i < k ==> Landed(at.world, plan[i], at.ids[i]))
  }

  lemma AddressedSoFar(plan: seq<Mutation>, k: nat)
    requires k < |plan|
    ensures Addressed(plan[..k + 1])
            == Addressed(plan[..k]) + (if plan[k].Update? || plan[k].Delete? then {plan[k].id} else {})
    ensures AddressedOnce(plan) && (plan[k].Update? || plan[k].Delete?) ==> plan[k].id !in Addressed(plan[..k])
  {
    assert plan[..k + 1] == plan[..k] + [plan[k]];
    if AddressedOnce(plan) && (plan[k].Update? || plan[k].Delete?) {
      forall i | 0 <= i < k && (plan[i].Update? || plan[i].Delete?)
        ensures plan[i].id != plan[k].id
      {
        assert plan[i].ResourceId() != plan[k].ResourceId();
      }
    }
  }

  /** Names that were zones at the start and are not deleted yet are zones now. */
  lemma StillZones(w: World, plan: seq<Mutation>, k: nat, at: Progress, zones: set<string>)
    requires k <= |plan| && |at.ids| == k && Sound(w, plan, k, at)
    requires AllZones(w, zones) && zones * ZonesDeletedBy(plan[..k]) == {}
    ensures AllZones(at.world, zones)
  {
    forall z | z in zones
      ensures at.world.HasZone(z)
    {
      assert z !in zones * ZonesDeletedBy(plan[..k]);
    }
  }

  lemma CreateAccepted(cfg: Config, w: World, pre: Preimage, plan: seq<Mutation>, k: nat, p: Projection, at: Progress)
    requires k < |plan| && |at.ids| == k && plan[k].Create? && CheckedPlan(w, pre, plan)
    requires Tracks(w, plan, k, p, at) && Sound(w, plan, k, at) && CheckStep(p, plan[k]).Ok?
    ensures ApplyEffect(cfg, at.world, plan[k]).Some?
  {
    assert plan[k] in plan;
    NamedIsReferenced(plan, plan[k]);
    NamedIffIntersects(plan[k].body, p.deleted);
    StillZones(w, plan, k, at, Names(plan[k].body));
  }

  /** The names an accepted update would write: staged or inherited, all zones at the start. */
  lemma WrittenNames(w: World, pre: Preimage, plan: seq<Mutation>, m: Mutation)
    requires CheckedPlan(w, pre, plan) && m in plan && m.Update?
    ensures m.id in w.store && ParseKind(m.kind) == Some(w.store[m.id].kind) && w.store[m.id].body.Obj?
    ensures AllZones(w, Names(Written(w, m)))
  {
    GateGives(w, pre, plan, m);
    NamedIsReferenced(plan, m);
    OverlaidNames(w.store[m.id].body, m.body);
    IdNamesNothing(m.id, m.body);
    IdNamesNothing(m.id, Overlaid(w.store[m.id].body, m.body));
    assert AllZones(w, NamesIn(w, m.id));
  }

  lemma UpdateAccepted(cfg: Config, w: World, pre: Preimage, plan: seq<Mutation>, k: nat, p: Projection, at: Progress)
    requires k < |plan| && |at.ids| == k && plan[k].Update? && CheckedPlan(w, pre, plan)
    requires Tracks(w, plan, k, p, at) && Sound(w, plan, k, at) && CheckStep(p, plan[k]).Ok?
    ensures ApplyEffect(cfg, at.world, plan[k]).Some?
  {
    var m := plan[k];
    assert m in plan && m.id in Addressed(plan);
    WrittenNames(w, pre, plan, m);
    AddressedSoFar(plan, k);
    assert at.world.At(m.id) == w.At(m.id);
    CheckedGives(w, pre, plan);
    UpdatedIdTracks(w, plan, p, at.world, m,
                    World(at.world.store[m.id := Resource(at.world.store[m.id].kind, Written(at.world, m))],
                          at.world.known));
    NamedIffIntersects(Projected(p, m.kind, m.id, m.body), p.deleted);
    StillZones(w, plan, k, at, Names(Written(w, m)));
    UpdateGoesThrough(cfg, at.world, m);
  }

  lemma UpdateGoesThrough(cfg: Config, w: World, m: Mutation)
    requires m.Update? && Writable(m) && m.id in w.store && ParseKind(m.kind) == Some(w.store[m.id].kind)
    requires w.store[m.id].body.Obj? && AllZones(w, Names(Written(w, m)))
    ensures ApplyEffect(cfg, w, m).Some?
  {
    IdNamesNothing(m.id, m.body);
    IdNamesNothing(m.id, Overlaid(w.store[m.id].body, m.body));
  }

  lemma DeleteAccepted(cfg: Config, w: World, pre: Preimage, plan: seq<Mutation>, k: nat, p: Projection, at: Progress)
    requires k < |plan| && |at.ids| == k && plan[k].Delete? && CheckedPlan(w, pre, plan)
    requires Tracks(w, plan, k, p, at) && Sound(w, plan, k, at) && CheckStep(p, plan[k]).Ok?
    ensures ApplyEffect(cfg, at.world, plan[k]).Some?
  {
    var m := plan[k];
    assert m in plan && m.id in Addressed(plan);
    GateGives(w, pre, plan, m);
    AddressedSoFar(plan, k);
    assert at.world.At(m.id) == w.At(m.id);
    ZoneNameParses(m.kind, w.store[m.id].kind);
    if m.kind == ZONE_KIND {
      ZoneStillNamed(w, plan, k, p, at, m.id);
      forall id | id in at.world.store && id != m.id
        ensures m.id !in NamesIn(at.world, id)
      {
        if id !in Addressed(plan) && id !in Minted(at.ids) {
          assert Addressed(plan[..k]) <= Addressed(plan);
          assert at.world.At(id) == w.At(id);
          assert m.id !in NamesIn(w, id) * ZonesDeletedBy(plan);
        }
      }
    }
  }

  lemma StepAccepted(cfg: Config, w: World, pre: Preimage, plan: seq<Mutation>, k: nat, at: Progress)
    requires k < |plan| && cfg.MintsFresh() && w.Valid() && CheckedPlan(w, pre, plan)
    requires Run(cfg, w, plan[..k]) == Some(at) && Sound(w, plan, k, at)
    ensures ApplyEffect(cfg, at.world, plan[k]).Some?
    ensures Walk(Seed(pre, plan), plan[..k]).Ok? && Tracks(w, plan, k, Walk(Seed(pre, plan), plan[..k]).value, at)
  {
    hide ApplyEffect, CheckedPlan, Tracks, Sound, ZonesAreLeaves, GateHolds, Seed;
    CheckedGives(w, pre, plan);
    VerdictWalks(pre, plan, k);
    VerdictWalks(pre, plan, k + 1);
    assert plan[..k + 1][..k] == plan[..k];
    PrefixExact(cfg, pre, w, plan, k);
    var p := Walk(Seed(pre, plan), plan[..k]).value;
    match plan[k] {
      case Create(_, _) => CreateAccepted(cfg, w, pre, plan, k, p, at);
      case Update(_, _, _) => UpdateAccepted(cfg, w, pre, plan, k, p, at);
      case Delete(_, _) => DeleteAccepted(cfg, w, pre, plan, k, p, at);
    }
  }

  /** What already landed stays landed: later steps touch other ids. */
  lemma StaysLanded(w: World, next: World, m: Mutation, id: Option<string>)
    requires Landed(w, m, id)
    requires m.Create? && id.Some? ==> next.At(id.value) == w.At(id.value)
    requires m.Update? || m.Delete? ==> next.At(m.id) == w.At(m.id)
    ensures Landed(next, m, id)
  {
  }

  lemma {:induction false} MintedHasAll(ids: seq<Option<string>>, i: nat)
    requires i < |ids| && ids[i].Some?
    ensures ids[i].value in Minted(ids)
  {
    if i < |ids| - 1 {
      MintedHasAll(ids[..|ids| - 1], i);
    }
  }

  /** The one id a step touches is touched by no earlier step. */
  lemma EarlierStaysLanded(w: World, pre: Preimage, plan: seq<Mutation>, k: nat, p: Projection, at: Progress,
                           touched: string, next: World)
    requires k < |plan| && |at.ids| == k && w.Valid() && CheckedPlan(w, pre, plan)
    requires Tracks(w, plan, k, p, at) && Sound(w, plan, k, at)
    requires (plan[k].Create? && touched !in at.world.known)
          || ((plan[k].Update? || plan[k].Delete?) && touched == plan[k].id)
    requires forall other :: other != touched ==> next.At(other) == at.world.At(other)
    ensures forall i :: 0 <= i < k ==> Landed(next, plan[i], at.ids[i])
  {
    forall i | 0 <= i < k
      ensures Landed(next, plan[i], at.ids[i])
    {
      assert plan[i] in plan;
      if plan[i].Create? && at.ids[i].Some? {
        MintedHasAll(at.ids, i);
        var j :| 0 <= j < |Minted(at.ids)| && Minted(at.ids)[j] == at.ids[i].value;
        assert CreatedAgrees(plan, at.world, Minted(at.ids)[j], p.created[j]);
        assert plan[k] in plan;
      } else if plan[i].Update? || plan[i].Delete? {
        assert plan[i].id in Addressed(plan);
        assert plan[i].ResourceId() != plan[k].ResourceId();
      }
      StaysLanded(at.world, next, plan[i], at.ids[i]);
    }
  }

  /** A step lands what it says. */
  lemma JustLanded(cfg: Config, w: World, m: Mutation)
    requires cfg.MintsFresh() && w.Valid() && ApplyEffect(cfg, w, m).Some?
    ensures Landed(ApplyEffect(cfg, w, m).value.0, m, ApplyEffect(cfg, w, m).value.1)
  {
    match m {
      case Create(_, _) => CreateInverts(cfg, w, m);
      case Update(_, _, _) => UpdateInverts(cfg, w, m);
      case Delete(_, _) => DeleteInverts(cfg, w, m);
    }
  }

  /** A step that moves one id keeps the rest of the invariant. */
  lemma OneIdStaysSound(w: World, plan: seq<Mutation>, k: nat, at: Progress, touched: string, next: Progress)
    requires k < |plan| && |at.ids| == k && |next.ids| == k + 1 && Sound(w, plan, k, at)
    requires forall other :: other != touched ==> next.world.At(other) == at.world.At(other)
    requires !plan[k].Restore?
    requires plan[k].Create? ==> touched !in w.store && next.ids == at.ids + [Some(touched)]
    requires !plan[k].Create? ==> touched == plan[k].id && next.ids == at.ids + [None]
    requires plan[k].Update? && at.world.HasZone(touched) ==> next.world.HasZone(touched)
    requires !plan[k].Create? ==> touched in at.world.store
    requires plan[k].Delete? && at.world.HasZone(touched) ==> plan[k].kind == ZONE_KIND
    requires forall i :: 0 <= i <= k ==> Landed(next.world, plan[i], next.ids[i])
    ensures Sound(w, plan, k + 1, next)
  {
    hide Landed;
    AddressedSoFar(plan, k);
    DeletedSoFar(plan, k);
    MintedGrows(at.ids, next.ids[k]);
    forall id | id in next.world.store
      ensures id in w.store || id in Minted(next.ids)
    {
      assert id != touched ==> next.world.At(id) == at.world.At(id);
    }
    forall z | w.HasZone(z) && z !in ZonesDeletedBy(plan[..k + 1])
      ensures next.world.HasZone(z)
    {
      assert z != touched ==> next.world.At(z) == at.world.At(z);
    }
  }

  lemma StepStaysSound(cfg: Config, w: World, pre: Preimage, plan: seq<Mutation>, k: nat, p: Projection, at: Progress)
    requires k < |plan| && |at.ids| == k && cfg.MintsFresh() && w.Valid() && at.world.Valid()
    requires w.known <= at.world.known
    requires CheckedPlan(w, pre, plan) && Tracks(w, plan, k, p, at) && Sound(w, plan, k, at)
    requires ApplyEffect(cfg, at.world, plan[k]).Some?
    ensures var (next, id) := ApplyEffect(cfg, at.world, plan[k]).value;
            Sound(w, plan, k + 1, Progress(next, at.ids + [id]))
  {
    hide ApplyEffect, CheckedPlan, Tracks, Landed, Sound, ParseKind, Written;
    var m := plan[k];
    var (next, id) := ApplyEffect(cfg, at.world, m).value;
    assert m in plan;
    CheckedGives(w, pre, plan);
    JustLanded(cfg, at.world, m);
    var touched;
    match m {
      case Create(_, _) =>
        CreateInverts(cfg, at.world, m);
        touched := id.value;
      case Update(_, _, _) =>
        UpdateInverts(cfg, at.world, m);
        touched := m.id;
      case Delete(_, _) =>
        DeleteInverts(cfg, at.world, m);
        ZoneNameParses(m.kind, at.world.store[m.id].kind);
        touched := m.id;
    }
    EarlierStaysLanded(w, pre, plan, k, p, at, touched, next);
    OneIdStaysSound(w, plan, k, at, touched, Progress(next, at.ids + [id]));
  }

  lemma StartSound(w: World, plan: seq<Mutation>)
    ensures Sound(w, plan, 0, Progress(w, []))
  {
  }

  lemma {:induction false} CheckedPrefixSound(cfg: Config, w: World, pre: Preimage, plan: seq<Mutation>, k: nat)
    requires k <= |plan| && cfg.MintsFresh() && w.Valid() && CheckedPlan(w, pre, plan)
    requires Run(cfg, w, plan[..k]).Some?
    ensures Sound(w, plan, k, Run(cfg, w, plan[..k]).value)
  {
    hide ApplyEffect, CheckedPlan, Tracks, Walk, Sound;
    if k == 0 {
      StartSound(w, plan);
    } else {
      CheckedGives(w, pre, plan);
      var j := k - 1;
      assert plan[..k][..j] == plan[..j];
      CheckedPrefixSound(cfg, w, pre, plan, j);
      var at := Run(cfg, w, plan[..j]).value;
      StepAccepted(cfg, w, pre, plan, j, at);
      RunKeepsValid(cfg, w, plan[..j]);
      StepStaysSound(cfg, w, pre, plan, j, Walk(Seed(pre, plan), plan[..j]).value, at);
    }
  }

  /**
  A checked plan does not stop halfway: whatever prefix has landed, the controller takes the next mutation,
  and once all have landed verification finds every one of them.
  */
  lemma CheckedPlanRuns(cfg: Config, w: World, pre: Preimage, plan: seq<Mutation>, landed: nat)
    requires landed <= |plan| && cfg.MintsFresh() && w.Valid() && CheckedPlan(w, pre, plan)
    requires Run(cfg, w, plan[..landed]).Some?
    ensures landed < |plan| ==> ApplyEffect(cfg, Run(cfg, w, plan[..landed]).value.world, plan[landed]).Some?
    ensures landed == |plan| ==>
              AllLanded(Run(cfg, w, plan[..landed]).value.world, plan, Run(cfg, w, plan[..landed]).value.ids)
  {
    CheckedPrefixSound(cfg, w, pre, plan, landed);
    if landed < |plan| {
      StepAccepted(cfg, w, pre, plan, landed, Run(cfg, w, plan[..landed]).value);
    }
  }

  /** So the whole plan is a run. */
  lemma {:induction false} CheckedPlanCompletes(cfg: Config, w: World, pre: Preimage, plan: seq<Mutation>, k: nat)
    requires k <= |plan| && cfg.MintsFresh() && w.Valid() && CheckedPlan(w, pre, plan)
    ensures Run(cfg, w, plan[..k]).Some?
  {
    if k != 0 {
      assert plan[..k][..k - 1] == plan[..k - 1];
      CheckedPlanCompletes(cfg, w, pre, plan, k - 1);
      CheckedPlanRuns(cfg, w, pre, plan, k - 1);
    }
  }

  /**
  On a controller that guards zones the check decides: an otherwise checked plan passes it if and only if the
  controller takes the whole plan.
  */
  lemma CheckDecidesRun(cfg: Config, w: World, pre: Preimage, plan: seq<Mutation>)
    requires cfg.MintsFresh() && cfg.guardsZones && w.Valid() && OtherwiseChecked(w, pre, plan)
    ensures Verdict(pre, plan).Ok? <==> Run(cfg, w, plan).Some?
  {
    hide OtherwiseChecked, Verdict, Run;
    OtherwiseGives(w, pre, plan);
    assert plan[..|plan|] == plan;
    if Verdict(pre, plan).Ok? {
      CheckedPlanCompletes(cfg, w, pre, plan, |plan|);
    }
    if Run(cfg, w, plan).Some? {
      GuardedRunPassesCheck(cfg, pre, w, plan);
    }
  }
}
