/** The zone check against what the controller really holds while the plan runs. */
module ZoneExactness {
  import opened Wrappers
  import opened JsonValues
  import opened ResourceKinds
  import opened StagedPlans
  import opened Worlds
  import opened Footprints
  import opened ZoneDeletions

  /** The ids of the resources created so far, in order. */
  function Minted(ids: seq<Option<string>>): seq<string> {
    if ids == [] then []
    else Minted(ids[..|ids| - 1]) + (if ids[|ids| - 1].Some? then [ids[|ids| - 1].value] else [])
  }

  /**
  A real contradiction at one step of a run: a zone deleted while a resource the plan addresses anywhere, or
  has created, names it at that moment; or a resource written that names a zone the plan already deleted.
  */
  ghost predicate Clash(plan: seq<Mutation>, before: Progress, m: Mutation, after: World, id: Option<string>,
                        deleted: set<string>) {
    match m
    case Create(_, _) => id.Some? && NamesIn(after, id.value) * deleted != {}
    case Update(_, target, _) => NamesIn(after, target) * deleted != {}
    case Delete(kind, zone) =>
      kind == ZONE_KIND
      && exists r :: (r in Addressed(plan) || r in Minted(before.ids)) && zone in NamesIn(before.world, r)
    case Restore(_) => false
  }

  ghost predicate ClashAt(cfg: Config, start: World, plan: seq<Mutation>, i: nat)
    requires i < |plan|
  {
    match Run(cfg, start, plan[..i])
    case None => false
    case Some(before) =>
      match ApplyEffect(cfg, before.world, plan[i])
      case None => false
      case Some((after, id)) => Clash(plan, before, plan[i], after, id, ZonesDeletedBy(plan[..i]))
  }

  ghost predicate CleanTo(cfg: Config, start: World, plan: seq<Mutation>, k: nat)
    requires k <= |plan|
  {
    k == 0 || (CleanTo(cfg, start, plan, k - 1) && !ClashAt(cfg, start, plan, k - 1))
  }

  lemma {:induction false} CleanToMeansNoClash(cfg: Config, start: World, plan: seq<Mutation>, k: nat)
    requires k <= |plan|
    ensures CleanTo(cfg, start, plan, k) <==> forall i :: 0 <= i < k ==> !ClashAt(cfg, start, plan, i)
  {
    hide ClashAt;
    if k != 0 {
      CleanToMeansNoClash(cfg, start, plan, k - 1);
    }
  }

  /** The zones themselves name no zone, and no create asks for an `_id` of its own choosing. */
  ghost predicate ZonesAreLeaves(start: World, plan: seq<Mutation>) {
    && (forall id :: id in Addressed(plan) && start.HasZone(id) ==> NamesIn(start, id) == {})
    && (forall m :: m in plan && m.Update? && m.kind == ZONE_KIND ==> Names(m.body) == {})
    && (forall m :: m in plan && m.Create? ==> m.body.Get("_id").None?)
  }

  /** The check's projection and the controller agree on everything the plan touches. */
  ghost predicate Tracks(start: World, plan: seq<Mutation>, k: nat, p: Projection, at: Progress)
    requires k <= |plan|
  {
    && at.world.Valid() && start.known <= at.world.known
    && p.live.Keys <= Addressed(plan) <= start.store.Keys
    && (forall id :: id in Addressed(plan) && !start.HasZone(id) ==> LiveAgrees(start, p, at.world, id))
    && (forall id :: id in Addressed(plan) && start.HasZone(id) ==> ZoneStaysLeaf(p, at.world, id))
    && |Minted(at.ids)| == |p.created|
    && (forall j :: 0 <= j < |p.created| ==> CreatedAgrees(plan, at.world, Minted(at.ids)[j], p.created[j]))
    && p.deleted == ZonesDeletedBy(plan[..k])
  }

  ghost predicate LiveAgrees(start: World, p: Projection, w: World, id: string)
    requires id in start.store
  {
    && (id in p.live <==> id in w.store)
    && (id in w.store ==> w.store[id] == Resource(start.store[id].kind, Fill(id, p.live[id])))
  }

  ghost predicate ZoneStaysLeaf(p: Projection, w: World, id: string) {
    NamesIn(w, id) == {} && (id in w.store ==> w.HasZone(id)) && (id in p.live ==> Names(p.live[id]) == {})
  }

  ghost predicate CreatedAgrees(plan: seq<Mutation>, w: World, id: string, body: Json) {
    id !in Addressed(plan) && id in w.store && w.store[id].body == Assigned(id, body)
  }

  lemma NamedIffIntersects(body: Json, deleted: set<string>)
    ensures DeletedZoneNamed(body, deleted).None? <==> Names(body) * deleted == {}
  {
    assert forall z :: z in Names(body) * deleted <==> z in Names(body) && z in deleted;
    if DeletedZoneNamed(body, deleted).Some? {
      assert DeletedZoneNamed(body, deleted).value in Names(body) * deleted;
    }
  }

  lemma SeedAt(pre: Preimage, plan: seq<Mutation>, start: World, id: string)
    requires GateHolds(start, pre, plan) && id in Addressed(plan)
    ensures id in start.store && pre.GetResource(id) == Some(start.store[id].body)
    ensures start.store[id].body.GetStr("_id") == Some(id)
    ensures id in SeededIds(plan) <==> !start.HasZone(id)
  {
    forall m | m in plan && (m.Update? || m.Delete?)
      ensures m.id in start.store && (m.kind == ZONE_KIND <==> start.HasZone(m.id))
    {
      GateGives(start, pre, plan, m);
      ZoneNameParses(m.kind, start.store[m.id].kind);
    }
    var m :| m in plan && (m.Update? || m.Delete?) && m.id == id;
    GateGives(start, pre, plan, m);
  }

  lemma SeedTracks(pre: Preimage, plan: seq<Mutation>, start: World)
    requires start.Valid() && GateHolds(start, pre, plan) && ZonesAreLeaves(start, plan)
    ensures Tracks(start, plan, 0, Seed(pre, plan), Progress(start, []))
  {
    forall id | id in Addressed(plan)
      ensures id in start.store
      ensures !start.HasZone(id) ==> LiveAgrees(start, Seed(pre, plan), start, id)
      ensures start.HasZone(id) ==> ZoneStaysLeaf(Seed(pre, plan), start, id)
    {
      SeedAt(pre, plan, start, id);
    }
  }

  /** A step that changes one addressed id, on the controller and in the projection, keeps the rest tracking. */
  lemma OneIdTracks(start: World, plan: seq<Mutation>, k: nat, p: Projection, at: Progress,
                    id: string, q: Projection, next: Progress)
    requires k < |plan| && Tracks(start, plan, k, p, at) && id in Addressed(plan)
    requires next.world.Valid() && next.world.known == at.world.known
    requires forall other :: other != id ==> next.world.At(other) == at.world.At(other)
    requires q.live - {id} == p.live - {id} && q.created == p.created
    requires Minted(next.ids) == Minted(at.ids) && q.deleted == ZonesDeletedBy(plan[..k + 1])
    requires !start.HasZone(id) ==> LiveAgrees(start, q, next.world, id)
    requires start.HasZone(id) ==> ZoneStaysLeaf(q, next.world, id)
    ensures Tracks(start, plan, k + 1, q, next)
  {
    forall other | other in Addressed(plan) && other != id
      ensures !start.HasZone(other) ==> LiveAgrees(start, q, next.world, other)
      ensures start.HasZone(other) ==> ZoneStaysLeaf(q, next.world, other)
    {
      assert next.world.At(other) == at.world.At(other);
      assert other in q.live - {id} <==> other in p.live - {id};
    }
    forall j | 0 <= j < |q.created|
      ensures CreatedAgrees(plan, next.world, Minted(next.ids)[j], q.created[j])
    {
      assert CreatedAgrees(plan, at.world, Minted(at.ids)[j], p.created[j]);
      assert next.world.At(Minted(at.ids)[j]) == at.world.At(Minted(at.ids)[j]);
    }
    assert q.live.Keys <= (q.live - {id}).Keys + {id};
  }

  /** One step: the check refuses it exactly when it clashes, and otherwise keeps tracking. */
  ghost predicate StepAgrees(start: World, plan: seq<Mutation>, k: nat, p: Projection, at: Progress,
                             next: World, id: Option<string>)
    requires k < |plan|
  {
    && (CheckStep(p, plan[k]).Ok? <==> !Clash(plan, at, plan[k], next, id, ZonesDeletedBy(plan[..k])))
    && (CheckStep(p, plan[k]).Ok? ==>
          Tracks(start, plan, k + 1, CheckStep(p, plan[k]).value, Progress(next, at.ids + [id])))
  }

  lemma DeletedSoFar(plan: seq<Mutation>, k: nat)
    requires k < |plan|
    ensures ZonesDeletedBy(plan[..k + 1])
            == ZonesDeletedBy(plan[..k]) + (if plan[k].Delete? && plan[k].kind == ZONE_KIND then {plan[k].id} else {})
  {
    assert plan[..k + 1] == plan[..k] + [plan[k]];
  }

  lemma MintedGrows(ids: seq<Option<string>>, id: Option<string>)
    ensures Minted(ids + [id]) == Minted(ids) + (if id.Some? then [id.value] else [])
  {
    assert (ids + [id])[..|ids|] == ids;
  }

  lemma CreateTracks(start: World, plan: seq<Mutation>, k: nat, p: Projection, at: Progress,
                     kind: ResourceKind, next: World, id: string)
    requires k < |plan| && plan[k].Create? && start.Valid() && Tracks(start, plan, k, p, at)
    requires id !in at.world.known
    requires next == World(at.world.store[id := Resource(kind, Assigned(id, plan[k].body))], at.world.known + {id})
    ensures StepAgrees(start, plan, k, p, at, next, Some(id))
  {
    var body := plan[k].body;
    IdNamesNothing(id, body);
    NamedIffIntersects(body, p.deleted);
    DeletedSoFar(plan, k);
    MintedGrows(at.ids, Some(id));
    assert forall other :: other != id ==> next.At(other) == at.world.At(other);
  }

  /** The update's own id, after the update. */
  lemma UpdatedIdTracks(start: World, plan: seq<Mutation>, p: Projection, w: World, m: Mutation, next: World)
    requires m in plan && m.Update? && m.id in start.store && ZonesAreLeaves(start, plan)
    requires !start.HasZone(m.id) ==> LiveAgrees(start, p, w, m.id)
    requires start.HasZone(m.id) ==> ZoneStaysLeaf(p, w, m.id)
    requires m.id in w.store && ParseKind(m.kind) == Some(w.store[m.id].kind)
    requires next == World(w.store[m.id := Resource(w.store[m.id].kind, Written(w, m))], w.known)
    ensures var entry := Projected(p, m.kind, m.id, m.body);
            var q := p.(live := p.live[m.id := entry]);
            && NamesIn(next, m.id) == Names(entry)
            && (!start.HasZone(m.id) ==> LiveAgrees(start, q, next, m.id))
            && (start.HasZone(m.id) ==> ZoneStaysLeaf(q, next, m.id))
  {
    if start.HasZone(m.id) {
      ZoneUpdateStaysLeaf(start, plan, m, p, w);
    } else {
      UpdatePredicted(start, m, p, w);
      IdNamesNothing(m.id, Projected(p, m.kind, m.id, m.body));
    }
  }

  lemma UpdateTracks(start: World, plan: seq<Mutation>, k: nat, p: Projection, at: Progress, next: World)
    requires k < |plan| && plan[k].Update?
    requires ZonesAreLeaves(start, plan) && start.Valid() && Tracks(start, plan, k, p, at)
    requires plan[k].id in at.world.store && ParseKind(plan[k].kind) == Some(at.world.store[plan[k].id].kind)
    requires next == World(at.world.store[plan[k].id := Resource(at.world.store[plan[k].id].kind,
                                                                 Written(at.world, plan[k]))], at.world.known)
    ensures StepAgrees(start, plan, k, p, at, next, None)
  {
    var m := plan[k];
    assert m in plan && m.id in Addressed(plan);
    UpdatedIdTracks(start, plan, p, at.world, m, next);
    NamedIffIntersects(Projected(p, m.kind, m.id, m.body), p.deleted);
    AddressedStepAgrees(start, plan, k, p, at, next);
  }

  /** An update or delete step: agreement follows from the verdict on the step and its own id. */
  lemma AddressedStepAgrees(start: World, plan: seq<Mutation>, k: nat, p: Projection, at: Progress, next: World)
    requires k < |plan| && (plan[k].Update? || plan[k].Delete?)
    requires Tracks(start, plan, k, p, at)
    requires CheckStep(p, plan[k]).Ok? <==> !Clash(plan, at, plan[k], next, None, p.deleted)
    requires next.Valid() && next.known == at.world.known
    requires forall other :: other != plan[k].id ==> next.At(other) == at.world.At(other)
    requires plan[k].id in start.store
    requires CheckStep(p, plan[k]).Ok? && !start.HasZone(plan[k].id) ==>
               LiveAgrees(start, CheckStep(p, plan[k]).value, next, plan[k].id)
    requires CheckStep(p, plan[k]).Ok? && start.HasZone(plan[k].id) ==>
               ZoneStaysLeaf(CheckStep(p, plan[k]).value, next, plan[k].id)
    ensures StepAgrees(start, plan, k, p, at, next, None)
  {
    assert plan[k] in plan;
    MintedGrows(at.ids, None);
    DeletedSoFar(plan, k);
    if CheckStep(p, plan[k]).Ok? {
      OneIdTracks(start, plan, k, p, at, plan[k].id, CheckStep(p, plan[k]).value, Progress(next, at.ids + [None]));
    }
  }

  /** The overlay the check folds and the merge apply sends leave the same resource. */
  lemma UpdatePredicted(start: World, m: Mutation, p: Projection, w: World)
    requires m.Update? && m.id in start.store && LiveAgrees(start, p, w, m.id) && m.id in w.store
    requires ParseKind(m.kind) == Some(w.store[m.id].kind)
    ensures Written(w, m) == Fill(m.id, Projected(p, m.kind, m.id, m.body))
  {
    var base := p.live[m.id];
    if m.body.Obj? && base.Obj? {
      assert "_id" !in (m.body.fields - MANAGED);
      if "_id" !in base.fields {
        assert base.fields["_id" := Str(m.id)] + (m.body.fields - MANAGED)
            == (base.fields + (m.body.fields - MANAGED))["_id" := Str(m.id)];
      }
    }
  }

  lemma ZoneUpdateStaysLeaf(start: World, plan: seq<Mutation>, m: Mutation, p: Projection, w: World)
    requires m in plan && m.Update? && m.id in w.store && ParseKind(m.kind) == Some(w.store[m.id].kind)
    requires ZonesAreLeaves(start, plan) && ZoneStaysLeaf(p, w, m.id)
    ensures Names(Written(w, m)) == {} && Names(Projected(p, m.kind, m.id, m.body)) == {}
  {
    ZoneNameParses(m.kind, w.store[m.id].kind);
    var current := w.store[m.id].body;
    OverlaidNames(current, m.body);
    OverlaidNames(if m.id in p.live then p.live[m.id] else Obj(map[]), m.body);
    IdNamesNothing(m.id, Overlaid(current, m.body));
  }

  lemma DeleteTracks(start: World, plan: seq<Mutation>, k: nat, p: Projection, at: Progress, next: World)
    requires k < |plan| && plan[k].Delete?
    requires ZonesAreLeaves(start, plan) && start.Valid() && Tracks(start, plan, k, p, at)
    requires plan[k].id in at.world.store && ParseKind(plan[k].kind) == Some(at.world.store[plan[k].id].kind)
    requires next == World(at.world.store - {plan[k].id}, at.world.known)
    ensures StepAgrees(start, plan, k, p, at, next, None)
  {
    var m := plan[k];
    ZoneNameParses(m.kind, at.world.store[m.id].kind);
    assert m in plan && m.id in Addressed(plan);
    ZoneStillNamed(start, plan, k, p, at, m.id);
    AddressedStepAgrees(start, plan, k, p, at, next);
  }

  /** The projection names a zone exactly when something the plan touches names it on the controller. */
  lemma ZoneStillNamed(start: World, plan: seq<Mutation>, k: nat, p: Projection, at: Progress, zone: string)
    requires k <= |plan| && Tracks(start, plan, k, p, at)
    ensures StillNames(p, zone)
            <==> exists r :: (r in Addressed(plan) || r in Minted(at.ids)) && zone in NamesIn(at.world, r)
  {
    var minted := Minted(at.ids);
    forall r | (r in Addressed(plan) || r in minted) && zone in NamesIn(at.world, r)
      ensures StillNames(p, zone)
    {
      if r in Addressed(plan) {
        assert !start.HasZone(r);
        IdNamesNothing(r, p.live[r]);
      } else {
        var j :| 0 <= j < |minted| && minted[j] == r;
        assert CreatedAgrees(plan, at.world, minted[j], p.created[j]);
        IdNamesNothing(r, p.created[j]);
        assert p.created[j] in p.created;
      }
    }
    if StillNames(p, zone) {
      if id :| id in p.live && zone in Names(p.live[id]) {
        IdNamesNothing(id, p.live[id]);
        assert zone in NamesIn(at.world, id);
      } else {
        var j :| 0 <= j < |p.created| && zone in Names(p.created[j]);
        assert CreatedAgrees(plan, at.world, minted[j], p.created[j]);
        IdNamesNothing(minted[j], p.created[j]);
        assert minted[j] in minted && zone in NamesIn(at.world, minted[j]);
      }
    }
  }

  lemma StepTracks(cfg: Config, start: World, plan: seq<Mutation>, k: nat, p: Projection, at: Progress)
    requires k < |plan| && cfg.MintsFresh()
    requires ZonesAreLeaves(start, plan) && start.Valid() && Tracks(start, plan, k, p, at)
    requires ApplyEffect(cfg, at.world, plan[k]).Some?
    ensures StepAgrees(start, plan, k, p, at, ApplyEffect(cfg, at.world, plan[k]).value.0,
                       ApplyEffect(cfg, at.world, plan[k]).value.1)
  {
    var (next, id) := ApplyEffect(cfg, at.world, plan[k]).value;
    assert plan[k] in plan;
    match plan[k] {
      case Create(kind, _) =>
        CreateInverts(cfg, at.world, plan[k]);
        CreateTracks(start, plan, k, p, at, ParseKind(kind).value, next, id.value);
      case Update(_, _, _) =>
        UpdateInverts(cfg, at.world, plan[k]);
        UpdateTracks(start, plan, k, p, at, next);
      case Delete(_, _) =>
        DeleteInverts(cfg, at.world, plan[k]);
        DeleteTracks(start, plan, k, p, at, next);
    }
  }

  /**
  Prediction refines execution. After any prefix the controller took, the check is still going exactly when
  no step so far clashed, and then its projection is the controller's state on everything the plan touches.
  */
  lemma {:induction false} PrefixExact(cfg: Config, pre: Preimage, start: World, plan: seq<Mutation>, k: nat)
    requires k <= |plan| && cfg.MintsFresh() && start.Valid()
    requires GateHolds(start, pre, plan) && ZonesAreLeaves(start, plan)
    requires Run(cfg, start, plan[..k]).Some?
    ensures Walk(Seed(pre, plan), plan[..k]).Ok? <==> CleanTo(cfg, start, plan, k)
    ensures Walk(Seed(pre, plan), plan[..k]).Ok? ==>
              Tracks(start, plan, k, Walk(Seed(pre, plan), plan[..k]).value, Run(cfg, start, plan[..k]).value)
  {
    if k == 0 {
      SeedTracks(pre, plan, start);
    } else {
      var j := k - 1;
      assert plan[..k][..j] == plan[..j];
      PrefixExact(cfg, pre, start, plan, j);
      if Walk(Seed(pre, plan), plan[..j]).Ok? {
        StepTracks(cfg, start, plan, j, Walk(Seed(pre, plan), plan[..j]).value, Run(cfg, start, plan[..j]).value);
      }
    }
  }

  /**
  The zone check is exact: for every plan the controller takes, it passes if and only if no step of the
  real run clashes. The early exit for plans that delete no zone is covered.
  */
  lemma ZoneCheckExact(cfg: Config, pre: Preimage, start: World, plan: seq<Mutation>)
    requires cfg.MintsFresh() && start.Valid()
    requires GateHolds(start, pre, plan) && ZonesAreLeaves(start, plan)
    requires Run(cfg, start, plan).Some?
    ensures Verdict(pre, plan).Ok? <==> forall i :: 0 <= i < |plan| ==> !ClashAt(cfg, start, plan, i)
  {
    CleanToMeansNoClash(cfg, start, plan, |plan|);
    if ZonesDeletedBy(plan) == {} {
      forall i | 0 <= i < |plan|
        ensures !ClashAt(cfg, start, plan, i)
      {
        NoDeletesNoClash(cfg, start, plan, i);
      }
    } else {
      assert plan[..|plan|] == plan;
      PrefixExact(cfg, pre, start, plan, |plan|);
    }
  }

  // ---- On a controller that guards zones ----

  /** A deleted zone is not there to be named. */
  lemma DeletedZonesAreGone(cfg: Config, pre: Preimage, start: World, plan: seq<Mutation>, z: string)
    requires cfg.MintsFresh() && start.Valid() && GateHolds(start, pre, plan) && NoChosenIds(plan)
    requires Run(cfg, start, plan).Some? && z in ZonesDeletedBy(plan)
    ensures !Run(cfg, start, plan).value.world.HasZone(z)
  {
    var m :| m in plan && m.Delete? && m.id == z;
    AddressedIsKnown(start, pre, plan, m);
    RunKept(cfg, pre, start, plan);
    assert z in Deleted(plan);
  }

  /** A guarding controller takes no write that names a zone the plan deleted. */
  lemma GuardedWriteIsClean(cfg: Config, before: World, m: Mutation, zones: set<string>)
    requires cfg.MintsFresh() && cfg.guardsZones && before.Valid() && ApplyEffect(cfg, before, m).Some?
    requires forall z :: z in zones ==> !before.HasZone(z)
    ensures var (after, id) := ApplyEffect(cfg, before, m).value;
            && (m.Create? ==> id.Some? && NamesIn(after, id.value) * zones == {})
            && (m.Update? ==> NamesIn(after, m.id) * zones == {})
  {
    TakenNamesZones(cfg, before, m);
    hide ParseKind, Names, Written;
    match m {
      case Create(_, body) =>
        CreateInverts(cfg, before, m);
        IdNamesNothing(ApplyEffect(cfg, before, m).value.1.value, body);
      case Update(_, _, _) => UpdateInverts(cfg, before, m);
      case Delete(_, _) =>
    }
  }

  /** Nor the removal of a zone anything still names. */
  lemma GuardedDeleteIsClean(cfg: Config, pre: Preimage, start: World, plan: seq<Mutation>, k: nat, p: Projection,
                             before: Progress)
    requires cfg.guardsZones && k < |plan| && plan[k].Delete? && GateHolds(start, pre, plan)
    requires Tracks(start, plan, k, p, before) && ApplyEffect(cfg, before.world, plan[k]).Some?
    ensures !Clash(plan, before, plan[k], ApplyEffect(cfg, before.world, plan[k]).value.0, None,
                   ZonesDeletedBy(plan[..k]))
  {
    var zone := plan[k].id;
    assert plan[k] in plan && zone in Addressed(plan);
    GateGives(start, pre, plan, plan[k]);
    ZoneNameParses(plan[k].kind, start.store[zone].kind);
    TakenNamesZones(cfg, before.world, plan[k]);
    hide ParseKind, Names, ApplyEffect, GateHolds;
    if plan[k].kind == ZONE_KIND {
      assert ZoneStaysLeaf(p, before.world, zone);
      forall r | r != zone
        ensures zone !in NamesIn(before.world, r)
      {
        assert zone in NamesIn(before.world, r) ==> before.world.InUse(zone);
      }
    }
  }

  lemma {:induction false} GuardKeepsClean(cfg: Config, pre: Preimage, start: World, plan: seq<Mutation>, k: nat)
    requires k <= |plan| && cfg.MintsFresh() && cfg.guardsZones && start.Valid()
    requires GateHolds(start, pre, plan) && ZonesAreLeaves(start, plan) && Run(cfg, start, plan[..k]).Some?
    ensures CleanTo(cfg, start, plan, k)
  {
    if k != 0 {
      var j := k - 1;
      assert plan[..k][..j] == plan[..j] && forall m :: m in plan[..j] ==> m in plan;
      GuardKeepsClean(cfg, pre, start, plan, j);
      PrefixExact(cfg, pre, start, plan, j);
      RunKeepsValid(cfg, start, plan[..j]);
      var before := Run(cfg, start, plan[..j]).value;
      assert ApplyEffect(cfg, before.world, plan[j]).Some?;
      hide Walk, Run, ApplyEffect, Tracks;
      if plan[j].Delete? {
        GuardedDeleteIsClean(cfg, pre, start, plan, j, Walk(Seed(pre, plan), plan[..j]).value, before);
      } else {
        forall z | z in ZonesDeletedBy(plan[..j])
          ensures !before.world.HasZone(z)
        {
          DeletedZonesAreGone(cfg, pre, start, plan[..j], z);
        }
        GuardedWriteIsClean(cfg, before.world, plan[j], ZonesDeletedBy(plan[..j]));
      }
    }
  }

  /** The check refuses only what a controller that guards zones refuses too. */
  lemma GuardedRunPassesCheck(cfg: Config, pre: Preimage, start: World, plan: seq<Mutation>)
    requires cfg.MintsFresh() && cfg.guardsZones && start.Valid()
    requires GateHolds(start, pre, plan) && ZonesAreLeaves(start, plan) && Run(cfg, start, plan).Some?
    ensures Verdict(pre, plan).Ok?
  {
    assert plan[..|plan|] == plan;
    GuardKeepsClean(cfg, pre, start, plan, |plan|);
    CleanToMeansNoClash(cfg, start, plan, |plan|);
    ZoneCheckExact(cfg, pre, start, plan);
  }

  // ---- Why zones must be leaves ----

  /** Deleting a single zone passes the check whatever its pre-image says. */
  lemma LoneDeletePasses(pre: Preimage, zone: string)
    ensures Verdict(pre, [Delete(ZONE_KIND, zone)]).Ok?
  {
    var plan := [Delete(ZONE_KIND, zone)];
    assert SeededIds(plan) == {} && plan[..|plan| - 1] == [];
    assert Walk(Seed(pre, plan), plan[..|plan| - 1]) == Ok(Projection(map[], [], {}));
    assert CheckStep(Projection(map[], [], {}), plan[0]).Ok?;
  }

  /**
  Why the zones must be leaves: the check looks at no pre-image of a zone, so a zone that named itself would
  be deleted while something the plan touches still named it, and the check would pass.
  */
  lemma ZoneNamingAZoneEscapes(cfg: Config, zone: string, body: Json)
    requires body.GetStr("_id") == Some(zone) && zone in Names(body)
    ensures var start := World(map[zone := Resource(FirewallZone, body)], {zone});
            var plan, pre := [Delete(ZONE_KIND, zone)], FromResources([body]);
            && start.Valid() && GateHolds(start, pre, plan) && Run(cfg, start, plan).Some?
            && Verdict(pre, plan).Ok? && ClashAt(cfg, start, plan, 0)
  {
    hide Verdict, Run, Names, ParseKind;
    var start := World(map[zone := Resource(FirewallZone, body)], {zone});
    var plan, pre := [Delete(ZONE_KIND, zone)], FromResources([body]);
    ParseInvertsName(ZONE_KIND, FirewallZone);
    assert pre.GetResource(zone) == Some(body) by {
      assert pre.resources.GetItems("data") == [body];
    }
    LoneDeletePasses(pre, zone);
    LoneStepRuns(cfg, start, plan[0]);
    assert plan[0] in plan && zone in Addressed(plan) && zone in NamesIn(start, zone);
  }

  lemma NoDeletesNoClash(cfg: Config, start: World, plan: seq<Mutation>, i: nat)
    requires i < |plan| && ZonesDeletedBy(plan) == {}
    ensures !ClashAt(cfg, start, plan, i)
  {
    hide Run, ApplyEffect;
    assert plan[i] in plan;
    assert ZonesDeletedBy(plan[..i]) <= ZonesDeletedBy(plan);
  }
}
