/** The local check that a plan's zone deletions and policy writes do not contradict each other. */
module ZoneDeletions {
  import opened Wrappers
  import opened JsonValues
  import opened ResourceKinds
  import opened StagedPlans

  datatype ZoneError = StillNamed(zone: string) | NamesDeleted(zone: string)

  /** What the check believes mid-plan: resources by id, bodies created so far, zones deleted so far. */
  datatype Projection = Projection(live: map<string, Json>, created: seq<Json>, deleted: set<string>)

  function ZonesDeletedBy(plan: seq<Mutation>): set<string> {
    set m | m in plan && m.Delete? && m.kind == ZONE_KIND :: m.id
  }

  /** The non-zone ids a plan addresses. */
  function SeededIds(plan: seq<Mutation>): set<string> {
    set m | m in plan && (m.Update? || m.Delete?) && m.kind != ZONE_KIND :: m.id
  }

  /** Every addressed non-zone resource, at its pre-image value. */
  function Seed(pre: Preimage, plan: seq<Mutation>): Projection {
    Projection(map id | id in SeededIds(plan) && pre.GetResource(id).Some? :: pre.GetResource(id).value, [], {})
  }

  /** The first deleted zone a resource names, source side first. */
  function DeletedZoneNamed(resource: Json, deleted: set<string>): Option<string> {
    match (ZoneOf(resource, "source"), ZoneOf(resource, "destination"))
    case (Some(z), other) => if z in deleted then Some(z) else
      (match other case Some(d) => if d in deleted then Some(d) else None case None => None)
    case (None, Some(d)) => if d in deleted then Some(d) else None
    case (None, None) => None
  }

  /** The zone it names is deleted and carried by the resource; by the source, if the source carries a deleted one. */
  lemma DeletedZoneIsCarried(resource: Json, deleted: set<string>, zone: string)
    ensures DeletedZoneNamed(resource, deleted) == Some(zone) <==>
              && zone in deleted
              && (|| Carries(resource, "source", zone)
                  || (Carries(resource, "destination", zone)
                      && forall other :: other in deleted ==> !Carries(resource, "source", other)))
    ensures DeletedZoneNamed(resource, deleted).None? <==>
              forall z :: z in deleted ==> !Carries(resource, "source", z) && !Carries(resource, "destination", z)
  {
    if ZoneOf(resource, "source").Some? {
      NamesAreCarried(resource, ZoneOf(resource, "source").value);
    }
    if ZoneOf(resource, "destination").Some? {
      NamesAreCarried(resource, ZoneOf(resource, "destination").value);
    }
  }

  predicate StillNames(p: Projection, zone: string) {
    || (exists id :: id in p.live && zone in Names(p.live[id]))
    || (exists body :: body in p.created && zone in Names(body))
  }

  /** What an update leaves in the projection: overlaid for a kind apply merges, replaced otherwise. */
  function Projected(p: Projection, kind: string, id: string, body: Json): Json {
    if MergesPartially(kind) then Overlaid(if id in p.live then p.live[id] else Obj(map[]), body) else body
  }

  function CheckStep(p: Projection, m: Mutation): Result<Projection, ZoneError> {
    match m
    case Create(_, body) =>
      (match DeletedZoneNamed(body, p.deleted)
       case Some(z) => Err(NamesDeleted(z))
       case None => Ok(p.(created := p.created + [body])))
    case Update(kind, id, body) =>
      var next := Projected(p, kind, id, body);
      (match DeletedZoneNamed(next, p.deleted)
       case Some(z) => Err(NamesDeleted(z))
       case None => Ok(p.(live := p.live[id := next])))
    case Delete(kind, id) =>
      if kind != ZONE_KIND then Ok(p.(live := p.live - {id}))
      else if StillNames(p, id) then Err(StillNamed(id))
      else Ok(p.(deleted := p.deleted + {id}))
    case Restore(_) => Ok(p)
  }

  function Walk(p: Projection, plan: seq<Mutation>): Result<Projection, ZoneError> {
    if plan == [] then Ok(p) else
    match Walk(p, plan[..|plan| - 1])
    case Err(e) => Err(e)
    case Ok(q) => CheckStep(q, plan[|plan| - 1])
  }

  function Verdict(pre: Preimage, plan: seq<Mutation>): Result<(), ZoneError> {
    if ZonesDeletedBy(plan) == {} then Ok(()) else
    match Walk(Seed(pre, plan), plan)
    case Ok(_) => Ok(())
    case Err(e) => Err(e)
  }

  /** A walk that got through a plan got through every prefix of it. */
  lemma {:induction false} WalkPrefix(p: Projection, plan: seq<Mutation>, k: nat)
    requires k <= |plan|
    ensures Walk(p, plan).Ok? ==> Walk(p, plan[..k]).Ok?
    ensures Walk(p, plan[..k]).Err? ==> Walk(p, plan) == Err(Walk(p, plan[..k]).error)
    decreases |plan|
  {
    if k == |plan| {
      assert plan[..k] == plan;
    } else {
      WalkPrefix(p, plan[..|plan| - 1], k);
      assert plan[..|plan| - 1][..k] == plan[..k];
    }
  }

  // ---- What a refusal says ----

  /** Some resource the check believes in carries this zone. */
  ghost predicate StillCarried(p: Projection, zone: string) {
    || (exists id :: id in p.live && (Carries(p.live[id], "source", zone) || Carries(p.live[id], "destination", zone)))
    || (exists body :: body in p.created && (Carries(body, "source", zone) || Carries(body, "destination", zone)))
  }

  /**
  The refusal is about this mutation and names a zone that is really the matter: the zone it deletes, which
  something still carries, or a zone deleted before, which the body it creates or the resource it leaves carries.
  */
  ghost predicate Justifies(p: Projection, deleted: set<string>, m: Mutation, e: ZoneError) {
    match e
    case StillNamed(zone) => m == Delete("firewall_zone", zone) && StillCarried(p, zone)
    case NamesDeleted(zone) =>
      && zone in deleted
      && match m
         case Create(_, body) => Carries(body, "source", zone) || Carries(body, "destination", zone)
         case Update(kind, id, body) =>
           var left := Projected(p, kind, id, body);
           Carries(left, "source", zone) || Carries(left, "destination", zone)
         case _ => false
  }

  lemma StillNamesMeans(p: Projection, zone: string)
    ensures StillNames(p, zone) <==> StillCarried(p, zone)
  {
    hide Names, Carries;
    forall j: Json
      ensures zone in Names(j) <==> Carries(j, "source", zone) || Carries(j, "destination", zone)
    {
      NamesAreCarried(j, zone);
    }
  }

  lemma StepIsJustified(p: Projection, m: Mutation)
    requires CheckStep(p, m).Err?
    ensures Justifies(p, p.deleted, m, CheckStep(p, m).error)
  {
    hide DeletedZoneNamed, StillNames, StillCarried, Carries;
    match m {
      case Create(_, body) =>
        DeletedZoneIsCarried(body, p.deleted, DeletedZoneNamed(body, p.deleted).value);
      case Update(kind, id, body) =>
        var left := Projected(p, kind, id, body);
        DeletedZoneIsCarried(left, p.deleted, DeletedZoneNamed(left, p.deleted).value);
      case Delete(_, zone) => StillNamesMeans(p, zone);
    }
  }

  lemma {:induction false} WalkDeletes(p: Projection, plan: seq<Mutation>)
    requires p.deleted == {} && Walk(p, plan).Ok?
    ensures Walk(p, plan).value.deleted == ZonesDeletedBy(plan)
  {
    hide Projected, DeletedZoneNamed, StillNames;
    if plan != [] {
      WalkDeletes(p, plan[..|plan| - 1]);
      assert plan == plan[..|plan| - 1] + [plan[|plan| - 1]];
    }
  }

  /** A refused plan has a mutation the refusal is about, and every mutation before it passed. */
  lemma {:induction false} RefusalIsJustified(p: Projection, plan: seq<Mutation>)
    requires p.deleted == {} && Walk(p, plan).Err?
    ensures exists i: nat :: i < |plan| && Walk(p, plan[..i]).Ok?
                             && Justifies(Walk(p, plan[..i]).value, ZonesDeletedBy(plan[..i]), plan[i],
                                          Walk(p, plan).error)
  {
    hide CheckStep, Justifies, ZonesDeletedBy;
    var last := |plan| - 1;
    var init := plan[..last];
    if Walk(p, init).Err? {
      RefusalIsJustified(p, init);
      var i: nat :| i < |init| && Walk(p, init[..i]).Ok?
                    && Justifies(Walk(p, init[..i]).value, ZonesDeletedBy(init[..i]), init[i], Walk(p, init).error);
      assert init[..i] == plan[..i] && init[i] == plan[i];
    } else {
      WalkDeletes(p, init);
      StepIsJustified(Walk(p, init).value, plan[last]);
    }
  }

  /** What the verdict says: a plan that deletes no zone passes, and a refusal is justified. */
  lemma VerdictIsJustified(pre: Preimage, plan: seq<Mutation>)
    ensures (forall m :: m in plan && m.Delete? ==> m.kind != "firewall_zone") ==> Verdict(pre, plan).Ok?
    ensures Verdict(pre, plan).Err? ==>
              exists i: nat ::
                i < |plan| && Walk(Seed(pre, plan), plan[..i]).Ok?
                && Justifies(Walk(Seed(pre, plan), plan[..i]).value, ZonesDeletedBy(plan[..i]), plan[i],
                             Verdict(pre, plan).error)
  {
    hide Walk, Justifies, Seed;
    if Verdict(pre, plan).Err? {
      assert Seed(pre, plan).deleted == {} by { SeedDeletesNothing(pre, plan); }
      RefusalIsJustified(Seed(pre, plan), plan);
    }
  }

  lemma SeedDeletesNothing(pre: Preimage, plan: seq<Mutation>)
    ensures Seed(pre, plan).deleted == {}
  {
  }

  /** The scan behind a zone delete: every live value, then every created body, both sides of each. */
  method ScanForZone(p: Projection, zone: string) returns (found: bool)
    ensures found <==> StillNames(p, zone)
  {
    var todo := p.live.Keys;
    while todo != {}
      invariant todo <= p.live.Keys
      invariant forall id :: id in p.live && id !in todo ==> zone !in Names(p.live[id])
    {
      var id :| id in todo;
      if ZoneOf(p.live[id], "source") == Some(zone) || ZoneOf(p.live[id], "destination") == Some(zone) {
        return true;
      }
      todo := todo - {id};
    }
    for i := 0 to |p.created|
      invariant forall j :: 0 <= j < i ==> zone !in Names(p.created[j])
    {
      if ZoneOf(p.created[i], "source") == Some(zone) || ZoneOf(p.created[i], "destination") == Some(zone) {
        assert p.created[i] in p.created;
        return true;
      }
    }
    found := false;
  }

  /** The overlay the check folds with, inserted key by key like the merge inside apply. */
  method Overlay(base: Json, fragment: Json) returns (folded: Json)
    ensures folded == Overlaid(base, fragment)
    ensures !base.Obj? || !fragment.Obj? ==> folded == base
    ensures base.Obj? && fragment.Obj? ==> folded.Obj?
    // Fragment keys are taken, the managed ones dropped, and every key the fragment leaves alone is kept.
    ensures base.Obj? && fragment.Obj? ==>
              forall key ::
                folded.Get(key) == if key in fragment.fields && key != "_id" && key != "site_id" then fragment.Get(key)
                                   else base.Get(key)
  {
    if !base.Obj? || !fragment.Obj? {
      return base;
    }
    var fields := base.fields;
    var todo := fragment.fields.Keys;
    while todo != {}
      invariant todo <= fragment.fields.Keys
      invariant fields == base.fields + (fragment.fields - MANAGED - todo)
    {
      var key :| key in todo;
      if key != "_id" && key != "site_id" {
        fields := fields[key := fragment.fields[key]];
      }
      todo := todo - {key};
    }
    folded := Obj(fields);
  }

  method CheckZoneDeletions(pre: Preimage, plan: seq<Mutation>) returns (r: Result<(), ZoneError>)
    ensures r == Verdict(pre, plan)
  {
    if ZonesDeletedBy(plan) == {} {
      return Ok(());
    }
    var live: map<string, Json> := map[];
    for i := 0 to |plan|
      invariant live == Seed(pre, plan[..i]).live
    {
      var m := plan[i];
      assert plan[..i + 1] == plan[..i] + [m];
      if (m.Update? || m.Delete?) && m.kind != ZONE_KIND {
        var recorded := pre.GetResource(m.id);
        if recorded.Some? {
          live := live[m.id := recorded.value];
        }
      }
    }
    assert plan[..|plan|] == plan;
    var p := Projection(live, [], {});
    for i := 0 to |plan|
      invariant Walk(Seed(pre, plan), plan[..i]) == Ok(p)
    {
      var m := plan[i];
      assert plan[..i + 1][..i] == plan[..i];
      WalkPrefix(Seed(pre, plan), plan, i + 1);
      match m {
        case Create(_, body) =>
          var named := DeletedZoneNamed(body, p.deleted);
          if named.Some? {
            return Err(NamesDeleted(named.value));
          }
          p := p.(created := p.created + [body]);
        case Update(kind, id, body) =>
          var entry := if id in p.live then p.live[id] else Obj(map[]);
          if MergesPartially(kind) {
            entry := Overlay(entry, body);
          } else {
            entry := body;
          }
          p := p.(live := p.live[id := entry]);
          var named := DeletedZoneNamed(entry, p.deleted);
          if named.Some? {
            return Err(NamesDeleted(named.value));
          }
        case Delete(kind, id) =>
          if kind == ZONE_KIND {
            var found := ScanForZone(p, id);
            if found {
              return Err(StillNamed(id));
            }
            p := p.(deleted := p.deleted + {id});
          } else {
            p := p.(live := p.live - {id});
          }
        case Restore(_) =>
      }
    }
    r := Ok(());
  }
}
