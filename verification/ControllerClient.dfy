/** The client over one controller: REST calls that may fail, and the change-set operations built on them. */
module ControllerClient {
  import opened Wrappers
  import opened JsonValues
  import opened ResourceKinds
  import opened StagedPlans
  import opened Worlds
  import opened Outcomes

  /** One attempted write, as the apply engine asked for it. */
  datatype Attempt =
    | Applying(index: nat, mutation: Mutation)
    | RollingBack(index: nat, mutation: Mutation, prior: Option<Json>, created: Option<string>)

  class Controller {
    const cfg: Config
    const fails: nat -> bool   // which REST calls never get through, by position
    var store: map<string, Resource>
    var known: set<string>
    var calls: nat
    ghost var log: seq<Attempt>

    constructor (cfg: Config, fails: nat -> bool, store: map<string, Resource>)
      requires cfg.MintsFresh()
      ensures Valid() && Now() == World(store, store.Keys) && log == []
      ensures this.cfg == cfg && this.fails == fails
    {
      this.cfg, this.fails, this.store, this.known, this.calls := cfg, fails, store, store.Keys, 0;
      log := [];
    }

    function Now(): World
      reads this
    {
      World(store, known)
    }

    ghost predicate Valid()
      reads this
    {
      cfg.MintsFresh() && Now().Valid()
    }

    ghost predicate NeverFails() {
      forall n :: !fails(n)
    }

    // ---- REST ----

    method Reach() returns (ok: bool)
      modifies `calls
      ensures NeverFails() ==> ok
    {
      ok := !fails(calls);
      calls := calls + 1;
    }

    method PutResource(kind: ResourceKind, id: string, body: Json) returns (ok: bool)
      requires Valid()
      modifies `calls, `store
      ensures Valid()
      ensures ok ==> Put(cfg, old(Now()), kind, id, body) == Some(Now())
      ensures !ok ==> Now() == old(Now()) && (NeverFails() ==> Put(cfg, old(Now()), kind, id, body).None?)
    {
      var reached := Reach();
      var next := Put(cfg, Now(), kind, id, body);
      ok := reached && next.Some?;
      if ok {
        store := next.value.store;
      }
    }

    method PostResource(kind: ResourceKind, body: Json) returns (r: Option<string>)
      requires Valid()
      modifies `calls, `store, `known
      ensures Valid()
      ensures r.Some? ==> Post(cfg, old(Now()), kind, body) == Some((Now(), r.value))
      ensures r.None? ==> Now() == old(Now()) && (NeverFails() ==> Post(cfg, old(Now()), kind, body).None?)
    {
      var reached := Reach();
      var next := Post(cfg, Now(), kind, body);
      r := None;
      if reached && next.Some? {
        store, known, r := next.value.0.store, next.value.0.known, Some(next.value.1);
      }
    }

    method DeleteResource(kind: ResourceKind, id: string) returns (ok: bool)
      requires Valid()
      modifies `calls, `store
      ensures Valid()
      ensures ok ==> Remove(cfg, old(Now()), kind, id) == Some(Now())
      ensures !ok ==> Now() == old(Now()) && (NeverFails() ==> Remove(cfg, old(Now()), kind, id).None?)
    {
      var reached := Reach();
      var next := Remove(cfg, Now(), kind, id);
      ok := reached && next.Some?;
      if ok {
        store := next.value.store;
      }
    }

    /** `Ok(None)` is a resource that is not there, which is not a failed read. */
    method FetchResource(name: string, id: string) returns (r: Result<Option<Json>, UnifiError>)
      modifies `calls
      ensures r.Ok? ==> ParseKind(name).Some? && r.value == Fetched(Now(), ParseKind(name).value, id)
      ensures NeverFails() && ParseKind(name).Some? ==> r.Ok?
    {
      if ParseKind(name).None? {
        return Err(Malformed("unknown resource kind"));
      }
      var reached := Reach();
      if !reached {
        return Err(Upstream);
      }
      r := Ok(Fetched(Now(), ParseKind(name).value, id));
    }

    // ---- Change-set operations ----

    method ApplyMutation(index: nat, m: Mutation) returns (r: Result<Option<string>, UnifiError>)
      requires Valid()
      modifies `calls, `store, `known, `log
      ensures Valid() && log == old(log) + [Applying(index, m)]
      ensures r.Ok? ==> ApplyEffect(cfg, old(Now()), m) == Some((Now(), r.value))
      ensures r.Err? ==> Now() == old(Now()) && (NeverFails() ==> ApplyEffect(cfg, old(Now()), m).None?)
      // What each kind of accepted mutation did to the store, and the ones that never are.
      ensures r.Ok? ==> Took(old(Now()), m, r.value, Now())
      ensures m.Restore? || (m.Update? && m.kind == "device") ==> r.Err?
    {
      log := log + [Applying(index, m)];
      ghost var before := Now();
      if m.Restore? {
        return Err(Malformed("backup restore not implemented"));
      }
      if ParseKind(m.kind).None? {
        return Err(Malformed("unknown resource kind"));
      }
      var kind := ParseKind(m.kind).value;
      match m {
        case Create(_, body) =>
          var created := PostResource(kind, body);
          r := if created.Some? then Ok(created) else Err(Upstream);
        case Update(_, id, body) =>
          r := ApplyUpdate(kind, m.kind, id, body);
        case Delete(_, id) =>
          var ok := DeleteResource(kind, id);
          r := if ok then Ok(None) else Err(Upstream);
      }
      if r.Ok? {
        EffectTook(cfg, before, m);
      }
    }

    method ApplyUpdate(kind: ResourceKind, name: string, id: string, staged: Json)
      returns (r: Result<Option<string>, UnifiError>)
      requires Valid() && ParseKind(name) == Some(kind)
      modifies `calls, `store
      ensures Valid()
      ensures name == "device" ==> r.Err?
      ensures r.Ok? ==> ApplyEffect(cfg, old(Now()), Update(name, id, staged)) == Some((Now(), r.value))
      ensures r.Err? ==>
                && Now() == old(Now())
                && (NeverFails() ==> ApplyEffect(cfg, old(Now()), Update(name, id, staged)).None?)
    {
      ParseInvertsName(name, Device);
      if name == "device" {
        return Err(Malformed("device configuration writes are not supported"));
      }
      var wire := staged;
      if kind.Surface() == PrivateV2 {
        var current := FetchResource(name, id);
        if current.Err? {
          return Err(current.error);
        }
        if current.value.None? {
          return Err(NotFound);
        }
        wire := MergeOver(current.value.value, staged);
      }
      var ok := PutResource(kind, id, wire);
      r := if ok then Ok(None) else Err(Upstream);
    }

    /** The merge inside apply: staged keys inserted one by one, the managed ones dropped. */
    static method MergeOver(current: Json, staged: Json) returns (merged: Json)
      ensures merged == Overlaid(current, staged)
      ensures !current.Obj? || !staged.Obj? ==> merged == current
      ensures current.Obj? && staged.Obj? ==> merged.Obj?
      // Staged keys are taken, the managed ones dropped, and every key the staged body leaves alone is kept.
      ensures current.Obj? && staged.Obj? ==>
                forall key ::
                  merged.Get(key) == if key in staged.fields && key != "_id" && key != "site_id" then staged.Get(key)
                                     else current.Get(key)
    {
      merged := current;
      if current.Obj? && staged.Obj? {
        var fields := current.fields;
        var todo := staged.fields.Keys;
        while todo != {}
          invariant todo <= staged.fields.Keys
          invariant fields == current.fields + (staged.fields - MANAGED - todo)
        {
          var key :| key in todo;
          if key != "_id" && key != "site_id" {
            fields := fields[key := staged.fields[key]];
          }
          todo := todo - {key};
        }
        merged := Obj(fields);
      }
    }

    method RollbackMutation(index: nat, m: Mutation, prior: Option<Json>, created: Option<string>)
      returns (r: Result<(), UnifiError>)
      requires Valid()
      modifies `calls, `store, `known, `log
      ensures Valid() && log == old(log) + [RollingBack(index, m, prior, created)]
      ensures r.Ok? ==> UndoEffect(cfg, old(Now()), m, prior, created) == Some(Now())
      ensures r.Err? ==> Now() == old(Now()) && (NeverFails() ==> UndoEffect(cfg, old(Now()), m, prior, created).None?)
    {
      log := log + [RollingBack(index, m, prior, created)];
      if m.Restore? {
        return Err(Malformed("restore rollback not supported"));
      }
      if if m.Create? then created.None? else prior.None? {
        return Err(Malformed("nothing recorded to roll back to"));
      }
      if ParseKind(m.kind).None? {
        return Err(Malformed("unknown resource kind"));
      }
      var kind := ParseKind(m.kind).value;
      var ok;
      match m {
        case Create(_, _) => ok := DeleteResource(kind, created.value);
        case Update(_, id, _) => ok := PutResource(kind, id, prior.value);
        case Delete(_, _) =>
          var posted := PostResource(kind, prior.value);
          ok := posted.Some?;
      }
      r := if ok then Ok(()) else Err(Upstream);
    }

    /** The staleness gate: answers, or fails to answer, and never writes. */
    method PreimageMatches(pre: Preimage, plan: seq<Mutation>) returns (r: Result<bool, UnifiError>)
      modifies `calls
      ensures r.Ok? ==> (r.value <==> GateHolds(Now(), pre, plan))
      // Every addressed resource is stored under its kind with exactly the recorded body, or something has moved.
      ensures r.Ok? ==>
                (r.value <==> forall m :: m in plan && (m.Update? || m.Delete?) ==>
                                pre.GetResource(m.id).Some? && ParseKind(m.kind).Some? && m.id in store
                                && store[m.id] == Resource(ParseKind(m.kind).value, pre.GetResource(m.id).value))
      ensures NeverFails() && (forall m :: m in plan && (m.Update? || m.Delete?) ==> ParseKind(m.kind).Some?) ==> r.Ok?
    {
      for i := 0 to |plan|
        invariant GateHolds(Now(), pre, plan[..i])
      {
        var m := plan[i];
        if m.Update? || m.Delete? {
          var recorded := pre.GetResource(m.id);
          if recorded.None? {
            return Ok(false);
          }
          var current := FetchResource(m.kind, m.id);
          if current.Err? {
            return Err(current.error);
          }
          if current.value != recorded {
            return Ok(false);
          }
        }
        assert plan[..i + 1] == plan[..i] + [m];
      }
      assert plan[..|plan|] == plan;
      assert forall m :: m in plan && (m.Update? || m.Delete?) ==>
               Fetched(Now(), ParseKind(m.kind).value, m.id) == pre.GetResource(m.id);
      r := Ok(true);
    }

    /** Re-reads every touched resource; collects mismatches and gives up on a failed read. */
    method VerifyApplied(plan: seq<Mutation>, created: map<nat, string>, ghost ids: seq<Option<string>>)
      returns (r: Result<(), UnifiError>)
      requires Records(created, ids) && |ids| == |plan|
      modifies `calls
      ensures r.Ok? ==> AllLanded(Now(), plan, ids)
      ensures NeverFails() && AllLanded(Now(), plan, ids) ==> r.Ok?
      // A confirmation: updates there with their staged names, deletes gone, recorded creates there.
      ensures r.Ok? ==> forall m :: m in plan && m.Update? ==>
                ParseKind(m.kind).Some? && m.id in store && store[m.id].kind == ParseKind(m.kind).value
                && (m.body.Get("name").Some? ==> store[m.id].body.Get("name") == m.body.Get("name"))
      ensures r.Ok? ==> forall m :: m in plan && m.Delete? ==>
                ParseKind(m.kind).Some? && !(m.id in store && store[m.id].kind == ParseKind(m.kind).value)
      ensures r.Ok? ==> forall i :: i in created && plan[i].Create? ==>
                ParseKind(plan[i].kind).Some? && created[i] in store
                && store[created[i]].kind == ParseKind(plan[i].kind).value
    {
      var mismatches: set<nat> := {};
      for i := 0 to |plan|
        invariant mismatches == {} ==> forall j :: 0 <= j < i ==> Landed(Now(), plan[j], ids[j])
        invariant AllLanded(Now(), plan, ids) ==> mismatches == {}
      {
        var m := plan[i];
        match m {
          case Create(name, _) =>
            if i in created {
              var read := FetchResource(name, created[i]);
              if read.Err? {
                return Err(Malformed("could not verify create"));
              }
              if read.value.None? {
                mismatches := mismatches + {i};
              }
            }
          case Update(name, id, body) =>
            var read := FetchResource(name, id);
            if read.Err? {
              return Err(Malformed("could not verify update"));
            }
            if read.value.None? || (body.Get("name").Some? && read.value.value.Get("name") != body.Get("name")) {
              mismatches := mismatches + {i};
            }
          case Delete(name, id) =>
            var read := FetchResource(name, id);
            if read.Err? {
              return Err(Malformed("could not verify delete"));
            }
            if read.value.Some? {
              mismatches := mismatches + {i};
            }
          case Restore(_) =>
        }
      }
      if mismatches == {} {
        forall m | m in plan
          ensures m.Update? || m.Delete? ==> Landed(Now(), m, None)
        {
          var i :| 0 <= i < |plan| && plan[i] == m;
          assert Landed(Now(), plan[i], ids[i]);
        }
        forall i | i in created
          ensures Landed(Now(), plan[i], Some(created[i]))
        {
          assert Landed(Now(), plan[i], ids[i]);
        }
      }
      r := if mismatches != {} then Err(Malformed("verification failed")) else Ok(());
    }
  }

  /** The value an update leaves under a key: merged on the three Private v2 kinds, replaced on every other. */
  ghost function LeftBy(kind: string, stored: Json, staged: Json, key: string): Option<Json> {
    if kind !in {"firewall_policy", "firewall_zone", "traffic_route"} then staged.Get(key)
    else if staged.Obj? && key in staged.fields && key != "site_id" then staged.Get(key)
    else stored.Get(key)
  }

  /**
  What an accepted mutation did, over the store alone. A create added one resource under a new id, its body as
  sent but for the `_id`. An update changed one resource, keeping its kind. A delete removed one.
  */
  ghost predicate Took(before: World, m: Mutation, id: Option<string>, after: World) {
    match m
    case Create(name, body) =>
      && id.Some? && id.value !in before.store && ParseKind(name).Some? && body.Obj?
      && after.store.Keys == before.store.Keys + {id.value}
      && (forall other :: other in before.store ==> after.store[other] == before.store[other])
      && after.store[id.value]
         == Resource(ParseKind(name).value, Obj(body.fields["_id" := Str(id.value)]))
    case Update(name, target, staged) =>
      && id.None? && target in before.store && ParseKind(name) == Some(before.store[target].kind)
      && after.store.Keys == before.store.Keys && after.store[target].kind == before.store[target].kind
      && (forall key :: key != "_id" ==>
            after.store[target].body.Get(key) == LeftBy(name, before.store[target].body, staged, key))
      && (forall other :: other in before.store && other != target ==> after.store[other] == before.store[other])
    case Delete(name, target) =>
      && id.None? && target in before.store && ParseKind(name) == Some(before.store[target].kind)
      && after.store.Keys == before.store.Keys - {target}
      && (forall other :: other in after.store ==> after.store[other] == before.store[other])
    case Restore(_) => false
  }

  lemma EffectTook(cfg: Config, w: World, m: Mutation)
    requires cfg.MintsFresh() && w.Valid() && ApplyEffect(cfg, w, m).Some?
    ensures Took(w, m, ApplyEffect(cfg, w, m).value.1, ApplyEffect(cfg, w, m).value.0)
  {
    match m {
      case Create(_, _) => CreateInverts(cfg, w, m);
      case Update(kind, id, staged) =>
        UpdateInverts(cfg, w, m);
        MergedKinds(kind);
        forall key | key != "_id"
          ensures ApplyEffect(cfg, w, m).value.0.store[id].body.Get(key) == LeftBy(kind, w.store[id].body, staged, key)
        {
          UpdateIsKeyByKey(cfg, w, m, key);
        }
      case Delete(_, _) => DeleteInverts(cfg, w, m);
    }
  }

  /** The created-id table holds exactly the ids the run recorded, each under its own index. */
  ghost predicate Records(created: map<nat, string>, ids: seq<Option<string>>) {
    && (forall i: nat :: i in created <==> i < |ids| && ids[i].Some?)
    && (forall i: nat :: i in created ==> created[i] == ids[i].value)
  }
}
