/**
The controller's state and what each client call does to it when the controller accepts the call.

Every effect is a partial function: `None` is a refusal, and a refused call changes nothing.
*/
module Worlds {
  import opened Wrappers
  import opened JsonValues
  import opened ResourceKinds
  import opened StagedPlans

  datatype Resource = Resource(kind: ResourceKind, body: Json)

  /** What is stored, by id, and every id the controller has ever used. */
  datatype World = World(store: map<string, Resource>, known: set<string>) {
    ghost predicate Valid() { store.Keys <= known }

    function At(id: string): Option<Resource> {
      if id in store then Some(store[id]) else None
    }

    predicate HasZone(id: string) {
      id in store && store[id].kind == FirewallZone
    }

    predicate InUse(zone: string) {
      exists id :: id in store && id != zone && zone in Names(store[id].body)
    }
  }

  /**
  What the model leaves open about a controller: how it mints ids, whether a re-created body gets its old
  `_id` back, and whether it refuses to break zone references.
  */
  datatype Config = Config(mint: set<string> -> string, reinstates: bool, guardsZones: bool) {
    ghost predicate MintsFresh() { forall used :: mint(used) !in used }
  }

  /** The body a PUT leaves behind: the controller only supplies an `_id` the body does not carry. */
  function Fill(id: string, body: Json): Json {
    if body.Obj? && "_id" !in body.fields then Obj(body.fields["_id" := Str(id)]) else body
  }

  /** The body a POST leaves behind: the controller assigns the `_id`. */
  function Assigned(id: string, body: Json): Json {
    if body.Obj? then Obj(body.fields["_id" := Str(id)]) else body
  }

  predicate Accepts(cfg: Config, w: World, body: Json) {
    body.Obj? && (cfg.guardsZones ==> forall z :: z in Names(body) ==> w.HasZone(z))
  }

  function Put(cfg: Config, w: World, kind: ResourceKind, id: string, body: Json): Option<World> {
    if id in w.store && w.store[id].kind == kind && Accepts(cfg, w, body)
    then Some(w.(store := w.store[id := Resource(kind, Fill(id, body))]))
    else None
  }

  function NewId(cfg: Config, w: World, body: Json): string {
    match body.GetStr("_id")
    case Some(wanted) => if cfg.reinstates && wanted !in w.store then wanted else cfg.mint(w.known)
    case None => cfg.mint(w.known)
  }

  function Post(cfg: Config, w: World, kind: ResourceKind, body: Json): Option<(World, string)> {
    if Accepts(cfg, w, body) then
      var id := NewId(cfg, w, body);
      Some((World(w.store[id := Resource(kind, Assigned(id, body))], w.known + {id}), id))
    else None
  }

  function Remove(cfg: Config, w: World, kind: ResourceKind, id: string): Option<World> {
    if id in w.store && w.store[id].kind == kind && !(cfg.guardsZones && kind.FirewallZone? && w.InUse(id))
    then Some(w.(store := w.store - {id}))
    else None
  }

  /** A single-resource read; a wrong kind is a path that does not hold this id. */
  function Fetched(w: World, kind: ResourceKind, id: string): Option<Json> {
    if id in w.store && w.store[id].kind == kind then Some(w.store[id].body) else None
  }

  /** The body an update puts on the wire: merged over the live resource on Private v2, as staged elsewhere. */
  function UpdateBody(w: World, kind: ResourceKind, id: string, staged: Json): Option<Json> {
    if kind.Surface() == PrivateV2 then
      match Fetched(w, kind, id)
      case Some(current) => Some(Overlaid(current, staged))
      case None => None
    else Some(staged)
  }

  /** `apply_mutation` when nothing fails in transport: the new world, and the id of a create. */
  function ApplyEffect(cfg: Config, w: World, m: Mutation): Option<(World, Option<string>)> {
    if m.Restore? || ParseKind(m.kind).None? then None else
    var kind := ParseKind(m.kind).value;
    match m
    case Create(_, body) =>
      (match Post(cfg, w, kind, body)
       case Some((next, id)) => Some((next, Some(id)))
       case None => None)
    case Update(_, id, staged) =>
      if kind.Device? then None else
      (match UpdateBody(w, kind, id, staged)
       case None => None
       case Some(body) =>
         match Put(cfg, w, kind, id, body)
         case Some(next) => Some((next, None))
         case None => None)
    case Delete(_, id) =>
      match Remove(cfg, w, kind, id)
      case Some(next) => Some((next, None))
      case None => None
  }

  /** `rollback_mutation` when nothing fails in transport. */
  function UndoEffect(cfg: Config, w: World, m: Mutation, prior: Option<Json>, created: Option<string>): Option<World> {
    if m.Restore? || ParseKind(m.kind).None? then None else
    var kind := ParseKind(m.kind).value;
    match m
    case Create(_, _) => if created.None? then None else Remove(cfg, w, kind, created.value)
    case Update(_, id, _) => if prior.None? then None else Put(cfg, w, kind, id, prior.value)
    case Delete(_, _) =>
      if prior.None? then None else
      match Post(cfg, w, kind, prior.value)
      case Some((next, _)) => Some(next)
      case None => None
  }

  /** The value rollback restores: none for a create, the pre-image entry otherwise. */
  function Prior(pre: Preimage, m: Mutation): Option<Json> {
    if m.Update? || m.Delete? then pre.GetResource(m.id) else None
  }

  /** What a passing staleness check says: every addressed resource still reads exactly as recorded. */
  predicate GateHolds(w: World, pre: Preimage, plan: seq<Mutation>) {
    forall m :: m in plan && (m.Update? || m.Delete?) ==>
      && ParseKind(m.kind).Some?
      && pre.GetResource(m.id).Some?
      && Fetched(w, ParseKind(m.kind).value, m.id) == pre.GetResource(m.id)
  }

  /** A world and the ids recorded so far, one per mutation. */
  datatype Progress = Progress(world: World, ids: seq<Option<string>>)

  /** The plan applied in order, if the controller accepts all of it. */
  function Run(cfg: Config, w: World, plan: seq<Mutation>): (r: Option<Progress>)
    ensures r.Some? ==> |r.value.ids| == |plan|
  {
    if plan == [] then Some(Progress(w, [])) else
    var last := |plan| - 1;
    match Run(cfg, w, plan[..last])
    case None => None
    case Some(before) =>
      match ApplyEffect(cfg, before.world, plan[last])
      case None => None
      case Some((next, id)) => Some(Progress(next, before.ids + [id]))
  }

  /** The plan undone in reverse, if the controller accepts all of it. */
  function Undo(cfg: Config, pre: Preimage, plan: seq<Mutation>, ids: seq<Option<string>>, w: World): Option<World>
    requires |ids| == |plan|
  {
    if plan == [] then Some(w) else
    var last := |plan| - 1;
    match UndoEffect(cfg, w, plan[last], Prior(pre, plan[last]), ids[last])
    case None => None
    case Some(next) => Undo(cfg, pre, plan[..last], ids[..last], next)
  }

  /** One accepted mutation extends a run of a prefix. */
  lemma RunExtends(cfg: Config, w: World, plan: seq<Mutation>, k: nat, at: Progress, next: World, id: Option<string>)
    requires k < |plan| && Run(cfg, w, plan[..k]) == Some(at)
    requires ApplyEffect(cfg, at.world, plan[k]) == Some((next, id))
    ensures Run(cfg, w, plan[..k + 1]) == Some(Progress(next, at.ids + [id]))
  {
    hide ApplyEffect;
    assert plan[..k + 1][..k] == plan[..k];
  }

  function NamesIn(w: World, id: string): set<string> {
    if id in w.store then Names(w.store[id].body) else {}
  }

  ghost predicate AllZones(w: World, zones: set<string>) {
    forall z :: z in zones ==> w.HasZone(z)
  }

  lemma IdNamesNothing(id: string, body: Json)
    ensures Names(Fill(id, body)) == Names(body) && Names(Assigned(id, body)) == Names(body)
  {
  }

  lemma LoneStepRuns(cfg: Config, w: World, m: Mutation)
    requires ApplyEffect(cfg, w, m).Some?
    ensures [m][..0] == [] && Run(cfg, w, []) == Some(Progress(w, [])) && Run(cfg, w, [m]).Some?
  {
    hide ApplyEffect;
  }

  /** What verification looks for, mutation by mutation. */
  predicate Landed(w: World, m: Mutation, id: Option<string>) {
    match m
    case Create(name, _) =>
      id.Some? ==> ParseKind(name).Some? && Fetched(w, ParseKind(name).value, id.value).Some?
    case Update(name, target, body) =>
      && ParseKind(name).Some?
      && Fetched(w, ParseKind(name).value, target).Some?
      && (body.Get("name").Some? ==> Fetched(w, ParseKind(name).value, target).value.Get("name") == body.Get("name"))
    case Delete(name, target) => ParseKind(name).Some? && Fetched(w, ParseKind(name).value, target).None?
    case Restore(_) => true
  }

  predicate AllLanded(w: World, plan: seq<Mutation>, ids: seq<Option<string>>)
    requires |ids| == |plan|
  {
    forall i :: 0 <= i < |plan| ==> Landed(w, plan[i], ids[i])
  }

  // ---- What an accepted step did ----

  /** What an accepted create did: one new id, never a stored one, and never a used one unless the body asked. */
  lemma CreateInverts(cfg: Config, w: World, m: Mutation)
    requires cfg.MintsFresh() && w.Valid() && m.Create? && ApplyEffect(cfg, w, m).Some?
    ensures var (next, id) := ApplyEffect(cfg, w, m).value;
            && ParseKind(m.kind).Some? && m.body.Obj? && id.Some? && id.value !in w.store
            && (m.body.Get("_id").None? ==> id.value !in w.known)
            && next == World(w.store[id.value := Resource(ParseKind(m.kind).value, Assigned(id.value, m.body))],
                             w.known + {id.value})
  {
  }

  /** The body an update leaves at its id. */
  function Written(w: World, m: Mutation): Json
    requires m.Update? && m.id in w.store
  {
    Fill(m.id, if w.store[m.id].kind.Surface() == PrivateV2 then Overlaid(w.store[m.id].body, m.body) else m.body)
  }

  lemma UpdateInverts(cfg: Config, w: World, m: Mutation)
    requires m.Update? && ApplyEffect(cfg, w, m).Some?
    ensures var (next, id) := ApplyEffect(cfg, w, m).value;
            && id.None? && m.id in w.store && ParseKind(m.kind) == Some(w.store[m.id].kind)
            && next == World(w.store[m.id := Resource(w.store[m.id].kind, Written(w, m))], w.known)
  {
  }

  /**
  What an accepted update leaves of every key but `_id`, on a merged kind: the staged value where one was staged
  that the controller does not manage, the stored one otherwise. On every other kind the staged body replaces
  the stored one.
  */
  lemma UpdateIsKeyByKey(cfg: Config, w: World, m: Mutation, key: string)
    requires m.Update? && ApplyEffect(cfg, w, m).Some? && key != "_id"
    ensures var before := w.store[m.id].body;
            var after := ApplyEffect(cfg, w, m).value.0.store[m.id].body;
            && m.id in w.store && m.id in ApplyEffect(cfg, w, m).value.0.store && after.Obj?
            && (MergesPartially(m.kind) && m.body.Obj? ==>
                  after.Get(key) == if key in m.body.fields && key != "site_id" then m.body.Get(key)
                                    else before.Get(key))
            && (MergesPartially(m.kind) && !m.body.Obj? ==> after.Get(key) == before.Get(key))
            && (!MergesPartially(m.kind) ==> after.Get(key) == m.body.Get(key))
  {
    UpdateInverts(cfg, w, m);
    MergeIsKeyByKey(w.store[m.id].body, m.body, key);
  }

  /** A key a policy, zone or route update does not stage keeps its stored value. */
  lemma UnstagedKeysAreKept(cfg: Config, w: World, m: Mutation, key: string)
    requires m.Update? && m.kind in {"firewall_policy", "firewall_zone", "traffic_route"}
    requires ApplyEffect(cfg, w, m).Some? && m.id in w.store && w.store[m.id].body.Obj?
    requires key in w.store[m.id].body.fields
    requires m.body.Obj? ==> key !in m.body.fields || key == "site_id" || key == "_id"
    ensures m.id in ApplyEffect(cfg, w, m).value.0.store
    ensures var after := ApplyEffect(cfg, w, m).value.0.store[m.id].body;
            after.Obj? && key in after.fields && after.fields[key] == w.store[m.id].body.fields[key]
  {
    UpdateInverts(cfg, w, m);
    MergedKinds(m.kind);
    MergeIsKeyByKey(w.store[m.id].body, m.body, key);
  }

  lemma DeleteInverts(cfg: Config, w: World, m: Mutation)
    requires m.Delete? && ApplyEffect(cfg, w, m).Some?
    ensures var (next, id) := ApplyEffect(cfg, w, m).value;
            && id.None? && m.id in w.store && ParseKind(m.kind) == Some(w.store[m.id].kind)
            && next == World(w.store - {m.id}, w.known)
  {
  }

  /** What the gate says of one addressed resource. */
  lemma GateGives(w: World, pre: Preimage, plan: seq<Mutation>, m: Mutation)
    requires GateHolds(w, pre, plan) && m in plan && (m.Update? || m.Delete?)
    ensures m.id in w.store && ParseKind(m.kind) == Some(w.store[m.id].kind)
    ensures pre.GetResource(m.id) == Some(w.store[m.id].body)
    ensures w.store[m.id].body.GetStr("_id") == Some(m.id)
  {
    FoundCarriesId(pre.resources.GetItems("data"), m.id);
  }

  /** A prefix of a run is a run. */
  lemma {:induction false} RunPrefix(cfg: Config, w: World, plan: seq<Mutation>, k: nat)
    requires k <= |plan|
    requires Run(cfg, w, plan).Some?
    ensures Run(cfg, w, plan[..k]).Some?
    ensures Run(cfg, w, plan[..k]).value.ids == Run(cfg, w, plan).value.ids[..k]
    decreases |plan|
  {
    if k == |plan| {
      assert plan[..k] == plan;
    } else {
      var last := |plan| - 1;
      RunPrefix(cfg, w, plan[..last], k);
      assert plan[..last][..k] == plan[..k];
    }
  }

  /** A run keeps every stored id known and never forgets one. */
  lemma {:induction false} RunKeepsValid(cfg: Config, w: World, plan: seq<Mutation>)
    requires w.Valid() && Run(cfg, w, plan).Some?
    ensures Run(cfg, w, plan).value.world.Valid()
    ensures w.known <= Run(cfg, w, plan).value.world.known
  {
    if plan != [] {
      RunKeepsValid(cfg, w, plan[..|plan| - 1]);
    }
  }
}
