/** JSON as the server holds it. Object equality ignores key order, so an object is a map. */
module JsonValues {
  import opened Wrappers

  datatype Json =
    | Null
    | Bool(b: bool)
    | Num(n: int)
    | Str(s: string)
    | Arr(items: seq<Json>)
    | Obj(fields: map<string, Json>)
  {
    /** A key of an object; `None` on every other shape. */
    function Get(key: string): Option<Json> {
      if Obj? && key in fields then Some(fields[key]) else None
    }

    /** A string-valued key of an object. */
    function GetStr(key: string): Option<string> {
      match Get(key)
      case Some(Str(text)) => Some(text)
      case _ => None
    }

    /** An array-valued key of an object, or nothing. */
    function GetItems(key: string): seq<Json> {
      match Get(key)
      case Some(Arr(elements)) => elements
      case _ => []
    }
  }

  /** The fields a controller manages itself and a merge never takes from a staged body. */
  const MANAGED := {"_id", "site_id"}

  /** A staged fragment laid over a resource: whole top-level keys replaced, both sides objects or nothing happens. */
  function Overlaid(base: Json, fragment: Json): Json {
    if base.Obj? && fragment.Obj? then Obj(base.fields + (fragment.fields - MANAGED)) else base
  }

  /**
  A merge, key by key: a staged key that the controller does not manage takes the staged value, and every other
  key keeps the one it had, the managed keys included. Anything but two objects merges to the base.
  */
  lemma MergeIsKeyByKey(base: Json, fragment: Json, key: string)
    ensures !base.Obj? || !fragment.Obj? ==> Overlaid(base, fragment) == base
    ensures base.Obj? && fragment.Obj? ==>
              && Overlaid(base, fragment).Obj?
              && Overlaid(base, fragment).Get(key)
                 == if key in fragment.fields && key != "_id" && key != "site_id" then Some(fragment.fields[key])
                    else if key in base.fields then Some(base.fields[key]) else None
  {
  }

  /** One side of a resource carries this zone. */
  predicate Carries(resource: Json, side: string, zone: string) {
    && resource.Obj? && side in resource.fields
    && resource.fields[side].Obj? && "zone_id" in resource.fields[side].fields
    && resource.fields[side].fields["zone_id"] == Str(zone)
  }

  /** The zone one side of a resource names, if any. */
  function ZoneOf(resource: Json, side: string): Option<string> {
    match resource.Get(side)
    case Some(inner) => inner.GetStr("zone_id")
    case None => None
  }

  /** Every zone a resource names. */
  function Names(resource: Json): set<string> {
    (match ZoneOf(resource, "source") case Some(z) => {z} case None => {}) +
    (match ZoneOf(resource, "destination") case Some(z) => {z} case None => {})
  }

  /** A resource names exactly the zones its source and its destination carry. */
  lemma NamesAreCarried(resource: Json, zone: string)
    ensures zone in Names(resource) <==> Carries(resource, "source", zone) || Carries(resource, "destination", zone)
    ensures ZoneOf(resource, "source") == Some(zone) <==> Carries(resource, "source", zone)
    ensures ZoneOf(resource, "destination") == Some(zone) <==> Carries(resource, "destination", zone)
  {
  }

  /** A resource named after a merge was named by one of the two sides. */
  lemma OverlaidNames(base: Json, fragment: Json)
    ensures Names(Overlaid(base, fragment)) <= Names(base) + Names(fragment)
  {
  }
}
