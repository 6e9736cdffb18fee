/** Staged mutations and the pre-image they were planned against. */
module StagedPlans {
  import opened Wrappers
  import opened JsonValues

  datatype Mutation =
    | Create(kind: string, body: Json)
    | Update(kind: string, id: string, body: Json)
    | Delete(kind: string, id: string)
    | Restore(backupId: string)
  {
    /** The resource this mutation addresses, if it addresses one by id. */
    function ResourceId(): Option<string> {
      if Update? || Delete? then Some(id) else None
    }
  }

  /** Every id a plan addresses. */
  function Addressed(plan: seq<Mutation>): set<string> {
    set m | m in plan && (m.Update? || m.Delete?) :: m.id
  }

  predicate HasDelete(plan: seq<Mutation>) {
    exists m :: m in plan && m.Delete?
  }

  /** The first entry carrying this `_id`. */
  function FindById(items: seq<Json>, id: string): Option<Json> {
    if items == [] then None
    else if items[0].GetStr("_id") == Some(id) then Some(items[0])
    else FindById(items[1..], id)
  }

  datatype Preimage = Preimage(resources: Json) {
    function GetResource(id: string): Option<Json> {
      FindById(resources.GetItems("data"), id)
    }
  }

  function FromResources(items: seq<Json>): Preimage {
    Preimage(Obj(map["data" := Arr(items)]))
  }

  /** What `GetResource` returns carries the id it was asked for, so it is an object and never null. */
  lemma FoundCarriesId(items: seq<Json>, id: string)
    ensures FindById(items, id).Some? ==>
              FindById(items, id).value in items && FindById(items, id).value.GetStr("_id") == Some(id)
  {
  }

  /** Nothing is found exactly when no entry carries the id. */
  lemma {:induction false} FoundIffPresent(items: seq<Json>, id: string)
    ensures FindById(items, id).Some? <==> exists j :: j in items && j.GetStr("_id") == Some(id)
  {
    if items != [] {
      FoundIffPresent(items[1..], id);
      assert forall j :: j in items <==> j == items[0] || j in items[1..];
    }
  }
}
