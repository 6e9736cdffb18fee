/** Capturing the pre-image: one live read per addressed resource, in staging order. */
module Captures {
  import opened Wrappers
  import opened JsonValues
  import opened ResourceKinds
  import opened StagedPlans
  import opened Worlds
  import opened IdentityProofs
  import opened Outcomes
  import opened ControllerClient

  ghost predicate AllReadable(w: World, plan: seq<Mutation>) {
    forall m :: m in plan && (m.Update? || m.Delete?) ==>
      ParseKind(m.kind).Some? && Fetched(w, ParseKind(m.kind).value, m.id).Some?
  }

  /** What one mutation adds to the capture: nothing for a create or a restore. */
  function CapturedFor(w: World, m: Mutation): seq<Json> {
    if (m.Update? || m.Delete?) && ParseKind(m.kind).Some? then
      match Fetched(w, ParseKind(m.kind).value, m.id)
      case Some(live) => [live]
      case None => []
    else []
  }

  function Captured(w: World, plan: seq<Mutation>): seq<Json> {
    if plan == [] then [] else Captured(w, plan[..|plan| - 1]) + CapturedFor(w, plan[|plan| - 1])
  }

  method CapturePreimage(c: Controller, plan: seq<Mutation>) returns (r: Result<Preimage, UnifiError>)
    modifies c`calls
    ensures r.Ok? ==> AllReadable(c.Now(), plan) && r.value == FromResources(Captured(c.Now(), plan))
    ensures c.NeverFails() && AllReadable(c.Now(), plan) ==> r.Ok?
  {
    var data: seq<Json> := [];
    for i := 0 to |plan|
      invariant AllReadable(c.Now(), plan[..i]) && data == Captured(c.Now(), plan[..i])
    {
      var m := plan[i];
      assert m in plan && plan[..i + 1][..i] == plan[..i];
      if m.Update? || m.Delete? {
        var live := c.FetchResource(m.kind, m.id);
        if live.Err? {
          return Err(live.error);
        }
        if live.value.None? {
          return Err(NotFound);
        }
        data := data + [live.value.value];
      }
      assert forall x :: x in plan[..i + 1] <==> x in plan[..i] || x == m;
    }
    assert plan[..|plan|] == plan;
    r := Ok(FromResources(data));
  }

  /** In staging order: an update or delete adds the live body of its resource, anything else nothing. */
  lemma CapturedInOrder(w: World, plan: seq<Mutation>, m: Mutation)
    requires AllReadable(w, plan + [m])
    ensures m.Create? || m.Restore? ==> Captured(w, plan + [m]) == Captured(w, plan)
    ensures m.Update? || m.Delete? ==>
              m.id in w.store && Captured(w, plan + [m]) == Captured(w, plan) + [w.store[m.id].body]
  {
    assert (plan + [m])[..|plan|] == plan && m in plan + [m];
  }

  lemma {:induction false} CapturedIsStored(w: World, plan: seq<Mutation>)
    ensures forall j :: j in Captured(w, plan) ==>
              exists m :: m in plan && (m.Update? || m.Delete?) && m.id in w.store && j == w.store[m.id].body
    ensures forall m :: m in plan && (m.Update? || m.Delete?) && AllReadable(w, plan) ==>
              w.store[m.id].body in Captured(w, plan)
  {
    if plan != [] {
      var last := |plan| - 1;
      assert plan == plan[..last] + [plan[last]];
      CapturedIsStored(w, plan[..last]);
    }
  }

  /** A capture describes the controller it was read from: applied with no drift, it passes the gate. */
  lemma CapturePassesGate(w: World, plan: seq<Mutation>)
    requires Identified(w) && AllReadable(w, plan)
    ensures GateHolds(w, FromResources(Captured(w, plan)), plan)
  {
    var items := Captured(w, plan);
    assert FromResources(items).resources.GetItems("data") == items;
    CapturedIsStored(w, plan);
    forall m | m in plan && (m.Update? || m.Delete?)
      ensures FindById(items, m.id) == Some(w.store[m.id].body)
    {
      FoundIffPresent(items, m.id);
      FoundCarriesId(items, m.id);
    }
  }
}
