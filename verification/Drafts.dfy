/** Change sets created but not yet staged into: bounded, one per owner and controller, and short-lived. */
module Drafts {
  import opened Wrappers

  datatype Draft = Draft(controller: string, owner: string, description: string, createdAt: nat)

  datatype HoldError = AlreadyOpen(id: string) | TooMany

  const MAX_DRAFTS := 32

  /** Saturating: a draft stamped in the future has no age. */
  function Age(draft: Draft, now: nat): nat {
    if now <= draft.createdAt then 0 else now - draft.createdAt
  }

  predicate Lapsed(draft: Draft, now: nat, ttl: nat) {
    Age(draft, now) >= ttl
  }

  function Swept(drafts: map<string, Draft>, now: nat, ttl: nat): map<string, Draft> {
    map id | id in drafts && !Lapsed(drafts[id], now, ttl) :: drafts[id]
  }

  predicate SameQueue(a: Draft, b: Draft) {
    a.owner == b.owner && a.controller == b.controller
  }

  predicate HasRoom(drafts: map<string, Draft>, draft: Draft) {
    (forall id :: id in drafts ==> !SameQueue(drafts[id], draft)) && |drafts| < MAX_DRAFTS
  }

  /** A sweep keeps exactly the drafts still inside their window, each as it was. */
  lemma SweptKeepsTheYoung(drafts: map<string, Draft>, now: nat, ttl: nat, id: string)
    ensures id in Swept(drafts, now, ttl)
            <==> id in drafts && 0 < ttl && now < drafts[id].createdAt + ttl
    ensures id in Swept(drafts, now, ttl) ==> Swept(drafts, now, ttl)[id] == drafts[id]
  {
  }

  /** Still inside its window at this moment. */
  predicate Young(draft: Draft, now: nat, ttl: nat) {
    0 < ttl && now < draft.createdAt + ttl
  }

  /** The draft map after an attempt to hold one more: always swept, grown only when there is room. */
  function Held(drafts: map<string, Draft>, id: string, draft: Draft, now: nat, ttl: nat): map<string, Draft> {
    var kept := Swept(drafts, now, ttl);
    if HasRoom(kept, draft) then kept[id := draft] else kept
  }

  /** The draft a caller gets: one it named with its own controller and whose window is still open. */
  function Looked(drafts: map<string, Draft>, id: string, controller: string, now: nat, ttl: nat): Option<Draft> {
    if id in drafts && drafts[id].controller == controller && !Lapsed(drafts[id], now, ttl)
    then Some(drafts[id]) else None
  }

  ghost predicate Tidy(drafts: map<string, Draft>) {
    && |drafts| <= MAX_DRAFTS
    && forall a, b :: a in drafts && b in drafts && a != b ==> !SameQueue(drafts[a], drafts[b])
  }

  lemma FewerKeys(small: map<string, Draft>, big: map<string, Draft>)
    requires small.Keys <= big.Keys
    ensures |small| <= |big|
  {
    SmallerSet(small.Keys, big.Keys);
  }

  lemma {:induction false} SmallerSet(a: set<string>, b: set<string>)
    requires a <= b
    ensures |a| <= |b|
  {
    if a != {} {
      var x :| x in a;
      SmallerSet(a - {x}, b - {x});
    }
  }

  lemma SweepingStaysTidy(drafts: map<string, Draft>, now: nat, ttl: nat)
    requires Tidy(drafts)
    ensures Tidy(Swept(drafts, now, ttl))
  {
    hide Lapsed, SameQueue;
    FewerKeys(Swept(drafts, now, ttl), drafts);
  }

  lemma AddingStaysTidy(drafts: map<string, Draft>, id: string, draft: Draft)
    requires Tidy(drafts) && HasRoom(drafts, draft)
    ensures Tidy(drafts[id := draft])
  {
    assert drafts[id := draft].Keys == drafts.Keys + {id};
    assert |drafts[id := draft].Keys| <= |drafts.Keys| + 1;
  }

  /** Sweeping and holding each keep the map tidy. */
  lemma HoldingStaysTidy(drafts: map<string, Draft>, id: string, draft: Draft, now: nat, ttl: nat)
    requires Tidy(drafts)
    ensures Tidy(Swept(drafts, now, ttl)) && Tidy(Held(drafts, id, draft, now, ttl))
  {
    hide Tidy, HasRoom, Swept;
    SweepingStaysTidy(drafts, now, ttl);
    if HasRoom(Swept(drafts, now, ttl), draft) {
      AddingStaysTidy(Swept(drafts, now, ttl), id, draft);
    }
  }

  lemma ReleasingStaysTidy(drafts: map<string, Draft>, id: string)
    requires Tidy(drafts)
    ensures Tidy(drafts - {id})
  {
    FewerKeys(drafts - {id}, drafts);
  }

  class DraftBook {
    const ttl: nat
    var drafts: map<string, Draft>

    constructor (ttl: nat)
      ensures this.ttl == ttl && drafts == map[] && Tidy(drafts)
    {
      this.ttl, this.drafts := ttl, map[];
    }

    /** The locked part of holding a draft. */
    method Hold(id: string, draft: Draft, now: nat) returns (r: Result<(), HoldError>)
      requires Tidy(drafts)
      modifies this
      ensures Tidy(drafts)
      ensures drafts == Held(old(drafts), id, draft, now, ttl)
      ensures r.Ok? <==> HasRoom(Swept(old(drafts), now, ttl), draft)
      ensures r.Ok? ==> id in drafts && drafts[id] == draft
      // What is left is every young draft as it was, and the new one if it was held; nothing else.
      ensures forall other :: other in drafts && (other != id || r.Err?) ==>
                other in old(drafts) && old(drafts)[other] == drafts[other] && Young(drafts[other], now, ttl)
      ensures forall other :: other in old(drafts) && (other != id || r.Err?) && Young(old(drafts)[other], now, ttl) ==>
                other in drafts
      // It is held exactly when its owner has no young draft on that controller and fewer than 32 are young.
      ensures r.Ok? <==>
                && (forall other :: other in old(drafts) && Young(old(drafts)[other], now, ttl) ==>
                      old(drafts)[other].owner != draft.owner || old(drafts)[other].controller != draft.controller)
                && |Swept(old(drafts), now, ttl)| < 32
      ensures r.Err? && r.error.AlreadyOpen? ==> r.error.id in drafts && SameQueue(drafts[r.error.id], draft)
      ensures r.Err? && r.error.TooMany? ==> |drafts| == MAX_DRAFTS
    {
      HoldingStaysTidy(drafts, id, draft, now, ttl);
      forall other
        ensures other in Swept(drafts, now, ttl) <==> other in drafts && Young(drafts[other], now, ttl)
      {
        SweptKeepsTheYoung(drafts, now, ttl, other);
      }
      drafts := Swept(drafts, now, ttl);
      var todo := drafts.Keys;
      while todo != {}
        invariant todo <= drafts.Keys
        invariant drafts == Swept(old(drafts), now, ttl)
        invariant forall seen :: seen in drafts && seen !in todo ==> !SameQueue(drafts[seen], draft)
      {
        var seen :| seen in todo;
        if SameQueue(drafts[seen], draft) {
          return Err(AlreadyOpen(seen));
        }
        todo := todo - {seen};
      }
      if |drafts| >= MAX_DRAFTS {
        return Err(TooMany);
      }
      drafts := drafts[id := draft];
      r := Ok(());
    }

    /** Hands out a draft only inside its window, and forgets one found past it. */
    method Lookup(id: string, controller: string, now: nat) returns (r: Option<Draft>)
      requires Tidy(drafts)
      modifies this
      ensures Tidy(drafts)
      ensures r == Looked(old(drafts), id, controller, now, ttl)
      ensures r.Some? <==>
                id in old(drafts) && old(drafts)[id].controller == controller && Young(old(drafts)[id], now, ttl)
      ensures r.Some? ==> r.value == old(drafts)[id]
      ensures drafts == if r.None? && id in old(drafts) && old(drafts)[id].controller == controller
                        then old(drafts) - {id} else old(drafts)
    {
      r := None;
      if id in drafts && drafts[id].controller == controller {
        var held := drafts[id];
        if Lapsed(held, now, ttl) {
          Release(id);
        } else {
          r := Some(held);
        }
      }
    }

    method Release(id: string)
      requires Tidy(drafts)
      modifies this
      ensures Tidy(drafts) && drafts == old(drafts) - {id}
    {
      ReleasingStaysTidy(drafts, id);
      drafts := drafts - {id};
    }
  }
}
