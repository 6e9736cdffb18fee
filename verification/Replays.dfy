/** A reverse replay that carries on past refusals, and what its list of failures tells an operator. */
module Replays {
  import opened Wrappers
  import opened JsonValues
  import opened StagedPlans
  import opened Worlds

  /** Indices of a plan, last first, none twice. */
  ghost predicate LastFirst(failures: seq<nat>, count: nat) {
    && (forall a :: 0 <= a < |failures| ==> failures[a] < count)
    && (forall a, b :: 0 <= a < b < |failures| ==> failures[a] > failures[b])
  }

  /**
  One step of a replay, from the state with everything after `j` tried to the one with `j` tried too. A listed
  index left the state alone, and if no call is ever lost it was refused right there. Any other was accepted.
  */
  ghost predicate TriedAt(cfg: Config, pre: Preimage, landed: seq<Mutation>, ids: seq<Option<string>>,
                          failures: seq<nat>, j: nat, now: World, next: World, reachable: bool)
    requires j < |landed| == |ids|
  {
    var undone := UndoEffect(cfg, now, landed[j], Prior(pre, landed[j]), ids[j]);
    if j in failures then next == now && (reachable ==> undone.None?) else undone == Some(next)
  }

  /** The states of a replay that has tried the last `|states| - 1` mutations. */
  ghost predicate Traced(cfg: Config, pre: Preimage, landed: seq<Mutation>, ids: seq<Option<string>>,
                         failures: seq<nat>, states: seq<World>, reachable: bool)
    requires |landed| == |ids|
  {
    && 0 < |states| <= |landed| + 1
    && forall k :: 0 <= k < |states| - 1 ==>
         TriedAt(cfg, pre, landed, ids, failures, |landed| - 1 - k, states[k], states[k + 1], reachable)
  }

  /** The failures name, last first, exactly the undos that did not happen between the two states. */
  ghost predicate Replayed(cfg: Config, pre: Preimage, landed: seq<Mutation>, ids: seq<Option<string>>,
                           failures: seq<nat>, from: World, to: World, reachable: bool)
    requires |landed| == |ids|
  {
    && LastFirst(failures, |landed|)
    && exists states :: |states| == |landed| + 1 && Traced(cfg, pre, landed, ids, failures, states, reachable)
                        && states[0] == from && states[|landed|] == to
  }

  /** What happened to one mutation does not depend on whether another is listed. */
  lemma ListingAnother(cfg: Config, pre: Preimage, landed: seq<Mutation>, ids: seq<Option<string>>,
                       failures: seq<nat>, i: nat, j: nat, now: World, next: World, reachable: bool)
    requires i != j && j < |landed| == |ids|
    ensures TriedAt(cfg, pre, landed, ids, failures + [i], j, now, next, reachable)
            <==> TriedAt(cfg, pre, landed, ids, failures, j, now, next, reachable)
  {
    hide UndoEffect, Prior;
  }

  /** One more mutation tried: listed if it failed, accepted if not. */
  lemma TraceGrows(cfg: Config, pre: Preimage, landed: seq<Mutation>, ids: seq<Option<string>>,
                   failures: seq<nat>, states: seq<World>, reachable: bool, i: nat, failed: bool, next: World)
    requires i < |landed| == |ids| && |states| == |landed| - i
    requires Traced(cfg, pre, landed, ids, failures, states, reachable)
    requires TriedAt(cfg, pre, landed, ids, if failed then failures + [i] else failures, i, states[|states| - 1],
                     next, reachable)
    ensures Traced(cfg, pre, landed, ids, if failed then failures + [i] else failures, states + [next], reachable)
  {
    hide TriedAt;
    var more := if failed then failures + [i] else failures;
    var grown := states + [next];
    forall k | 0 <= k < |grown| - 1
      ensures TriedAt(cfg, pre, landed, ids, more, |landed| - 1 - k, grown[k], grown[k + 1], reachable)
    {
      if k < |states| - 1 {
        assert TriedAt(cfg, pre, landed, ids, failures, |landed| - 1 - k, states[k], states[k + 1], reachable);
        ListingAnother(cfg, pre, landed, ids, failures, i, |landed| - 1 - k, states[k], states[k + 1], reachable);
      }
    }
  }

  lemma ListGrows(failures: seq<nat>, count: nat, i: nat)
    requires i < count && LastFirst(failures, count) && forall f :: f in failures ==> f > i
    ensures LastFirst(failures + [i], count) && forall f :: f in failures + [i] ==> f >= i
  {
    assert forall a :: 0 <= a < |failures| ==> failures[a] in failures;
  }

  /** A replay that has tried everything from `i` on. */
  ghost predicate ReplayedFrom(cfg: Config, pre: Preimage, landed: seq<Mutation>, ids: seq<Option<string>>,
                               failures: seq<nat>, states: seq<World>, i: nat, from: World, now: World, reachable: bool)
    requires |landed| == |ids|
  {
    && i <= |landed| && |states| == |landed| - i + 1 && states[0] == from && states[|landed| - i] == now
    && Traced(cfg, pre, landed, ids, failures, states, reachable)
    && LastFirst(failures, |landed|) && forall f :: f in failures ==> f >= i
  }

  lemma TryingOneMore(cfg: Config, pre: Preimage, landed: seq<Mutation>, ids: seq<Option<string>>,
                      failures: seq<nat>, states: seq<World>, i: nat, from: World, now: World, next: World,
                      reachable: bool, ok: bool)
    requires i < |landed| == |ids|
    requires ReplayedFrom(cfg, pre, landed, ids, failures, states, i + 1, from, now, reachable)
    requires var undone := UndoEffect(cfg, now, landed[i], Prior(pre, landed[i]), ids[i]);
             if ok then undone == Some(next) else next == now && (reachable ==> undone.None?)
    ensures ReplayedFrom(cfg, pre, landed, ids, if ok then failures else failures + [i], states + [next], i, from, next,
                         reachable)
  {
    hide UndoEffect, Prior, Traced, LastFirst;
    TraceGrows(cfg, pre, landed, ids, failures, states, reachable, i, !ok, next);
    if !ok {
      ListGrows(failures, |landed|, i);
    }
  }

  lemma SomeListed(failures: seq<nat>, count: nat)
    requires LastFirst(failures, count) && failures != []
    ensures exists j :: 0 <= j < count && j in failures
  {
    assert failures[0] in failures;
  }

  /** Nothing listed means the whole undo went through. */
  lemma {:induction false} NothingListed(cfg: Config, pre: Preimage, landed: seq<Mutation>, ids: seq<Option<string>>,
                                         states: seq<World>, reachable: bool, k: nat)
    requires |landed| == |ids| && |states| == |landed| + 1 && k <= |landed|
    requires Traced(cfg, pre, landed, ids, [], states, reachable)
    ensures Undo(cfg, pre, landed[..k], ids[..k], states[|landed| - k]) == Some(states[|landed|])
  {
    hide UndoEffect, Prior;
    if k != 0 {
      NothingListed(cfg, pre, landed, ids, states, reachable, k - 1);
      assert TriedAt(cfg, pre, landed, ids, [], |landed| - 1 - (|landed| - k), states[|landed| - k],
                     states[|landed| - k + 1], reachable);
      assert landed[..k][..k - 1] == landed[..k - 1] && ids[..k][..k - 1] == ids[..k - 1];
    }
  }

  /** And if no call is ever lost, an undo that goes through as a whole lists nothing. */
  lemma {:induction false} WholeUndoListsNone(cfg: Config, pre: Preimage, landed: seq<Mutation>,
                                              ids: seq<Option<string>>, failures: seq<nat>, states: seq<World>, k: nat)
    requires |landed| == |ids| && |states| == |landed| + 1 && k <= |landed|
    requires Traced(cfg, pre, landed, ids, failures, states, true)
    requires Undo(cfg, pre, landed, ids, states[0]).Some?
    ensures Undo(cfg, pre, landed[..|landed| - k], ids[..|landed| - k], states[k]).Some?
    ensures forall j :: |landed| - k <= j < |landed| ==> j !in failures
  {
    hide UndoEffect, Prior;
    if k == 0 {
      assert landed[..|landed|] == landed && ids[..|landed|] == ids;
    } else {
      WholeUndoListsNone(cfg, pre, landed, ids, failures, states, k - 1);
      var j := |landed| - k;
      assert TriedAt(cfg, pre, landed, ids, failures, |landed| - 1 - (k - 1), states[k - 1], states[k], true);
      assert landed[..j + 1][..j] == landed[..j] && ids[..j + 1][..j] == ids[..j];
    }
  }

  lemma ReplayedMeansUndo(cfg: Config, pre: Preimage, landed: seq<Mutation>, ids: seq<Option<string>>,
                          failures: seq<nat>, from: World, to: World, reachable: bool)
    requires |landed| == |ids| && Replayed(cfg, pre, landed, ids, failures, from, to, reachable)
    ensures failures == [] ==> Undo(cfg, pre, landed, ids, from) == Some(to)
    ensures failures == [] <== reachable && Undo(cfg, pre, landed, ids, from).Some?
  {
    var states :| |states| == |landed| + 1 && Traced(cfg, pre, landed, ids, failures, states, reachable)
                  && states[0] == from && states[|landed|] == to;
    hide UndoEffect, Undo, Prior, Traced;
    if failures == [] {
      NothingListed(cfg, pre, landed, ids, states, reachable, |landed|);
      assert landed[..|landed|] == landed && ids[..|landed|] == ids;
    } else {
      SomeListed(failures, |landed|);
    }
    if reachable && Undo(cfg, pre, landed, ids, from).Some? {
      WholeUndoListsNone(cfg, pre, landed, ids, failures, states, |landed|);
    }
  }

  // ---- What an index missing from the list means ----

  /** This mutation neither addresses the resource nor created it. */
  predicate Elsewhere(m: Mutation, created: Option<string>, id: string) {
    created != Some(id) && !((m.Update? || m.Delete?) && m.id == id)
  }

  lemma UndoLeaves(cfg: Config, w: World, m: Mutation, prior: Option<Json>, created: Option<string>, id: string)
    requires cfg.MintsFresh() && w.Valid() && id in w.store && Elsewhere(m, created, id)
    requires UndoEffect(cfg, w, m, prior, created).Some?
    ensures var next := UndoEffect(cfg, w, m, prior, created).value;
            next.Valid() && id in next.store && next.store[id] == w.store[id]
  {
    hide Names;
  }

  lemma UndoKeepsValid(cfg: Config, w: World, m: Mutation, prior: Option<Json>, created: Option<string>)
    requires cfg.MintsFresh() && w.Valid() && UndoEffect(cfg, w, m, prior, created).Some?
    ensures UndoEffect(cfg, w, m, prior, created).value.Valid()
  {
    hide Names;
  }

  lemma {:induction false} TraceIsValid(cfg: Config, pre: Preimage, landed: seq<Mutation>, ids: seq<Option<string>>,
                                        failures: seq<nat>, states: seq<World>, reachable: bool, k: nat)
    requires |landed| == |ids| && k < |states| && cfg.MintsFresh() && states[0].Valid()
    requires Traced(cfg, pre, landed, ids, failures, states, reachable)
    ensures states[k].Valid()
  {
    if k != 0 {
      TraceIsValid(cfg, pre, landed, ids, failures, states, reachable, k - 1);
      var j := |landed| - k;
      assert TriedAt(cfg, pre, landed, ids, failures, |landed| - 1 - (k - 1), states[k - 1], states[k], reachable);
      if j !in failures {
        UndoKeepsValid(cfg, states[k - 1], landed[j], Prior(pre, landed[j]), ids[j]);
      }
    }
  }

  lemma StepLeaves(cfg: Config, pre: Preimage, landed: seq<Mutation>, ids: seq<Option<string>>, failures: seq<nat>,
                   j: nat, now: World, next: World, reachable: bool, id: string)
    requires j < |landed| == |ids| && cfg.MintsFresh() && now.Valid()
    requires TriedAt(cfg, pre, landed, ids, failures, j, now, next, reachable)
    requires id in now.store && Elsewhere(landed[j], ids[j], id)
    ensures id in next.store && next.store[id] == now.store[id]
  {
    hide UndoEffect, Prior, Elsewhere;
    if j !in failures {
      UndoLeaves(cfg, now, landed[j], Prior(pre, landed[j]), ids[j], id);
    }
  }

  /** A resource stays as it is while only others are undone. */
  lemma {:induction false} TraceLeaves(cfg: Config, pre: Preimage, landed: seq<Mutation>, ids: seq<Option<string>>,
                                       failures: seq<nat>, states: seq<World>, reachable: bool, from: nat, to: nat,
                                       id: string)
    requires |landed| == |ids| && from <= to < |states| && cfg.MintsFresh() && states[0].Valid()
    requires Traced(cfg, pre, landed, ids, failures, states, reachable) && id in states[from].store
    requires forall j :: |landed| - to <= j < |landed| - from ==> Elsewhere(landed[j], ids[j], id)
    ensures id in states[to].store && states[to].store[id] == states[from].store[id]
  {
    hide TriedAt, Elsewhere;
    if from < to {
      TraceLeaves(cfg, pre, landed, ids, failures, states, reachable, from, to - 1, id);
      TraceIsValid(cfg, pre, landed, ids, failures, states, reachable, to - 1);
      var k := to - 1;
      assert TriedAt(cfg, pre, landed, ids, failures, |landed| - 1 - k, states[k], states[k + 1], reachable);
      StepLeaves(cfg, pre, landed, ids, failures, |landed| - to, states[k], states[to], reachable, id);
    }
  }

  lemma TracedBack(cfg: Config, pre: Preimage, landed: seq<Mutation>, ids: seq<Option<string>>,
                   failures: seq<nat>, states: seq<World>, reachable: bool, i: nat)
    requires cfg.MintsFresh() && |landed| == |ids| && |states| == |landed| + 1 && states[0].Valid()
    requires Traced(cfg, pre, landed, ids, failures, states, reachable)
    requires i < |landed| && landed[i].Update? && i !in failures
    requires forall j :: 0 <= j < i ==> Elsewhere(landed[j], ids[j], landed[i].id)
    ensures pre.GetResource(landed[i].id).Some? && landed[i].id in states[|landed|].store
    ensures states[|landed|].store[landed[i].id].body == pre.GetResource(landed[i].id).value
  {
    hide UndoEffect, Prior, Elsewhere;
    var k := |landed| - 1 - i;
    assert TriedAt(cfg, pre, landed, ids, failures, |landed| - 1 - k, states[k], states[k + 1], reachable);
    PutBackReads(cfg, states[k], landed[i], pre, ids[i]);
    hide TriedAt;
    TraceLeaves(cfg, pre, landed, ids, failures, states, reachable, k + 1, |landed|, landed[i].id);
  }

  /**
  An update whose index is not listed, the first of the plan to touch its resource, was put back: whatever else
  failed, that resource reads as recorded.
  */
  lemma UnlistedUpdateIsBack(cfg: Config, pre: Preimage, landed: seq<Mutation>, ids: seq<Option<string>>,
                             failures: seq<nat>, from: World, to: World, reachable: bool, i: nat)
    requires cfg.MintsFresh() && from.Valid() && |landed| == |ids|
    requires Replayed(cfg, pre, landed, ids, failures, from, to, reachable)
    requires i < |landed| && landed[i].Update? && i !in failures
    requires forall j :: 0 <= j < i ==> Elsewhere(landed[j], ids[j], landed[i].id)
    ensures pre.GetResource(landed[i].id).Some? && landed[i].id in to.store
    ensures to.store[landed[i].id].body == pre.GetResource(landed[i].id).value
  {
    var states :| |states| == |landed| + 1 && Traced(cfg, pre, landed, ids, failures, states, reachable)
                  && states[0] == from && states[|landed|] == to;
    hide Traced, Elsewhere, LastFirst;
    TracedBack(cfg, pre, landed, ids, failures, states, reachable, i);
  }

  lemma PutBackReads(cfg: Config, w: World, m: Mutation, pre: Preimage, created: Option<string>)
    requires m.Update? && UndoEffect(cfg, w, m, Prior(pre, m), created).Some?
    ensures var next := UndoEffect(cfg, w, m, Prior(pre, m), created).value;
            && pre.GetResource(m.id).Some? && m.id in next.store
            && next.store[m.id].body == pre.GetResource(m.id).value
  {
    FoundCarriesId(pre.resources.GetItems("data"), m.id);
  }
}
