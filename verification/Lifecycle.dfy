/**
The change-set lifecycle as the interleaved steps of any number of calls.

Each call is at one point between two awaits of its handler; one action moves one call, the clock or the
store's own expiry, or ends the process and starts the next one over the same state file. Digests are
injective, so a digest is the content it covers.
*/
module Lifecycle {
  import opened Wrappers
  import opened StagedPlans
  import opened WritableFieldChecks
  import opened StoredPlans
  import opened Drafts
  import Outcomes

  datatype Actor = Human | Agent | Unattributed

  /** What a token may do, fixed for the run. */
  datatype Token = Token(canCreate: bool, canStage: bool, canApprove: bool, canApply: bool, actor: Actor)

  datatype Env = Env(lab: bool, ttl: nat, tokens: string -> Token)

  /** A token by name, or nobody in particular on a transport without tokens. */
  type Caller = Option<string>

  const UNNAMED := "unknown"

  function Principal(caller: Caller): string {
    if caller.Some? then caller.value else UNNAMED
  }

  function ActorOf(env: Env, caller: Caller): Actor {
    if caller.Some? then env.tokens(caller.value).actor else Unattributed
  }

  predicate HoldsBoth(env: Env, caller: Caller) {
    caller.Some? && env.tokens(caller.value).canStage && env.tokens(caller.value).canApprove
  }

  predicate MayStage(env: Env, caller: Caller) {
    (caller.Some? ==> env.tokens(caller.value).canStage) && (env.lab || !HoldsBoth(env, caller))
  }

  predicate MayApprove(env: Env, caller: Caller) {
    (caller.Some? ==> env.tokens(caller.value).canApprove) && (env.lab || !HoldsBoth(env, caller))
  }

  // ---- The store ----

  datatype Phase = Planned | Approved | Applying | Applied | Failed | Expired

  /** Covers owner, controller and actions; the fingerprint is computed from the actions. */
  datatype Digest = Digest(owner: string, device: string, actions: seq<StagedAction>)

  datatype Approval = Approval(approver: string, actor: Actor, digest: Digest, waived: bool)

  datatype Record = Record(owner: string, device: string, actions: seq<StagedAction>, digest: Digest,
                           phase: Phase, approval: Option<Approval>, expires: nat)

  predicate AllWritable(actions: seq<StagedAction>) {
    forall a :: a in actions ==> Writable(a.mutation)
  }

  /** Blocks a new set of the same owner on the same controller. */
  predicate Pending(r: Record, now: nat) {
    r.phase == Applying || ((r.phase == Planned || r.phase == Approved) && now < r.expires)
  }

  predicate Insertable(records: map<string, Record>, id: string, r: Record, now: nat) {
    id !in records
    && forall other :: other in records && records[other].owner == r.owner && records[other].device == r.device ==>
         !Pending(records[other], now)
  }

  // ---- Calls in flight ----

  datatype Call =
    | Staging(caller: Caller, id: string, controller: string, draft: Draft)
    | StageReady(caller: Caller, id: string, record: Record)
    | StageHolding(caller: Caller, id: string, record: Record)
    | StageInserted(caller: Caller, id: string, record: Record)
    | Approving(caller: Caller, id: string, record: Record, expected: Option<Digest>)
    | ApproveHolding(caller: Caller, id: string, record: Record, expected: Option<Digest>)
    | Claimed(caller: Caller, id: string, record: Record)
    | Cleared(caller: Caller, id: string, record: Record, checkedAt: nat)
    | Running(caller: Caller, id: string, record: Record)
    | Settling(caller: Caller, id: string, record: Record, outcome: Option<Outcomes.State>)
  {
    predicate HoldsLock() { StageHolding? || StageInserted? || ApproveHolding? }

    predicate IsApply() { Claimed? || Cleared? || Running? || Settling? }
  }

  datatype Event =
    | StagedBy(id: string, who: Caller, process: nat, at: nat)
    | Attested(id: string, who: Caller, approval: Approval, attested: Option<Digest>, process: nat, at: nat,
               expected: Option<Digest>)
    | Started(id: string, who: Caller, checkedAt: nat)
    | SettledAs(id: string, outcome: Option<Outcomes.State>, phase: Phase)
    | Abandoned(id: string)
    | Restarted(lost: set<string>)

  /**
  The records outlive a process; the clock and the log do not depend on one. The rest is in its memory, and
  its transport either authenticates every request or none.
  */
  datatype Sys = Sys(now: nat, records: map<string, Record>, log: seq<Event>,
                     process: nat, authenticated: bool, drafts: map<string, Draft>,
                     proposals: map<string, Digest>, lock: Option<nat>, calls: map<nat, Call>)
  {
    /** The callers this process can have. */
    predicate Admits(caller: Caller) { caller.Some? <==> authenticated }
  }

  function Boot(authenticated: bool): Sys {
    Sys(0, map[], [], 0, authenticated, map[], map[], None, map[])
  }

  datatype Action =
    | Tick(seconds: nat)
    | Lapse(id: string)
    | Restart(authenticated: bool)
    | Drop(call: nat)
    | CreateDraft(caller: Caller, id: string, controller: string, description: string, blocked: bool)
    | BeginStage(call: nat, caller: Caller, id: string, controller: string)
    | BuildPlan(call: nat, plan: seq<Mutation>, pre: Preimage)
    | TakeLock(call: nat)
    | Insert(call: nat)
    | Propose(call: nat)
    | BeginApprove(call: nat, caller: Caller, id: string, controller: string, expected: Option<Digest>)
    | Approve(call: nat)
    | Claim(call: nat, caller: Caller, id: string, controller: string)
    | CheckDeadline(call: nat)
    | Start(call: nat, ready: bool)
    | Finish(call: nat, outcome: Outcomes.State)
    | Settle(call: nat, written: bool)

  const MAX_ACTIONS := 10

  function Ended(s: Sys, call: nat): Sys {
    s.(calls := s.calls - {call}, lock := if s.lock == Some(call) then None else s.lock)
  }

  predicate Succeeded(outcome: Option<Outcomes.State>) {
    outcome.Some? && (outcome.value.Applied? || outcome.value.AppliedUnverified?)
  }

  /** What a claimed set settles to: `Applied` only when every write landed, confirmed or not. */
  function PhaseFor(outcome: Option<Outcomes.State>): Phase {
    if Succeeded(outcome) then Applied else Failed
  }

  // ---- Steps ----

  function DoDrop(s: Sys, call: nat): Sys {
    // Between an insert and its proposal there is no await, so a call cannot be dropped there.
    if call !in s.calls || s.calls[call].StageInserted? then s
    else if s.calls[call].IsApply() then Ended(s, call).(log := s.log + [Abandoned(s.calls[call].id)])
    else Ended(s, call)
  }

  function InFlight(calls: map<nat, Call>): set<string> {
    set c | c in calls && calls[c].IsApply() :: calls[c].id
  }

  /** The next process: every record as it was stored, nothing of what was in memory. */
  function DoRestart(s: Sys, authenticated: bool): Sys {
    Sys(s.now, s.records, s.log + [Restarted(InFlight(s.calls))], s.process + 1, authenticated,
        map[], map[], None, map[])
  }

  function DoCreate(env: Env, s: Sys, caller: Caller, id: string, controller: string, description: string): Sys {
    if !s.Admits(caller) || (caller.Some? && !env.tokens(caller.value).canCreate) then s else
    s.(drafts := Held(s.drafts, id, Draft(controller, Principal(caller), description, s.now), s.now, env.ttl))
  }

  function DoBeginStage(env: Env, s: Sys, call: nat, caller: Caller, id: string, controller: string): Sys {
    if call in s.calls || !s.Admits(caller) || !MayStage(env, caller) then s else
    match Looked(s.drafts, id, controller, s.now, env.ttl)
    case Some(draft) => s.(calls := s.calls[call := Staging(caller, id, controller, draft)])
    case None => if id in s.drafts && s.drafts[id].controller == controller then s.(drafts := s.drafts - {id}) else s
  }

  function DoBuildPlan(env: Env, s: Sys, call: nat, plan: seq<Mutation>, pre: Preimage): Sys {
    if call !in s.calls || !s.calls[call].Staging? then s else
    var c := s.calls[call];
    var actions := ActionsFor(plan, pre);
    if !AllWritable(actions) || |plan| > MAX_ACTIONS then Ended(s, call) else
    var record := Record(c.draft.owner, c.controller, actions, Digest(c.draft.owner, c.controller, actions),
                         Planned, None, s.now + env.ttl);
    s.(calls := s.calls[call := StageReady(c.caller, c.id, record)])
  }

  function DoTakeLock(s: Sys, call: nat): Sys {
    if call !in s.calls || s.lock.Some? then s else
    var c := s.calls[call];
    if c.StageReady? then s.(lock := Some(call), calls := s.calls[call := StageHolding(c.caller, c.id, c.record)])
    else if c.Approving?
    then s.(lock := Some(call), calls := s.calls[call := ApproveHolding(c.caller, c.id, c.record, c.expected)])
    else s
  }

  function DoInsert(s: Sys, call: nat): Sys {
    if call !in s.calls || !s.calls[call].StageHolding? then s else
    var c := s.calls[call];
    if !Insertable(s.records, c.id, c.record, s.now) then Ended(s, call) else
    s.(records := s.records[c.id := c.record], drafts := s.drafts - {c.id},
       calls := s.calls[call := StageInserted(c.caller, c.id, c.record)],
       log := s.log + [StagedBy(c.id, c.caller, s.process, s.now)])
  }

  function DoPropose(s: Sys, call: nat): Sys {
    if call !in s.calls || !s.calls[call].StageInserted? then s else
    var c := s.calls[call];
    Ended(s, call).(proposals := s.proposals[c.id := c.record.digest])
  }

  function DoBeginApprove(env: Env, s: Sys, call: nat, caller: Caller, id: string, controller: string,
                          expected: Option<Digest>): Sys {
    if call in s.calls || !s.Admits(caller) || !MayApprove(env, caller) then s
    else if id !in s.records || s.records[id].device != controller then s else
    var record := s.records[id];
    if record.actions == [] || !AllWritable(record.actions) then s
    else if expected.Some? && expected.value != record.digest then s
    else s.(calls := s.calls[call := Approving(caller, id, record, expected)])
  }

  /** The coordinator's side of an approval: planned, inside the window, the same plan. */
  predicate Approvable(s: Sys, id: string, seen: Record) {
    id in s.records && s.records[id].phase == Planned && s.now < s.records[id].expires
    && s.records[id].digest == seen.digest
  }

  function DoApprove(env: Env, s: Sys, call: nat): Sys {
    if call !in s.calls || !s.calls[call].ApproveHolding? then s else
    var c := s.calls[call];
    var self := Principal(c.caller) == c.record.owner;
    var permitted := if self then env.lab else ActorOf(env, c.caller) == Human;
    if !permitted || !Approvable(s, c.id, c.record) then Ended(s, call) else
    var approval := Approval(Principal(c.caller), ActorOf(env, c.caller), c.record.digest, self);
    Ended(s, call).(
      records := s.records[c.id := s.records[c.id].(phase := Approved, approval := Some(approval))],
      log := s.log + [Attested(c.id, c.caller, approval,
                               if c.id in s.proposals then Some(s.proposals[c.id]) else None, s.process, s.now,
                               c.expected)])
  }

  /** The one route to `Applying`: from `Approved`, whatever the clock says. */
  function DoClaim(env: Env, s: Sys, call: nat, caller: Caller, id: string, controller: string): Sys {
    if call in s.calls || !s.Admits(caller) || (caller.Some? && !env.tokens(caller.value).canApply) then s
    else if id !in s.records || s.records[id].device != controller || s.records[id].phase != Approved then s
    else
      var record := s.records[id].(phase := Applying);
      s.(records := s.records[id := record], calls := s.calls[call := Claimed(caller, id, record)])
  }

  function DoCheckDeadline(s: Sys, call: nat): Sys {
    if call !in s.calls || !s.calls[call].Claimed? then s else
    var c := s.calls[call];
    s.(calls := s.calls[call := if s.now >= c.record.expires then Settling(c.caller, c.id, c.record, None)
                                else Cleared(c.caller, c.id, c.record, s.now)])
  }

  /** `ready` is the plan reading back and the intent record being durable. */
  function DoStart(s: Sys, call: nat, ready: bool): Sys {
    if call !in s.calls || !s.calls[call].Cleared? then s else
    var c := s.calls[call];
    if !ready || !AllWritable(c.record.actions)
    then s.(calls := s.calls[call := Settling(c.caller, c.id, c.record, None)])
    else s.(calls := s.calls[call := Running(c.caller, c.id, c.record)],
            log := s.log + [Started(c.id, c.caller, c.checkedAt)])
  }

  function DoFinish(s: Sys, call: nat, outcome: Outcomes.State): Sys {
    if call !in s.calls || !s.calls[call].Running? then s else
    var c := s.calls[call];
    s.(calls := s.calls[call := Settling(c.caller, c.id, c.record, Some(outcome))])
  }

  function DoSettle(s: Sys, call: nat, written: bool): Sys {
    if call !in s.calls || !s.calls[call].Settling? then s else
    var c := s.calls[call];
    var phase := PhaseFor(c.outcome);
    if written then Ended(s, call).(records := s.records[c.id := c.record.(phase := phase)],
                                    log := s.log + [SettledAs(c.id, c.outcome, phase)])
    else Ended(s, call).(log := s.log + [Abandoned(c.id)])
  }

  function DoLapse(s: Sys, id: string): Sys {
    if id in s.records && (s.records[id].phase == Planned || s.records[id].phase == Approved)
       && s.now >= s.records[id].expires
    then s.(records := s.records[id := s.records[id].(phase := Expired)]) else s
  }

  function Step(env: Env, s: Sys, a: Action): Sys {
    match a
    case Tick(seconds) => s.(now := s.now + seconds)
    case Lapse(id) => DoLapse(s, id)
    case Restart(authenticated) => DoRestart(s, authenticated)
    case Drop(call) => DoDrop(s, call)
    case CreateDraft(caller, id, controller, description, blocked) =>
      if blocked then s else DoCreate(env, s, caller, id, controller, description)
    case BeginStage(call, caller, id, controller) => DoBeginStage(env, s, call, caller, id, controller)
    case BuildPlan(call, plan, pre) => DoBuildPlan(env, s, call, plan, pre)
    case TakeLock(call) => DoTakeLock(s, call)
    case Insert(call) => DoInsert(s, call)
    case Propose(call) => DoPropose(s, call)
    case BeginApprove(call, caller, id, controller, expected) =>
      DoBeginApprove(env, s, call, caller, id, controller, expected)
    case Approve(call) => DoApprove(env, s, call)
    case Claim(call, caller, id, controller) => DoClaim(env, s, call, caller, id, controller)
    case CheckDeadline(call) => DoCheckDeadline(s, call)
    case Start(call, ready) => DoStart(s, call, ready)
    case Finish(call, outcome) => DoFinish(s, call, outcome)
    case Settle(call, written) => DoSettle(s, call, written)
  }

  function Exec(env: Env, s: Sys, actions: seq<Action>): Sys
    decreases |actions|
  {
    if actions == [] then s else Exec(env, Step(env, s, actions[0]), actions[1..])
  }
}
