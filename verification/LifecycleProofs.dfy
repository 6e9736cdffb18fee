/** What every reachable state of the lifecycle satisfies, whatever the interleaving. */
module LifecycleProofs {
  import opened Wrappers
  import opened StagedPlans
  import opened StoredPlans
  import opened Drafts
  import opened Lifecycle

  // ---- Invariant ----

  /** What never changes about a record once it is stored. */
  predicate SamePlan(a: Record, b: Record) {
    && a.owner == b.owner && a.device == b.device && a.actions == b.actions
    && a.digest == b.digest && a.expires == b.expires
  }

  /** Records are never dropped and their plan is frozen. */
  ghost predicate Frozen(before: map<string, Record>, after: map<string, Record>) {
    forall id :: id in before ==> id in after && SamePlan(before[id], after[id])
  }

  /** An approval for this very plan: a second, human principal, or in lab mode a recorded waiver by the owner. */
  predicate GoodApproval(env: Env, r: Record, a: Approval) {
    && a.digest == r.digest
    && (a.waived ==> env.lab && a.approver == r.owner)
    && (!a.waived ==> a.actor == Human && a.approver != r.owner)
  }

  predicate RecordOk(env: Env, r: Record) {
    && r.digest == Digest(r.owner, r.device, r.actions)
    && (r.approval.Some? ==> GoodApproval(env, r, r.approval.value))
    && (r.phase == Approved || r.phase == Applying || r.phase == Phase.Applied || r.phase == Failed ==>
          r.approval.Some?)
    && MayOwn(env, r.owner)
  }

  ghost predicate EventOk(env: Env, records: map<string, Record>, e: Event) {
    match e
    case StagedBy(id, who, _, at) =>
      id in records && MayStage(env, who) && Named(who, records[id].owner) && records[id].expires <= at + env.ttl
    case Attested(id, who, approval, _, _, at, expected) =>
      && id in records && MayApprove(env, who) && approval.approver == Principal(who)
      && approval.actor == ActorOf(env, who)
      && GoodApproval(env, records[id], approval)
      && (!approval.waived ==> who.Some? && env.tokens(who.value).actor == Human && who.value != records[id].owner)
      && at < records[id].expires && (expected.Some? ==> expected.value == records[id].digest)
    case Started(id, who, checkedAt) =>
      MayApply(env, who) && id in records && checkedAt < records[id].expires && AllWritable(records[id].actions)
    case SettledAs(id, outcome, phase) => id in records && phase == PhaseFor(outcome) && records[id].phase == phase
    case Abandoned(_) => true
    case Restarted(_) => true
  }

  predicate MayApply(env: Env, caller: Caller) {
    caller.Some? ==> env.tokens(caller.value).canApply
  }

  /** A set is owned by the nameless principal or by a token that may create. */
  predicate MayOwn(env: Env, owner: string) {
    owner == UNNAMED || env.tokens(owner).canCreate
  }

  /** Without tokens every principal is the same: what such a caller stages, such a caller owns. */
  predicate Named(caller: Caller, owner: string) {
    caller.None? ==> owner == UNNAMED
  }

  predicate StagedRecord(env: Env, caller: Caller, r: Record, now: nat) {
    && MayStage(env, caller) && Named(caller, r.owner) && RecordOk(env, r) && r.phase == Planned && r.approval.None?
    && r.expires <= now + env.ttl
  }

  ghost predicate CallOk(env: Env, s: Sys, c: Call) {
    match c
    case Staging(caller, _, _, draft) => MayStage(env, caller) && Named(caller, draft.owner) && MayOwn(env, draft.owner)
    case StageReady(caller, _, r) => StagedRecord(env, caller, r, s.now)
    case StageHolding(caller, _, r) => StagedRecord(env, caller, r, s.now)
    case StageInserted(_, id, r) => id in s.records && SamePlan(r, s.records[id]) && StagedIn(s.log, id, s.process)
    case Approving(caller, id, r, expected) => Reviewing(env, s, caller, id, r, expected)
    case ApproveHolding(caller, id, r, expected) => Reviewing(env, s, caller, id, r, expected)
    case Claimed(caller, id, r) => Owns(s, id, r) && !HasStarted(s.log, id) && MayApply(env, caller)
    case Cleared(caller, id, r, checkedAt) =>
      Owns(s, id, r) && !HasStarted(s.log, id) && checkedAt < r.expires && MayApply(env, caller)
    case Running(_, id, r) => Owns(s, id, r) && HasStarted(s.log, id)
    case Settling(_, id, r, outcome) => Owns(s, id, r) && (outcome.Some? ==> HasStarted(s.log, id))
  }

  /** An approval under way covers the stored plan, and the digest its caller named if it named one. */
  predicate Reviewing(env: Env, s: Sys, caller: Caller, id: string, r: Record, expected: Option<Digest>) {
    && MayApprove(env, caller) && id in s.records && SamePlan(r, s.records[id])
    && (expected.Some? ==> expected.value == r.digest)
  }

  /** The claimed copy an apply call carries is the stored record, still `Applying`. */
  predicate Owns(s: Sys, id: string, r: Record) {
    id in s.records && s.records[id] == r && r.phase == Applying
  }

  predicate HasStarted(log: seq<Event>, id: string) {
    exists e :: e in log && e.Started? && e.id == id
  }

  ghost predicate StartedOnce(log: seq<Event>) {
    forall i, j :: 0 <= i < j < |log| && log[i].Started? && log[j].Started? ==> log[i].id != log[j].id
  }

  predicate HasSettled(log: seq<Event>, id: string) {
    exists e :: e in log && e.SettledAs? && e.id == id
  }

  ghost predicate SettledOnce(log: seq<Event>) {
    forall i, j :: 0 <= i < j < |log| && log[i].SettledAs? && log[j].SettledAs? ==> log[i].id != log[j].id
  }

  predicate HasAttested(log: seq<Event>, id: string) {
    exists e :: e in log && e.Attested? && e.id == id
  }

  ghost predicate AttestedOnce(log: seq<Event>) {
    forall i, j :: 0 <= i < j < |log| && log[i].Attested? && log[j].Attested? ==> log[i].id != log[j].id
  }

  ghost predicate StagedOnce(log: seq<Event>) {
    forall i, j :: 0 <= i < j < |log| && log[i].StagedBy? && log[j].StagedBy? ==> log[i].id != log[j].id
  }

  /** A set still planned has not been approved. */
  ghost predicate PlannedIsUnattested(s: Sys) {
    forall id :: id in s.records && s.records[id].phase == Planned ==> !HasAttested(s.log, id)
  }

  /** The approval on a record is one the log has. */
  predicate ApprovalLogged(log: seq<Event>, id: string, approval: Approval) {
    exists e :: e in log && e.Attested? && e.id == id && e.approval == approval
  }

  ghost predicate ApprovalsAreLogged(s: Sys) {
    forall id :: id in s.records && s.records[id].approval.Some? ==>
      ApprovalLogged(s.log, id, s.records[id].approval.value)
  }

  /** A set that is neither finished nor out of its window. */
  predicate Open(r: Record, now: nat) {
    (r.phase == Planned || r.phase == Approved || r.phase == Applying) && now < r.expires
  }

  predicate SameQueueAs(a: Record, b: Record) {
    a.owner == b.owner && a.device == b.device
  }

  /** At most one open set per owner and controller. */
  ghost predicate OneOpenEach(records: map<string, Record>, now: nat) {
    forall a, b :: a in records && b in records && a != b && SameQueueAs(records[a], records[b]) ==>
      !Open(records[a], now) || !Open(records[b], now)
  }

  predicate Finished(r: Record) {
    r.phase == Phase.Applied || r.phase == Failed
  }

  predicate StagedIn(log: seq<Event>, id: string, process: nat) {
    exists e :: e in log && e.StagedBy? && e.id == id && e.process == process
  }

  predicate StagedBefore(log: seq<Event>, id: string, process: nat) {
    exists e :: e in log && e.StagedBy? && e.id == id && e.process < process
  }

  /** A call died while it worked on this set, alone or with its process, or could not record the outcome. */
  predicate WasLost(log: seq<Event>, id: string) {
    exists e :: e in log && ((e.Abandoned? && e.id == id) || (e.Restarted? && id in e.lost))
  }

  predicate Unclaimed(r: Record) {
    r.phase == Planned || r.phase == Approved || r.phase == Expired
  }

  /** Only a claim leads to a start, so a set not yet claimed has none. */
  ghost predicate StartsAreClaimed(s: Sys) {
    forall id :: id in s.records && Unclaimed(s.records[id]) ==> !HasStarted(s.log, id)
  }

  ghost predicate StartsAreStored(s: Sys) {
    forall e :: e in s.log && e.Started? ==> e.id in s.records
  }

  ghost predicate LockOk(s: Sys) {
    && (forall c :: c in s.calls && s.calls[c].HoldsLock() ==> s.lock == Some(c))
    && (s.lock.Some? ==> s.lock.value in s.calls && s.calls[s.lock.value].HoldsLock())
  }

  /**
  A set staged in this process: the recorder holds its own digest, or the call that just inserted it still
  holds the lock.
  */
  predicate Published(s: Sys, id: string)
    requires id in s.records
  {
    || !StagedIn(s.log, id, s.process)
    || (id in s.proposals && s.proposals[id] == s.records[id].digest)
    || (s.lock.Some? && s.lock.value in s.calls && s.calls[s.lock.value].StageInserted?
        && s.calls[s.lock.value].id == id)
  }

  ghost predicate OneApplyEach(s: Sys) {
    forall a, b :: a in s.calls && b in s.calls && a != b && s.calls[a].IsApply() && s.calls[b].IsApply() ==>
      s.calls[a].id != s.calls[b].id
  }

  /** A set that says `Applying` has a call working on it, unless that call was lost or could not write. */
  ghost predicate ClaimsHeld(s: Sys) {
    forall id :: id in s.records && s.records[id].phase == Applying ==> HasApply(s.calls, id) || WasLost(s.log, id)
  }

  predicate HasApply(calls: map<nat, Call>, id: string) {
    exists c :: c in calls && calls[c].IsApply() && calls[c].id == id
  }

  /** A finished phase is what a logged settlement says. */
  ghost predicate PhaseSettled(s: Sys) {
    forall id :: id in s.records && Finished(s.records[id]) ==>
      exists e :: e in s.log && e.SettledAs? && e.id == id && e.phase == s.records[id].phase
  }

  ghost predicate AppliedStarted(s: Sys) {
    forall e :: e in s.log && e.SettledAs? && e.outcome.Some? ==> HasStarted(s.log, e.id)
  }

  ghost predicate DraftsOk(env: Env, drafts: map<string, Draft>, authenticated: bool) {
    && Tidy(drafts)
    && (forall id :: id in drafts && !authenticated ==> drafts[id].owner == UNNAMED)
    && (forall id :: id in drafts ==> MayOwn(env, drafts[id].owner))
  }

  /** A digest the recorder holds is that of a set staged in this process. */
  ghost predicate ProposalOk(s: Sys, id: string)
    requires id in s.proposals
  {
    id in s.records && s.proposals[id] == s.records[id].digest && StagedIn(s.log, id, s.process)
  }

  /** An approval attests the stored digest if its own process staged the set, and none if an earlier one did. */
  ghost predicate AttestOk(records: map<string, Record>, log: seq<Event>, e: Event)
    requires e.Attested?
  {
    && e.id in records
    && e.attested == (if StagedIn(log, e.id, e.process) then Some(records[e.id].digest) else None)
    && (StagedIn(log, e.id, e.process) || StagedBefore(log, e.id, e.process))
  }

  ghost predicate RecorderOk(s: Sys) {
    && (forall id :: id in s.proposals ==> ProposalOk(s, id))
    && (forall id :: id in s.records ==> StagedIn(s.log, id, s.process) || StagedBefore(s.log, id, s.process))
    && (forall e :: e in s.log && e.StagedBy? ==> e.process <= s.process)
    && (forall e :: e in s.log && e.Attested? ==> AttestOk(s.records, s.log, e))
  }

  ghost predicate StoreOk(env: Env, s: Sys) {
    forall id :: id in s.records ==> RecordOk(env, s.records[id]) && Published(s, id)
  }

  ghost predicate CallsOk(env: Env, s: Sys) {
    forall c :: c in s.calls ==> CallOk(env, s, s.calls[c])
  }

  ghost predicate LogOk(env: Env, s: Sys) {
    && (forall e :: e in s.log ==> EventOk(env, s.records, e))
    && StartedOnce(s.log) && SettledOnce(s.log) && StartsAreClaimed(s) && StartsAreStored(s) && AppliedStarted(s)
    && StagedOnce(s.log) && AttestedOnce(s.log) && PlannedIsUnattested(s) && ApprovalsAreLogged(s)
  }

  ghost predicate ApplyOk(s: Sys) {
    OneApplyEach(s) && ClaimsHeld(s) && PhaseSettled(s)
  }

  ghost predicate Inv(env: Env, s: Sys) {
    && DraftsOk(env, s.drafts, s.authenticated) && LockOk(s) && StoreOk(env, s) && CallsOk(env, s)
    && LogOk(env, s) && ApplyOk(s) && RecorderOk(s) && OneOpenEach(s.records, s.now)
  }

  // ---- One step, one call, one record, at most one event ----

  ghost predicate NoOtherApply(s: Sys, call: nat, id: string) {
    forall c :: c in s.calls && c != call && s.calls[c].IsApply() ==> s.calls[c].id != id
  }

  /** How far one step reaches: one call, the touched records, at most one event. */
  ghost predicate Delta(s: Sys, t: Sys, call: nat, touched: set<string>, news: seq<Event>) {
    && (forall c :: c != call ==> (c in t.calls <==> c in s.calls))
    && (forall c :: c != call && c in s.calls ==> t.calls[c] == s.calls[c])
    && Frozen(s.records, t.records)
    && (forall id :: id in t.records && id !in touched ==> id in s.records && t.records[id] == s.records[id])
    && t.log == s.log + news && |news| <= 1
    && t.process == s.process && t.authenticated == s.authenticated && t.now == s.now
  }

  lemma CallsKept(env: Env, s: Sys, t: Sys, call: nat, touched: set<string>, news: seq<Event>)
    requires Delta(s, t, call, touched, news) && CallsOk(env, s)
    requires call in t.calls ==> CallOk(env, t, t.calls[call])
    requires forall id :: id in touched && id in s.records ==> NoOtherApply(s, call, id)
    requires forall e :: e in news && e.Started? ==> NoOtherApply(s, call, e.id)
    ensures CallsOk(env, t)
  {
    forall c | c in t.calls && c != call
      ensures CallOk(env, t, t.calls[c])
    {
      assert CallOk(env, s, s.calls[c]);
      var at := s.calls[c].id;
      assert s.calls[c].IsApply() ==> (HasStarted(t.log, at) <==> HasStarted(s.log, at));
    }
  }

  lemma PlannedKept(env: Env, s: Sys, t: Sys, call: nat, touched: set<string>, news: seq<Event>)
    requires Delta(s, t, call, touched, news) && LogOk(env, s)
    requires forall e :: e in news && e.StagedBy? ==> e.id !in s.records
    requires forall e :: e in news && e.Attested? ==>
               !HasAttested(s.log, e.id) && e.id in t.records && t.records[e.id].phase != Planned
    requires forall id :: id in touched && id in t.records && t.records[id].phase == Planned ==> id !in s.records
    ensures StagedOnce(t.log) && AttestedOnce(t.log) && PlannedIsUnattested(t)
  {
    hide RecordOk, MayStage, MayApprove, GoodApproval, Frozen;
    assert forall e :: e in s.log && (e.StagedBy? || e.Attested?) ==> e.id in s.records by {
      assert forall e :: e in s.log ==> EventOk(env, s.records, e);
    }
    forall id | id in t.records && t.records[id].phase == Planned
      ensures !HasAttested(t.log, id)
    {
      assert id in s.records && id !in touched ==> !HasAttested(s.log, id);
    }
  }

  /** A set opens only by being inserted, where none of its queue was open. */
  lemma OpenKept(s: Sys, t: Sys, call: nat, touched: set<string>, news: seq<Event>)
    requires Delta(s, t, call, touched, news) && OneOpenEach(s.records, s.now)
    requires forall a, b :: a in touched && b in touched ==> a == b
    requires forall id :: id in touched && id in t.records ==> Opens(s, t, id)
    ensures OneOpenEach(t.records, t.now)
  {
  }

  ghost predicate Opens(s: Sys, t: Sys, id: string)
    requires id in t.records
  {
    Open(t.records[id], t.now) ==>
      if id in s.records then SamePlan(s.records[id], t.records[id]) && Open(s.records[id], s.now)
      else forall other :: other in s.records && SameQueueAs(s.records[other], t.records[id]) ==>
             !Open(s.records[other], s.now)
  }

  lemma LogKept(env: Env, s: Sys, t: Sys, call: nat, touched: set<string>, news: seq<Event>)
    requires Delta(s, t, call, touched, news) && LogOk(env, s)
    requires forall e :: e in news ==> EventOk(env, t.records, e)
    requires forall e :: e in news && e.Started? ==>
               !HasStarted(s.log, e.id) && e.id in t.records && !Unclaimed(t.records[e.id])
    requires forall e :: e in news && e.SettledAs? ==>
               !HasSettled(s.log, e.id) && (e.outcome.Some? ==> HasStarted(s.log, e.id))
    requires forall id :: id in touched && id in s.records ==> !Finished(s.records[id])
    requires forall e :: e in news && e.StagedBy? ==> e.id !in s.records
    requires forall e :: e in news && e.Attested? ==>
               !HasAttested(s.log, e.id) && e.id in t.records && t.records[e.id].phase != Planned
    requires forall id :: id in touched && id in t.records && t.records[id].phase == Planned ==> id !in s.records
    requires forall id :: id in touched && id in t.records && t.records[id].approval.Some? ==>
               ApprovalLogged(t.log, id, t.records[id].approval.value)
    requires forall id :: id in touched && id in t.records && Unclaimed(t.records[id]) ==>
               id !in s.records || Unclaimed(s.records[id])
    ensures LogOk(env, t)
  {
    forall e | e in s.log
      ensures EventOk(env, t.records, e)
    {
      assert EventOk(env, s.records, e);
    }
    forall id | id in t.records && Unclaimed(t.records[id])
      ensures !HasStarted(t.log, id)
    {
      assert !HasStarted(s.log, id);
    }
    PlannedKept(env, s, t, call, touched, news);
    forall id | id in t.records && t.records[id].approval.Some?
      ensures ApprovalLogged(t.log, id, t.records[id].approval.value)
    {
      assert id !in touched ==> ApprovalLogged(s.log, id, s.records[id].approval.value);
    }
  }

  lemma StoreKept(env: Env, s: Sys, t: Sys, call: nat, touched: set<string>, proposed: set<string>, news: seq<Event>)
    requires Delta(s, t, call, touched, news) && StoreOk(env, s)
    requires forall id :: id in touched && id in t.records ==> RecordOk(env, t.records[id])
    requires forall id :: id in touched + proposed && id in t.records ==> Published(t, id)
    requires forall e :: e in news && e.StagedBy? ==> e.id in touched
    requires forall id :: id !in proposed && id in s.proposals ==>
               id in t.proposals && t.proposals[id] == s.proposals[id]
    requires s.lock.Some? && s.lock.value != call ==> t.lock == s.lock
    requires call in s.calls && s.calls[call].StageInserted? ==> s.calls[call].id in proposed
    ensures StoreOk(env, t)
  {
    forall id | id in t.records && id !in touched + proposed
      ensures Published(t, id)
    {
      assert Published(s, id);
    }
  }

  lemma RecorderKept(s: Sys, t: Sys, call: nat, touched: set<string>, news: seq<Event>)
    requires Delta(s, t, call, touched, news) && RecorderOk(s)
    requires forall id :: id in t.proposals ==>
               (id in s.proposals && t.proposals[id] == s.proposals[id]) || ProposalOk(t, id)
    requires forall id :: id in t.records && id !in s.records ==> StagedIn(t.log, id, t.process)
    requires forall e :: e in news && e.StagedBy? ==> e.process == s.process && e.id !in s.records
    requires forall e :: e in news && e.Attested? ==> AttestOk(t.records, t.log, e)
    ensures RecorderOk(t)
  {
    forall id, p | id in s.records
      ensures StagedIn(t.log, id, p) <==> StagedIn(s.log, id, p)
      ensures StagedBefore(t.log, id, p) <==> StagedBefore(s.log, id, p)
    {
      assert forall e :: e in t.log && e.StagedBy? && e.id == id ==> e in s.log;
      assert forall e :: e in s.log ==> e in t.log;
    }
    forall e | e in s.log && e.Attested?
      ensures AttestOk(t.records, t.log, e)
    {
      assert AttestOk(s.records, s.log, e);
    }
    forall id | id in t.proposals && id in s.proposals && t.proposals[id] == s.proposals[id]
      ensures ProposalOk(t, id)
    {
      assert ProposalOk(s, id);
    }
  }

  lemma ApplyKept(s: Sys, t: Sys, call: nat, touched: set<string>, news: seq<Event>)
    requires Delta(s, t, call, touched, news) && ApplyOk(s)
    requires call in t.calls && t.calls[call].IsApply() ==> NoOtherApply(s, call, t.calls[call].id)
    requires forall id :: id in touched && id in t.records && t.records[id].phase == Applying ==>
               HasApply(t.calls, id) || WasLost(t.log, id)
    requires call in s.calls && s.calls[call].IsApply() ==>
               || s.calls[call].id in touched || Abandoned(s.calls[call].id) in news
               || (call in t.calls && t.calls[call].IsApply() && t.calls[call].id == s.calls[call].id)
    requires forall id :: id in touched && id in t.records && Finished(t.records[id]) ==>
               exists e :: e in t.log && e.SettledAs? && e.id == id && e.phase == t.records[id].phase
    ensures ApplyOk(t)
  {
    forall id | id in t.records && id !in touched && t.records[id].phase == Applying
      ensures HasApply(t.calls, id) || WasLost(t.log, id)
    {
      if HasApply(s.calls, id) {
        var c :| c in s.calls && s.calls[c].IsApply() && s.calls[c].id == id;
        assert c != call ==> c in t.calls && t.calls[c].IsApply() && t.calls[c].id == id;
        assert c == call && Abandoned(id) !in news ==> t.calls[call].IsApply() && t.calls[call].id == id;
      }
    }
  }

  // ---- Every step keeps the invariant ----

  /** A step that only moves one call, with the store and the log as they were; `proposed` went to the recorder. */
  lemma QuietKeeps(env: Env, s: Sys, t: Sys, call: nat, proposed: set<string>)
    requires Inv(env, s) && DraftsOk(env, t.drafts, t.authenticated) && LockOk(t)
    requires forall id :: id in t.proposals ==>
               (id in s.proposals && t.proposals[id] == s.proposals[id]) || ProposalOk(t, id)
    requires t.records == s.records
    requires forall id :: id !in proposed && id in s.proposals ==>
               id in t.proposals && t.proposals[id] == s.proposals[id]
    requires forall id :: id in proposed && id in t.records ==> Published(t, id)
    requires Delta(s, t, call, {}, [])
    requires s.lock.Some? && s.lock.value != call ==> t.lock == s.lock
    requires call in s.calls && s.calls[call].StageInserted? ==> s.calls[call].id in proposed
    requires call in t.calls ==> CallOk(env, t, t.calls[call])
    requires (call in s.calls && s.calls[call].IsApply()) <==> (call in t.calls && t.calls[call].IsApply())
    requires call in t.calls && t.calls[call].IsApply() ==> t.calls[call].id == s.calls[call].id
    ensures Inv(env, t)
  {
    hide EventOk, RecordOk, CallOk;
    CallsKept(env, s, t, call, {}, []);
    LogKept(env, s, t, call, {}, []);
    StoreKept(env, s, t, call, {}, proposed, []);
    ApplyKept(s, t, call, {}, []);
    RecorderKept(s, t, call, {}, []);
    OpenKept(s, t, call, {}, []);
  }

  /** How far a quiet step reaches: one call, moving between stages of the same kind. */
  ghost predicate Moves(s: Sys, t: Sys, call: nat) {
    && LockOk(t) && t.records == s.records && t.proposals == s.proposals && Delta(s, t, call, {}, [])
    && (s.lock.Some? && s.lock.value != call ==> t.lock == s.lock)
    && (call in s.calls ==> !s.calls[call].StageInserted?)
    && ((call in s.calls && s.calls[call].IsApply()) <==> (call in t.calls && t.calls[call].IsApply()))
    && (call in t.calls && t.calls[call].IsApply() ==> t.calls[call].id == s.calls[call].id)
  }

  lemma MoveKeeps(env: Env, s: Sys, t: Sys, call: nat)
    requires Inv(env, s) && Moves(s, t, call) && DraftsOk(env, t.drafts, t.authenticated)
    requires call in t.calls ==> CallOk(env, t, t.calls[call])
    ensures Inv(env, t)
  {
    hide Inv, LockOk, CallOk, Delta, DraftsOk;
    QuietKeeps(env, s, t, call, {});
  }

  /** A step that also touches the records in `touched` or adds an event. */
  lemma LoudKeeps(env: Env, s: Sys, t: Sys, call: nat, touched: set<string>, news: seq<Event>)
    requires Inv(env, s) && DraftsOk(env, t.drafts, t.authenticated) && LockOk(t) && Delta(s, t, call, touched, news)
    requires s.lock.Some? && s.lock.value != call ==> t.lock == s.lock
    // the call
    requires call in t.calls ==> CallOk(env, t, t.calls[call])
    requires call in t.calls && t.calls[call].IsApply() ==> NoOtherApply(s, call, t.calls[call].id)
    requires call in s.calls && s.calls[call].IsApply() ==>
               || s.calls[call].id in touched || Abandoned(s.calls[call].id) in news
               || (call in t.calls && t.calls[call].IsApply() && t.calls[call].id == s.calls[call].id)
    requires call in s.calls ==> !s.calls[call].StageInserted?
    // the records
    requires forall id :: id in touched ==> TouchOk(env, s, t, call, id)
    requires forall a, b :: a in touched && b in touched ==> a == b
    requires forall id :: id in t.records && id !in s.records ==> StagedIn(t.log, id, t.process)
    requires forall e :: e in news && e.StagedBy? ==> e.id in touched
    requires t.proposals == s.proposals
    // the event
    requires forall e :: e in news ==> NewsOk(env, s, t, call, e)
    ensures Inv(env, t)
  {
    hide Delta, CallsOk, LogOk, StoreOk, ApplyOk, RecorderOk, OneOpenEach, NewsOk, TouchOk, CallOk, StagedIn;
    hide NoOtherApply, DraftsOk, LockOk;
    LoudLog(env, s, t, call, touched, news);
    LoudStore(env, s, t, call, touched, news);
    LoudApply(env, s, t, call, touched, news);
  }

  lemma LoudLog(env: Env, s: Sys, t: Sys, call: nat, touched: set<string>, news: seq<Event>)
    requires Delta(s, t, call, touched, news) && CallsOk(env, s) && LogOk(env, s)
    requires call in t.calls ==> CallOk(env, t, t.calls[call])
    requires forall id :: id in touched ==> TouchOk(env, s, t, call, id)
    requires forall e :: e in news ==> NewsOk(env, s, t, call, e)
    ensures CallsOk(env, t) && LogOk(env, t)
  {
    hide EventOk, RecordOk, CallOk, Opens, HasApply, WasLost, HasAttested, ApprovalLogged, Published, AttestOk;
    CallsKept(env, s, t, call, touched, news);
    LogKept(env, s, t, call, touched, news);
  }

  lemma LoudStore(env: Env, s: Sys, t: Sys, call: nat, touched: set<string>, news: seq<Event>)
    requires Delta(s, t, call, touched, news) && StoreOk(env, s) && RecorderOk(s)
    requires s.lock.Some? && s.lock.value != call ==> t.lock == s.lock
    requires call in s.calls ==> !s.calls[call].StageInserted?
    requires forall id :: id in touched ==> TouchOk(env, s, t, call, id)
    requires forall id :: id in t.records && id !in s.records ==> StagedIn(t.log, id, t.process)
    requires forall e :: e in news && e.StagedBy? ==> e.id in touched
    requires t.proposals == s.proposals
    requires forall e :: e in news ==> NewsOk(env, s, t, call, e)
    ensures StoreOk(env, t) && RecorderOk(t)
  {
    hide EventOk, RecordOk, Opens, HasApply, WasLost, HasAttested, ApprovalLogged, AttestOk, HasStarted, HasSettled;
    StoreKept(env, s, t, call, touched, {}, news);
    RecorderKept(s, t, call, touched, news);
  }

  lemma LoudApply(env: Env, s: Sys, t: Sys, call: nat, touched: set<string>, news: seq<Event>)
    requires Delta(s, t, call, touched, news) && ApplyOk(s) && OneOpenEach(s.records, s.now)
    requires call in t.calls && t.calls[call].IsApply() ==> NoOtherApply(s, call, t.calls[call].id)
    requires call in s.calls && s.calls[call].IsApply() ==>
               || s.calls[call].id in touched || Abandoned(s.calls[call].id) in news
               || (call in t.calls && t.calls[call].IsApply() && t.calls[call].id == s.calls[call].id)
    requires forall id :: id in touched ==> TouchOk(env, s, t, call, id)
    requires forall a, b :: a in touched && b in touched ==> a == b
    ensures ApplyOk(t) && OneOpenEach(t.records, t.now)
  {
    hide RecordOk, Opens, OneOpenEach, HasApply, WasLost, ApprovalLogged, Published, NoOtherApply;
    ApplyKept(s, t, call, touched, news);
    OpenKept(s, t, call, touched, news);
  }

  ghost predicate TouchOk(env: Env, s: Sys, t: Sys, call: nat, id: string) {
    && (id in s.records ==> NoOtherApply(s, call, id) && !Finished(s.records[id]))
    && (id in t.records ==>
          && RecordOk(env, t.records[id]) && Published(t, id) && Opens(s, t, id)
          && (t.records[id].phase == Planned ==> id !in s.records)
          && (t.records[id].approval.Some? ==> ApprovalLogged(t.log, id, t.records[id].approval.value))
          && (Unclaimed(t.records[id]) ==> id !in s.records || Unclaimed(s.records[id]))
          && (t.records[id].phase == Applying ==> HasApply(t.calls, id) || WasLost(t.log, id))
          && (Finished(t.records[id]) ==>
                exists e :: e in t.log && e.SettledAs? && e.id == id && e.phase == t.records[id].phase))
  }

  ghost predicate NewsOk(env: Env, s: Sys, t: Sys, call: nat, e: Event) {
    && EventOk(env, t.records, e)
    && (e.Started? ==> NoOtherApply(s, call, e.id) && !HasStarted(s.log, e.id)
                       && e.id in t.records && !Unclaimed(t.records[e.id]))
    && (e.SettledAs? ==> !HasSettled(s.log, e.id) && (e.outcome.Some? ==> HasStarted(s.log, e.id)))
    && (e.StagedBy? ==> e.process == s.process && e.id !in s.records)
    && (e.Attested? ==> AttestOk(t.records, t.log, e) && !HasAttested(s.log, e.id) && e.id in t.records
                        && t.records[e.id].phase != Planned)
  }

  /** What the invariant says of the lock, the drafts and one call. */
  lemma CallGives(env: Env, s: Sys, call: nat)
    requires Inv(env, s)
    ensures LockOk(s) && DraftsOk(env, s.drafts, s.authenticated)
    ensures call in s.calls ==> CallOk(env, s, s.calls[call])
    ensures call in s.calls && s.calls[call].IsApply() ==> NoOtherApply(s, call, s.calls[call].id)
  {
    hide StoreOk, LogOk, Tidy;
  }

  /** What it says of one record: a set that is not being applied has no apply call. */
  lemma RecordGives(env: Env, s: Sys, call: nat, id: string)
    requires Inv(env, s) && id in s.records
    ensures RecordOk(env, s.records[id]) && Published(s, id)
    ensures Unclaimed(s.records[id]) ==> !HasStarted(s.log, id)
    ensures !Finished(s.records[id]) ==> !HasSettled(s.log, id)
    ensures s.records[id].phase == Planned ==> !HasAttested(s.log, id)
    ensures s.records[id].approval.Some? ==> ApprovalLogged(s.log, id, s.records[id].approval.value)
    ensures StagedIn(s.log, id, s.process) || StagedBefore(s.log, id, s.process)
    ensures id in s.proposals ==> ProposalOk(s, id)
    ensures s.records[id].phase != Applying ==> NoOtherApply(s, call, id)
  {
    hide Tidy, RecordOk;
    forall c | c in s.calls && s.calls[c].IsApply()
      ensures s.records[id].phase != Applying ==> s.calls[c].id != id
    {
      assert CallOk(env, s, s.calls[c]);
    }
  }

  lemma DropMoves(s: Sys, call: nat)
    requires LockOk(s) && call in s.calls && !s.calls[call].StageInserted? && !s.calls[call].IsApply()
    ensures Moves(s, DoDrop(s, call), call)
  {
  }

  lemma DropKeeps(env: Env, s: Sys, call: nat)
    requires Inv(env, s)
    ensures Inv(env, DoDrop(s, call))
  {
    hide Inv, DraftsOk, CallOk;
    CallGives(env, s, call);
    var t := DoDrop(s, call);
    if call in s.calls && s.calls[call].IsApply() {
      var e := Abandoned(s.calls[call].id);
      assert NewsOk(env, s, t, call, e);
      LoudKeeps(env, s, t, call, {}, [e]);
    } else if call in s.calls && !s.calls[call].StageInserted? {
      DropMoves(s, call);
      hide Moves;
      MoveKeeps(env, s, t, call);
    }
  }

  /** A restart keeps the records and every fact the log has about them. */
  lemma RestartKeeps(env: Env, s: Sys, authenticated: bool)
    requires Inv(env, s)
    ensures Inv(env, DoRestart(s, authenticated))
  {
    RestartKeepsRecorder(s, authenticated);
    RestartKeepsStore(env, s, authenticated);
    RestartKeepsLog(env, s, authenticated);
    RestartKeepsApply(env, s, authenticated);
    hide StoreOk, LogOk, ApplyOk, RecorderOk;
  }

  lemma RestartKeepsStore(env: Env, s: Sys, authenticated: bool)
    requires StoreOk(env, s) && RecorderOk(s)
    ensures StoreOk(env, DoRestart(s, authenticated))
  {
    hide RecordOk, ProposalOk, AttestOk, StagedBefore;
    var t := DoRestart(s, authenticated);
    assert forall e :: e in t.log && e.StagedBy? ==> e in s.log && e.process < t.process;
  }

  lemma RestartKeepsLog(env: Env, s: Sys, authenticated: bool)
    requires LogOk(env, s)
    ensures LogOk(env, DoRestart(s, authenticated))
  {
    hide EventOk, RecordOk;
    var t := DoRestart(s, authenticated);
    assert forall e :: e in t.log && !e.Restarted? ==> e in s.log;
    assert forall e :: e in s.log ==> e in t.log;
    RestartedOk(env, t.records, InFlight(s.calls));
  }

  /** A set still `Applying` had a call working on it, which the restart lost, or was lost before. */
  lemma RestartKeepsApply(env: Env, s: Sys, authenticated: bool)
    requires ApplyOk(s)
    ensures ApplyOk(DoRestart(s, authenticated))
  {
    var t := DoRestart(s, authenticated);
    assert forall e :: e in s.log ==> e in t.log;
    forall id | id in t.records && t.records[id].phase == Applying
      ensures WasLost(t.log, id)
    {
      if HasApply(s.calls, id) {
        assert Restarted(InFlight(s.calls)) in t.log && id in InFlight(s.calls);
      }
    }
  }

  lemma RestartedOk(env: Env, records: map<string, Record>, lost: set<string>)
    ensures EventOk(env, records, Restarted(lost))
  {
  }

  lemma RestartKeepsRecorder(s: Sys, authenticated: bool)
    requires RecorderOk(s)
    ensures RecorderOk(DoRestart(s, authenticated))
  {
    var t := DoRestart(s, authenticated);
    assert forall e :: e in t.log && !e.Restarted? ==> e in s.log;
    assert forall e :: e in s.log ==> e in t.log;
    forall e | e in t.log && e.Attested?
      ensures AttestOk(t.records, t.log, e)
    {
      assert AttestOk(s.records, s.log, e);
      assert StagedIn(t.log, e.id, e.process) <==> StagedIn(s.log, e.id, e.process);
    }
  }

  /** Time opens nothing. */
  lemma OpenAges(records: map<string, Record>, before: nat, after: nat)
    requires OneOpenEach(records, before) && before <= after
    ensures OneOpenEach(records, after)
  {
  }

  /** The rest of the invariant does not look at the drafts or the clock. */
  lemma SameButDrafts(env: Env, s: Sys, t: Sys)
    requires Inv(env, s) && DraftsOk(env, t.drafts, t.authenticated) && t == s.(drafts := t.drafts, now := t.now)
    requires s.now <= t.now
    ensures Inv(env, t)
  {
    OpenAges(s.records, s.now, t.now);
    AgedCalls(env, s, t);
    AgedStore(env, s, t);
    hide EventOk, RecordOk, DraftsOk, OneOpenEach, CallsOk, StoreOk, AttestOk, HasApply, WasLost, Published;
  }

  lemma AgedCalls(env: Env, s: Sys, t: Sys)
    requires CallsOk(env, s) && t == s.(drafts := t.drafts, now := t.now) && s.now <= t.now
    ensures CallsOk(env, t)
  {
    hide RecordOk, MayStage, MayApprove, MayApply, MayOwn, SamePlan, HasStarted, StagedIn;
    forall c | c in t.calls
      ensures CallOk(env, t, t.calls[c])
    {
      assert CallOk(env, s, s.calls[c]);
    }
  }

  lemma AgedStore(env: Env, s: Sys, t: Sys)
    requires StoreOk(env, s) && t == s.(drafts := t.drafts, now := t.now)
    ensures StoreOk(env, t)
  {
    hide RecordOk, StagedIn;
    assert forall id :: id in s.records ==> Published(s, id) && Published(t, id);
  }

  lemma CreateKeeps(env: Env, s: Sys, caller: Caller, id: string, controller: string, description: string)
    requires Inv(env, s)
    ensures Inv(env, DoCreate(env, s, caller, id, controller, description))
  {
    hide Inv, LockOk;
    CallGives(env, s, 0);
    if s.Admits(caller) && (caller.Some? ==> env.tokens(caller.value).canCreate) {
      HeldKeepsDrafts(env, s.drafts, s.authenticated, id,
                      Draft(controller, Principal(caller), description, s.now), s.now);
      hide DraftsOk, Held;
      SameButDrafts(env, s, DoCreate(env, s, caller, id, controller, description));
    }
  }

  lemma HeldKeepsDrafts(env: Env, drafts: map<string, Draft>, authenticated: bool, id: string, draft: Draft, now: nat)
    requires DraftsOk(env, drafts, authenticated) && MayOwn(env, draft.owner)
    requires !authenticated ==> draft.owner == UNNAMED
    ensures DraftsOk(env, Held(drafts, id, draft, now, env.ttl), authenticated)
  {
    HoldingStaysTidy(drafts, id, draft, now, env.ttl);
    hide Tidy, HasRoom, Lapsed, MayOwn;
  }

  lemma StagingKeeps(env: Env, s: Sys, call: nat, caller: Caller, id: string, controller: string)
    requires Inv(env, s) && call !in s.calls && MayStage(env, caller)
    requires Looked(s.drafts, id, controller, s.now, env.ttl).Some?
    ensures Inv(env, DoBeginStage(env, s, call, caller, id, controller))
  {
    hide Inv, Tidy;
    CallGives(env, s, call);
    MoveKeeps(env, s, DoBeginStage(env, s, call, caller, id, controller), call);
  }

  lemma BeginStageKeeps(env: Env, s: Sys, call: nat, caller: Caller, id: string, controller: string)
    requires Inv(env, s)
    ensures Inv(env, DoBeginStage(env, s, call, caller, id, controller))
  {
    hide Inv, Tidy;
    CallGives(env, s, call);
    var t := DoBeginStage(env, s, call, caller, id, controller);
    if call !in s.calls && MayStage(env, caller) {
      if Looked(s.drafts, id, controller, s.now, env.ttl).Some? {
        StagingKeeps(env, s, call, caller, id, controller);
      } else if id in s.drafts && s.drafts[id].controller == controller {
        ReleasingStaysTidy(s.drafts, id);
        SameButDrafts(env, s, t);
      }
    }
  }

  lemma BuildPlanKeeps(env: Env, s: Sys, call: nat, plan: seq<Mutation>, pre: Preimage)
    requires Inv(env, s)
    ensures Inv(env, DoBuildPlan(env, s, call, plan, pre))
  {
    hide Inv, DraftsOk, ActionsFor, AllWritable;
    CallGives(env, s, call);
    if call in s.calls && s.calls[call].Staging? {
      BuildPlanMoves(env, s, call, plan, pre);
      hide Moves;
      MoveKeeps(env, s, DoBuildPlan(env, s, call, plan, pre), call);
    }
  }

  lemma BuildPlanMoves(env: Env, s: Sys, call: nat, plan: seq<Mutation>, pre: Preimage)
    requires LockOk(s) && call in s.calls && s.calls[call].Staging?
    ensures Moves(s, DoBuildPlan(env, s, call, plan, pre), call)
  {
    hide ActionsFor, AllWritable;
  }

  lemma TakeLockKeeps(env: Env, s: Sys, call: nat)
    requires Inv(env, s)
    ensures Inv(env, DoTakeLock(s, call))
  {
    hide Inv, DraftsOk;
    CallGives(env, s, call);
    if call in s.calls && s.lock.None? && (s.calls[call].StageReady? || s.calls[call].Approving?) {
      TakeLockMoves(s, call);
      hide Moves;
      MoveKeeps(env, s, DoTakeLock(s, call), call);
    }
  }

  lemma TakeLockMoves(s: Sys, call: nat)
    requires LockOk(s) && call in s.calls && s.lock.None? && (s.calls[call].StageReady? || s.calls[call].Approving?)
    ensures Moves(s, DoTakeLock(s, call), call)
  {
  }

  lemma InsertKeeps(env: Env, s: Sys, call: nat)
    requires Inv(env, s)
    ensures Inv(env, DoInsert(s, call))
  {
    hide Inv, Tidy;
    CallGives(env, s, call);
    if call in s.calls && s.calls[call].StageHolding? {
      var c := s.calls[call];
      if Insertable(s.records, c.id, c.record, s.now) {
        InsertedKeeps(env, s, call);
      } else {
        MoveKeeps(env, s, DoInsert(s, call), call);
      }
    }
  }

  lemma InsertedKeeps(env: Env, s: Sys, call: nat)
    requires Inv(env, s) && call in s.calls && s.calls[call].StageHolding?
    requires Insertable(s.records, s.calls[call].id, s.calls[call].record, s.now)
    ensures Inv(env, DoInsert(s, call))
  {
    hide Inv, Insertable;
    CallGives(env, s, call);
    var c := s.calls[call];
    InsertedShape(s, call);
    InsertedTouch(env, s, call);
    InsertedNews(env, s, call);
    InsertedCall(env, s, call);
    hide TouchOk, NewsOk, RecordOk, Delta, LockOk, DraftsOk, DoInsert, CallOk, NoOtherApply, StagedIn;
    LoudKeeps(env, s, DoInsert(s, call), call, {c.id}, [StagedBy(c.id, c.caller, s.process, s.now)]);
  }

  lemma InsertedNews(env: Env, s: Sys, call: nat)
    requires call in s.calls && s.calls[call].StageHolding? && CallOk(env, s, s.calls[call])
    requires Insertable(s.records, s.calls[call].id, s.calls[call].record, s.now)
    ensures var c := s.calls[call];
            NewsOk(env, s, DoInsert(s, call), call, StagedBy(c.id, c.caller, s.process, s.now))
  {
    hide MayStage, MayOwn, NoOtherApply, HasAttested, HasStarted, HasSettled, RecordOk, SameQueueAs, Open;
  }

  lemma InsertedCall(env: Env, s: Sys, call: nat)
    requires call in s.calls && s.calls[call].StageHolding?
    requires Insertable(s.records, s.calls[call].id, s.calls[call].record, s.now)
    requires DraftsOk(env, s.drafts, s.authenticated)
    ensures var c := s.calls[call];
            var t := DoInsert(s, call);
            && DraftsOk(env, t.drafts, t.authenticated)
            && call in t.calls && t.calls[call].StageInserted? && CallOk(env, t, t.calls[call])
            && t.proposals == s.proposals && t.lock == s.lock
            && forall id :: id in t.records && id !in s.records ==> StagedIn(t.log, id, t.process)
  {
    hide Insertable, DraftsOk;
    var c := s.calls[call];
    ReleasedKeepsDrafts(env, s.drafts, s.authenticated, c.id);
    assert StagedBy(c.id, c.caller, s.process, s.now) in DoInsert(s, call).log;
  }

  lemma ReleasedKeepsDrafts(env: Env, drafts: map<string, Draft>, authenticated: bool, id: string)
    requires DraftsOk(env, drafts, authenticated)
    ensures DraftsOk(env, drafts - {id}, authenticated)
  {
    ReleasingStaysTidy(drafts, id);
    hide Tidy, MayOwn;
  }

  lemma InsertedTouch(env: Env, s: Sys, call: nat)
    requires LockOk(s) && call in s.calls && s.calls[call].StageHolding? && CallOk(env, s, s.calls[call])
    requires Insertable(s.records, s.calls[call].id, s.calls[call].record, s.now)
    ensures TouchOk(env, s, DoInsert(s, call), call, s.calls[call].id)
  {
    hide NoOtherApply, HasApply, WasLost, StagedIn, MayStage, MayOwn, GoodApproval, SamePlan;
    assert Published(DoInsert(s, call), s.calls[call].id);
  }

  lemma InsertedShape(s: Sys, call: nat)
    requires LockOk(s) && call in s.calls && s.calls[call].StageHolding?
    requires Insertable(s.records, s.calls[call].id, s.calls[call].record, s.now)
    ensures var c := s.calls[call];
            var t := DoInsert(s, call);
            && c.id !in s.records && t.records == s.records[c.id := c.record]
            && Delta(s, t, call, {c.id}, [StagedBy(c.id, c.caller, s.process, s.now)]) && LockOk(t)
  {
  }

  lemma ProposeKeeps(env: Env, s: Sys, call: nat)
    requires Inv(env, s)
    ensures Inv(env, DoPropose(s, call))
  {
    hide Inv, DraftsOk;
    CallGives(env, s, call);
    if call in s.calls && s.calls[call].StageInserted? {
      QuietKeeps(env, s, DoPropose(s, call), call, {s.calls[call].id});
    }
  }

  lemma BeginApproveKeeps(env: Env, s: Sys, call: nat, caller: Caller, id: string, controller: string,
                          expected: Option<Digest>)
    requires Inv(env, s)
    ensures Inv(env, DoBeginApprove(env, s, call, caller, id, controller, expected))
  {
    hide Inv, DraftsOk, AllWritable;
    CallGives(env, s, call);
    var t := DoBeginApprove(env, s, call, caller, id, controller, expected);
    if call !in s.calls && call in t.calls {
      MoveKeeps(env, s, t, call);
    }
  }

  lemma ApproveKeeps(env: Env, s: Sys, call: nat)
    requires Inv(env, s)
    ensures Inv(env, DoApprove(env, s, call))
  {
    hide Inv, DraftsOk;
    CallGives(env, s, call);
    if call in s.calls && s.calls[call].ApproveHolding? {
      if |DoApprove(env, s, call).log| > |s.log| {
        ApprovedKeeps(env, s, call);
      } else {
        MoveKeeps(env, s, DoApprove(env, s, call), call);
      }
    }
  }

  /** The approving call holds the lock, so the recorder already has the digest of a set staged in this process. */
  lemma ApprovedKeeps(env: Env, s: Sys, call: nat)
    requires Inv(env, s) && call in s.calls && s.calls[call].ApproveHolding?
    requires |DoApprove(env, s, call).log| > |s.log|
    ensures Inv(env, DoApprove(env, s, call))
  {
    hide Inv, DraftsOk;
    CallGives(env, s, call);
    var c := s.calls[call];
    var t := DoApprove(env, s, call);
    RecordGives(env, s, call, c.id);
    ApprovedTouch(env, s, call);
    ApprovedShape(env, s, call);
    ApprovedNews(env, s, call);
    hide TouchOk, NewsOk, RecordOk, Delta, LockOk, Published, StagedIn, StagedBefore, ProposalOk;
    LoudKeeps(env, s, t, call, {c.id}, [t.log[|s.log|]]);
  }

  lemma ApprovedNews(env: Env, s: Sys, call: nat)
    requires LockOk(s) && call in s.calls && s.calls[call].ApproveHolding?
    requires |DoApprove(env, s, call).log| > |s.log|
    requires CallOk(env, s, s.calls[call]) && s.calls[call].id in s.records
    requires Published(s, s.calls[call].id) && RecordOk(env, s.records[s.calls[call].id])
    requires StagedIn(s.log, s.calls[call].id, s.process) || StagedBefore(s.log, s.calls[call].id, s.process)
    requires s.calls[call].id in s.proposals ==> ProposalOk(s, s.calls[call].id)
    requires s.records[s.calls[call].id].phase == Planned ==> !HasAttested(s.log, s.calls[call].id)
    ensures NewsOk(env, s, DoApprove(env, s, call), call, DoApprove(env, s, call).log[|s.log|])
  {
    var c := s.calls[call];
    var t := DoApprove(env, s, call);
    assert StagedIn(s.log, c.id, s.process) <==> c.id in s.proposals;
    assert StagedIn(t.log, c.id, s.process) <==> StagedIn(s.log, c.id, s.process);
    assert StagedBefore(s.log, c.id, s.process) ==> StagedBefore(t.log, c.id, s.process);
  }

  lemma ApprovedTouch(env: Env, s: Sys, call: nat)
    requires LockOk(s) && call in s.calls && s.calls[call].ApproveHolding?
    requires |DoApprove(env, s, call).log| > |s.log|
    requires CallOk(env, s, s.calls[call]) && s.calls[call].id in s.records
    requires RecordOk(env, s.records[s.calls[call].id]) && Published(s, s.calls[call].id)
    requires NoOtherApply(s, call, s.calls[call].id)
    ensures TouchOk(env, s, DoApprove(env, s, call), call, s.calls[call].id)
  {
    var c := s.calls[call];
    var t := DoApprove(env, s, call);
    assert StagedIn(t.log, c.id, t.process) <==> StagedIn(s.log, c.id, s.process);
    assert t.log[|s.log|] in t.log;
  }

  lemma ApprovedShape(env: Env, s: Sys, call: nat)
    requires LockOk(s) && call in s.calls && s.calls[call].ApproveHolding?
    requires |DoApprove(env, s, call).log| > |s.log|
    ensures var t := DoApprove(env, s, call);
            Delta(s, t, call, {s.calls[call].id}, [t.log[|s.log|]]) && LockOk(t)
  {
  }

  lemma ClaimKeeps(env: Env, s: Sys, call: nat, caller: Caller, id: string, controller: string)
    requires Inv(env, s)
    ensures Inv(env, DoClaim(env, s, call, caller, id, controller))
  {
    hide Inv, DraftsOk;
    CallGives(env, s, call);
    var t := DoClaim(env, s, call, caller, id, controller);
    if call !in s.calls && call in t.calls {
      RecordGives(env, s, call, id);
      assert t.calls[call].IsApply() && HasApply(t.calls, id);
      assert Published(t, id);
      assert TouchOk(env, s, t, call, id);
      ClaimedShape(env, s, call, caller, id, controller);
      hide TouchOk, RecordOk, Delta, LockOk;
      LoudKeeps(env, s, t, call, {id}, []);
    }
  }

  lemma ClaimedShape(env: Env, s: Sys, call: nat, caller: Caller, id: string, controller: string)
    requires LockOk(s) && call !in s.calls
    ensures var t := DoClaim(env, s, call, caller, id, controller);
            call in t.calls ==> Delta(s, t, call, {id}, []) && LockOk(t)
  {
    assert s.log == s.log + [];
  }

  lemma CheckDeadlineKeeps(env: Env, s: Sys, call: nat)
    requires Inv(env, s)
    ensures Inv(env, DoCheckDeadline(s, call))
  {
    hide Inv, DraftsOk;
    CallGives(env, s, call);
    if call in s.calls && s.calls[call].Claimed? {
      MoveKeeps(env, s, DoCheckDeadline(s, call), call);
    }
  }

  lemma StartKeeps(env: Env, s: Sys, call: nat, ready: bool)
    requires Inv(env, s)
    ensures Inv(env, DoStart(s, call, ready))
  {
    hide Inv, DraftsOk, AllWritable;
    CallGives(env, s, call);
    var t := DoStart(s, call, ready);
    if call in s.calls && s.calls[call].Cleared? {
      var c := s.calls[call];
      if ready && AllWritable(c.record.actions) {
        StartedKeeps(env, s, call);
      } else {
        MoveKeeps(env, s, t, call);
      }
    }
  }

  lemma StartedKeeps(env: Env, s: Sys, call: nat)
    requires Inv(env, s) && call in s.calls && s.calls[call].Cleared? && AllWritable(s.calls[call].record.actions)
    ensures Inv(env, DoStart(s, call, true))
  {
    hide Inv, DraftsOk, AllWritable;
    CallGives(env, s, call);
    var t := DoStart(s, call, true);
    var e := Started(s.calls[call].id, s.calls[call].caller, s.calls[call].checkedAt);
    assert e in t.log;
    assert NewsOk(env, s, t, call, e);
    hide NewsOk;
    LoudKeeps(env, s, t, call, {}, [e]);
  }

  lemma FinishKeeps(env: Env, s: Sys, call: nat, outcome: Outcomes.State)
    requires Inv(env, s)
    ensures Inv(env, DoFinish(s, call, outcome))
  {
    hide Inv, DraftsOk;
    CallGives(env, s, call);
    if call in s.calls && s.calls[call].Running? {
      MoveKeeps(env, s, DoFinish(s, call, outcome), call);
    }
  }

  lemma SettleKeeps(env: Env, s: Sys, call: nat, written: bool)
    requires Inv(env, s)
    ensures Inv(env, DoSettle(s, call, written))
  {
    hide Inv, DraftsOk;
    CallGives(env, s, call);
    if call in s.calls && s.calls[call].Settling? {
      var c := s.calls[call];
      var t := DoSettle(s, call, written);
      if written {
        SettledKeeps(env, s, call);
      } else {
        assert NewsOk(env, s, t, call, Abandoned(c.id));
        LoudKeeps(env, s, t, call, {}, [Abandoned(c.id)]);
      }
    }
  }

  lemma SettledKeeps(env: Env, s: Sys, call: nat)
    requires Inv(env, s) && call in s.calls && s.calls[call].Settling?
    ensures Inv(env, DoSettle(s, call, true))
  {
    hide Inv, DraftsOk;
    CallGives(env, s, call);
    var c := s.calls[call];
    var t := DoSettle(s, call, true);
    RecordGives(env, s, call, c.id);
    SettledShape(s, call);
    var e := SettledAs(c.id, c.outcome, PhaseFor(c.outcome));
    SettledTouch(env, s, call);
    SettledNews(env, s, call);
    hide TouchOk, NewsOk, RecordOk, Delta, LockOk, Published, StagedIn, ApprovalLogged, HasSettled, HasStarted;
    LoudKeeps(env, s, t, call, {c.id}, [e]);
  }

  lemma SettledNews(env: Env, s: Sys, call: nat)
    requires call in s.calls && s.calls[call].Settling? && CallOk(env, s, s.calls[call])
    requires !HasSettled(s.log, s.calls[call].id)
    ensures var c := s.calls[call];
            NewsOk(env, s, DoSettle(s, call, true), call, SettledAs(c.id, c.outcome, PhaseFor(c.outcome)))
  {
    hide RecordOk, StagedIn, HasStarted, HasSettled;
  }

  lemma SettledTouch(env: Env, s: Sys, call: nat)
    requires call in s.calls && s.calls[call].Settling? && Owns(s, s.calls[call].id, s.calls[call].record)
    requires LockOk(s) && NoOtherApply(s, call, s.calls[call].id)
    requires RecordOk(env, s.calls[call].record) && Published(s, s.calls[call].id)
    requires s.calls[call].record.approval.Some? ==>
               ApprovalLogged(s.log, s.calls[call].id, s.calls[call].record.approval.value)
    ensures TouchOk(env, s, DoSettle(s, call, true), call, s.calls[call].id)
  {
    var c := s.calls[call];
    var t := DoSettle(s, call, true);
    assert SettledAs(c.id, c.outcome, PhaseFor(c.outcome)) in t.log && Published(t, c.id);
  }

  lemma SettledShape(s: Sys, call: nat)
    requires LockOk(s) && call in s.calls && s.calls[call].Settling?
    requires Owns(s, s.calls[call].id, s.calls[call].record)
    ensures var c := s.calls[call];
            var t := DoSettle(s, call, true);
            Delta(s, t, call, {c.id}, [SettledAs(c.id, c.outcome, PhaseFor(c.outcome))]) && LockOk(t)
  {
  }

  lemma LapseKeeps(env: Env, s: Sys, id: string)
    requires Inv(env, s)
    ensures Inv(env, DoLapse(s, id))
  {
    hide Inv, DraftsOk;
    if id in s.records && (s.records[id].phase == Planned || s.records[id].phase == Approved)
       && s.now >= s.records[id].expires {
      // No call moves: a number not in use stands for the one that might.
      var idle := Unused(s.calls.Keys);
      CallGives(env, s, idle);
      RecordGives(env, s, idle, id);
      var t := DoLapse(s, id);
      LapseShape(s, idle, id);
      LapseTouch(env, s, idle, id);
      hide TouchOk, RecordOk, Delta, LockOk, Published;
      LoudKeeps(env, s, t, idle, {id}, []);
    }
  }

  lemma LapseTouch(env: Env, s: Sys, idle: nat, id: string)
    requires id in s.records && s.now >= s.records[id].expires
    requires s.records[id].phase == Planned || s.records[id].phase == Approved
    requires RecordOk(env, s.records[id]) && Published(s, id) && NoOtherApply(s, idle, id)
    requires s.records[id].approval.Some? ==> ApprovalLogged(s.log, id, s.records[id].approval.value)
    ensures TouchOk(env, s, DoLapse(s, id), idle, id)
  {
    hide NoOtherApply, StagedIn, HasApply, WasLost;
    assert Published(DoLapse(s, id), id);
  }

  lemma LapseShape(s: Sys, idle: nat, id: string)
    requires LockOk(s) && idle !in s.calls && id in s.records
    ensures Delta(s, DoLapse(s, id), idle, {id}, []) && LockOk(DoLapse(s, id))
  {
    assert s.log == s.log + [];
  }

  /** A call number nobody uses. */
  lemma {:induction false} Unused(calls: set<nat>) returns (n: nat)
    ensures n !in calls
    ensures forall c :: c in calls ==> c < n
  {
    if calls == {} {
      n := 0;
    } else {
      var c :| c in calls;
      var m := Unused(calls - {c});
      assert forall x :: x in calls ==> x == c || x in calls - {c};
      n := if c < m then m else c + 1;
    }
  }

  lemma StepKeeps(env: Env, s: Sys, a: Action)
    requires Inv(env, s)
    ensures Inv(env, Step(env, s, a))
  {
    hide Inv;
    match a
    case Tick(seconds) => TickKeeps(env, s, seconds);
    case Lapse(id) => LapseKeeps(env, s, id);
    case Restart(authenticated) => RestartKeeps(env, s, authenticated);
    case Drop(call) => DropKeeps(env, s, call);
    case CreateDraft(caller, id, controller, description, _) =>
      CreateKeeps(env, s, caller, id, controller, description);
    case BeginStage(call, caller, id, controller) => BeginStageKeeps(env, s, call, caller, id, controller);
    case BuildPlan(call, plan, pre) => BuildPlanKeeps(env, s, call, plan, pre);
    case TakeLock(call) => TakeLockKeeps(env, s, call);
    case Insert(call) => InsertKeeps(env, s, call);
    case Propose(call) => ProposeKeeps(env, s, call);
    case BeginApprove(call, caller, id, controller, expected) =>
      BeginApproveKeeps(env, s, call, caller, id, controller, expected);
    case Approve(call) => ApproveKeeps(env, s, call);
    case Claim(call, caller, id, controller) => ClaimKeeps(env, s, call, caller, id, controller);
    case CheckDeadline(call) => CheckDeadlineKeeps(env, s, call);
    case Start(call, ready) => StartKeeps(env, s, call, ready);
    case Finish(call, outcome) => FinishKeeps(env, s, call, outcome);
    case Settle(call, written) => SettleKeeps(env, s, call, written);
  }

  lemma TickKeeps(env: Env, s: Sys, seconds: nat)
    requires Inv(env, s)
    ensures Inv(env, s.(now := s.now + seconds))
  {
    SameButDrafts(env, s, s.(now := s.now + seconds));
  }

  lemma {:induction false} RunKeeps(env: Env, s: Sys, actions: seq<Action>)
    requires Inv(env, s)
    ensures Inv(env, Exec(env, s, actions))
    decreases |actions|
  {
    hide Inv;
    if actions != [] {
      StepKeeps(env, s, actions[0]);
      RunKeeps(env, Step(env, s, actions[0]), actions[1..]);
    }
  }

  /** Every state any interleaving of any callers can reach satisfies the invariant. */
  lemma ReachableInv(env: Env, authenticated: bool, actions: seq<Action>)
    ensures Inv(env, Exec(env, Boot(authenticated), actions))
  {
    RunKeeps(env, Boot(authenticated), actions);
  }
}
