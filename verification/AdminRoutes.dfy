/**
 The admin handlers on actions, approvals and dead letters as they run when nobody interferes,
 each a read followed by one transaction. The `IsARun` lemmas tie them to the transition system,
 so what holds in every run of `Lifecycle` holds after every call.
 */
module AdminRoutes {
  import opened Domain
  import opened ActionRows
  import opened Lifecycle
  import ApprovalGate

  datatype Reply = Done | NotFound | Forbidden | Conflict

  // ----- what one call does to the rows -----

  predicate Overdue(a: Approval, now: int) {
    a.expiresAt.Some? && a.expiresAt.value <= now
  }

  /** The checks that approve and reject share, in the handlers' order. */
  function Objection(rows: Rows, actor: Actor): Option<Reply> {
    if !CanRoleAccess(actor.role, Manager) then Some(Forbidden)
    else if rows.approval.None? || rows.approval.value.tenantId != actor.tenant then Some(NotFound)
    else if !CanRoleAccess(actor.role, rows.approval.value.minApproverRole) then Some(Forbidden)
    else if !rows.approval.value.status.AwaitingDecision? then Some(Conflict)
    else None
  }

  predicate IsSelfApproval(a: Approval, actor: Actor) {
    !a.selfApprovalAllowed && a.requestedById == Some(actor.user)
  }

  /** An overdue approval is expired on the spot, and the caller gets a conflict. */
  function ApproveRows(rows: Rows, actor: Actor, now: int): (Rows, Reply) {
    var objection := Objection(rows, actor);
    if objection.Some? then (rows, objection.value)
    else if Overdue(rows.approval.value, now) then (ExpireTransaction(rows), Conflict)
    else if IsSelfApproval(rows.approval.value, actor) then (rows, Forbidden)
    else (ApproveTransaction(rows), Done)
  }

  function RejectRows(rows: Rows, actor: Actor): (Rows, Reply) {
    var objection := Objection(rows, actor);
    if objection.Some? then (rows, objection.value) else (RejectTransaction(rows), Done)
  }

  function RetryRows(rows: Rows, actor: Actor, request: string, limit: nat): (Rows, Reply) {
    if !CanRoleAccess(actor.role, Admin) then (rows, Forbidden)
    else if rows.action.plan.tenantId != actor.tenant then (rows, NotFound)
    else if rows.action.status !in {Failed, Pending, DeadLetter} then (rows, Conflict)
    else (RetryTransaction(rows, limit, rows.action.status.DeadLetter?, request), Done)
  }

  function ReprocessRows(rows: Rows, actor: Actor, limit: nat): (Rows, Reply) {
    if !CanRoleAccess(actor.role, Admin) then (rows, Forbidden)
    else if rows.action.plan.tenantId != actor.tenant || rows.deadLetter.None? then (rows, NotFound)
    else if rows.deadLetter.value.Reprocessed? then (rows, Conflict)
    else (ReprocessTransaction(rows, limit), Done)
  }

  /** An approval that the clean-up picks. */
  predicate Due(rows: Rows, tenant: string, now: int) {
    && rows.approval.Some? && rows.approval.value.tenantId == tenant
    && rows.approval.value.status.AwaitingDecision? && Overdue(rows.approval.value, now)
  }

  function ExpireDue(actions: map<string, Rows>, tenant: string, now: int): map<string, Rows> {
    map id | id in actions :: if Due(actions[id], tenant, now) then ExpireTransaction(actions[id]) else actions[id]
  }

  // ----- what each handler promises -----

  /** A manager or above of the approval's tenant, with the role it demands. */
  predicate InCharge(r: Rows, actor: Actor) {
    && AtLeast(actor.role, Manager)
    && r.approval.Some? && r.approval.value.tenantId == actor.tenant
    && AtLeast(actor.role, r.approval.value.minApproverRole)
  }

  predicate Unknown(r: Rows, actor: Actor) {
    AtLeast(actor.role, Manager) && (r.approval.None? || r.approval.value.tenantId != actor.tenant)
  }

  predicate Past(expiresAt: Option<int>, now: int) {
    match expiresAt
    case None => false
    case Some(t) => t <= now
  }

  /** The approval reads this verdict, and the action that, and an outbox row is there if it was asked for. */
  predicate Decided(r: Rows, s: Rows, verdict: ApprovalStatus, action: Action, reason: Option<Reason>)
    requires r.approval.Some?
  {
    && s == r.(approval := s.approval, action := action, outbox := s.outbox)
    && s.approval == Some(r.approval.value.(status := verdict))
    && match reason
       case None => s.outbox == r.outbox
       case Some(k) => Ensured(r.outbox, s.outbox, k)
  }

  /** A row with this key is in the outbox: the one that was there, or a new one. */
  predicate Ensured(before: map<Reason, OutboxStatus>, after: map<Reason, OutboxStatus>, k: Reason) {
    && k in after && after == before[k := after[k]]
    && after[k] == (if k in before then before[k] else Unsent)
  }

  /**
   An approve: `Done` exactly for somebody in charge, other than the requester unless that is allowed, while
   the approval awaits a decision and is not overdue. Then it reads `Approved` and the action is pending, past
   the gate and enqueued. An overdue one expires, with its action canceled. Else nothing changes.
   */
  predicate Approves(r: Rows, s: Rows, actor: Actor, now: int, reply: Reply) {
    var pending := InCharge(r, actor) && r.approval.value.status == AwaitingDecision;
    var overdue := pending && Past(r.approval.value.expiresAt, now);
    && (reply == Done <==>
          && pending && !overdue
          && (r.approval.value.selfApprovalAllowed || r.approval.value.requestedById != Some(actor.user)))
    && (reply == NotFound <==> Unknown(r, actor))
    && (reply == Conflict <==> InCharge(r, actor) && (!pending || overdue))
    && (reply == Done ==>
          Decided(r, s, Approved, r.action.(status := Pending, requiresApproval := false), Some(ApprovalApproved)))
    && (overdue ==> Decided(r, s, Expired, r.action.(status := Canceled), None))
    && (reply != Done && !overdue ==> s == r)
  }

  /** A reject: the same people may, the requester too, overdue or not; it reads `Refused` and cancels the action. */
  predicate Rejects(r: Rows, s: Rows, actor: Actor, reply: Reply) {
    && (reply == Done <==> InCharge(r, actor) && r.approval.value.status == AwaitingDecision)
    && (reply == NotFound <==> Unknown(r, actor))
    && (reply == Conflict <==> InCharge(r, actor) && r.approval.value.status != AwaitingDecision)
    && (reply == Done ==> Decided(r, s, Refused, r.action.(status := Canceled), None))
    && (reply != Done ==> s == r)
  }

  /** What the clean-up does to one action. */
  predicate CleansUp(r: Rows, s: Rows, tenant: string, now: int) {
    if r.approval.Some? && r.approval.value.tenantId == tenant && r.approval.value.status == AwaitingDecision
       && Past(r.approval.value.expiresAt, now)
    then Decided(r, s, Expired, r.action.(status := Canceled), None)
    else s == r
  }

  /** Pending again, unlocked, with the configured limit and this count, and an outbox row for it. */
  predicate Requeued(r: Rows, s: Rows, limit: nat, count: nat, reason: Reason) {
    var x := r.action;
    && s.action == Action(x.plan, Pending, x.requiresApproval, count, limit, None, None, None)
    && Ensured(r.outbox, s.outbox, reason)
    && s == r.(action := s.action, outbox := s.outbox, deadLetter := s.deadLetter)
  }

  predicate Retries(r: Rows, s: Rows, actor: Actor, request: string, limit: nat, reply: Reply) {
    var x := r.action;
    var ours := AtLeast(actor.role, Admin) && x.plan.tenantId == actor.tenant;
    && (reply == Done <==> ours && x.status in {Failed, Pending, DeadLetter})
    && (reply == NotFound <==> AtLeast(actor.role, Admin) && !ours)
    && (reply == Conflict <==> ours && x.status !in {Failed, Pending, DeadLetter})
    && (if reply == Done
        then && Requeued(r, s, limit, if x.status == DeadLetter then 0 else x.attemptCount, ManualRetry(request))
             && s.deadLetter == r.deadLetter
        else s == r)
  }

  predicate Reprocesses(r: Rows, s: Rows, actor: Actor, limit: nat, reply: Reply) {
    var ours := AtLeast(actor.role, Admin) && r.action.plan.tenantId == actor.tenant;
    && (reply == Done <==> ours && r.deadLetter == Some(Open))
    && (reply == NotFound <==> AtLeast(actor.role, Admin) && (!ours || r.deadLetter == None))
    && (reply == Conflict <==> ours && r.deadLetter == Some(Reprocessed))
    && (if reply == Done
        then Requeued(r, s, limit, 0, DeadLetterReprocess) && s.deadLetter == Some(Reprocessed)
        else s == r)
  }

  lemma ExpiresWhatIsDue(actions: map<string, Rows>, tenant: string, now: int)
    ensures forall id | id in actions ::
              && CleansUp(actions[id], ExpireDue(actions, tenant, now)[id], tenant, now)
              && (Due(actions[id], tenant, now) ==> actions[id].approval.Some?)
              && !Due(ExpireDue(actions, tenant, now)[id], tenant, now)
  {
  }

  // ----- the calls themselves -----

  class Desk {
    var actions: map<string, Rows>
    const limit: nat

    constructor (limit: nat)
      ensures actions == map[] && this.limit == limit
    {
      actions := map[];
      this.limit := limit;
    }

    method Approve(id: string, actor: Actor, now: int) returns (reply: Reply)
      modifies this
      ensures id !in old(actions) ==>
                actions == old(actions) && reply == (if CanRoleAccess(actor.role, Manager) then NotFound else Forbidden)
      ensures id in old(actions) ==>
                var (r, s) := ApproveRows(old(actions)[id], actor, now);
                reply == s && actions == old(actions)[id := r]
      ensures id in old(actions) ==> Approves(old(actions)[id], actions[id], actor, now, reply)
    {
      if id !in actions { return if CanRoleAccess(actor.role, Manager) then NotFound else Forbidden; }
      var objection := Objection(actions[id], actor);
      if objection.Some? { return objection.value; }
      var approval := actions[id].approval.value;
      if Overdue(approval, now) {
        Expire(id);
        return Conflict;
      }
      if IsSelfApproval(approval, actor) { return Forbidden; }
      var rows := actions[id].(approval := Some(approval.(status := Approved)));
      rows := rows.(action := rows.action.(status := Pending, requiresApproval := false));
      actions := actions[id := CreateOutboxEvent(rows, ApprovalApproved)];
      return Done;
    }

    method Reject(id: string, actor: Actor) returns (reply: Reply)
      modifies this
      ensures id !in old(actions) ==>
                actions == old(actions) && reply == (if CanRoleAccess(actor.role, Manager) then NotFound else Forbidden)
      ensures id in old(actions) ==>
                var (r, s) := RejectRows(old(actions)[id], actor);
                reply == s && actions == old(actions)[id := r]
      ensures id in old(actions) ==> Rejects(old(actions)[id], actions[id], actor, reply)
    {
      if id !in actions { return if CanRoleAccess(actor.role, Manager) then NotFound else Forbidden; }
      var objection := Objection(actions[id], actor);
      if objection.Some? { return objection.value; }
      var rows := actions[id].(approval := Some(actions[id].approval.value.(status := Refused)));
      actions := actions[id := rows.(action := rows.action.(status := Canceled))];
      return Done;
    }

    /** The two expiry writes, whatever the approval's status. */
    method Expire(id: string)
      requires id in actions && actions[id].approval.Some?
      modifies this
      ensures actions == old(actions)[id := ExpireTransaction(old(actions)[id])]
    {
      var rows := actions[id].(approval := Some(actions[id].approval.value.(status := Expired)));
      actions := actions[id := rows.(action := rows.action.(status := Canceled))];
    }

    /** The clean-up: read the overdue approvals, then expire them one transaction at a time. */
    method ExpirePending(actor: Actor, now: int) returns (expired: nat)
      modifies this
      ensures !CanRoleAccess(actor.role, Admin) ==> actions == old(actions) && expired == 0
      ensures CanRoleAccess(actor.role, Admin) ==>
                && actions == ExpireDue(old(actions), actor.tenant, now)
                && expired == |set id | id in old(actions) && Due(old(actions)[id], actor.tenant, now)|
                && forall id | id in actions :: !Due(actions[id], actor.tenant, now)
      ensures AtLeast(actor.role, Admin) ==>
                && actions.Keys == old(actions).Keys
                && forall id | id in actions :: CleansUp(old(actions)[id], actions[id], actor.tenant, now)
    {
      hide CleansUp, Due, ExpireTransaction, RoleRank;
      RolesInOrder(actor.role, Admin);
      ExpiresWhatIsDue(actions, actor.tenant, now);
      if !CanRoleAccess(actor.role, Admin) { return 0; }
      ghost var before := actions;
      var due := set id | id in actions && Due(actions[id], actor.tenant, now);
      var todo := due;
      while todo != {}
        invariant todo <= due && actions.Keys == before.Keys
        invariant forall id | id in before ::
                    actions[id] == if id in due && id !in todo then ExpireTransaction(before[id]) else before[id]
        decreases |todo|
      {
        var id :| id in todo;
        Expire(id);
        todo := todo - {id};
      }
      return |due|;
    }

    method Retry(id: string, actor: Actor, request: string) returns (reply: Reply)
      modifies this
      ensures id !in old(actions) ==>
                actions == old(actions) && reply == (if CanRoleAccess(actor.role, Admin) then NotFound else Forbidden)
      ensures id in old(actions) ==>
                var (r, s) := RetryRows(old(actions)[id], actor, request, limit);
                reply == s && actions == old(actions)[id := r]
      ensures id in old(actions) ==> Retries(old(actions)[id], actions[id], actor, request, limit, reply)
    {
      if !CanRoleAccess(actor.role, Admin) { return Forbidden; }
      if id !in actions { return NotFound; }
      var action := actions[id].action;
      if action.plan.tenantId != actor.tenant { return NotFound; }
      if action.status !in {Failed, Pending, DeadLetter} { return Conflict; }
      var count := if action.status.DeadLetter? then 0 else action.attemptCount;
      var row := Unlocked(action).(status := Pending, maxAttempts := limit, attemptCount := count);
      actions := actions[id := CreateOutboxEvent(actions[id].(action := row), ManualRetry(request))];
      return Done;
    }

    method Reprocess(id: string, actor: Actor) returns (reply: Reply)
      modifies this
      ensures id !in old(actions) ==>
                actions == old(actions) && reply == (if CanRoleAccess(actor.role, Admin) then NotFound else Forbidden)
      ensures id in old(actions) ==>
                var (r, s) := ReprocessRows(old(actions)[id], actor, limit);
                reply == s && actions == old(actions)[id := r]
      ensures id in old(actions) ==> Reprocesses(old(actions)[id], actions[id], actor, limit, reply)
    {
      if !CanRoleAccess(actor.role, Admin) { return Forbidden; }
      if id !in actions { return NotFound; }
      var action := actions[id].action;
      if action.plan.tenantId != actor.tenant || actions[id].deadLetter.None? { return NotFound; }
      if actions[id].deadLetter.value.Reprocessed? { return Conflict; }
      var row := Unlocked(action).(status := Pending, maxAttempts := limit, attemptCount := 0);
      var rows := CreateOutboxEvent(actions[id].(action := row), DeadLetterReprocess);
      actions := actions[id := rows.(deadLetter := Some(Reprocessed))];
      return Done;
    }
  }

  // ----- the handlers are runs of the transition system -----

  /** A read and its commit, back to back. */
  lemma AskThenCommit(c: Case, e: Event, now: int)
    requires IsRead(e) && e.request !in c.requests
    ensures var q, d := ReadRequest(c, e), RunAll(c, [e, Commit(e.request, now)]);
            if q.None? then d == c
            else d == CommitStep(c.(requests := c.requests[e.request := q.value]), e.request, q.value, now)
  {
    hide RunAll, ReadRequest, CommitStep;
    RunTwo(c, e, Commit(e.request, now));
    assert Step(c, e) == RequestStep(c, e);
  }

  lemma ApproveIsARun(c: Case, request: string, actor: Actor, now: int)
    requires request !in c.requests
    ensures RunAll(c, [ReadToApprove(request, actor, now), Commit(request, now)]).rows
         == ApproveRows(c.rows, actor, now).0
  {
    hide RunAll;
    AskThenCommit(c, ReadToApprove(request, actor, now), now);
  }

  lemma RejectIsARun(c: Case, request: string, actor: Actor, now: int)
    requires request !in c.requests
    ensures RunAll(c, [ReadToReject(request, actor), Commit(request, now)]).rows == RejectRows(c.rows, actor).0
  {
    hide RunAll;
    AskThenCommit(c, ReadToReject(request, actor), now);
  }

  lemma RetryIsARun(c: Case, request: string, actor: Actor, now: int)
    requires request !in c.requests
    ensures RunAll(c, [ReadToRetry(request, actor), Commit(request, now)]).rows
         == RetryRows(c.rows, actor, request, c.limit).0
  {
    hide RunAll;
    AskThenCommit(c, ReadToRetry(request, actor), now);
  }

  lemma ReprocessIsARun(c: Case, request: string, actor: Actor, now: int)
    requires request !in c.requests
    ensures RunAll(c, [ReadToReprocess(request, actor), Commit(request, now)]).rows
         == ReprocessRows(c.rows, actor, c.limit).0
  {
    hide RunAll;
    AskThenCommit(c, ReadToReprocess(request, actor), now);
  }

  /** One action's share of the clean-up, given that its approval is in its own tenant. */
  lemma ExpireIsARun(c: Case, request: string, actor: Actor, now: int)
    requires request !in c.requests && CanRoleAccess(actor.role, Admin)
    requires c.rows.approval.Some? ==> c.rows.approval.value.tenantId == c.rows.action.plan.tenantId
    ensures RunAll(c, [ReadToExpire(request, actor, now), Commit(request, now)]).rows
         == if Due(c.rows, actor.tenant, now) then ExpireTransaction(c.rows) else c.rows
  {
    hide RunAll;
    AskThenCommit(c, ReadToExpire(request, actor, now), now);
  }

  // ----- decisions are final -----

  /**
   Decisions are final in every continuation: once an approval is decided or expired, then after any
   interleaving of workers, stale requests and unguarded expiries, no approve or reject is accepted or
   changes anything, and no stale one commits a decision.
   */
  lemma DecisionsAreFinal(c: Case, es: seq<Event>, actor: Actor, now: int)
    requires c.rows.approval.Some? && !Undecided(c)
    ensures var d := RunAll(c, es);
            && d.ledger.decisions == c.ledger.decisions
            && ApproveRows(d.rows, actor, now).0 == d.rows && !ApproveRows(d.rows, actor, now).1.Done?
            && RejectRows(d.rows, actor).0 == d.rows && !RejectRows(d.rows, actor).1.Done?
  {
    hide RunAll;
    ApprovalGate.DecisionsStand(c, es);
  }
}
