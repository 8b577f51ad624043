/** The approval gate, over every run of `Lifecycle`. */
module ApprovalGate {
  import opened Domain
  import opened ActionRows
  import opened Lifecycle

  predicate Released(c: Case) {
    !c.rows.action.requiresApproval && !c.rows.action.plan.risk.Critical?
  }

  /** No worker has ever had the action in hand, and nothing asks for one. */
  ghost predicate Untouched(c: Case) {
    && c.rows.attempts == map[] && c.rows.effects == map[] && c.rows.outbox == map[]
    && c.rows.deadLetter == None && c.runs == map[] && c.ledger.total == 0
  }

  /** An approver other than the requester, in the action's tenant, with the role its risk demands. */
  predicate MayApprove(actor: Actor, p: Planned) {
    && CanRoleAccess(actor.role, MinApproverRole(p.risk))
    && actor.tenant == p.tenantId
    && p.createdById != Some(actor.user)
  }

  predicate ApprovedOnce(c: Case) {
    && |c.ledger.decisions| == 1
    && c.ledger.decisions[0].approved
    && MayApprove(c.ledger.decisions[0].actor, c.rows.action.plan)
  }

  predicate NeedsApproval(c: Case) {
    EvaluatePolicy(c.rows.action.plan.risk, c.ledger.auto).RequireApproval?
  }

  predicate ApprovalInv(c: Case) {
    var x, l := c.rows.action, c.ledger;
    if NeedsApproval(c) then
      && c.rows.approval.Some?
      && var a := c.rows.approval.value;
      && a.minApproverRole == MinApproverRole(x.plan.risk) && !a.selfApprovalAllowed
      && a.requestedById == x.plan.createdById && a.tenantId == x.plan.tenantId
      && (a.status.AwaitingDecision? <==> x.status.WaitingApproval?)
      && (a.status.AwaitingDecision? ==> x.requiresApproval && l.decisions == [] && !l.refused)
      && (x.requiresApproval && !a.status.AwaitingDecision? ==>
            x.status.Canceled? && l.refused && |l.decisions| <= 1 && forall d | d in l.decisions :: !d.approved)
      && (!x.requiresApproval ==> ApprovedOnce(c) && !l.refused)
    else
      && c.rows.approval.None? && !x.requiresApproval && !x.status.WaitingApproval?
      && l.decisions == [] && !l.refused
      && (x.plan.risk.Critical? ==> x.status.Skipped?)
  }

  predicate RequestOk(c: Case, q: Request) {
    match q
    case Approving(actor) => NeedsApproval(c) && MayApprove(actor, c.rows.action.plan)
    case Retrying(_) => Released(c)
    case Reprocessing => Released(c)
    case _ => c.rows.approval.Some?
  }

  ghost predicate RequestInv(c: Case) {
    forall id | id in c.requests :: RequestOk(c, c.requests[id])
  }

  ghost predicate GateInv(c: Case) {
    && ApprovalInv(c)
    && RequestInv(c)
    && (!Released(c) ==> Untouched(c))
  }

  ghost predicate GateKept(c: Case, d: Case) {
    && GateInv(d)
    && (Released(c) ==> Released(d))
    && (c.ledger.refused ==> d.ledger.refused)
    && c.rows.action.plan == d.rows.action.plan && c.ledger.auto == d.ledger.auto
  }

  lemma RunKeepsGate(c: Case, id: string, e: Event)
    requires GateInv(c) && id in c.runs && Enabled(c.runs[id], e)
    ensures GateKept(c, RunStep(c, id, e))
  {
    RunFrame(c, id, e);
  }

  /** A request that passes its handler's checks is one that may commit. */
  lemma ReadIsSound(c: Case, e: Event)
    requires GateInv(c)
    ensures var q := ReadRequest(c, e); q.Some? ==> RequestOk(c, q.value)
  {
  }

  lemma ReadKeepsGate(c: Case, e: Event)
    requires IsRead(e)
    requires GateInv(c)
    ensures GateKept(c, Step(c, e))
  {
    ReadIsSound(c, e);
    var q := ReadRequest(c, e);
    assert Step(c, e) == if e.request in c.requests || q.None? then c
        else c.(requests := c.requests[e.request := q.value]);
  }

  lemma ApproveKeepsGate(c: Case, id: string, now: int)
    requires GateInv(c) && id in c.requests && c.requests[id].Approving?
    ensures GateKept(c, CommitStep(c, id, c.requests[id], now))
  {
    var d := CommitStep(c, id, c.requests[id], now);
    if Undecided(c) {
      assert d.ledger.decisions == [Decision(c.requests[id].actor, true)];
    }
  }

  lemma RefusalKeepsGate(c: Case, id: string, now: int)
    requires GateInv(c) && id in c.requests && (c.requests[id].Rejecting? || c.requests[id].Expiring?)
    ensures GateKept(c, CommitStep(c, id, c.requests[id], now))
  {
  }

  lemma RequeueKeepsGate(c: Case, id: string, now: int)
    requires GateInv(c) && id in c.requests
    requires c.requests[id].Retrying? || c.requests[id].Reprocessing? || c.requests[id].Ensuring?
    ensures GateKept(c, CommitStep(c, id, c.requests[id], now))
  {
  }

  lemma CommitKeepsGate(c: Case, id: string, now: int)
    requires GateInv(c) && id in c.requests
    ensures GateKept(c, CommitStep(c, id, c.requests[id], now))
  {
    match c.requests[id]
    case Approving(_) => ApproveKeepsGate(c, id, now);
    case Rejecting(_) => RefusalKeepsGate(c, id, now);
    case Expiring => RefusalKeepsGate(c, id, now);
    case _ => RequeueKeepsGate(c, id, now);
  }

  lemma PlainKeepsGate(c: Case, e: Event)
    requires e.Replan? || e.ReadToClaim? || e.Heartbeat? || e.MoveOutbox?
    requires GateInv(c)
    ensures GateKept(c, Step(c, e))
  {
    if e.Replan? { ReplanKeepsGate(c, e.now); }
  }

  /** A replanned action keeps its row, and its approval if it has one. */
  lemma ReplanKeepsGate(c: Case, now: int)
    requires GateInv(c)
    ensures GateKept(c, Step(c, Replan(now)))
  {
  }

  lemma CommitEventKeepsGate(c: Case, e: Event)
    requires GateInv(c) && e.Commit?
    ensures GateKept(c, Step(c, e))
  {
    if e.request in c.requests { CommitKeepsGate(c, e.request, e.now); }
  }

  lemma WorkerEventKeepsGate(c: Case, e: Event)
    requires GateInv(c) && !e.Commit? && !Plain(e)
    ensures GateKept(c, Step(c, e))
  {
    if e.run in c.runs && Enabled(c.runs[e.run], e) { RunKeepsGate(c, e.run, e); }
  }

  lemma StepKeepsGate(c: Case, e: Event)
    requires GateInv(c)
    ensures GateKept(c, Step(c, e))
  {
    if e.Commit? {
      CommitEventKeepsGate(c, e);
    } else if !Plain(e) {
      WorkerEventKeepsGate(c, e);
    } else if e.Replan? || e.ReadToClaim? || e.Heartbeat? || e.MoveOutbox? {
      PlainKeepsGate(c, e);
    } else {
      ReadKeepsGate(c, e);
    }
  }

  lemma NewCaseGate(p: Planned, auto: bool, limit: nat, now: int)
    ensures GateInv(NewCase(p, auto, limit, now))
    ensures Newborn(NewCase(p, auto, limit, now).rows, p, auto, limit, now)
  {
  }

  lemma {:induction false} RunKeepsGateThroughout(c: Case, es: seq<Event>)
    requires GateInv(c)
    ensures GateKept(c, RunAll(c, es))
    decreases |es|
  {
    if es != [] {
      StepKeepsGate(c, es[0]);
      RunKeepsGateThroughout(Step(c, es[0]), es[1..]);
    }
  }

  // ----- what every run satisfies -----

  /** The risks that wait for an approval in a tenant with this setting. */
  predicate Waits(risk: Risk, auto: bool) {
    risk == High || (risk == Medium && !auto)
  }

  /** The roles that may approve an action of this risk. */
  function Approvers(risk: Risk): set<Role>
    requires risk in {Medium, High}
  {
    if risk == High then {Role.Admin, Owner} else {Manager, Role.Admin, Owner}
  }

  /** Some worker or some outbox row has had the action in hand. */
  predicate Touched(c: Case) {
    c.ledger.total > 0 || c.rows.attempts != map[] || c.rows.effects != map[] || c.rows.outbox != map[]
  }

  /**
   An action that was ever claimed, attempted, executed or enqueued is one of low risk, one of medium risk
   in a tenant that lets these run, or one that exactly one person approved: in its tenant, other than its
   requester, and a manager or above for medium risk, an admin or the owner for high risk. A critical
   action is never touched, and neither is one whose approval was refused or ran out.
   */
  lemma NothingRunsUnapproved(p: Planned, auto: bool, limit: nat, now: int, es: seq<Event>)
    ensures var c := RunAll(NewCase(p, auto, limit, now), es);
            && (Touched(c) ==>
                  || p.risk == Low
                  || (p.risk == Medium && auto)
                  || (&& Waits(p.risk, auto) && |c.ledger.decisions| == 1 && c.ledger.decisions[0].approved
                      && var approver := c.ledger.decisions[0].actor;
                      && approver.role in Approvers(p.risk)
                      && approver.tenant == p.tenantId && Some(approver.user) != p.createdById))
            && (p.risk == Critical || c.ledger.refused ==> Untouched(c))
            && c.rows.action.plan == p
  {
    NewCaseGate(p, auto, limit, now);
    RunKeepsGateThroughout(NewCase(p, auto, limit, now), es);
  }

  /**
   An approval exists exactly for the actions that wait for one, it awaits a decision
   exactly while its action waits, and at most one approve or reject ever commits on it.
   */
  lemma ApprovalsStayInStep(p: Planned, auto: bool, limit: nat, now: int, es: seq<Event>)
    ensures var c := RunAll(NewCase(p, auto, limit, now), es);
            && (c.rows.approval.Some? <==> Waits(p.risk, auto))
            && (c.rows.action.status.WaitingApproval? <==> Undecided(c))
            && |c.ledger.decisions| <= 1
            && (Undecided(c) ==> c.ledger.decisions == [])
            && (c.ledger.decisions != [] && !c.ledger.decisions[0].approved ==> c.rows.action.status.Canceled?)
  {
    NewCaseGate(p, auto, limit, now);
    RunKeepsGateThroughout(NewCase(p, auto, limit, now), es);
  }

  // ----- the ledger's decisions are decisions that somebody asked for -----

  /** Among these events is the handler's read for this decision. */
  ghost predicate WasAsked(es: seq<Event>, d: Decision) {
    exists i | 0 <= i < |es| ::
      if d.approved then es[i].ReadToApprove? && es[i].actor == d.actor
      else es[i].ReadToReject? && es[i].actor == d.actor
  }

  ghost predicate AskedInv(c: Case, es: seq<Event>) {
    && (forall d | d in c.ledger.decisions :: WasAsked(es, d))
    && (forall q | q in c.requests && c.requests[q].Approving? :: WasAsked(es, Decision(c.requests[q].actor, true)))
    && (forall q | q in c.requests && c.requests[q].Rejecting? :: WasAsked(es, Decision(c.requests[q].actor, false)))
  }

  lemma AskedStays(es: seq<Event>, e: Event, d: Decision)
    requires WasAsked(es, d)
    ensures WasAsked(es + [e], d)
  {
    var i :| 0 <= i < |es| && (if d.approved then es[i].ReadToApprove? && es[i].actor == d.actor
                               else es[i].ReadToReject? && es[i].actor == d.actor);
    assert (es + [e])[i] == es[i];
  }

  lemma StepKeepsAsked(c: Case, es: seq<Event>, e: Event)
    requires AskedInv(c, es)
    ensures AskedInv(Step(c, e), es + [e])
  {
    hide RunStep, ApproveTransaction, RejectTransaction, ExpireTransaction, RetryTransaction, ReprocessTransaction;
    hide EnsureApproval, Decidable, WasAsked;
    forall d: Decision | WasAsked(es, d) ensures WasAsked(es + [e], d) {
      AskedStays(es, e, d);
    }
    if IsRead(e) {
      ReadIsAsked(c, es, e);
    } else if !Plain(e) && !e.Commit? && e.run in c.runs && Enabled(c.runs[e.run], e) {
      RunFrame(c, e.run, e);
    }
  }

  lemma ReadIsAsked(c: Case, es: seq<Event>, e: Event)
    requires IsRead(e)
    ensures var q := ReadRequest(c, e);
            && (q.Some? && q.value.Approving? ==> WasAsked(es + [e], Decision(q.value.actor, true)))
            && (q.Some? && q.value.Rejecting? ==> WasAsked(es + [e], Decision(q.value.actor, false)))
  {
    assert (es + [e])[|es|] == e;
  }

  /**
   The ledger invents nothing: each decision in it belongs to a read of that very run, by that very actor,
   an approval to one of the approve route and a refusal to one of the reject route.
   */
  lemma DecisionsWereAsked(p: Planned, auto: bool, limit: nat, now: int, es: seq<Event>)
    ensures forall d | d in RunAll(NewCase(p, auto, limit, now), es).ledger.decisions :: WasAsked(es, d)
  {
    AskedThroughout(p, auto, limit, now, es, |es|);
    assert es[..|es|] == es;
  }

  lemma {:induction false} AskedThroughout(p: Planned, auto: bool, limit: nat, now: int, es: seq<Event>, n: nat)
    requires n <= |es|
    ensures AskedInv(RunAll(NewCase(p, auto, limit, now), es[..n]), es[..n])
  {
    hide Step, NewCase, AskedInv;
    if n == 0 {
      NothingAsked(p, auto, limit, now);
    } else {
      assert es[..n] == es[..n - 1] + [es[n - 1]];
      AskedThroughout(p, auto, limit, now, es, n - 1);
      RunAllThen(NewCase(p, auto, limit, now), es[..n - 1], es[n - 1]);
      StepKeepsAsked(RunAll(NewCase(p, auto, limit, now), es[..n - 1]), es[..n - 1], es[n - 1]);
    }
  }

  lemma NothingAsked(p: Planned, auto: bool, limit: nat, now: int)
    ensures AskedInv(NewCase(p, auto, limit, now), [])
  {
  }

  // ----- what an approval still says once its action has been released -----

  predicate Reads(c: Case, status: ApprovalStatus) {
    c.rows.approval.Some? && c.rows.approval.value.status == status
  }

  /** The guard that the expiry writes lack: the approval is still awaiting its decision. */
  predicate GuardedExpiry(c: Case, e: Event) {
    e.Commit? && e.request in c.requests && c.requests[e.request].Expiring? ==> Undecided(c)
  }

  ghost predicate AlwaysGuarded(c: Case, es: seq<Event>)
    decreases |es|
  {
    es == [] || (GuardedExpiry(c, es[0]) && AlwaysGuarded(Step(c, es[0]), es[1..]))
  }

  /** Once decided, an approval changes only to `Expired`, and only by an expiry without the guard. */
  ghost predicate Stands(c: Case, d: Case) {
    && c.rows.approval.Some? && d.rows.approval.Some? && !Undecided(d)
    && d.ledger.decisions == c.ledger.decisions && d.ledger.refused == c.ledger.refused
    && (d.rows.approval.value.status == c.rows.approval.value.status || Reads(d, Expired))
  }

  lemma CommitStands(c: Case, id: string, now: int)
    requires id in c.requests && c.rows.approval.Some? && !Undecided(c)
    ensures var d := CommitStep(c, id, c.requests[id], now);
            && Stands(c, d) && (Reads(d, Expired) <==> Reads(c, Expired) || c.requests[id].Expiring?)
  {
  }

  lemma PlainStands(c: Case, e: Event)
    requires Plain(e) && c.rows.approval.Some?
    ensures Step(c, e).rows.approval == c.rows.approval && Step(c, e).ledger == c.ledger
  {
    PlainFrame(c, e);
  }

  lemma StepStands(c: Case, e: Event)
    requires c.rows.approval.Some? && !Undecided(c)
    ensures var d := Step(c, e);
            && Stands(c, d)
            && (Reads(d, Expired) <==> Reads(c, Expired) || !GuardedExpiry(c, e))
  {
    hide CommitStep, RunStep, PlainStep;
    if Plain(e) {
      PlainStands(c, e);
    } else if e.Commit? {
      if e.request in c.requests { CommitStands(c, e.request, e.now); }
    } else if e.run in c.runs && Enabled(c.runs[e.run], e) {
      RunFrame(c, e.run, e);
    }
  }

  /**
   Decisions stand, in every continuation and whatever interleaves: once an approval is decided or
   expired, no approve or reject ever commits again, and it still reads what it read if and only if
   it had already expired or every later expiry looked at its status.
   */
  lemma {:induction false} DecisionsStand(c: Case, es: seq<Event>)
    requires c.rows.approval.Some? && !Undecided(c)
    ensures var d := RunAll(c, es);
            && Stands(c, d)
            && (d.rows.approval.value.status == c.rows.approval.value.status <==>
                Reads(c, Expired) || AlwaysGuarded(c, es))
    decreases |es|
  {
    hide Step, GuardedExpiry;
    if es != [] {
      StepStands(c, es[0]);
      DecisionsStand(Step(c, es[0]), es[1..]);
    }
  }

  /** A step keeps a released action's approval reading `Approved` exactly if it is no unguarded expiry. */
  lemma ApprovedSurvivesExactly(c: Case, e: Event)
    requires GateInv(c) && NeedsApproval(c) && Released(c) && Reads(c, Approved)
    ensures Reads(Step(c, e), Approved) <==> GuardedExpiry(c, e)
  {
    StepStands(c, e);
  }

  /** What is decided and what the approval reads. */
  predicate VerdictInv(c: Case) {
    && c.rows.approval.Some?
    && var status, ds := c.rows.approval.value.status, c.ledger.decisions;
    && (status == AwaitingDecision <==> ds == [] && !c.ledger.refused)
    && (ds != [] && ds[0].approved ==> status in {Approved, Expired})
    && (ds != [] && !ds[0].approved ==> status in {Refused, Expired})
    && (ds == [] && c.ledger.refused ==> status == Expired)
  }

  /** The approval reads the first decision. */
  predicate ReadsVerdict(c: Case) {
    c.ledger.decisions != [] ==> Reads(c, if c.ledger.decisions[0].approved then Approved else Refused)
  }

  /** The step that decides an approval writes the decision into it. */
  lemma FirstDecision(c: Case, e: Event)
    requires VerdictInv(c) && Undecided(c)
    ensures VerdictInv(Step(c, e)) && ReadsVerdict(Step(c, e))
  {
    hide RunStep, PlainStep;
    if Plain(e) {
      PlainStands(c, e);
    } else if !e.Commit? && e.run in c.runs && Enabled(c.runs[e.run], e) {
      RunFrame(c, e.run, e);
    }
  }

  lemma {:induction false} VerdictThroughout(c: Case, es: seq<Event>)
    requires VerdictInv(c)
    ensures var d := RunAll(c, es);
            && VerdictInv(d)
            && (d.ledger.decisions != [] ==> (ReadsVerdict(d) <==> ReadsVerdict(c) && AlwaysGuarded(c, es)))
    decreases |es|
  {
    hide Step;
    if !Undecided(c) {
      DecisionsStand(c, es);
    } else if es != [] {
      FirstDecision(c, es[0]);
      VerdictThroughout(Step(c, es[0]), es[1..]);
    }
  }

  /**
   What an approval reads, over every run of an action that waits for one: it reads `Approved` or `Refused`
   exactly if that decision was committed and every expiry that committed looked at its status first; it
   awaits its decision exactly while neither a decision nor an expiry has committed; else it has expired.
   */
  lemma ApprovalsReadTheirVerdict(p: Planned, auto: bool, limit: nat, now: int, es: seq<Event>)
    requires Waits(p.risk, auto)
    ensures var c0 := NewCase(p, auto, limit, now);
            var c := RunAll(c0, es);
            var ds := c.ledger.decisions;
            && (Reads(c, Approved) <==> ds != [] && ds[0].approved && AlwaysGuarded(c0, es))
            && (Reads(c, Refused) <==> ds != [] && !ds[0].approved && AlwaysGuarded(c0, es))
            && (Reads(c, AwaitingDecision) <==> ds == [] && !c.ledger.refused)
            && (Reads(c, Expired) <==> (ds == [] && c.ledger.refused) || (ds != [] && !AlwaysGuarded(c0, es)))
  {
    VerdictThroughout(NewCase(p, auto, limit, now), es);
  }

  /**
   The exact condition: over every run of an action that needed an approval and was released, the
   approval reads `Approved` if and only if every expiry that committed looked at its status first.
   */
  lemma ApprovedIffExpiriesAreGuarded(p: Planned, auto: bool, limit: nat, now: int, es: seq<Event>)
    ensures var c0 := NewCase(p, auto, limit, now);
            var c := RunAll(c0, es);
            Waits(p.risk, auto) && Released(c) ==> (Reads(c, Approved) <==> AlwaysGuarded(c0, es))
  {
    hide RunAll, NewCase, AlwaysGuarded;
    ReleasedWasApproved(p, auto, limit, now, es);
    if Waits(p.risk, auto) { ApprovalsReadTheirVerdict(p, auto, limit, now, es); }
  }

  lemma ReleasedWasApproved(p: Planned, auto: bool, limit: nat, now: int, es: seq<Event>)
    ensures var c := RunAll(NewCase(p, auto, limit, now), es);
            Waits(p.risk, auto) && Released(c) ==> ApprovedOnce(c)
  {
    NewCaseGate(p, auto, limit, now);
    RunKeepsGateThroughout(NewCase(p, auto, limit, now), es);
  }

  /**
   The expiry writes do not check that the approval is still pending, so one that read the
   approval before an approve committed can land after it, on an action a worker already runs:
   the action ends `Executed` beside an approval that reads `Expired`.
   */
  lemma LateExpiryDoesNotStopAnApprovedAction(p: Planned, approver: Actor, admin: Actor)
    requires p.risk.High? && MayApprove(approver, p)
    requires CanRoleAccess(admin.role, Role.Admin) && admin.tenant == p.tenantId
    requires !EffectOf(p).UnknownType?
    ensures exists es :: var c := RunAll(NewCase(p, false, 3, 0), es);
                         && c.rows.approval.Some? && c.rows.approval.value.status.Expired?
                         && c.rows.action.status.Executed?
  {
    var c0 := NewCase(p, false, 3, 0);
    var es, c := ExpireWhileRunning(p, approver, admin);
    es, c := CarryOut(c0, es, c, "r");
  }

  lemma ExpireWhileRunning(p: Planned, approver: Actor, admin: Actor) returns (es: seq<Event>, c: Case)
    requires p.risk.High? && MayApprove(approver, p)
    requires CanRoleAccess(admin.role, Role.Admin) && admin.tenant == p.tenantId
    ensures RunAll(NewCase(p, false, 3, 0), es) == c
    ensures c.rows.approval.Some? && c.rows.approval.value.status.Expired? && c.rows.attempts == map[]
    ensures c.rows.action.plan == p && "r" in c.runs && c.runs["r"].phase.Holding?
  {
    var c0 := NewCase(p, false, 3, 0);
    es, c := ApproveWhileExpiring(p, approver, admin);
    es, c := Acquire(c0, es, c, "r", 0);
    es, c := ThenCommit(c0, es, c, "q2", 0);
  }

  lemma ReadsBeforeDecision(p: Planned, approver: Actor, admin: Actor) returns (es: seq<Event>, c: Case)
    requires p.risk.High? && MayApprove(approver, p)
    requires CanRoleAccess(admin.role, Role.Admin) && admin.tenant == p.tenantId
    ensures RunAll(NewCase(p, false, 3, 0), es) == c
    ensures c == NewCase(p, false, 3, 0).(requests := map["q1" := Approving(approver), "q2" := Expiring])
  {
    var c0 := NewCase(p, false, 3, 0);
    assert ReadRequest(c0, ReadToApprove("q1", approver, 0)) == Some(Approving(approver));
    es, c := ThenAsk(c0, [], c0, ReadToApprove("q1", approver, 0));
    assert c == c0.(requests := map["q1" := Approving(approver)]);
    assert ReadRequest(c, ReadToExpire("q2", admin, 24 * 60 * 60)) == Some(Expiring);
    es, c := ThenAsk(c0, es, c, ReadToExpire("q2", admin, 24 * 60 * 60));
  }

  lemma ApproveWhileExpiring(p: Planned, approver: Actor, admin: Actor) returns (es: seq<Event>, c: Case)
    requires p.risk.High? && MayApprove(approver, p)
    requires CanRoleAccess(admin.role, Role.Admin) && admin.tenant == p.tenantId
    ensures RunAll(NewCase(p, false, 3, 0), es) == c
    ensures c.rows == ApproveTransaction(NewCase(p, false, 3, 0).rows)
    ensures c.runs == map[] && c.requests == map["q2" := Expiring]
  {
    es, c := ReadsBeforeDecision(p, approver, admin);
    es, c := ThenCommit(NewCase(p, false, 3, 0), es, c, "q1", 0);
    assert c.requests == map["q2" := Expiring];
  }
}
