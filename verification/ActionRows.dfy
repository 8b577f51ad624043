/**
 The database rows that belong to one action, and what each statement or transaction
 writes to them.

 Every unique key of these tables names the action: one action row, at most one
 approval, attempts by number, effect rows by action, one dead letter by source key,
 and one outbox row for each dedupe key. So `Rows` is the slice of all tables that one
 action owns, and no transaction on an action looks outside its own slice.
 */
module ActionRows {
  import opened Domain

  datatype ActionStatus =
    | Pending | Running | WaitingApproval | Executed | Failed
    | DeadLetter | Skipped | Rejected | Canceled

  datatype Kind =
    | CreateIncident | CreatePurchaseRecommendation | CreateDiscountRecommendation | CreateOperationalTask
    | NotifyOncall | NotifyManager | ScheduleRecoveryCheck | ScheduleFollowupCheck | RequestRollbackApproval
    | Webhook | GenericWebhook | OtherKind(name: string)

  datatype Provider = WebhookProvider | UnregisteredProvider

  /** The parts of the JSON payload that decide where an effect is written. */
  datatype Payload = Payload(provider: Option<Provider>, channel: Option<string>, recipient: Option<string>)

  /** What the planner asked for; none of it ever changes after the row is created. */
  datatype Planned = Planned(
    tenantId: string, kind: Kind, payload: Payload, risk: Risk, createdById: Option<string>)

  datatype Action = Action(
    plan: Planned,
    status: ActionStatus,
    requiresApproval: bool,
    attemptCount: nat,
    maxAttempts: nat,
    lockedBy: Option<string>,
    heartbeatAt: Option<int>,
    lockExpiresAt: Option<int>)

  datatype ApprovalStatus = AwaitingDecision | Approved | Refused | Expired

  datatype Approval = Approval(
    tenantId: string,
    status: ApprovalStatus,
    minApproverRole: Role,
    selfApprovalAllowed: bool,
    requestedById: Option<string>,
    expiresAt: Option<int>)

  datatype AttemptStatus = Started | Succeeded | Faulted

  /** `owner` is the run that inserted the row: only that run holds the row's id. */
  datatype Attempt = Attempt(status: AttemptStatus, owner: string)

  datatype DeadStatus = Open | Reprocessed

  /** The tail of an outbox dedupe key `action.execute:<id>:<reason>`; see module Keys. */
  datatype Reason = SignalPolicy | ApprovalApproved | ManualRetry(request: string) | DeadLetterReprocess

  datatype OutboxStatus = Unsent | Sending | Sent | SendFailed | SendDead

  /** The unique keys of the four effect tables, within one action. */
  datatype EffectKey =
    | IncidentRow | RecommendationRow | TaskRow | DeliveryRow(channel: string, recipient: string)

  /** The written columns of an effect row; a task's due date depends on when it is written. */
  type Content = nat

  datatype Rows = Rows(
    action: Action,
    approval: Option<Approval>,
    attempts: map<nat, Attempt>,
    effects: map<EffectKey, Content>,
    deadLetter: Option<DeadStatus>,
    outbox: map<Reason, OutboxStatus>)

  // ----- what an action does when it is executed -----

  datatype Effect = External | WriteRow(key: EffectKey) | AuditOnly | UnknownType

  predicate HasProvider(p: Planned) {
    match p.payload.provider
    case Some(name) => name.WebhookProvider?
    case None => p.kind.Webhook? || p.kind.GenericWebhook?
  }

  function DeliveryTo(payload: Payload, default: string): EffectKey {
    DeliveryRow(if payload.channel.Some? then payload.channel.value else "simulated",
                if payload.recipient.Some? then payload.recipient.value else default)
  }

  function EffectOf(p: Planned): Effect {
    if HasProvider(p) then External else
    match p.kind
    case CreateIncident => WriteRow(IncidentRow)
    case CreatePurchaseRecommendation => WriteRow(RecommendationRow)
    case CreateDiscountRecommendation => WriteRow(TaskRow)
    case CreateOperationalTask => WriteRow(TaskRow)
    case NotifyOncall => WriteRow(DeliveryTo(p.payload, "oncall"))
    case NotifyManager => WriteRow(DeliveryTo(p.payload, "manager"))
    case ScheduleRecoveryCheck => AuditOnly
    case ScheduleFollowupCheck => AuditOnly
    case RequestRollbackApproval => AuditOnly
    case _ => UnknownType
  }

  /** A registered provider does the work, named in the payload or implied by the type. */
  predicate Delegated(p: Planned) {
    || p.payload.provider == Some(WebhookProvider)
    || (p.payload.provider == None && p.kind in {Webhook, GenericWebhook})
  }

  /** The types that some branch carries out without a provider. */
  predicate BuiltIn(kind: Kind) {
    kind in {CreateIncident, CreatePurchaseRecommendation, CreateDiscountRecommendation, CreateOperationalTask,
             NotifyOncall, NotifyManager, ScheduleRecoveryCheck, ScheduleFollowupCheck, RequestRollbackApproval}
  }

  /** The row belongs to this action's work: table by table, the types that write to it. */
  predicate AsksFor(p: Planned, key: EffectKey) {
    && !Delegated(p)
    && match key
       case IncidentRow => p.kind == CreateIncident
       case RecommendationRow => p.kind == CreatePurchaseRecommendation
       case TaskRow => p.kind in {CreateDiscountRecommendation, CreateOperationalTask}
       case DeliveryRow(channel, recipient) =>
         && p.kind in {NotifyOncall, NotifyManager}
         && (p.payload.channel == Some(channel) || (p.payload.channel == None && channel == "simulated"))
         && (|| p.payload.recipient == Some(recipient)
             || (p.payload.recipient == None
                 && recipient == if p.kind == NotifyOncall then "oncall" else "manager"))
  }

  /** Each type writes to its own table and to no other. */
  lemma EffectsByTable(p: Planned, key: EffectKey)
    ensures EffectOf(p) == WriteRow(key) <==> AsksFor(p, key)
    ensures EffectOf(p).External? <==> Delegated(p)
    ensures EffectOf(p).UnknownType? <==> !Delegated(p) && !BuiltIn(p.kind)
  {
  }

  // ----- single-row writes -----

  function Unlocked(x: Action): Action {
    x.(lockedBy := None, heartbeatAt := None, lockExpiresAt := None)
  }

  /** The statuses and flags under which `claim` gives up after its first read. */
  predicate Unclaimable(x: Action) {
    x.requiresApproval || x.status in {WaitingApproval, Executed, Skipped, Canceled, Rejected, DeadLetter}
  }

  /** The `where` clause of the guarded claim. */
  predicate ClaimGuard(x: Action, now: int, limit: nat) {
    && !x.requiresApproval
    && x.attemptCount < limit
    && (|| x.status.Pending?
        || x.status.Failed?
        || (x.status.Running? && x.lockExpiresAt.Some? && x.lockExpiresAt.value <= now))
  }

  function ClaimRow(x: Action, worker: string, now: int, expires: int): Action {
    x.(status := Running, lockedBy := Some(worker), heartbeatAt := Some(now),
       lockExpiresAt := Some(expires), attemptCount := x.attemptCount + 1)
  }

  function BeatRow(x: Action, worker: string, now: int, expires: int): Action {
    if x.status.Running? && x.lockedBy == Some(worker)
    then x.(heartbeatAt := Some(now), lockExpiresAt := Some(expires))
    else x
  }

  function FinishRow(x: Action, status: ActionStatus): Action {
    Unlocked(x).(status := status)
  }

  /** A manual retry or a reprocess; only a dead-lettered action gets its count reset. */
  function RequeueRow(x: Action, limit: nat, reset: bool): Action {
    FinishRow(x, Pending).(maxAttempts := limit, attemptCount := if reset then 0 else x.attemptCount)
  }

  // ----- statements and transactions on the slice -----

  function ApprovalExpiry(risk: Risk, now: int): Option<int> {
    match risk
    case High => Some(now + 24 * 60 * 60)
    case Critical => Some(now + 4 * 60 * 60)
    case _ => None
  }

  function NewApproval(x: Action, now: int): Approval {
    Approval(x.plan.tenantId, AwaitingDecision, MinApproverRole(x.plan.risk), false,
             x.plan.createdById, ApprovalExpiry(x.plan.risk, now))
  }

  function EnsureApproval(rows: Rows, now: int): Rows {
    if rows.approval.Some? then rows else rows.(approval := Some(NewApproval(rows.action, now)))
  }

  function CreateOutboxEvent(rows: Rows, reason: Reason): Rows {
    if reason in rows.outbox then rows else rows.(outbox := rows.outbox[reason := Unsent])
  }

  function NewAction(p: Planned, auto: bool, limit: nat): Action {
    var mode := EvaluatePolicy(p.risk, auto);
    Action(p,
           match mode case Execute => Pending case RequireApproval => WaitingApproval case RecommendOnly => Skipped,
           mode.RequireApproval?, 0, limit, None, None, None)
  }

  /** What one round of the signal worker's loop does after its action upsert. */
  function FollowUp(rows: Rows, now: int): Rows {
    if rows.action.status.Pending? then CreateOutboxEvent(rows, SignalPolicy)
    else if rows.action.status.WaitingApproval? then EnsureApproval(rows, now)
    else rows
  }

  function Born(p: Planned, auto: bool, limit: nat, now: int): Rows {
    FollowUp(Rows(NewAction(p, auto, limit), None, map[], map[], None, map[]), now)
  }

  /** An approval as the planner or the worker asks for it, risk by risk. */
  predicate Asked(a: Approval, p: Planned, now: int) {
    && a.tenantId == p.tenantId && a.status == AwaitingDecision
    && !a.selfApprovalAllowed && a.requestedById == p.createdById
    && match p.risk
       case Low => a.minApproverRole == Operator && a.expiresAt == None
       case Medium => a.minApproverRole == Manager && a.expiresAt == None
       case High => a.minApproverRole == Admin && a.expiresAt == Some(now + 86400)
       case Critical => a.minApproverRole == Owner && a.expiresAt == Some(now + 14400)
  }

  /**
   A planned action as the signal transaction leaves it. Low risk, and medium risk where the tenant
   allows it, may run and is enqueued; other medium risk, and high risk, waits for an approval;
   critical risk is skipped.
   */
  predicate Newborn(r: Rows, p: Planned, auto: bool, limit: nat, now: int) {
    && r.action == Action(p, r.action.status, r.action.status == WaitingApproval, 0, limit, None, None, None)
    && (r.action.status == Pending <==> p.risk == Low || (p.risk == Medium && auto))
    && (r.action.status == WaitingApproval <==> p.risk == High || (p.risk == Medium && !auto))
    && (r.action.status == Skipped <==> p.risk == Critical)
    && (if r.action.status == WaitingApproval then r.approval.Some? && Asked(r.approval.value, p, now)
        else r.approval == None)
    && r.outbox == (if r.action.status == Pending then map[SignalPolicy := Unsent] else map[])
    && r.attempts == map[] && r.effects == map[] && r.deadLetter == None
  }

  lemma BornAsPlanned(p: Planned, auto: bool, limit: nat, now: int)
    ensures Newborn(Born(p, auto, limit, now), p, auto, limit, now)
  {
  }

  /** What another plan adds to an action that is there: what its status asks for, if it is missing. */
  predicate Followed(r: Rows, s: Rows, now: int) {
    && s == r.(outbox := s.outbox, approval := s.approval)
    && s.outbox == (if r.action.status == Pending && SignalPolicy !in r.outbox
                    then r.outbox[SignalPolicy := Unsent] else r.outbox)
    && (if r.action.status == WaitingApproval && r.approval == None
        then s.approval.Some? && Asked(s.approval.value, r.action.plan, now) else s.approval == r.approval)
  }

  function WriteEffect(rows: Rows, key: EffectKey, content: Content): Rows {
    if key in rows.effects then rows else rows.(effects := rows.effects[key := content])
  }

  function SetAttempt(rows: Rows, no: nat, status: AttemptStatus): Rows {
    if no in rows.attempts
    then rows.(attempts := rows.attempts[no := rows.attempts[no].(status := status)])
    else rows
  }

  function FailTransaction(rows: Rows, no: nat): Rows {
    SetAttempt(rows, no, Faulted).(action := FinishRow(rows.action, Failed))
  }

  function MoveToDeadLetter(rows: Rows, attempt: Option<nat>): Rows {
    var r := if attempt.Some? then SetAttempt(rows, attempt.value, Faulted) else rows;
    r.(action := FinishRow(rows.action, DeadLetter), deadLetter := Some(Open))
  }

  function ApproveTransaction(rows: Rows): Rows {
    if rows.approval.Some? && rows.approval.value.status.AwaitingDecision? then
      CreateOutboxEvent(
        rows.(approval := Some(rows.approval.value.(status := Approved)),
              action := rows.action.(status := Pending, requiresApproval := false)),
        ApprovalApproved)
    else rows
  }

  function RejectTransaction(rows: Rows): Rows {
    if rows.approval.Some? && rows.approval.value.status.AwaitingDecision? then
      rows.(approval := Some(rows.approval.value.(status := Refused)),
            action := rows.action.(status := Canceled))
    else rows
  }

  /** Neither expiry write looks at the status it overwrites. */
  function ExpireTransaction(rows: Rows): Rows {
    if rows.approval.Some? then
      rows.(approval := Some(rows.approval.value.(status := Expired)),
            action := rows.action.(status := Canceled))
    else rows
  }

  function RetryTransaction(rows: Rows, limit: nat, wasDead: bool, request: string): Rows {
    CreateOutboxEvent(rows.(action := RequeueRow(rows.action, limit, wasDead)), ManualRetry(request))
  }

  function ReprocessTransaction(rows: Rows, limit: nat): Rows {
    CreateOutboxEvent(rows.(action := RequeueRow(rows.action, limit, true), deadLetter := Some(Reprocessed)),
                      DeadLetterReprocess)
  }
}
