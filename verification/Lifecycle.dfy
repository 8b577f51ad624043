/**
 One action's life as a transition system: its database rows, the worker runs and admin
 requests in flight (each holding what it read earlier), and a ledger of what happened.

 Every event is one statement or one transaction. An event whose precondition fails leaves
 the state alone, so every sequence of events is a run and `RunAll` reaches exactly the
 reachable states: any number of workers, in any interleaving, with any clock values, stale
 reads and crashes.
 */
module Lifecycle {
  import opened Domain
  import opened ActionRows

  /** How far one call of `executeActionById` has come; `Exhausted` is its dead-letter branch. */
  datatype Phase = Claiming | Exhausted | Won | Holding | Executing | Effected | Succeeding | Marked

  datatype Run = Run(phase: Phase, worker: string, now: int, expires: int, limit: nat, attemptNo: nat)

  /** An admin request between its read and its transaction, with what the read found. */
  datatype Request =
    | Approving(actor: Actor) | Rejecting(actor: Actor) | Expiring
    | Retrying(wasDead: bool) | Reprocessing | Ensuring

  datatype Decision = Decision(actor: Actor, approved: bool)

  /** History: claims since the last reset, all claims, resets, committed decisions. */
  datatype Ledger = Ledger(
    auto: bool, claims: nat, total: nat, resets: nat,
    decisions: seq<Decision>, refused: bool, reprocessed: nat)

  datatype Case = Case(
    limit: nat, rows: Rows, runs: map<string, Run>, requests: map<string, Request>, ledger: Ledger)

  datatype Event =
    | Replan(now: int)
    | ReadToClaim(run: string, worker: string, now: int, expires: int)
    | ClaimUpdate(run: string)
    | Reread(run: string)
    | InsertAttempt(run: string)
    | RunEffect(run: string, content: Content)
    | SucceedAttempt(run: string)
    | MarkExecuted(run: string)
    | Finish(run: string)
    | FailAttempt(run: string, retryable: bool)
    | DeadLetterExhausted(run: string)
    | Crash(run: string)
    | Heartbeat(worker: string, now: int, expires: int)
    | ReadToEnsure(request: string)
    | ReadToApprove(request: string, actor: Actor, now: int)
    | ReadToReject(request: string, actor: Actor)
    | ReadToExpire(request: string, actor: Actor, now: int)
    | ReadToRetry(request: string, actor: Actor)
    | ReadToReprocess(request: string, actor: Actor)
    | Commit(request: string, now: int)
    | MoveOutbox(reason: Reason, status: OutboxStatus)

  // ----- worker events -----

  function SetRun(c: Case, id: string, r: Run): Case {
    c.(runs := c.runs[id := r])
  }

  function EndRun(c: Case, id: string): Case {
    c.(runs := c.runs - {id})
  }

  function ReadStep(c: Case, id: string, worker: string, now: int, expires: int): Case {
    var x := c.rows.action;
    if id in c.runs || Unclaimable(x) then c
    else SetRun(c, id, Run(if x.attemptCount >= x.maxAttempts then Exhausted else Claiming,
                           worker, now, expires, x.maxAttempts, 0))
  }

  function ClaimStep(c: Case, id: string, r: Run): Case {
    if ClaimGuard(c.rows.action, r.now, r.limit) then
      SetRun(c, id, r.(phase := Won))
      .(rows := c.rows.(action := ClaimRow(c.rows.action, r.worker, r.now, r.expires)),
        ledger := c.ledger.(claims := c.ledger.claims + 1, total := c.ledger.total + 1))
    else EndRun(c, id)
  }

  /** The second read gives the attempt number, whatever happened since the claim. */
  function RereadStep(c: Case, id: string, r: Run): Case {
    SetRun(c, id, r.(phase := Holding, attemptNo := c.rows.action.attemptCount, limit := c.rows.action.maxAttempts))
  }

  /** The insert is outside the `try`: a used number ends the run and leaves the lock behind. */
  function InsertStep(c: Case, id: string, r: Run): Case {
    if r.attemptNo in c.rows.attempts then EndRun(c, id)
    else SetRun(c, id, r.(phase := Executing))
         .(rows := c.rows.(attempts := c.rows.attempts[r.attemptNo := Attempt(Started, id)]))
  }

  function EffectStep(c: Case, id: string, r: Run, content: Content): Case {
    match EffectOf(c.rows.action.plan)
    case UnknownType => c
    case WriteRow(key) =>
      SetRun(c, id, r.(phase := Effected)).(rows := WriteEffect(c.rows, key, content))
    case _ => SetRun(c, id, r.(phase := Effected))
  }

  function SucceedStep(c: Case, id: string, r: Run): Case {
    SetRun(c, id, r.(phase := Succeeding)).(rows := SetAttempt(c.rows, r.attemptNo, Succeeded))
  }

  function MarkStep(c: Case, id: string, r: Run): Case {
    SetRun(c, id, r.(phase := Marked)).(rows := c.rows.(action := FinishRow(c.rows.action, Executed)))
  }

  function FailStep(c: Case, id: string, r: Run, retryable: bool): Case {
    EndRun(c, id).(rows := if !retryable || r.attemptNo >= r.limit
                           then MoveToDeadLetter(c.rows, Some(r.attemptNo))
                           else FailTransaction(c.rows, r.attemptNo))
  }

  predicate InTry(r: Run) {
    r.phase.Executing? || r.phase.Effected? || r.phase.Succeeding? || r.phase.Marked?
  }

  predicate Enabled(r: Run, e: Event) {
    match e
    case ClaimUpdate(_) => r.phase.Claiming?
    case Reread(_) => r.phase.Won?
    case InsertAttempt(_) => r.phase.Holding?
    case RunEffect(_, _) => r.phase.Executing?
    case SucceedAttempt(_) => r.phase.Effected?
    case MarkExecuted(_) => r.phase.Succeeding?
    case Finish(_) => r.phase.Marked?
    case FailAttempt(_, _) => InTry(r)
    case DeadLetterExhausted(_) => r.phase.Exhausted?
    case Crash(_) => true
    case _ => false
  }

  function RunStep(c: Case, id: string, e: Event): Case
    requires id in c.runs && Enabled(c.runs[id], e)
  {
    var r := c.runs[id];
    match e
    case ClaimUpdate(_) => ClaimStep(c, id, r)
    case Reread(_) => RereadStep(c, id, r)
    case InsertAttempt(_) => InsertStep(c, id, r)
    case RunEffect(_, content) => EffectStep(c, id, r, content)
    case SucceedAttempt(_) => SucceedStep(c, id, r)
    case MarkExecuted(_) => MarkStep(c, id, r)
    case Finish(_) => EndRun(c, id)
    case FailAttempt(_, retryable) => FailStep(c, id, r, retryable)
    case DeadLetterExhausted(_) => EndRun(c, id).(rows := MoveToDeadLetter(c.rows, None))
    case _ => EndRun(c, id)
  }

  // ----- admin requests -----

  /** What a request remembers from its read; None when the handler answers with an error. */
  function ReadRequest(c: Case, e: Event): Option<Request> {
    var x := c.rows.action;
    match e
    case ReadToEnsure(_) =>
      if x.status.WaitingApproval? || x.requiresApproval then Some(Ensuring) else None
    case ReadToApprove(_, actor, now) =>
      if !Decidable(c, actor) then None
      else if c.rows.approval.value.expiresAt.Some? && c.rows.approval.value.expiresAt.value <= now then Some(Expiring)
      else if !c.rows.approval.value.selfApprovalAllowed && c.rows.approval.value.requestedById == Some(actor.user)
      then None
      else Some(Approving(actor))
    case ReadToReject(_, actor) => if Decidable(c, actor) then Some(Rejecting(actor)) else None
    case ReadToExpire(_, actor, now) =>
      if && CanRoleAccess(actor.role, Admin) && actor.tenant == x.plan.tenantId
         && c.rows.approval.Some? && c.rows.approval.value.status.AwaitingDecision?
         && c.rows.approval.value.expiresAt.Some? && c.rows.approval.value.expiresAt.value <= now
      then Some(Expiring) else None
    case ReadToRetry(_, actor) =>
      if && CanRoleAccess(actor.role, Admin) && actor.tenant == x.plan.tenantId
         && x.status in {Failed, Pending, DeadLetter}
      then Some(Retrying(x.status.DeadLetter?)) else None
    case ReadToReprocess(_, actor) =>
      if && CanRoleAccess(actor.role, Admin) && actor.tenant == x.plan.tenantId
         && c.rows.deadLetter == Some(Open)
      then Some(Reprocessing) else None
    case _ => None
  }

  predicate Decidable(c: Case, actor: Actor) {
    && c.rows.approval.Some?
    && var a := c.rows.approval.value;
    && CanRoleAccess(actor.role, Manager)
    && actor.tenant == a.tenantId
    && CanRoleAccess(actor.role, a.minApproverRole)
    && a.status.AwaitingDecision?
  }

  predicate Undecided(c: Case) {
    c.rows.approval.Some? && c.rows.approval.value.status.AwaitingDecision?
  }

  function CommitStep(c: Case, id: string, q: Request, now: int): Case {
    var d := c.(requests := c.requests - {id});
    match q
    case Approving(actor) =>
      d.(rows := ApproveTransaction(c.rows),
         ledger := if Undecided(c) then c.ledger.(decisions := c.ledger.decisions + [Decision(actor, true)])
             else c.ledger)
    case Rejecting(actor) =>
      d.(rows := RejectTransaction(c.rows),
         ledger := if Undecided(c)
                   then c.ledger.(decisions := c.ledger.decisions + [Decision(actor, false)], refused := true)
                   else c.ledger)
    case Expiring =>
      d.(rows := ExpireTransaction(c.rows),
         ledger := if Undecided(c) then c.ledger.(refused := true) else c.ledger)
    case Retrying(wasDead) =>
      d.(rows := RetryTransaction(c.rows, c.limit, wasDead, id),
         ledger := if wasDead then c.ledger.(claims := 0, resets := c.ledger.resets + 1) else c.ledger)
    case Reprocessing =>
      d.(rows := ReprocessTransaction(c.rows, c.limit),
         ledger := c.ledger.(claims := 0, resets := c.ledger.resets + 1, reprocessed := c.ledger.reprocessed + 1))
    case Ensuring => d.(rows := EnsureApproval(c.rows, now))
  }

  // ----- runs of the system -----

  function Step(c: Case, e: Event): Case {
    if Plain(e) then PlainStep(c, e)
    else if e.Commit? then
      if e.request in c.requests then CommitStep(c, e.request, c.requests[e.request], e.now) else c
    else if e.run in c.runs && Enabled(c.runs[e.run], e) then RunStep(c, e.run, e)
    else c
  }

  function PlainStep(c: Case, e: Event): Case
    requires Plain(e)
  {
    if e.Replan? then c.(rows := FollowUp(c.rows, e.now))
    else if e.ReadToClaim? then ReadStep(c, e.run, e.worker, e.now, e.expires)
    else if e.Heartbeat? then c.(rows := c.rows.(action := BeatRow(c.rows.action, e.worker, e.now, e.expires)))
    else if e.MoveOutbox? then
      if e.reason in c.rows.outbox then c.(rows := c.rows.(outbox := c.rows.outbox[e.reason := e.status])) else c
    else RequestStep(c, e)
  }

  predicate IsRead(e: Event) {
    || e.ReadToEnsure? || e.ReadToApprove? || e.ReadToReject?
    || e.ReadToExpire? || e.ReadToRetry? || e.ReadToReprocess?
  }

  /** Events that are neither a worker's nor a commit only read, extend a lock, or fill the outbox. */
  predicate Plain(e: Event) {
    e.Replan? || e.ReadToClaim? || e.Heartbeat? || e.MoveOutbox? || IsRead(e)
  }

  function RequestStep(c: Case, e: Event): Case
    requires IsRead(e)
  {
    var q := ReadRequest(c, e);
    if e.request in c.requests || q.None? then c else c.(requests := c.requests[e.request := q.value])
  }

  function RunAll(c: Case, es: seq<Event>): Case
    decreases |es|
  {
    if es == [] then c else RunAll(Step(c, es[0]), es[1..])
  }

  /** The state right after the transaction that created the action. */
  function NewCase(p: Planned, auto: bool, limit: nat, now: int): Case {
    Case(limit, Born(p, auto, limit, now), map[], map[], Ledger(auto, 0, 0, 0, [], false, 0))
  }

  lemma {:induction false} RunAllThen(c: Case, es: seq<Event>, e: Event)
    ensures RunAll(c, es + [e]) == Step(RunAll(c, es), e)
    decreases |es|
  {
    if es == [] {
      assert [e][1..] == [];
    } else {
      assert (es + [e])[1..] == es[1..] + [e];
      RunAllThen(Step(c, es[0]), es[1..], e);
    }
  }

  /** Runs compose. */
  lemma {:induction false} RunOn(c: Case, es: seq<Event>, more: seq<Event>)
    ensures RunAll(c, es + more) == RunAll(RunAll(c, es), more)
    decreases |es|
  {
    hide Step;
    if es == [] {
      assert es + more == more;
    } else {
      assert (es + more)[1..] == es[1..] + more;
      RunOn(Step(c, es[0]), es[1..], more);
    }
  }

  lemma RunOne(c: Case, a: Event)
    ensures RunAll(c, [a]) == Step(c, a)
  {
    hide Step;
    assert [a][1..] == [];
    assert RunAll(c, [a]) == RunAll(Step(c, a), []);
  }

  lemma RunTwo(c: Case, a: Event, b: Event)
    ensures RunAll(c, [a, b]) == Step(Step(c, a), b)
  {
    hide Step;
    assert [a, b][1..] == [b] && [b][1..] == [];
    assert RunAll(c, [a, b]) == RunAll(Step(c, a), [b]) == RunAll(Step(Step(c, a), b), []);
  }

  /** One more event of a run that is being built. */
  lemma Then(c0: Case, es: seq<Event>, c: Case, e: Event) returns (es': seq<Event>, c': Case)
    requires RunAll(c0, es) == c
    ensures es' == es + [e] && c' == Step(c, e) && RunAll(c0, es') == c'
  {
    es', c' := es + [e], Step(c, e);
    RunAllThen(c0, es, e);
  }

  // The same, with the step that each kind of event takes spelled out.

  lemma ThenRead(c0: Case, es: seq<Event>, c: Case, id: string, worker: string, now: int, expires: int)
    returns (es': seq<Event>, c': Case)
    requires RunAll(c0, es) == c
    ensures RunAll(c0, es') == c' && c' == ReadStep(c, id, worker, now, expires)
  {
    es', c' := Then(c0, es, c, ReadToClaim(id, worker, now, expires));
  }

  lemma ThenClaim(c0: Case, es: seq<Event>, c: Case, id: string) returns (es': seq<Event>, c': Case)
    requires RunAll(c0, es) == c && id in c.runs && c.runs[id].phase.Claiming?
    ensures RunAll(c0, es') == c' && c' == ClaimStep(c, id, c.runs[id])
  {
    es', c' := Then(c0, es, c, ClaimUpdate(id));
  }

  lemma ThenReread(c0: Case, es: seq<Event>, c: Case, id: string) returns (es': seq<Event>, c': Case)
    requires RunAll(c0, es) == c && id in c.runs && c.runs[id].phase.Won?
    ensures RunAll(c0, es') == c' && c' == RereadStep(c, id, c.runs[id])
  {
    es', c' := Then(c0, es, c, Reread(id));
  }

  lemma ThenInsert(c0: Case, es: seq<Event>, c: Case, id: string) returns (es': seq<Event>, c': Case)
    requires RunAll(c0, es) == c && id in c.runs && c.runs[id].phase.Holding?
    ensures RunAll(c0, es') == c' && c' == InsertStep(c, id, c.runs[id])
  {
    es', c' := Then(c0, es, c, InsertAttempt(id));
  }

  lemma ThenEffect(c0: Case, es: seq<Event>, c: Case, id: string, content: Content) returns (es': seq<Event>, c': Case)
    requires RunAll(c0, es) == c && id in c.runs && c.runs[id].phase.Executing?
    ensures RunAll(c0, es') == c' && c' == EffectStep(c, id, c.runs[id], content)
  {
    es', c' := Then(c0, es, c, RunEffect(id, content));
  }

  lemma ThenSucceed(c0: Case, es: seq<Event>, c: Case, id: string) returns (es': seq<Event>, c': Case)
    requires RunAll(c0, es) == c && id in c.runs && c.runs[id].phase.Effected?
    ensures RunAll(c0, es') == c' && c' == SucceedStep(c, id, c.runs[id])
  {
    es', c' := Then(c0, es, c, SucceedAttempt(id));
  }

  lemma ThenMark(c0: Case, es: seq<Event>, c: Case, id: string) returns (es': seq<Event>, c': Case)
    requires RunAll(c0, es) == c && id in c.runs && c.runs[id].phase.Succeeding?
    ensures RunAll(c0, es') == c' && c' == MarkStep(c, id, c.runs[id])
  {
    es', c' := Then(c0, es, c, MarkExecuted(id));
  }

  lemma ThenFinish(c0: Case, es: seq<Event>, c: Case, id: string) returns (es': seq<Event>, c': Case)
    requires RunAll(c0, es) == c && id in c.runs && c.runs[id].phase.Marked?
    ensures RunAll(c0, es') == c' && c' == EndRun(c, id)
  {
    es', c' := Then(c0, es, c, Finish(id));
  }

  lemma ThenFail(c0: Case, es: seq<Event>, c: Case, id: string, retryable: bool) returns (es': seq<Event>, c': Case)
    requires RunAll(c0, es) == c && id in c.runs && InTry(c.runs[id])
    ensures RunAll(c0, es') == c' && c' == FailStep(c, id, c.runs[id], retryable)
  {
    es', c' := Then(c0, es, c, FailAttempt(id, retryable));
  }

  lemma ThenGiveUp(c0: Case, es: seq<Event>, c: Case, id: string) returns (es': seq<Event>, c': Case)
    requires RunAll(c0, es) == c && id in c.runs && c.runs[id].phase.Exhausted?
    ensures RunAll(c0, es') == c' && c' == EndRun(c, id).(rows := MoveToDeadLetter(c.rows, None))
  {
    es', c' := Then(c0, es, c, DeadLetterExhausted(id));
  }

  lemma ThenAsk(c0: Case, es: seq<Event>, c: Case, e: Event) returns (es': seq<Event>, c': Case)
    requires RunAll(c0, es) == c && IsRead(e)
    ensures RunAll(c0, es') == c' && c' == RequestStep(c, e)
  {
    es', c' := Then(c0, es, c, e);
  }

  lemma ThenCommit(c0: Case, es: seq<Event>, c: Case, id: string, now: int) returns (es': seq<Event>, c': Case)
    requires RunAll(c0, es) == c && id in c.requests
    ensures RunAll(c0, es') == c' && c' == CommitStep(c, id, c.requests[id], now)
  {
    es', c' := Then(c0, es, c, Commit(id, now));
  }

  lemma ThenSent(c0: Case, es: seq<Event>, c: Case, reason: Reason) returns (es': seq<Event>, c': Case)
    requires RunAll(c0, es) == c && reason in c.rows.outbox
    ensures RunAll(c0, es') == c' && c' == c.(rows := c.rows.(outbox := c.rows.outbox[reason := Sent]))
  {
    es', c' := Then(c0, es, c, MoveOutbox(reason, Sent));
  }

  /** A fresh run wins the lock of a waiting action. */
  lemma Acquire(c0: Case, es: seq<Event>, c: Case, id: string, now: int) returns (es': seq<Event>, c': Case)
    requires RunAll(c0, es) == c
    requires var x := c.rows.action;
             !x.requiresApproval && x.status.Pending? && x.attemptCount < x.maxAttempts && id !in c.runs
    ensures RunAll(c0, es') == c'
    ensures c'.rows == c.rows.(action := ClaimRow(c.rows.action, "w", now, now + 120))
    ensures c'.requests == c.requests && c'.limit == c.limit
    ensures c'.runs == c.runs[
              id := Run(Holding, "w", now, now + 120, c.rows.action.maxAttempts, c'.rows.action.attemptCount)]
  {
    es', c' := ThenRead(c0, es, c, id, "w", now, now + 120);
    es', c' := ThenClaim(c0, es', c', id);
    es', c' := ThenReread(c0, es', c', id);
  }

  /** A run that holds a free attempt number can fail for good... */
  lemma FailForGood(c0: Case, es: seq<Event>, c: Case, id: string) returns (es': seq<Event>, c': Case)
    requires RunAll(c0, es) == c
    requires id in c.runs && c.runs[id].phase.Holding? && c.runs[id].attemptNo !in c.rows.attempts
    ensures RunAll(c0, es') == c' && SameRequests(c, c') && c'.runs == c.runs - {id}
    ensures c'.rows.action.status.DeadLetter? && c'.rows.deadLetter == Some(Open)
    ensures c'.rows.attempts.Keys == c.rows.attempts.Keys + {c.runs[id].attemptNo}
  {
    es', c' := ThenInsert(c0, es, c, id);
    es', c' := ThenFail(c0, es', c', id, false);
  }

  /** ... or do its work and finish. */
  lemma CarryOut(c0: Case, es: seq<Event>, c: Case, id: string) returns (es': seq<Event>, c': Case)
    requires RunAll(c0, es) == c
    requires id in c.runs && c.runs[id].phase.Holding? && c.runs[id].attemptNo !in c.rows.attempts
    requires !EffectOf(c.rows.action.plan).UnknownType?
    ensures RunAll(c0, es') == c'
    ensures c'.rows.action.status.Executed? && c'.rows.approval == c.rows.approval
  {
    es', c' := ThenInsert(c0, es, c, id);
    es', c' := ThenEffect(c0, es', c', id, 0);
    es', c' := ThenSucceed(c0, es', c', id);
    es', c' := ThenMark(c0, es', c', id);
  }

  /** What no worker event changes. */
  predicate SameRequests(c: Case, d: Case) {
    && d.limit == c.limit
    && d.requests == c.requests
    && d.rows.approval == c.rows.approval
    && d.rows.outbox == c.rows.outbox
    && d.rows.action.plan == c.rows.action.plan
    && d.rows.action.requiresApproval == c.rows.action.requiresApproval
    && d.rows.action.maxAttempts == c.rows.action.maxAttempts
    && d.ledger == c.ledger.(claims := d.ledger.claims, total := d.ledger.total)
    && (d.rows.action.status.WaitingApproval? ==> c.rows.action.status.WaitingApproval?)
    && (d.rows.action.status.Pending? ==> c.rows.action.status.Pending?)
  }

  lemma RunFrame(c: Case, id: string, e: Event)
    requires id in c.runs && Enabled(c.runs[id], e)
    ensures SameRequests(c, RunStep(c, id, e))
  {
  }

  /** What no admin transaction changes. */
  predicate SameWork(c: Case, d: Case) {
    && d.limit == c.limit
    && d.runs == c.runs
    && d.rows.attempts == c.rows.attempts
    && d.rows.effects == c.rows.effects
    && d.rows.action.plan == c.rows.action.plan
    && d.ledger.total == c.ledger.total
    && (d.rows.action.status.Executed? ==> c.rows.action.status.Executed?)
    && (d.rows.action.status.DeadLetter? ==> c.rows.action.status.DeadLetter?)
  }

  predicate ResetsCount(q: Request) {
    (q.Retrying? && q.wasDead) || q.Reprocessing?
  }

  ghost predicate Committed(c: Case, q: Request, d: Case) {
    && SameWork(c, d)
    && d.rows.action.attemptCount == (if ResetsCount(q) then 0 else c.rows.action.attemptCount)
    && d.ledger.claims == (if ResetsCount(q) then 0 else c.ledger.claims)
    && d.ledger.resets == (if ResetsCount(q) then c.ledger.resets + 1 else c.ledger.resets)
    && (d.rows.action.maxAttempts == c.rows.action.maxAttempts || d.rows.action.maxAttempts == c.limit)
  }

  lemma DecisionFrame(c: Case, id: string, now: int)
    requires id in c.requests && !c.requests[id].Retrying? && !c.requests[id].Reprocessing?
    ensures Committed(c, c.requests[id], CommitStep(c, id, c.requests[id], now))
  {
  }

  lemma RequeueFrame(c: Case, id: string, now: int)
    requires id in c.requests && (c.requests[id].Retrying? || c.requests[id].Reprocessing?)
    ensures Committed(c, c.requests[id], CommitStep(c, id, c.requests[id], now))
  {
  }

  lemma CommitFrame(c: Case, id: string, now: int)
    requires id in c.requests
    ensures Committed(c, c.requests[id], CommitStep(c, id, c.requests[id], now))
  {
    if c.requests[id].Retrying? || c.requests[id].Reprocessing? {
      RequeueFrame(c, id, now);
    } else {
      DecisionFrame(c, id, now);
    }
  }

  lemma PlainFrame(c: Case, e: Event)
    requires Plain(e)
    ensures var d := Step(c, e);
            && d.limit == c.limit && d.ledger == c.ledger
            && d.rows.attempts == c.rows.attempts && d.rows.effects == c.rows.effects
            && d.rows.deadLetter == c.rows.deadLetter
            && d.rows.action.plan == c.rows.action.plan
            && d.rows.action.status == c.rows.action.status
            && d.rows.action.attemptCount == c.rows.action.attemptCount
            && d.rows.action.maxAttempts == c.rows.action.maxAttempts
            && (d.runs == c.runs
                || (e.ReadToClaim? && e.run !in c.runs
                    && exists r: Run :: (r.phase.Claiming? || r.phase.Exhausted?) && r.attemptNo == 0
                                        && r.limit == c.rows.action.maxAttempts && d.runs == c.runs[e.run := r]))
  {
  }
}
