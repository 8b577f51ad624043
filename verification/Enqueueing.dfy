/** What the transactional outbox guarantees about actions that are put to `Pending`. */
module Enqueueing {
  import opened Domain
  import opened ActionRows
  import opened Lifecycle
  import opened ApprovalGate

  /** A commit inserted an outbox row naming the action that no earlier commit had inserted. */
  predicate Enqueued(c: Case, d: Case) {
    exists k | k in d.rows.outbox :: k !in c.rows.outbox && d.rows.outbox[k].Unsent?
  }

  predicate OutboxInv(c: Case) {
    DeadLetterReprocess in c.rows.outbox <==> c.ledger.reprocessed > 0
  }

  /** The dedupe key of the row that this request would insert is already in the table. */
  predicate KeyUsed(c: Case, id: string)
    requires id in c.requests
  {
    match c.requests[id]
    case Retrying(_) => ManualRetry(id) in c.rows.outbox
    case Reprocessing => c.ledger.reprocessed > 0
    case _ => false
  }

  lemma CommitEnqueues(c: Case, id: string, now: int)
    requires GateInv(c) && OutboxInv(c) && id in c.requests
    ensures var q, d := c.requests[id], CommitStep(c, id, c.requests[id], now);
            && OutboxInv(d)
            && (q.Retrying? || q.Reprocessing? ==> (Enqueued(c, d) <==> !KeyUsed(c, id)))
            && (q.Approving? ==> (Enqueued(c, d) <==> Undecided(c)))
            && (d.rows.action.status.Pending? && !c.rows.action.status.Pending? ==>
                  q.Retrying? || q.Reprocessing? || (q.Approving? && Undecided(c)))
  {
    var q, d := c.requests[id], CommitStep(c, id, c.requests[id], now);
    match q
    case Retrying(_) =>
      assert d.rows.outbox == c.rows.outbox || d.rows.outbox == c.rows.outbox[ManualRetry(id) := Unsent];
    case Reprocessing =>
      assert d.rows.outbox == c.rows.outbox || d.rows.outbox == c.rows.outbox[DeadLetterReprocess := Unsent];
    case Approving(_) =>
      if Undecided(c) { assert c.rows.outbox == map[] && ApprovalApproved in d.rows.outbox; }
    case _ =>
  }

  lemma PlainKeepsOutbox(c: Case, e: Event)
    requires GateInv(c) && OutboxInv(c) && Plain(e)
    ensures OutboxInv(Step(c, e)) && Step(c, e).rows.action.status == c.rows.action.status
  {
    PlainFrame(c, e);
  }

  lemma WorkKeepsOutbox(c: Case, id: string, e: Event)
    requires OutboxInv(c) && id in c.runs && Enabled(c.runs[id], e)
    ensures OutboxInv(RunStep(c, id, e))
    ensures RunStep(c, id, e).rows.action.status.Pending? ==> c.rows.action.status.Pending?
  {
    RunFrame(c, id, e);
  }

  lemma StepKeepsOutbox(c: Case, e: Event)
    requires GateInv(c) && OutboxInv(c)
    ensures OutboxInv(Step(c, e))
    ensures !e.Commit? && Step(c, e).rows.action.status.Pending? ==> c.rows.action.status.Pending?
  {
    if e.Commit? {
      if e.request in c.requests { CommitEnqueues(c, e.request, e.now); }
    } else if Plain(e) {
      PlainKeepsOutbox(c, e);
    } else if e.run in c.runs && Enabled(c.runs[e.run], e) {
      WorkKeepsOutbox(c, e.run, e);
    }
  }

  lemma {:induction false} OutboxThroughout(c: Case, es: seq<Event>)
    requires GateInv(c) && OutboxInv(c)
    ensures GateInv(RunAll(c, es)) && OutboxInv(RunAll(c, es))
    decreases |es|
  {
    if es != [] {
      StepKeepsGate(c, es[0]);
      StepKeepsOutbox(c, es[0]);
      OutboxThroughout(Step(c, es[0]), es[1..]);
    }
  }

  /** A new action that may run at once is born together with its outbox row. */
  lemma BirthEnqueues(p: Planned, auto: bool, limit: nat, now: int)
    ensures var c := NewCase(p, auto, limit, now);
            c.rows.action.status.Pending? <==> c.rows.outbox == map[SignalPolicy := Unsent]
  {
    var c := NewCase(p, auto, limit, now);
    if c.rows.action.status.Pending? {
      assert c.rows == CreateOutboxEvent(c.rows.(outbox := map[]), SignalPolicy);
    } else {
      assert c.rows.outbox == map[];
      assert SignalPolicy !in c.rows.outbox && SignalPolicy in map[SignalPolicy := Unsent];
    }
  }

  /**
   In every reachable state, an event puts an action to `Pending` only by committing an
   approval, a manual retry or a reprocess, and that commit also inserts a fresh outbox row
   exactly when its dedupe key is unused: always for an approval, for a retry unless its
   request id was used before, and for a reprocess only the first time.
   */
  lemma PendingIsEnqueued(p: Planned, auto: bool, limit: nat, now: int, es: seq<Event>, e: Event)
    ensures var c := RunAll(NewCase(p, auto, limit, now), es);
            var d := Step(c, e);
            !c.rows.action.status.Pending? && d.rows.action.status.Pending? ==>
              && e.Commit? && e.request in c.requests
              && (Enqueued(c, d) <==> !KeyUsed(c, e.request))
  {
    var c0 := NewCase(p, auto, limit, now);
    NewCaseGate(p, auto, limit, now);
    OutboxThroughout(c0, es);
    var c := RunAll(c0, es);
    StepKeepsOutbox(c, e);
    if e.Commit? && e.request in c.requests { CommitEnqueues(c, e.request, e.now); }
  }

  // ----- the second reprocess -----

  predicate AllSent(c: Case) {
    c.runs == map[] && c.requests == map[] && forall k | k in c.rows.outbox :: c.rows.outbox[k].Sent?
  }

  /** A dead letter whose one attempt is used and whose outbox rows are all sent. */
  ghost predicate DeadAndSent(c: Case, p: Planned) {
    && c.limit == 1 && AllSent(c)
    && c.rows.action.plan == p && c.rows.action.maxAttempts == 1 && !c.rows.action.requiresApproval
    && c.rows.action.status.DeadLetter? && c.rows.deadLetter == Some(Open)
    && 1 in c.rows.attempts
  }

  lemma FatalFirstAttempt(p: Planned) returns (es: seq<Event>, c: Case)
    requires p.risk.Low?
    ensures RunAll(NewCase(p, false, 1, 0), es) == c && DeadAndSent(c, p)
    ensures c.rows.outbox == map[SignalPolicy := Sent]
  {
    var c0 := NewCase(p, false, 1, 0);
    es, c := ThenSent(c0, [], c0, SignalPolicy);
    es, c := Acquire(c0, es, c, "r", 0);
    es, c := FailForGood(c0, es, c, "r");
  }

  lemma Reprocess(c0: Case, es: seq<Event>, c: Case, admin: Actor, p: Planned) returns (es': seq<Event>, c': Case)
    requires RunAll(c0, es) == c && DeadAndSent(c, p)
    requires CanRoleAccess(admin.role, Admin) && admin.tenant == p.tenantId
    ensures RunAll(c0, es') == c' && c'.runs == map[] && c'.requests == map[]
    ensures c'.rows == ReprocessTransaction(c.rows, 1) && c'.limit == 1
  {
    es', c' := ThenAsk(c0, es, c, ReadToReprocess("q", admin));
    assert c' == c.(requests := map["q" := Reprocessing]);
    es', c' := ThenCommit(c0, es', c', "q", 0);
    assert c'.requests == map[];
  }

  /** The reprocessed action is claimed, cannot insert attempt 1 again, and is dead-lettered once more. */
  lemma UsedNumberKillsItAgain(c0: Case, es: seq<Event>, c: Case, p: Planned) returns (es': seq<Event>, c': Case)
    requires RunAll(c0, es) == c && c.runs == map[] && c.requests == map[] && c.limit == 1
    requires c.rows.action.plan == p && c.rows.action.maxAttempts == 1 && !c.rows.action.requiresApproval
    requires c.rows.action.status.Pending? && c.rows.action.attemptCount == 0
    requires 1 in c.rows.attempts && DeadLetterReprocess in c.rows.outbox
    requires forall k | k in c.rows.outbox :: k == DeadLetterReprocess || c.rows.outbox[k].Sent?
    ensures RunAll(c0, es') == c' && DeadAndSent(c', p) && c'.rows.outbox.Keys == c.rows.outbox.Keys
  {
    es', c' := ThenSent(c0, es, c, DeadLetterReprocess);
    es', c' := Acquire(c0, es', c', "r", 0);
    es', c' := ThenInsert(c0, es', c', "r");
    assert c'.runs == map[];
    es', c' := GiveUp(c0, es', c');
  }

  lemma GiveUp(c0: Case, es: seq<Event>, c: Case) returns (es': seq<Event>, c': Case)
    requires RunAll(c0, es) == c && c.runs == map[]
    requires !Unclaimable(c.rows.action) && c.rows.action.attemptCount >= c.rows.action.maxAttempts
    ensures RunAll(c0, es') == c'
    ensures c' == c.(rows := MoveToDeadLetter(c.rows, None))
  {
    es', c' := ThenRead(c0, es, c, "s", "w", 200, 320);
    es', c' := ThenGiveUp(c0, es', c', "s");
    assert c'.runs == map[];
  }

  /**
   A second reprocess of the same dead letter strands the action: it is `Pending`, nobody is
   working on it, and every outbox row that names it has already been sent.
   */
  lemma SecondReprocessStrands(p: Planned, admin: Actor)
    requires p.risk.Low?
    requires CanRoleAccess(admin.role, Admin) && admin.tenant == p.tenantId
    ensures exists es :: var c := RunAll(NewCase(p, false, 1, 0), es);
                         c.rows.action.status.Pending? && AllSent(c)
  {
    var c0 := NewCase(p, false, 1, 0);
    var es, c := FatalFirstAttempt(p);
    es, c := Reprocess(c0, es, c, admin, p);
    es, c := UsedNumberKillsItAgain(c0, es, c, p);
    es, c := Reprocess(c0, es, c, admin, p);
  }
}
