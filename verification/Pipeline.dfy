/**
 The way of one action from the plan to its end: born by the signal transaction, approved if its
 policy asks for it, dispatched, and carried out by one job.
 */
module Pipeline {
  import opened Domain
  import opened ActionRows
  import L = Lifecycle
  import opened Worker
  import AdminRoutes
  import ApprovalGate
  import Outcomes
  import AttemptLedger
  import Dispatch
  import Keys
  import Resets

  /** The rows when the action is ready for a worker. */
  function ReadyRows(p: Planned, auto: bool, limit: nat, now: int, approver: Actor, at: int): Rows {
    var rows := Born(p, auto, limit, now);
    if rows.action.status.WaitingApproval? then AdminRoutes.ApproveRows(rows, approver, at).0 else rows
  }

  /** The approver is not needed, or is one that may approve, in time. */
  predicate Cleared(p: Planned, auto: bool, now: int, approver: Actor, at: int) {
    match EvaluatePolicy(p.risk, auto)
    case Execute => true
    case RequireApproval =>
      && CanRoleAccess(approver.role, Manager) && ApprovalGate.MayApprove(approver, p)
      && (p.risk.High? ==> at < now + 24 * 60 * 60)
    case RecommendOnly => false
  }

  /** Why a cleared action is enqueued. */
  function FirstReason(p: Planned, auto: bool): Reason {
    if EvaluatePolicy(p.risk, auto).Execute? then SignalPolicy else ApprovalApproved
  }

  lemma ReadyIsWorkable(p: Planned, auto: bool, limit: nat, now: int, approver: Actor, at: int)
    requires Cleared(p, auto, now, approver, at)
    ensures var r := ReadyRows(p, auto, limit, now, approver, at);
            && Workable(r) && r.action.plan == p && r.action.attemptCount == 0 && r.action.maxAttempts == limit
            && r.attempts == map[]
            && r.outbox == map[FirstReason(p, auto) := Unsent]
  {
  }

  lemma ReadyIsARun(p: Planned, auto: bool, limit: nat, now: int, approver: Actor, at: int)
    ensures exists es :: var c := L.RunAll(L.NewCase(p, auto, limit, now), es);
                         && c.rows == ReadyRows(p, auto, limit, now, approver, at)
                         && c.runs == map[] && c.requests == map[]
  {
    var c0 := L.NewCase(p, auto, limit, now);
    if c0.rows.action.status.WaitingApproval? {
      var es := [L.ReadToApprove("q", approver, at), L.Commit("q", at)];
      AdminRoutes.ApproveIsARun(c0, "q", approver, at);
      NothingLeft(c0, approver, at);
    } else {
      assert L.RunAll(c0, []) == c0;
    }
  }

  lemma NothingLeft(c: L.Case, approver: Actor, at: int)
    requires c.requests == map[] && c.runs == map[]
    ensures var d := L.RunAll(c, [L.ReadToApprove("q", approver, at), L.Commit("q", at)]);
            d.requests == map[] && d.runs == map[]
  {
    hide L.RunAll, L.ReadRequest;
    AdminRoutes.AskThenCommit(c, L.ReadToApprove("q", approver, at), at);
  }

  /** Plan, approval and job together are one run of the transition system, with nothing left under way. */
  lemma EndIsARun(p: Planned, auto: bool, limit: nat, now: int, approver: Actor, at: int,
                  run: string, worker: string, job: Job)
    requires 1 <= |job.deliveries|
    ensures exists es :: var c := L.RunAll(L.NewCase(p, auto, limit, now), es);
              && c.rows == Redeliver(ReadyRows(p, auto, limit, now, approver, at), run, worker, job, 0).0
              && c.runs == map[] && c.requests == map[]
  {
    hide L.NewCase, L.RunAll, Redeliver, ReadyRows;
    ReadyIsARun(p, auto, limit, now, approver, at);
    var es :| var c := L.RunAll(L.NewCase(p, auto, limit, now), es);
              c.rows == ReadyRows(p, auto, limit, now, approver, at) && c.runs == map[] && c.requests == map[];
    var c := L.RunAll(L.NewCase(p, auto, limit, now), es);
    JobIsARun(c, run, "q", worker, job, 0);
    var more :| var d := L.RunAll(c, more);
                && d.rows == Redeliver(c.rows, run, worker, job, 0).0
                && d.runs == c.runs && d.requests == c.requests;
    L.RunOn(L.NewCase(p, auto, limit, now), es, more);
    assert L.RunAll(L.NewCase(p, auto, limit, now), es + more).runs == map[];
  }

  /** So what holds of all runs holds of the end of the job. */
  lemma EndIsReal(p: Planned, auto: bool, limit: nat, now: int, approver: Actor, at: int,
                  run: string, worker: string, job: Job)
    requires 1 <= |job.deliveries|
    ensures var r := Redeliver(ReadyRows(p, auto, limit, now, approver, at), run, worker, job, 0).0;
            && (r.action.status.Executed? ==> Outcomes.SomeSuccess(r) && Outcomes.WorkDone(r))
            && (r.action.status.DeadLetter? ==> r.deadLetter == Some(Open))
  {
    hide L.NewCase, L.RunAll, Redeliver, ReadyRows, Outcomes.SomeSuccess, Outcomes.WorkDone;
    EndIsARun(p, auto, limit, now, approver, at, run, worker, job);
    var es :| L.RunAll(L.NewCase(p, auto, limit, now), es).rows
           == Redeliver(ReadyRows(p, auto, limit, now, approver, at), run, worker, job, 0).0;
    Outcomes.FinishedMeansDone(p, auto, limit, now, es);
    Outcomes.DeadWorkStaysVisible(p, auto, limit, now, es);
  }

  /** How the first job of an action with this plan and limit ends. */
  ghost predicate Ended(p: Planned, limit: nat, job: Job, r: Rows, n: nat)
    requires 1 <= n <= |job.deliveries|
  {
    var last := job.deliveries[n - 1].outcome;
    && n <= limit && r.attempts.Keys == Numbers(0, n)
    && (forall i | 0 <= i < n - 1 ::
          !Succeeds(p, job.deliveries[i].outcome) && IsRetryable(p, job.deliveries[i].outcome))
    && (n < limit ==> Succeeds(p, last) || !IsRetryable(p, last))
    && if Succeeds(p, last)
       then r.action.status.Executed? && Outcomes.SomeSuccess(r) && Outcomes.WorkDone(r)
       else r.action.status.DeadLetter? && r.deadLetter == Some(Open)
  }

  lemma SettledIsEnded(rows: Rows, job: Job, r: Rows, n: nat)
    requires 1 <= n <= |job.deliveries| && Settled(rows, job, 0, r, n)
    requires rows.action.attemptCount == 0 < rows.action.maxAttempts && rows.attempts == map[]
    requires r.action.status.Executed? ==> Outcomes.SomeSuccess(r) && Outcomes.WorkDone(r)
    requires r.action.status.DeadLetter? ==> r.deadLetter == Some(Open)
    ensures Ended(rows.action.plan, rows.action.maxAttempts, job, r, n)
  {
    hide Succeeds, IsRetryable, Outcomes.SomeSuccess, Outcomes.WorkDone;
  }

  /**
   End to end. A cleared action comes with exactly one outbox row, and the job that this row leads
   to, if nobody else works on the action, settles it with attempts 1, 2, ...: executed, with a
   succeeded attempt and the effect its type asks for, exactly if the last delivery succeeded; else
   dead-lettered, with its dead letter open, after a fatal error or the last attempt.
   */
  lemma ClearedWorkIsSettled(p: Planned, auto: bool, limit: nat, now: int, approver: Actor, at: int,
                             run: string, worker: string, job: Job)
    requires Cleared(p, auto, now, approver, at) && 1 <= limit == |job.deliveries|
    ensures var rows := ReadyRows(p, auto, limit, now, approver, at);
            var (r, n) := Redeliver(rows, run, worker, job, 0);
            && rows.outbox == map[FirstReason(p, auto) := Unsent]
            && 1 <= n <= |job.deliveries| && Ended(p, limit, job, r, n)
  {
    hide Redeliver, ReadyRows, Settled, Ended, Outcomes.SomeSuccess, Outcomes.WorkDone;
    ReadyIsWorkable(p, auto, limit, now, approver, at);
    var rows := ReadyRows(p, auto, limit, now, approver, at);
    OneJobSettlesOneAction(rows, run, worker, job);
    EndIsReal(p, auto, limit, now, approver, at, run, worker, job);
    var (r, n) := Redeliver(rows, run, worker, job, 0);
    SettledIsEnded(rows, job, r, n);
  }

  // ----- after the job: does a reset help? -----

  /** A state that the job of this plan can leave behind. */
  ghost predicate LeftBehind(c: L.Case, p: Planned, auto: bool, limit: nat, now: int, rows: Rows) {
    && (exists es :: c == L.RunAll(L.NewCase(p, auto, limit, now), es))
    && c.rows == rows && c.runs == map[] && c.requests == map[]
  }

  lemma LeftAtRest(c: L.Case, p: Planned, auto: bool, limit: nat, now: int, rows: Rows)
    requires LeftBehind(c, p, auto, limit, now, rows)
    requires rows.action.status.DeadLetter? && !rows.action.requiresApproval
    ensures Resets.AtRest(c) && c.limit == limit
  {
    hide L.Step, AttemptLedger.LedgerInv;
    var es :| c == L.RunAll(L.NewCase(p, auto, limit, now), es);
    AttemptLedger.LimitFixed(L.NewCase(p, auto, limit, now), es);
    StartsInLedger(p, auto, limit, now);
    AttemptLedger.LedgerThroughout(L.NewCase(p, auto, limit, now), es);
  }

  lemma StartsInLedger(p: Planned, auto: bool, limit: nat, now: int)
    ensures AttemptLedger.LedgerInv(L.NewCase(p, auto, limit, now))
  {
  }

  lemma NoFreeNumber(c: L.Case, n: nat)
    requires c.rows.attempts.Keys == Numbers(0, n) && n <= c.limit
    ensures Resets.FreeFrom(c, 1) <==> n < c.limit
  {
    forall no: nat ensures no in c.rows.attempts <==> 1 <= no <= n {
      InNumbers(0, n, no);
    }
    if n < c.limit {
      assert n + 1 !in c.rows.attempts;
    }
  }

  /**
   After a job that ended in the dead letter, a retry or a reprocess can make the action begin another
   attempt exactly if the job left one unused: after a fatal error before the last attempt it can, and
   after the last attempt it never does.
   */
  lemma ResetAfterJobHelpsIff(p: Planned, auto: bool, limit: nat, now: int, approver: Actor, at: int,
                              run: string, worker: string, job: Job) returns (c: L.Case)
    requires Cleared(p, auto, now, approver, at) && 1 <= limit == |job.deliveries|
    requires Redeliver(ReadyRows(p, auto, limit, now, approver, at), run, worker, job, 0).0.action.status.DeadLetter?
    ensures var (r, n) := Redeliver(ReadyRows(p, auto, limit, now, approver, at), run, worker, job, 0);
            && LeftBehind(c, p, auto, limit, now, r)
            && ((exists es :: AttemptLedger.AlwaysCalm(c, es) && L.RunAll(c, es).rows.attempts != c.rows.attempts)
                <==> n < limit)
  {
    hide Redeliver, ReadyRows, L.RunAll, L.NewCase, Outcomes.SomeSuccess, Outcomes.WorkDone, LeftBehind,
        Resets.AtRest;
    hide Resets.FreeFrom, Succeeds, IsRetryable;
    ClearedWorkIsSettled(p, auto, limit, now, approver, at, run, worker, job);
    var (r, n) := Redeliver(ReadyRows(p, auto, limit, now, approver, at), run, worker, job, 0);
    JobKeepsReady(p, auto, limit, now, approver, at, run, worker, job);
    c := Behind(p, auto, limit, now, approver, at, run, worker, job);
    LeftAtRest(c, p, auto, limit, now, r);
    Resets.ResetHelpsIff(c);
    assert c.rows == r by { LeftRows(c, p, auto, limit, now, r); }
    NoFreeNumber(c, n);
  }

  lemma LeftRows(c: L.Case, p: Planned, auto: bool, limit: nat, now: int, rows: Rows)
    requires LeftBehind(c, p, auto, limit, now, rows)
    ensures c.rows == rows
  {
  }

  lemma Behind(p: Planned, auto: bool, limit: nat, now: int, approver: Actor, at: int,
               run: string, worker: string, job: Job) returns (c: L.Case)
    requires 1 <= |job.deliveries|
    ensures LeftBehind(c, p, auto, limit, now,
            Redeliver(ReadyRows(p, auto, limit, now, approver, at), run, worker, job, 0).0)
  {
    hide Redeliver, ReadyRows, L.RunAll, L.NewCase;
    EndIsARun(p, auto, limit, now, approver, at, run, worker, job);
    var es :| var d := L.RunAll(L.NewCase(p, auto, limit, now), es);
              && d.rows == Redeliver(ReadyRows(p, auto, limit, now, approver, at), run, worker, job, 0).0
              && d.runs == map[] && d.requests == map[];
    c := L.RunAll(L.NewCase(p, auto, limit, now), es);
  }

  /** No job brings the gate back down. */
  lemma JobKeepsReady(p: Planned, auto: bool, limit: nat, now: int, approver: Actor, at: int,
                      run: string, worker: string, job: Job)
    requires Cleared(p, auto, now, approver, at) && 1 <= limit == |job.deliveries|
    ensures !Redeliver(ReadyRows(p, auto, limit, now, approver, at), run, worker, job, 0).0.action.requiresApproval
  {
    hide Redeliver, ReadyRows;
    ReadyIsWorkable(p, auto, limit, now, approver, at);
    RedeliverKeepsReady(ReadyRows(p, auto, limit, now, approver, at), run, worker, job, 0);
  }

  lemma {:induction false} RedeliverKeepsReady(rows: Rows, run: string, worker: string, job: Job, k: nat)
    requires !rows.action.requiresApproval && k < |job.deliveries|
    ensures !Redeliver(rows, run, worker, job, k).0.action.requiresApproval
    decreases |job.deliveries| - k
  {
    hide ExecuteRows;
    var d := job.deliveries[k];
    ExecuteKeepsReady(rows, run, worker, d.now, d.now + job.ttl, d.outcome);
    var (r, result) := ExecuteRows(rows, run, worker, d.now, d.now + job.ttl, d.outcome);
    if Throws(result, k + 1, |job.deliveries|) && k + 1 < |job.deliveries| {
      RedeliverKeepsReady(r, run, worker, job, k + 1);
    }
  }

  lemma ExecuteKeepsReady(rows: Rows, run: string, worker: string, now: int, expires: int, o: Outcome)
    requires !rows.action.requiresApproval
    ensures !ExecuteRows(rows, run, worker, now, expires, o).0.action.requiresApproval
  {
    var (c, claimed) := ClaimRows(rows, worker, now, expires);
    if claimed.Some? {
      var n := claimed.value.attemptCount;
      TryOutcome(c.(attempts := c.attempts[n := Attempt(Started, run)]), n, claimed.value.maxAttempts, o);
    }
  }

  // ----- a job that leaves nothing, and one that leaves something -----

  /** Every delivery fails in the effect, retryably or not. */
  function Failing(limit: nat, retryable: bool): Job {
    Job(seq(limit, i requires 0 <= i < limit => Delivery(0, Outcome(0, Some(L.Executing), retryable))), 120)
  }

  /**
   Both cases occur, for every plan of known type: retryable failures use every number and leave a
   dead letter at rest that no reset revives, and a fatal first failure leaves the others free.
   */
  lemma FailingJobsEnd(p: Planned, auto: bool, limit: nat, now: int, approver: Actor, at: int, retryable: bool)
    requires Cleared(p, auto, now, approver, at) && limit >= 1 && !EffectOf(p).UnknownType?
    ensures exists es :: var c := L.RunAll(L.NewCase(p, auto, limit, now), es);
              && Resets.AtRest(c) && c.limit == limit
              && c.rows.attempts.Keys == Numbers(0, if retryable then limit else 1)
              && (Resets.FreeFrom(c, 1) <==> !retryable && limit > 1)
  {
    hide Redeliver, ReadyRows, L.RunAll, L.NewCase, Outcomes.SomeSuccess, Outcomes.WorkDone, Resets.AtRest,
        Resets.FreeFrom;
    var job := Failing(limit, retryable);
    ClearedWorkIsSettled(p, auto, limit, now, approver, at, "run", "w", job);
    var (r, n) := Redeliver(ReadyRows(p, auto, limit, now, approver, at), "run", "w", job, 0);
    assert !Succeeds(p, job.deliveries[n - 1].outcome);
    assert IsRetryable(p, job.deliveries[n - 1].outcome) <==> retryable;
    assert n > 1 ==> IsRetryable(p, job.deliveries[0].outcome);
    JobKeepsReady(p, auto, limit, now, approver, at, "run", "w", job);
    var c := Behind(p, auto, limit, now, approver, at, "run", "w", job);
    LeftAtRest(c, p, auto, limit, now, r);
    NoFreeNumber(c, n);
  }

  // ----- from the outbox row to the job -----

  /** Five attempts are what the outbox gives a row. */
  function FreshRow(inserted: int): Dispatch.Row {
    Dispatch.NewRow(5, inserted).row
  }

  /** The cause in the strings of a row; an action has one dead letter, so its id is a parameter. */
  function CauseOf(reason: Reason, deadLetter: string): Keys.Cause {
    match reason
    case SignalPolicy => Keys.Policy
    case ApprovalApproved => Keys.Approval
    case ManualRetry(request) => Keys.Retry(request)
    case DeadLetterReprocess => Keys.Reprocess(deadLetter)
  }

  function KeyOf(id: string, reason: Reason, deadLetter: string): string {
    Keys.DedupeKey(id, CauseOf(reason, deadLetter))
  }

  /** What the dispatchers see of an action's unsent outbox rows, by dedupe key. */
  function OutboxRows(rows: Rows, id: string, deadLetter: string, inserted: int): map<string, Dispatch.Row> {
    map reason | reason in rows.outbox && rows.outbox[reason].Unsent? ::
      KeyOf(id, reason, deadLetter) := FreshRow(inserted)
  }

  /** A job names the action whose outbox row it came from: the key's action, and nobody else's. */
  lemma JobsNameTheirAction(id: string, reason: Reason, deadLetter: string, other: string, cause: Keys.Cause)
    requires Keys.NoColon(id) && Keys.NoColon(other)
    ensures KeyOf(id, reason, deadLetter) == Keys.DedupeKey(other, cause) <==>
              id == other && cause == CauseOf(reason, deadLetter)
  {
    hide Keys.DedupeKey;
    Keys.DedupeKeysIdentifyWork(id, CauseOf(reason, deadLetter), other, cause);
  }

  /** The queue hands the worker the action if the job of one of its outbox rows was added. */
  ghost predicate Served(jobs: set<string>, rows: Rows, id: string, deadLetter: string) {
    exists reason | reason in rows.outbox :: KeyOf(id, reason, deadLetter) in jobs
  }

  ghost function AfterQueue(jobs: set<string>, rows: Rows, id: string, deadLetter: string,
                            run: string, worker: string, job: Job): Rows
    requires 1 <= |job.deliveries|
  {
    if Served(jobs, rows, id, deadLetter) then Redeliver(rows, run, worker, job, 0).0 else rows
  }

  /** A cleared action gives the dispatchers one fresh row, under the key of its first reason. */
  lemma ClearedHasOneRow(p: Planned, auto: bool, limit: nat, now: int, approver: Actor, at: int,
                         id: string, deadLetter: string, inserted: int)
    requires Cleared(p, auto, now, approver, at)
    ensures OutboxRows(ReadyRows(p, auto, limit, now, approver, at), id, deadLetter, inserted)
         == map[KeyOf(id, FirstReason(p, auto), deadLetter)
                  := Dispatch.Row(Dispatch.Pending, 0, 5, inserted, None, None)]
  {
    hide ReadyRows, KeyOf;
    ReadyIsWorkable(p, auto, limit, now, approver, at);
    var rows := ReadyRows(p, auto, limit, now, approver, at);
    assert FirstReason(p, auto) in rows.outbox && rows.outbox[FirstReason(p, auto)].Unsent?;
  }

  /** The batch's round for a fresh row decides whether its job is added. */
  lemma FreshRowYieldsItsJob(t: Dispatch.Tables, cs: seq<Dispatch.Candidate>, dispatcher: string, i: nat, inserted: int)
    requires Dispatch.Candidates(t, cs) && i < |cs|
    requires forall j, k | 0 <= j < k < |cs| :: cs[j].id != cs[k].id
    requires t.rows[cs[i].id] == FreshRow(inserted) && cs[i].id !in t.jobs && inserted <= cs[i].stamp
    ensures var b := Dispatch.Batch(t, cs, dispatcher);
            && (cs[i].id in b.jobs <==> cs[i].works)
            && b.rows[cs[i].id].attempts == 1
            && if cs[i].works then b.rows[cs[i].id].status.Processed?
               else b.rows[cs[i].id].status.Failed? && b.rows[cs[i].id].availableAt == cs[i].later + 5
  {
    hide Dispatch.Batch, Dispatch.DispatchRow;
    Dispatch.BatchHandlesEach(t, cs, dispatcher, i);
  }

  /**
   From the plan to the end. The outbox rows of a cleared action, as its plan and approval left them, are
   in the dispatchers' table; a batch picks one up. If its round reaches the queue, the action's job is
   served and, if nobody else works on the action, ends it executed or dead-lettered as its last delivery
   decides; if not, the action is untouched and its row waits for the next batch.
   */
  lemma FromPlanToEnd(p: Planned, auto: bool, limit: nat, now: int, approver: Actor, at: int,
                      t: Dispatch.Tables, cs: seq<Dispatch.Candidate>, dispatcher: string, i: nat,
                      id: string, deadLetter: string, inserted: int, run: string, worker: string, job: Job)
    requires Cleared(p, auto, now, approver, at) && 1 <= limit == |job.deliveries|
    requires Dispatch.Candidates(t, cs) && i < |cs|
    requires forall j, k | 0 <= j < k < |cs| :: cs[j].id != cs[k].id
    requires var own := OutboxRows(ReadyRows(p, auto, limit, now, approver, at), id, deadLetter, inserted);
             && (forall k | k in own :: k in t.rows && t.rows[k] == own[k] && k !in t.jobs)
             && cs[i].id in own
    requires inserted <= cs[i].stamp
    ensures var rows := ReadyRows(p, auto, limit, now, approver, at);
            var b := Dispatch.Batch(t, cs, dispatcher);
            var r := AfterQueue(b.jobs, rows, id, deadLetter, run, worker, job);
            var n := Redeliver(rows, run, worker, job, 0).1;
            && 1 <= n <= |job.deliveries|
            && if cs[i].works then b.rows[cs[i].id].status.Processed? && Ended(p, limit, job, r, n)
               else b.rows[cs[i].id].status.Failed? && r == rows
  {
    hide Redeliver, ReadyRows, KeyOf, Dispatch.Batch, Ended, OutboxRows;
    var rows := ReadyRows(p, auto, limit, now, approver, at);
    ClearedHasOneRow(p, auto, limit, now, approver, at, id, deadLetter, inserted);
    assert cs[i].id == KeyOf(id, FirstReason(p, auto), deadLetter);
    FreshRowYieldsItsJob(t, cs, dispatcher, i, inserted);
    ClearedWorkIsSettled(p, auto, limit, now, approver, at, run, worker, job);
    var b := Dispatch.Batch(t, cs, dispatcher);
    assert FirstReason(p, auto) in rows.outbox;
    assert Served(b.jobs, rows, id, deadLetter) <==> cs[i].works;
  }
}
