/** How often an action can be claimed and attempted, over every run of `Lifecycle`. */
module AttemptLedger {
  import opened ActionRows
  import opened Lifecycle

  ghost predicate LedgerInv(c: Case) {
    && c.rows.action.maxAttempts == c.limit
    && c.ledger.claims == c.rows.action.attemptCount <= c.limit
    && c.ledger.total <= c.limit * c.ledger.resets + c.ledger.claims
    && (forall id | id in c.runs :: c.runs[id].limit == c.limit && c.runs[id].attemptNo <= c.limit)
    && forall no | no in c.rows.attempts :: no <= c.limit
  }

  lemma ClaimKeepsLedger(c: Case, id: string)
    requires LedgerInv(c) && id in c.runs
    ensures LedgerInv(ClaimStep(c, id, c.runs[id]))
  {
  }

  lemma EndingKeepsLedger(c: Case, id: string, e: Event)
    requires LedgerInv(c) && id in c.runs && Enabled(c.runs[id], e)
    requires e.FailAttempt? || e.DeadLetterExhausted? || e.Finish? || e.Crash?
    ensures LedgerInv(RunStep(c, id, e))
  {
  }

  lemma ProgressKeepsLedger(c: Case, id: string, e: Event)
    requires LedgerInv(c) && id in c.runs && Enabled(c.runs[id], e)
    requires e.Reread? || e.InsertAttempt? || e.RunEffect? || e.SucceedAttempt? || e.MarkExecuted?
    ensures LedgerInv(RunStep(c, id, e))
  {
  }

  lemma RunKeepsLedger(c: Case, id: string, e: Event)
    requires LedgerInv(c) && id in c.runs && Enabled(c.runs[id], e)
    ensures LedgerInv(RunStep(c, id, e))
  {
    if e.ClaimUpdate? {
      ClaimKeepsLedger(c, id);
    } else if e.FailAttempt? || e.DeadLetterExhausted? || e.Finish? || e.Crash? {
      EndingKeepsLedger(c, id, e);
    } else {
      ProgressKeepsLedger(c, id, e);
    }
  }

  lemma CommitKeepsLedger(c: Case, id: string, now: int)
    requires LedgerInv(c) && id in c.requests
    ensures LedgerInv(CommitStep(c, id, c.requests[id], now))
  {
    CommitFrame(c, id, now);
    assert c.limit * (c.ledger.resets + 1) == c.limit * c.ledger.resets + c.limit;
  }

  lemma StepKeepsLedger(c: Case, e: Event)
    requires LedgerInv(c)
    ensures LedgerInv(Step(c, e))
  {
    if Plain(e) {
      PlainFrame(c, e);
    } else if e.Commit? {
      if e.request in c.requests { CommitKeepsLedger(c, e.request, e.now); }
    } else if e.run in c.runs && Enabled(c.runs[e.run], e) {
      RunKeepsLedger(c, e.run, e);
    }
  }

  lemma {:induction false} LedgerThroughout(c: Case, es: seq<Event>)
    requires LedgerInv(c)
    ensures LedgerInv(RunAll(c, es))
    decreases |es|
  {
    if es != [] {
      StepKeepsLedger(c, es[0]);
      LedgerThroughout(Step(c, es[0]), es[1..]);
    }
  }

  /**
   The count on the row is the number of claims won since creation or the last reset, it never
   passes the limit, and all claims together never pass `limit * (1 + resets)`. Only a retry
   that read a dead letter, or a reprocess, counts as a reset.
   */
  lemma AttemptsAreConserved(p: Planned, auto: bool, limit: nat, now: int, es: seq<Event>)
    ensures var c := RunAll(NewCase(p, auto, limit, now), es);
            && c.rows.action.attemptCount == c.ledger.claims <= limit
            && c.ledger.total <= limit * (1 + c.ledger.resets)
  {
    var c := RunAll(NewCase(p, auto, limit, now), es);
    LedgerThroughout(NewCase(p, auto, limit, now), es);
    LimitFixed(NewCase(p, auto, limit, now), es);
    assert limit * (1 + c.ledger.resets) == limit + limit * c.ledger.resets;
  }

  lemma {:induction false} LimitFixed(c: Case, es: seq<Event>)
    ensures RunAll(c, es).limit == c.limit
    decreases |es|
  {
    if es != [] {
      LimitFixed(Step(c, es[0]), es[1..]);
    }
  }

  // ----- attempt rows are never freed -----

  function UpTo(n: nat): (s: set<nat>)
    ensures |s| == n + 1 && forall k: nat :: k in s <==> k <= n
  {
    if n == 0 then {0} else UpTo(n - 1) + {n}
  }

  lemma SubsetSize(a: set<nat>, b: set<nat>)
    requires a <= b
    ensures |a| <= |b|
  {
    assert b == a + (b - a);
  }

  /**
   However many retries, resets and takeovers there are, at most `limit + 1` attempts are ever
   begun on one action: resetting the counter does not free the attempt numbers.
   */
  lemma AttemptRowsAreBounded(p: Planned, auto: bool, limit: nat, now: int, es: seq<Event>)
    ensures |RunAll(NewCase(p, auto, limit, now), es).rows.attempts| <= limit + 1
  {
    var c := RunAll(NewCase(p, auto, limit, now), es);
    LedgerThroughout(NewCase(p, auto, limit, now), es);
    LimitFixed(NewCase(p, auto, limit, now), es);
    SubsetSize(c.rows.attempts.Keys, UpTo(limit));
  }

  /** Every number a run can be given is used, and no run is inside its `try`. */
  ghost predicate Spent(c: Case) {
    && LedgerInv(c)
    && (forall no | 1 <= no <= c.limit :: no in c.rows.attempts)
    && forall id | id in c.runs ::
         && !InTry(c.runs[id])
         && (c.runs[id].phase.Holding? ==> c.runs[id].attemptNo >= 1)
         && (c.runs[id].phase.Won? ==> c.rows.action.attemptCount >= 1)
  }

  /** No reset commits between some run's claim and that run's second read. */
  ghost predicate Calm(c: Case, e: Event) {
    e.Commit? && e.request in c.requests
    && (c.requests[e.request].Retrying? || c.requests[e.request].Reprocessing?) ==>
      forall id | id in c.runs :: !c.runs[id].phase.Won?
  }

  ghost predicate AlwaysCalm(c: Case, es: seq<Event>)
    decreases |es|
  {
    es == [] || (Calm(c, es[0]) && AlwaysCalm(Step(c, es[0]), es[1..]))
  }

  ghost predicate NothingDone(c: Case, d: Case) {
    && d.rows.effects == c.rows.effects
    && d.rows.attempts == c.rows.attempts
    && (d.rows.action.status.Executed? ==> c.rows.action.status.Executed?)
  }

  lemma RunStaysSpent(c: Case, id: string, e: Event)
    requires Spent(c) && id in c.runs && Enabled(c.runs[id], e)
    ensures Spent(RunStep(c, id, e)) && NothingDone(c, RunStep(c, id, e))
  {
    RunKeepsLedger(c, id, e);
  }

  lemma StepStaysSpent(c: Case, e: Event)
    requires Spent(c) && Calm(c, e)
    ensures Spent(Step(c, e)) && NothingDone(c, Step(c, e))
  {
    StepKeepsLedger(c, e);
    if Plain(e) {
      PlainFrame(c, e);
    } else if e.Commit? {
      if e.request in c.requests { CommitFrame(c, e.request, e.now); }
    } else if e.run in c.runs && Enabled(c.runs[e.run], e) {
      RunStaysSpent(c, e.run, e);
    }
  }

  /**
   Once the attempts 1 to `limit` have been used, no retry and no reprocess ever makes the
   action do anything again: every later claim is given a used attempt number, whose insert
   fails outside the `try`.
   */
  lemma {:induction false} SpentActionsNeverRunAgain(c: Case, es: seq<Event>)
    requires Spent(c) && AlwaysCalm(c, es)
    ensures Spent(RunAll(c, es)) && NothingDone(c, RunAll(c, es))
    decreases |es|
  {
    if es != [] {
      StepStaysSpent(c, es[0]);
      SpentActionsNeverRunAgain(Step(c, es[0]), es[1..]);
    }
  }
}
