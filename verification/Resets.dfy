/**
 When a reset of the attempt counter helps: exactly when some attempt number that the action may
 still use was never used.
 */
module Resets {
  import opened Domain
  import opened ActionRows
  import opened Lifecycle
  import opened AttemptLedger

  /** A dead-lettered action past the gate, with nothing under way. */
  ghost predicate AtRest(c: Case) {
    && LedgerInv(c) && c.runs == map[] && c.requests == map[]
    && c.rows.action.status.DeadLetter? && !c.rows.action.requiresApproval
  }

  predicate FreeFrom(c: Case, lo: nat) {
    exists no | lo <= no <= c.limit :: no !in c.rows.attempts
  }

  // ----- explicit runs -----

  predicate NoCommits(es: seq<Event>) {
    forall i | 0 <= i < |es| :: !es[i].Commit?
  }

  lemma {:induction false} NoCommitsAreCalm(c: Case, es: seq<Event>)
    requires NoCommits(es)
    ensures AlwaysCalm(c, es)
    decreases |es|
  {
    hide Step;
    if es != [] { NoCommitsAreCalm(Step(c, es[0]), es[1..]); }
  }

  lemma {:induction false} CalmOn(c: Case, es: seq<Event>, more: seq<Event>)
    requires AlwaysCalm(c, es) && AlwaysCalm(RunAll(c, es), more)
    ensures AlwaysCalm(c, es + more)
    decreases |es|
  {
    hide Step, Calm;
    if es == [] {
      assert es + more == more;
    } else {
      assert (es + more)[0] == es[0] && (es + more)[1..] == es[1..] + more;
      CalmOn(Step(c, es[0]), es[1..], more);
    }
  }

  function Operator(c: Case): Actor {
    Actor("admin", Admin, c.rows.action.plan.tenantId)
  }

  const READ := ReadToClaim("r", "w", 0, 0)

  /** Ready for a claim at time 0. */
  predicate Claimable(c: Case) {
    && c.runs == map[] && !c.rows.action.requiresApproval && c.rows.action.attemptCount < c.rows.action.maxAttempts
    && (|| c.rows.action.status.Pending?
        || (c.rows.action.status.Running? && c.rows.action.lockExpiresAt == Some(0)))
  }

  function Claimed(c: Case): Case {
    c.(rows := c.rows.(action := ClaimRow(c.rows.action, "w", 0, 0)),
       ledger := c.ledger.(claims := c.ledger.claims + 1, total := c.ledger.total + 1))
  }

  function Holder(c: Case): Run {
    Run(Holding, "w", 0, 0, c.rows.action.maxAttempts, c.rows.action.attemptCount + 1)
  }

  /** One call reads, claims and reads again. */
  lemma ClaimOnce(c: Case)
    requires Claimable(c)
    ensures RunAll(c, [READ, ClaimUpdate("r"), Reread("r")]) == Claimed(c).(runs := map["r" := Holder(c)])
  {
    hide Step;
    ClaimsFirst(c);
    var d := Claimed(c).(runs := map["r" := Holder(c).(phase := Won, attemptNo := 0)]);
    RunOn(c, [READ, ClaimUpdate("r")], [Reread("r")]);
    assert [READ, ClaimUpdate("r")] + [Reread("r")] == [READ, ClaimUpdate("r"), Reread("r")];
    RunOne(d, Reread("r"));
    ReadsAgain(c, d);
  }

  lemma ReadsAgain(c: Case, d: Case)
    requires d == Claimed(c).(runs := map["r" := Holder(c).(phase := Won, attemptNo := 0)])
    ensures Step(d, Reread("r")) == Claimed(c).(runs := map["r" := Holder(c)])
  {
    assert d.runs["r" := Holder(c)] == map["r" := Holder(c)];
    assert Step(d, Reread("r")) == RereadStep(d, "r", d.runs["r"]);
  }

  lemma ClaimsFirst(c: Case)
    requires Claimable(c)
    ensures RunAll(c, [READ, ClaimUpdate("r")])
         == Claimed(c).(runs := map["r" := Holder(c).(phase := Won, attemptNo := 0)])
  {
    RunTwo(c, READ, ClaimUpdate("r"));
    assert Step(c, READ) == ReadStep(c, "r", "w", 0, 0);
  }

  /** The insert of a used number ends the call and leaves the lock, already run out, behind. */
  lemma Collide(c: Case)
    requires Claimable(c) && c.rows.action.attemptCount + 1 in c.rows.attempts
    ensures RunAll(c, [READ, ClaimUpdate("r"), Reread("r"), InsertAttempt("r")]) == Claimed(c)
  {
    hide Step;
    ClaimOnce(c);
    var d := Claimed(c).(runs := map["r" := Holder(c)]);
    RunOne(d, InsertAttempt("r"));
    InsertFails(c, d);
    RunOn(c, [READ, ClaimUpdate("r"), Reread("r")], [InsertAttempt("r")]);
    assert [READ, ClaimUpdate("r"), Reread("r")] + [InsertAttempt("r")]
        == [READ, ClaimUpdate("r"), Reread("r"), InsertAttempt("r")];
  }

  lemma InsertFails(c: Case, d: Case)
    requires c.runs == map[] && c.rows.action.attemptCount + 1 in c.rows.attempts
    requires d == Claimed(c).(runs := map["r" := Holder(c)])
    ensures Step(d, InsertAttempt("r")) == Claimed(c)
  {
    assert Step(d, InsertAttempt("r")) == InsertStep(d, "r", d.runs["r"]);
    assert EndRun(d, "r") == Claimed(c);
  }

  /** Calls collide with used numbers until one holds the next free number. */
  lemma {:induction false} ClaimUntilFree(c: Case, n: nat) returns (es: seq<Event>)
    requires Claimable(c) && c.rows.action.attemptCount < n <= c.rows.action.maxAttempts && n !in c.rows.attempts
    requires forall k | c.rows.action.attemptCount < k < n :: k in c.rows.attempts
    ensures NoCommits(es) && HoldsFree(c, RunAll(c, es), n)
    decreases n - c.rows.action.attemptCount
  {
    hide Step, LedgerInv;
    if c.rows.action.attemptCount + 1 == n {
      ClaimOnce(c);
      es := [READ, ClaimUpdate("r"), Reread("r")];
    } else {
      Collide(c);
      var more := ClaimUntilFree(Claimed(c), n);
      var block := [READ, ClaimUpdate("r"), Reread("r"), InsertAttempt("r")];
      RunOn(c, block, more);
      es := block + more;
    }
  }

  predicate HoldsFree(c: Case, d: Case, n: nat) {
    && "r" in d.runs && d.runs["r"].phase.Holding? && d.runs["r"].attemptNo == n
    && d.rows.attempts == c.rows.attempts && d.rows.action.plan == c.rows.action.plan
  }

  const WORK := [InsertAttempt("r"), RunEffect("r", 0), SucceedAttempt("r"), MarkExecuted("r")]

  /** A call that holds a free number begins its attempt, and finishes it if its type is known. */
  lemma WorkOn(c: Case)
    requires "r" in c.runs && c.runs["r"].phase.Holding? && c.runs["r"].attemptNo !in c.rows.attempts
    ensures c.runs["r"].attemptNo in RunAll(c, WORK).rows.attempts
    ensures !EffectOf(c.rows.action.plan).UnknownType? ==> RunAll(c, WORK).rows.action.status.Executed?
  {
    var first, second := [InsertAttempt("r"), RunEffect("r", 0)], [SucceedAttempt("r"), MarkExecuted("r")];
    assert first + second == WORK;
    RunOn(c, first, second);
    BeginWork(c);
    FinishWork(RunAll(c, first));
  }

  lemma BeginWork(c: Case)
    requires "r" in c.runs && c.runs["r"].phase.Holding? && c.runs["r"].attemptNo !in c.rows.attempts
    ensures var d := RunAll(c, [InsertAttempt("r"), RunEffect("r", 0)]);
            && "r" in d.runs && c.runs["r"].attemptNo in d.rows.attempts
            && (!EffectOf(c.rows.action.plan).UnknownType? ==> d.runs["r"].phase.Effected?)
  {
    RunTwo(c, InsertAttempt("r"), RunEffect("r", 0));
    assert Step(c, InsertAttempt("r")) == InsertStep(c, "r", c.runs["r"]);
  }

  lemma FinishWork(c: Case)
    requires "r" in c.runs
    ensures var d := RunAll(c, [SucceedAttempt("r"), MarkExecuted("r")]);
            && d.rows.attempts.Keys == c.rows.attempts.Keys
            && (c.runs["r"].phase.Effected? ==> d.rows.action.status.Executed?)
  {
    hide Step;
    RunTwo(c, SucceedAttempt("r"), MarkExecuted("r"));
    Succeeds(c);
    Marks(Step(c, SucceedAttempt("r")));
  }

  lemma Succeeds(c: Case)
    requires "r" in c.runs
    ensures var d := Step(c, SucceedAttempt("r"));
            && "r" in d.runs && d.rows.attempts.Keys == c.rows.attempts.Keys
            && (c.runs["r"].phase.Effected? ==> d.runs["r"].phase.Succeeding?)
  {
  }

  lemma Marks(c: Case)
    requires "r" in c.runs
    ensures var d := Step(c, MarkExecuted("r"));
            && d.rows.attempts == c.rows.attempts
            && (c.runs["r"].phase.Succeeding? ==> d.rows.action.status.Executed?)
  {
  }

  /** A retry of a dead letter makes it claimable from number 1 on. */
  lemma RetryOnce(c: Case) returns (es: seq<Event>)
    requires AtRest(c) && c.limit >= 1
    ensures AlwaysCalm(c, es)
    ensures var d := RunAll(c, es);
            && Claimable(d) && d.rows.action.attemptCount == 0 && d.rows.action.maxAttempts == c.limit
            && d.rows.attempts == c.rows.attempts && d.rows.action.plan == c.rows.action.plan
  {
    var ask, commit := ReadToRetry("q", Operator(c)), Commit("q", 0);
    es := [ask, commit];
    RunTwo(c, ask, commit);
    var d := Step(c, ask);
    assert d == c.(requests := map["q" := Retrying(true)]);
    assert Step(d, commit) == CommitStep(d, "q", Retrying(true), 0);
    assert es[1..] == [commit] && es[1..][1..] == [];
    assert AlwaysCalm(d, [commit]);
  }

  lemma {:induction false} LeastFree(c: Case, lo: nat, no: nat) returns (n: nat)
    requires lo <= no && no !in c.rows.attempts
    ensures lo <= n <= no && n !in c.rows.attempts && forall k | lo <= k < n :: k in c.rows.attempts
    decreases no - lo
  {
    if lo !in c.rows.attempts { n := lo; } else { n := LeastFree(c, lo + 1, no); }
  }

  /** With a free number, a retry leads to a new attempt, and to the end of the work. */
  lemma RetryHelps(c: Case) returns (es: seq<Event>)
    requires AtRest(c) && FreeFrom(c, 1)
    ensures AlwaysCalm(c, es) && RunAll(c, es).rows.attempts != c.rows.attempts
    ensures !EffectOf(c.rows.action.plan).UnknownType? ==> RunAll(c, es).rows.action.status.Executed?
  {
    hide Step, AtRest, LedgerInv, Claimable;
    var no :| 1 <= no <= c.limit && no !in c.rows.attempts;
    var n := LeastFree(c, 1, no);
    var first := RetryOnce(c);
    var d := RunAll(c, first);
    var second := ClaimUntilFree(d, n);
    WorkOn(RunAll(d, second));
    var rest := second + WORK;
    RunOn(d, second, WORK);
    RunOn(c, first, rest);
    NoCommitsAreCalm(d, rest);
    CalmOn(c, first, rest);
    es := first + rest;
  }

  /**
   A reset helps exactly when a number is left. From a dead-lettered action at rest, some run without
   a reset under a claim begins another attempt if and only if one of the numbers 1 to the limit was
   never used, and if its type is known, that is also when some such run executes it.
   */
  lemma ResetHelpsIff(c: Case)
    requires AtRest(c)
    ensures (exists es :: AlwaysCalm(c, es) && RunAll(c, es).rows.attempts != c.rows.attempts) <==> FreeFrom(c, 1)
    ensures !EffectOf(c.rows.action.plan).UnknownType? ==>
              ((exists es :: AlwaysCalm(c, es) && RunAll(c, es).rows.action.status.Executed?) <==> FreeFrom(c, 1))
  {
    hide Step;
    if FreeFrom(c, 1) {
      var es := RetryHelps(c);
    } else {
      assert Spent(c);
      forall es | AlwaysCalm(c, es)
        ensures RunAll(c, es).rows.attempts == c.rows.attempts && !RunAll(c, es).rows.action.status.Executed?
      {
        SpentActionsNeverRunAgain(c, es);
      }
    }
  }

  // ----- with resets under a claim -----

  /** Every number a call could be given is used, 0 included, and no call is inside its `try`. */
  ghost predicate AllUsed(c: Case) {
    && LedgerInv(c)
    && (forall no | 0 <= no <= c.limit :: no in c.rows.attempts)
    && forall id | id in c.runs :: !InTry(c.runs[id])
  }

  lemma RunStaysUsed(c: Case, id: string, e: Event)
    requires AllUsed(c) && id in c.runs && Enabled(c.runs[id], e)
    ensures AllUsed(RunStep(c, id, e)) && NothingDone(c, RunStep(c, id, e))
  {
    RunKeepsLedger(c, id, e);
  }

  lemma StepStaysUsed(c: Case, e: Event)
    requires AllUsed(c)
    ensures AllUsed(Step(c, e)) && NothingDone(c, Step(c, e))
  {
    hide RunStep, CommitStep;
    StepKeepsLedger(c, e);
    if Plain(e) {
      PlainFrame(c, e);
    } else if e.Commit? {
      if e.request in c.requests { CommitFrame(c, e.request, e.now); }
    } else if e.run in c.runs && Enabled(c.runs[e.run], e) {
      RunStaysUsed(c, e.run, e);
    }
  }

  lemma {:induction false} UsedThroughout(c: Case, es: seq<Event>)
    requires AllUsed(c)
    ensures AllUsed(RunAll(c, es)) && NothingDone(c, RunAll(c, es))
    decreases |es|
  {
    hide Step;
    if es != [] {
      StepStaysUsed(c, es[0]);
      UsedThroughout(Step(c, es[0]), es[1..]);
    }
  }

  /** Two retries read the same dead letter; the second commits under the claim that the first allowed. */
  lemma ResetUnderClaim(c: Case) returns (es: seq<Event>)
    requires AtRest(c) && c.limit >= 1
    ensures var d := RunAll(c, es);
            && "r" in d.runs && d.runs["r"].phase.Holding? && d.runs["r"].attemptNo == 0
            && d.rows.attempts == c.rows.attempts && d.rows.action.plan == c.rows.action.plan
  {
    hide Step, LedgerInv;
    var ready := TwoRetries(c);
    var d := RunAll(c, ready);
    ClaimsFirst(d);
    var e := RunAll(d, [READ, ClaimUpdate("r")]);
    SecondRetry(e);
    RunOn(d, [READ, ClaimUpdate("r")], [Commit("q2", 0), Reread("r")]);
    var rest := [READ, ClaimUpdate("r")] + [Commit("q2", 0), Reread("r")];
    RunOn(c, ready, rest);
    es := ready + rest;
  }

  lemma TwoRetries(c: Case) returns (es: seq<Event>)
    requires AtRest(c) && c.limit >= 1
    ensures var d := RunAll(c, es);
            && Claimable(d) && d.requests == map["q2" := Retrying(true)] && d.rows.attempts == c.rows.attempts
            && d.rows.action.plan == c.rows.action.plan
  {
    var d := c.(requests := map["q" := Retrying(true), "q2" := Retrying(true)]);
    RunTwo(c, ReadToRetry("q", Operator(c)), ReadToRetry("q2", Operator(c)));
    assert Step(c, ReadToRetry("q", Operator(c))) == c.(requests := map["q" := Retrying(true)]);
    assert RunAll(c, [ReadToRetry("q", Operator(c)), ReadToRetry("q2", Operator(c))]) == d;
    RunOne(d, Commit("q", 0));
    assert Step(d, Commit("q", 0)) == CommitStep(d, "q", Retrying(true), 0);
    assert d.requests - {"q"} == map["q2" := Retrying(true)];
    RunOn(c, [ReadToRetry("q", Operator(c)), ReadToRetry("q2", Operator(c))], [Commit("q", 0)]);
    es := [ReadToRetry("q", Operator(c)), ReadToRetry("q2", Operator(c))] + [Commit("q", 0)];
  }

  lemma SecondRetry(c: Case)
    requires c.requests == map["q2" := Retrying(true)] && "r" in c.runs && c.runs["r"].phase.Won?
    ensures var d := RunAll(c, [Commit("q2", 0), Reread("r")]);
            && "r" in d.runs && d.runs["r"].phase.Holding? && d.runs["r"].attemptNo == 0
            && d.rows.attempts == c.rows.attempts && d.rows.action.plan == c.rows.action.plan
  {
    RunTwo(c, Commit("q2", 0), Reread("r"));
    assert Step(c, Commit("q2", 0)) == CommitStep(c, "q2", Retrying(true), 0);
  }

  /**
   With any interleaving of resets at all, one number more counts: a reset that commits between a
   claim and that call's second read hands out number 0, once.
   */
  lemma AnyResetHelpsIff(c: Case)
    requires AtRest(c) && c.limit >= 1
    ensures (exists es :: RunAll(c, es).rows.attempts != c.rows.attempts) <==> FreeFrom(c, 0)
    ensures !EffectOf(c.rows.action.plan).UnknownType? ==>
              ((exists es :: RunAll(c, es).rows.action.status.Executed?) <==> FreeFrom(c, 0))
  {
    hide Step;
    if FreeFrom(c, 1) {
      var es := RetryHelps(c);
    } else if FreeFrom(c, 0) {
      var first := ResetUnderClaim(c);
      WorkOn(RunAll(c, first));
      RunOn(c, first, WORK);
      assert RunAll(c, first + WORK).rows.attempts != c.rows.attempts;
    } else {
      assert AllUsed(c);
      forall es
        ensures RunAll(c, es).rows.attempts == c.rows.attempts && !RunAll(c, es).rows.action.status.Executed?
      {
        UsedThroughout(c, es);
      }
    }
  }
}
