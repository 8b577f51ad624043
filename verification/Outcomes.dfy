/** What the end states of an action promise, over every run of `Lifecycle`. */
module Outcomes {
  import opened Domain
  import opened ActionRows
  import opened Lifecycle

  /** The effect row that the action's type and payload ask for, if any, is there. */
  predicate EffectDone(rows: Rows) {
    match EffectOf(rows.action.plan)
    case WriteRow(key) => key in rows.effects
    case External => true
    case AuditOnly => true
    case UnknownType => false
  }

  /** A run inside its `try` owns its attempt row, and its work so far is in the tables. */
  predicate RunKept(c: Case, id: string) {
    id in c.runs && InTry(c.runs[id]) ==>
      && c.runs[id].attemptNo in c.rows.attempts
      && c.rows.attempts[c.runs[id].attemptNo].owner == id
      && (!c.runs[id].phase.Executing? ==> EffectDone(c.rows))
      && (c.runs[id].phase.Succeeding? || c.runs[id].phase.Marked? ==>
            c.rows.attempts[c.runs[id].attemptNo].status.Succeeded?)
  }

  predicate SomeSuccess(rows: Rows) {
    exists no | no in rows.attempts :: rows.attempts[no].status.Succeeded?
  }

  ghost predicate OutcomeInv(c: Case) {
    && (forall id | id in c.runs :: RunKept(c, id))
    && (c.rows.action.status.Executed? ==> SomeSuccess(c.rows) && EffectDone(c.rows))
    && (c.rows.action.status.DeadLetter? ==> c.rows.deadLetter == Some(Open))
    && (forall key | key in c.rows.effects :: EffectOf(c.rows.action.plan) == WriteRow(key))
  }

  /** Rows that are never deleted, and contents that are never rewritten. */
  ghost predicate Kept(c: Case, d: Case) {
    && d.rows.action.plan == c.rows.action.plan
    && (forall key | key in c.rows.effects :: key in d.rows.effects && d.rows.effects[key] == c.rows.effects[key])
    && (forall no | no in c.rows.attempts ::
          no in d.rows.attempts && d.rows.attempts[no].owner == c.rows.attempts[no].owner)
    && (c.rows.deadLetter.Some? ==> d.rows.deadLetter.Some?)
  }

  lemma FailKeepsOutcome(c: Case, id: string, retryable: bool)
    requires OutcomeInv(c) && id in c.runs && InTry(c.runs[id])
    ensures var d := FailStep(c, id, c.runs[id], retryable); OutcomeInv(d) && Kept(c, d)
  {
    var d := FailStep(c, id, c.runs[id], retryable);
    forall k | k in d.runs ensures RunKept(d, k) {
      assert RunKept(c, k) && RunKept(c, id);
    }
  }

  lemma InsertKeepsOutcome(c: Case, id: string)
    requires OutcomeInv(c) && id in c.runs && c.runs[id].phase.Holding?
    ensures var d := InsertStep(c, id, c.runs[id]); OutcomeInv(d) && Kept(c, d)
  {
    var d := InsertStep(c, id, c.runs[id]);
    forall k | k in d.runs ensures RunKept(d, k) {
      assert RunKept(c, k);
    }
    if d.rows.action.status.Executed? {
      var no :| no in c.rows.attempts && c.rows.attempts[no].status.Succeeded?;
      assert no in d.rows.attempts && d.rows.attempts[no].status.Succeeded?;
    }
  }

  lemma ProgressKeepsOutcome(c: Case, id: string, e: Event)
    requires OutcomeInv(c) && id in c.runs && Enabled(c.runs[id], e)
    requires e.RunEffect? || e.SucceedAttempt? || e.MarkExecuted?
    ensures var d := RunStep(c, id, e); OutcomeInv(d) && Kept(c, d)
  {
    var d := RunStep(c, id, e);
    forall k | k in d.runs ensures RunKept(d, k) {
      assert RunKept(c, k) && RunKept(c, id);
    }
    if d.rows.action.status.Executed? {
      var no :| no in c.rows.attempts && c.rows.attempts[no].status.Succeeded?;
      assert no in d.rows.attempts && d.rows.attempts[no].status.Succeeded?;
    }
  }

  lemma OthersKeepOutcome(c: Case, id: string, e: Event)
    requires OutcomeInv(c) && id in c.runs && Enabled(c.runs[id], e)
    requires e.ClaimUpdate? || e.Reread? || e.Finish? || e.DeadLetterExhausted? || e.Crash?
    ensures var d := RunStep(c, id, e); OutcomeInv(d) && Kept(c, d)
  {
    var d := RunStep(c, id, e);
    forall k | k in d.runs ensures RunKept(d, k) {
      assert RunKept(c, k);
    }
  }

  lemma RunKeepsOutcome(c: Case, id: string, e: Event)
    requires OutcomeInv(c) && id in c.runs && Enabled(c.runs[id], e)
    ensures OutcomeInv(RunStep(c, id, e)) && Kept(c, RunStep(c, id, e))
  {
    if e.FailAttempt? {
      FailKeepsOutcome(c, id, e.retryable);
    } else if e.InsertAttempt? {
      InsertKeepsOutcome(c, id);
    } else if e.RunEffect? || e.SucceedAttempt? || e.MarkExecuted? {
      ProgressKeepsOutcome(c, id, e);
    } else {
      OthersKeepOutcome(c, id, e);
    }
  }

  lemma PlainKeepsOutcome(c: Case, e: Event)
    requires OutcomeInv(c) && Plain(e)
    ensures OutcomeInv(Step(c, e)) && Kept(c, Step(c, e))
  {
    var d := Step(c, e);
    PlainFrame(c, e);
    forall k | k in d.runs ensures RunKept(d, k) {
      assert k in c.runs ==> RunKept(c, k);
    }
  }

  lemma CommitKeepsOutcome(c: Case, id: string, now: int)
    requires OutcomeInv(c) && id in c.requests
    ensures var d := CommitStep(c, id, c.requests[id], now); OutcomeInv(d) && Kept(c, d)
  {
    var d := CommitStep(c, id, c.requests[id], now);
    CommitFrame(c, id, now);
    forall k | k in d.runs ensures RunKept(d, k) {
      assert RunKept(c, k);
    }
  }

  lemma StepKeepsOutcome(c: Case, e: Event)
    requires OutcomeInv(c)
    ensures OutcomeInv(Step(c, e)) && Kept(c, Step(c, e))
  {
    if Plain(e) {
      PlainKeepsOutcome(c, e);
    } else if e.Commit? {
      if e.request in c.requests { CommitKeepsOutcome(c, e.request, e.now); }
    } else if e.run in c.runs && Enabled(c.runs[e.run], e) {
      RunKeepsOutcome(c, e.run, e);
    }
  }

  lemma {:induction false} OutcomesThroughout(c: Case, es: seq<Event>)
    requires OutcomeInv(c)
    ensures OutcomeInv(RunAll(c, es)) && Kept(c, RunAll(c, es))
    decreases |es|
  {
    if es != [] {
      StepKeepsOutcome(c, es[0]);
      OutcomesThroughout(Step(c, es[0]), es[1..]);
    }
  }

  /**
   The effect tables hold this action's rows: the ones its type writes to and no others, and its type is one
   that is carried out at all.
   */
  ghost predicate WorkDone(rows: Rows) {
    && (Delegated(rows.action.plan) || BuiltIn(rows.action.plan.kind))
    && forall key :: key in rows.effects <==> AsksFor(rows.action.plan, key)
  }

  /**
   Under any interleaving, with expired locks, takeovers and failures after the final update, an
   `Executed` action has an attempt that succeeded and exactly the rows that its type writes, with its
   channel and recipient for a notification; and no effect row of another table ever appears.
   */
  lemma FinishedMeansDone(p: Planned, auto: bool, limit: nat, now: int, es: seq<Event>)
    ensures var c := RunAll(NewCase(p, auto, limit, now), es);
            && (c.rows.action.status.Executed? ==> SomeSuccess(c.rows) && WorkDone(c.rows))
            && (forall key | key in c.rows.effects :: AsksFor(p, key))
  {
    OutcomesThroughout(NewCase(p, auto, limit, now), es);
    forall key ensures EffectOf(p) == WriteRow(key) <==> AsksFor(p, key) {
      EffectsByTable(p, key);
    }
  }

  /** A dead-lettered action always has its dead-letter row, and that row is open. */
  lemma DeadWorkStaysVisible(p: Planned, auto: bool, limit: nat, now: int, es: seq<Event>)
    ensures var c := RunAll(NewCase(p, auto, limit, now), es);
            c.rows.action.status.DeadLetter? ==> c.rows.deadLetter == Some(Open)
  {
    OutcomesThroughout(NewCase(p, auto, limit, now), es);
  }

  /**
   However often an action is executed, it owns at most one row across all effect tables, and
   a row that some execution wrote keeps its first contents for ever.
   */
  lemma EffectsHappenOnce(p: Planned, auto: bool, limit: nat, now: int, es: seq<Event>, later: seq<Event>)
    ensures var c := RunAll(NewCase(p, auto, limit, now), es);
            var d := RunAll(c, later);
            && |d.rows.effects| <= 1
            && (c.rows.effects != map[] ==> d.rows.effects == c.rows.effects)
  {
    var c := RunAll(NewCase(p, auto, limit, now), es);
    OutcomesThroughout(NewCase(p, auto, limit, now), es);
    OutcomesThroughout(c, later);
    var d := RunAll(c, later);
    match EffectOf(p)
    case WriteRow(key) =>
      assert d.rows.effects.Keys <= {key};
      assert |d.rows.effects.Keys| <= |{key}| by {
        if d.rows.effects.Keys != {} { assert d.rows.effects.Keys == {key}; }
      }
      if c.rows.effects != map[] {
        assert c.rows.effects.Keys != {};
        assert c.rows.effects.Keys == {key} == d.rows.effects.Keys;
      }
    case _ =>
      assert c.rows.effects.Keys == {} == d.rows.effects.Keys;
      assert d.rows.effects == map[];
  }
}
