/**
 `Lifecycle` runs on the clock of `Lease`: one action's whole life and the race for its lock, event by
 event side by side, so that the bound on the lock says something about attempts and their results.
 */
module TimedRuns {
  import opened Domain
  import opened ActionRows
  import L = Lifecycle
  import Lease
  import ApprovalGate

  /** The same action in both models. */
  datatype Timed = Timed(c: L.Case, s: Lease.State)

  /** A step of the life, the clock, the start of a call, or a beat leaving a call. */
  datatype Event = Do(event: L.Event) | Tick(dt: nat) | Begin(run: string, worker: string) | Fire(run: string)

  predicate Ends(c: L.Case, e: L.Event)
    requires e.FailAttempt? && e.run in c.runs
  {
    !e.retryable || c.runs[e.run].attemptNo >= c.runs[e.run].limit
  }

  /** What a worker's event does to the lock. */
  function RunSide(c: L.Case, e: L.Event): Option<Lease.Event>
    requires !L.Plain(e) && !e.Commit? && e.run in c.runs && L.Enabled(c.runs[e.run], e)
  {
    match e
    case ClaimUpdate(id) => Some(Lease.Win(id))
    case InsertAttempt(id) =>
      Some(if c.runs[id].attemptNo in c.rows.attempts then Lease.End(id, None) else Lease.StartTimer(id))
    case MarkExecuted(id) => Some(Lease.Mark(id))
    case FailAttempt(id, _) => Some(Lease.End(id, Some(if Ends(c, e) then DeadLetter else Failed)))
    case DeadLetterExhausted(id) => Some(Lease.DeadLetterDoomed(id))
    case Finish(id) => Some(Lease.End(id, None))
    case Crash(id) => Some(Lease.End(id, None))
    case _ => None
  }

  /** What an admin's commit does to the lock of a released action. */
  function CommitSide(c: L.Case, q: L.Request): Option<Lease.Event> {
    match q
    case Expiring => if c.rows.approval.Some? then Some(Lease.Cancel) else None
    case Retrying(wasDead) => Some(Lease.Requeue(c.limit, wasDead))
    case Reprocessing => Some(Lease.Requeue(c.limit, true))
    case _ => None
  }

  /** The event of `Lease` that goes with an event of `Lifecycle`, if any. */
  function Side(c: L.Case, e: L.Event): Option<Lease.Event> {
    if e.ReadToClaim? then Some(Lease.ReadRow(e.run))
    else if e.Heartbeat? then Some(Lease.Land(Lease.Beat(e.worker, e.now)))
    else if L.Plain(e) then None
    else if e.Commit? then if e.request in c.requests then CommitSide(c, c.requests[e.request]) else None
    else if e.run in c.runs && L.Enabled(c.runs[e.run], e) then RunSide(c, e)
    else None
  }

  function LeaseStep(s: Lease.State, tm: Lease.Timing, e: Option<Lease.Event>): Lease.State {
    if e.None? then s else Lease.Step(s, tm, e.value)
  }

  /** What any event does to the lock. */
  function LockSide(t: Timed, e: Event): Option<Lease.Event> {
    match e
    case Do(event) => Side(t.c, event)
    case Tick(dt) => Some(Lease.Tick(dt))
    case Begin(run, worker) => Some(Lease.Begin(run, worker))
    case Fire(run) => Some(Lease.Fire(run))
  }

  function Step(t: Timed, tm: Lease.Timing, e: Event): Timed {
    Timed(if e.Do? then L.Step(t.c, e.event) else t.c, LeaseStep(t.s, tm, LockSide(t, e)))
  }

  function RunAll(t: Timed, tm: Lease.Timing, es: seq<Event>): Timed
    decreases |es|
  {
    if es == [] then t else RunAll(Step(t, tm, es[0]), tm, es[1..])
  }

  /** The life alone, without the clock. */
  function Life(es: seq<Event>): seq<L.Event> {
    if es == [] then [] else (if es[0].Do? then [es[0].event] else []) + Life(es[1..])
  }

  /** The clock values in an event are those of the clock: a claim's are its call's, a beat's were fired. */
  predicate OnClock(t: Timed, tm: Lease.Timing, e: L.Event) {
    && (e.ReadToClaim? && e.run !in t.c.runs ==>
          && e.run in t.s.calls && t.s.calls[e.run].stage.Reading? && t.s.calls[e.run].worker == e.worker
          && e.now == t.s.calls[e.run].readAt && e.expires == t.s.now + tm.ttl)
    && (e.Heartbeat? ==> Lease.Beat(e.worker, e.now) in t.s.beats && e.expires == e.now + tm.ttl)
  }

  /** The run keeps the clock, and writers that ignore the lock take care of the row. */
  ghost predicate Valid(t: Timed, tm: Lease.Timing, es: seq<Event>)
    decreases |es|
  {
    es != [] ==>
      && (es[0].Do? ==> OnClock(t, tm, es[0].event))
      && (LockSide(t, es[0]).Some? ==> Lease.Careful(t.s, LockSide(t, es[0]).value, Lease.FULL))
      && Valid(Step(t, tm, es[0]), tm, es[1..])
  }

  // ----- both sides tell the same story -----

  predicate Matches(r: L.Run, k: Lease.Call, tm: Lease.Timing) {
    && r.worker == k.worker
    && match r.phase
       case Claiming => k.stage.Ready? && k.readAt == r.now && k.stamp + tm.ttl == r.expires && k.limit == r.limit
       case Exhausted => k.stage.Doomed?
       case Won => k.stage.Setup?
       case Holding => k.stage.Setup?
       case _ => k.stage.Working?
  }

  ghost predicate Agree(t: Timed, tm: Lease.Timing) {
    && t.s.row == t.c.rows.action
    && (forall id | id in t.c.runs :: id in t.s.calls && Matches(t.c.runs[id], t.s.calls[id], tm))
    && (forall id | id in t.s.calls && !t.s.calls[id].stage.Reading? :: id in t.c.runs)
  }

  lemma ClockKeepsAgreement(t: Timed, tm: Lease.Timing, e: Event)
    requires Agree(t, tm) && !e.Do?
    ensures Agree(Step(t, tm, e), tm)
  {
  }

  lemma ReadKeepsAgreement(t: Timed, tm: Lease.Timing, e: L.Event)
    requires Agree(t, tm) && e.ReadToClaim? && OnClock(t, tm, e)
    ensures Agree(Step(t, tm, Do(e)), tm)
  {
    assert L.Step(t.c, e) == L.ReadStep(t.c, e.run, e.worker, e.now, e.expires);
    if e.run in t.c.runs { assert Matches(t.c.runs[e.run], t.s.calls[e.run], tm); }
  }

  lemma PlainKeepsAgreement(t: Timed, tm: Lease.Timing, e: L.Event)
    requires Agree(t, tm) && L.Plain(e) && !e.ReadToClaim? && OnClock(t, tm, e)
    ensures Agree(Step(t, tm, Do(e)), tm)
  {
  }

  lemma CommitKeepsAgreement(t: Timed, tm: Lease.Timing, e: L.Event)
    requires Agree(t, tm) && e.Commit? && ApprovalGate.GateInv(t.c) && ApprovalGate.Released(t.c)
    ensures Agree(Step(t, tm, Do(e)), tm)
  {
    if e.request in t.c.requests {
      assert ApprovalGate.RequestOk(t.c, t.c.requests[e.request]);
      assert L.Step(t.c, e) == L.CommitStep(t.c, e.request, t.c.requests[e.request], e.now);
    }
  }

  lemma ClaimKeepsAgreement(t: Timed, tm: Lease.Timing, id: string)
    requires Agree(t, tm) && id in t.c.runs && t.c.runs[id].phase.Claiming?
    ensures Agree(Step(t, tm, Do(L.ClaimUpdate(id))), tm)
  {
    assert L.Step(t.c, L.ClaimUpdate(id)) == L.ClaimStep(t.c, id, t.c.runs[id]);
    assert Matches(t.c.runs[id], t.s.calls[id], tm);
  }

  lemma InsertKeepsAgreement(t: Timed, tm: Lease.Timing, id: string)
    requires Agree(t, tm) && id in t.c.runs && t.c.runs[id].phase.Holding?
    ensures Agree(Step(t, tm, Do(L.InsertAttempt(id))), tm)
  {
    assert L.Step(t.c, L.InsertAttempt(id)) == L.InsertStep(t.c, id, t.c.runs[id]);
    assert Matches(t.c.runs[id], t.s.calls[id], tm);
  }

  /** One call changes on both sides, to something that matches... */
  lemma MovesAgree(t: Timed, u: Timed, tm: Lease.Timing, id: string, r: L.Run, k: Lease.Call)
    requires Agree(t, tm) && u.s.row == u.c.rows.action && Matches(r, k, tm)
    requires u.c.runs == t.c.runs[id := r] && u.s.calls == t.s.calls[id := k]
    ensures Agree(u, tm)
  {
  }

  /** ... or ends on both. */
  lemma EndsAgree(t: Timed, u: Timed, tm: Lease.Timing, id: string)
    requires Agree(t, tm) && u.s.row == u.c.rows.action
    requires u.c.runs == t.c.runs - {id} && u.s.calls == t.s.calls - {id}
    ensures Agree(u, tm)
  {
  }

  /** Steps between claim and result that the lock does not see. */
  lemma SilentKeepsAgreement(t: Timed, tm: Lease.Timing, e: L.Event)
    requires Agree(t, tm) && (e.Reread? || e.RunEffect? || e.SucceedAttempt?)
    requires e.run in t.c.runs && L.Enabled(t.c.runs[e.run], e)
    ensures Agree(Step(t, tm, Do(e)), tm)
  {
    hide Lease.Step;
    assert Matches(t.c.runs[e.run], t.s.calls[e.run], tm);
    var u := Step(t, tm, Do(e));
    assert u.s == t.s;
    SilentMoves(t.c, e);
    assert t.s.calls[e.run := t.s.calls[e.run]] == t.s.calls;
    hide L.Step;
    MovesAgree(t, u, tm, e.run, u.c.runs[e.run], t.s.calls[e.run]);
  }

  lemma SilentMoves(c: L.Case, e: L.Event)
    requires (e.Reread? || e.RunEffect? || e.SucceedAttempt?) && e.run in c.runs && L.Enabled(c.runs[e.run], e)
    ensures var d := L.Step(c, e);
            && d.rows.action == c.rows.action && e.run in d.runs
            && d.runs == c.runs[e.run := d.runs[e.run]] && d.runs[e.run].worker == c.runs[e.run].worker
            && (e.Reread? ==> d.runs[e.run].phase.Holding?)
            && (!e.Reread? ==> L.InTry(d.runs[e.run]))
  {
  }

  lemma MarkKeepsAgreement(t: Timed, tm: Lease.Timing, id: string)
    requires Agree(t, tm) && id in t.c.runs && t.c.runs[id].phase.Succeeding?
    ensures Agree(Step(t, tm, Do(L.MarkExecuted(id))), tm)
  {
    assert L.Step(t.c, L.MarkExecuted(id)) == L.MarkStep(t.c, id, t.c.runs[id]);
    assert Matches(t.c.runs[id], t.s.calls[id], tm);
  }

  lemma FailKeepsAgreement(t: Timed, tm: Lease.Timing, e: L.Event)
    requires Agree(t, tm) && e.FailAttempt? && e.run in t.c.runs && L.Enabled(t.c.runs[e.run], e)
    ensures Agree(Step(t, tm, Do(e)), tm)
  {
    assert L.Step(t.c, e) == L.FailStep(t.c, e.run, t.c.runs[e.run], e.retryable);
    assert Matches(t.c.runs[e.run], t.s.calls[e.run], tm);
  }

  lemma EndKeepsAgreement(t: Timed, tm: Lease.Timing, e: L.Event)
    requires Agree(t, tm) && (e.DeadLetterExhausted? || e.Finish? || e.Crash?)
    requires e.run in t.c.runs && L.Enabled(t.c.runs[e.run], e)
    ensures Agree(Step(t, tm, Do(e)), tm)
  {
    assert Matches(t.c.runs[e.run], t.s.calls[e.run], tm);
    var u := Step(t, tm, Do(e));
    EndsRun(t.c, e);
    EndsCall(t.s, tm, RunSide(t.c, e).value);
    hide L.Step, Lease.Step;
    EndsAgree(t, u, tm, e.run);
  }

  lemma EndsRun(c: L.Case, e: L.Event)
    requires (e.DeadLetterExhausted? || e.Finish? || e.Crash?) && e.run in c.runs && L.Enabled(c.runs[e.run], e)
    ensures var d := L.Step(c, e);
            && d.runs == c.runs - {e.run}
            && d.rows.action == if e.DeadLetterExhausted? then FinishRow(c.rows.action, DeadLetter) else c.rows.action
  {
  }

  lemma EndsCall(s: Lease.State, tm: Lease.Timing, e: Lease.Event)
    requires (e.DeadLetterDoomed? || (e.End? && e.status == None)) && e.call in s.calls
    requires e.DeadLetterDoomed? ==> s.calls[e.call].stage.Doomed?
    ensures var d := Lease.Step(s, tm, e);
            && d.calls == s.calls - {e.call}
            && d.row == if e.DeadLetterDoomed? then FinishRow(s.row, DeadLetter) else s.row
  {
  }

  lemma DoKeepsAgreement(t: Timed, tm: Lease.Timing, e: L.Event)
    requires Agree(t, tm) && OnClock(t, tm, e) && ApprovalGate.GateInv(t.c) && ApprovalGate.Released(t.c)
    ensures Agree(Step(t, tm, Do(e)), tm)
  {
    hide L.RunStep, L.CommitStep, L.PlainStep, Agree, OnClock, ApprovalGate.GateInv, ApprovalGate.Released;
    if e.ReadToClaim? {
      ReadKeepsAgreement(t, tm, e);
    } else if L.Plain(e) {
      PlainKeepsAgreement(t, tm, e);
    } else if e.Commit? {
      CommitKeepsAgreement(t, tm, e);
    } else if e.run in t.c.runs && L.Enabled(t.c.runs[e.run], e) {
      if e.ClaimUpdate? {
        ClaimKeepsAgreement(t, tm, e.run);
      } else if e.InsertAttempt? {
        InsertKeepsAgreement(t, tm, e.run);
      } else if e.MarkExecuted? {
        MarkKeepsAgreement(t, tm, e.run);
      } else if e.FailAttempt? {
        FailKeepsAgreement(t, tm, e);
      } else if e.Reread? || e.RunEffect? || e.SucceedAttempt? {
        SilentKeepsAgreement(t, tm, e);
      } else {
        EndKeepsAgreement(t, tm, e);
      }
    } else {
      IdleKeepsAgreement(t, tm, e);
    }
  }

  lemma IdleKeepsAgreement(t: Timed, tm: Lease.Timing, e: L.Event)
    requires Agree(t, tm) && L.Step(t.c, e) == t.c && Side(t.c, e) == None
    ensures Agree(Step(t, tm, Do(e)), tm)
  {
    hide L.Step, Side, Agree;
  }

  // ----- what the lock guarantees about attempts -----

  /** The run won the lock and has not returned or crashed. */
  predicate AtWork(r: L.Run) {
    r.phase.Won? || r.phase.Holding? || L.InTry(r)
  }

  /** A call past its second read works on the latest claim. */
  ghost predicate Latest(t: Timed) {
    forall id | id in t.c.runs && (t.c.runs[id].phase.Holding? || L.InTry(t.c.runs[id])) ::
      t.c.runs[id].attemptNo == t.c.rows.action.attemptCount
  }

  ghost predicate TimedInv(t: Timed, tm: Lease.Timing) {
    && Agree(t, tm) && Lease.LeaseInv(t.s, tm) && Lease.HoldersShow(t.s) && Latest(t)
    && ApprovalGate.GateInv(t.c) && ApprovalGate.Released(t.c)
  }

  lemma WorkersHold(t: Timed, tm: Lease.Timing, id: string)
    requires Agree(t, tm) && id in t.c.runs && AtWork(t.c.runs[id])
    ensures id in t.s.calls && Lease.Holds(t.s.calls[id])
  {
    assert Matches(t.c.runs[id], t.s.calls[id], tm);
  }

  lemma RunKeepsLatest(t: Timed, tm: Lease.Timing, e: L.Event)
    requires Agree(t, tm) && Latest(t) && !L.Plain(e) && !e.Commit? && !e.ClaimUpdate?
    requires e.run in t.c.runs && L.Enabled(t.c.runs[e.run], e)
    ensures Latest(Step(t, tm, Do(e)))
  {
    assert L.Step(t.c, e) == L.RunStep(t.c, e.run, e);
  }

  /** A claim that wins finds nobody at work, because afterwards there is only the winner. */
  lemma ClaimKeepsLatest(t: Timed, tm: Lease.Timing, id: string)
    requires Agree(t, tm) && Latest(t) && id in t.c.runs && t.c.runs[id].phase.Claiming?
    requires var u := Step(t, tm, Do(L.ClaimUpdate(id))); Agree(u, tm) && Lease.AtMostOneHolder(u.s)
    ensures Latest(Step(t, tm, Do(L.ClaimUpdate(id))))
  {
    var u := Step(t, tm, Do(L.ClaimUpdate(id)));
    assert u.c == L.ClaimStep(t.c, id, t.c.runs[id]);
    forall other | other in u.c.runs && (u.c.runs[other].phase.Holding? || L.InTry(u.c.runs[other]))
      ensures u.c.runs[other].attemptNo == u.c.rows.action.attemptCount
    {
      if id in u.c.runs {
        WorkersHold(u, tm, id);
        WorkersHold(u, tm, other);
      }
    }
  }

  lemma CommitKeepsLatest(t: Timed, tm: Lease.Timing, e: L.Event)
    requires Agree(t, tm) && Latest(t) && e.Commit?
    requires var x := Side(t.c, e); x.Some? && (x.value.Requeue? || x.value.Cancel?) ==> Lease.NoHolder(t.s)
    ensures Latest(Step(t, tm, Do(e)))
  {
    if e.request in t.c.requests {
      L.CommitFrame(t.c, e.request, e.now);
      var d := L.Step(t.c, e);
      assert d == L.CommitStep(t.c, e.request, t.c.requests[e.request], e.now);
      forall id | id in d.runs && (d.runs[id].phase.Holding? || L.InTry(d.runs[id]))
        ensures d.runs[id].attemptNo == d.rows.action.attemptCount
      {
        WorkersHold(t, tm, id);
      }
    }
  }

  lemma PlainKeepsLatest(t: Timed, tm: Lease.Timing, e: L.Event)
    requires Latest(t) && L.Plain(e)
    ensures Latest(Step(t, tm, Do(e)))
  {
    L.PlainFrame(t.c, e);
  }

  lemma DoKeepsLatest(t: Timed, tm: Lease.Timing, e: L.Event)
    requires Agree(t, tm) && Latest(t)
    requires var u := Step(t, tm, Do(e)); Agree(u, tm) && Lease.AtMostOneHolder(u.s)
    requires var x := Side(t.c, e); x.Some? && (x.value.Requeue? || x.value.Cancel?) ==> Lease.NoHolder(t.s)
    ensures Latest(Step(t, tm, Do(e)))
  {
    hide L.RunStep, L.CommitStep, L.PlainStep, Agree, Latest, Lease.Step, Lease.NoHolder, Lease.AtMostOneHolder;
    if L.Plain(e) {
      PlainKeepsLatest(t, tm, e);
    } else if e.Commit? {
      CommitKeepsLatest(t, tm, e);
    } else if e.run in t.c.runs && L.Enabled(t.c.runs[e.run], e) {
      if e.ClaimUpdate? { ClaimKeepsLatest(t, tm, e.run); } else { RunKeepsLatest(t, tm, e); }
    } else {
      assert Step(t, tm, Do(e)).c == t.c;
      SameCaseSameLatest(t, Step(t, tm, Do(e)));
    }
  }

  lemma SameCaseSameLatest(t: Timed, u: Timed)
    requires Latest(t) && u.c == t.c
    ensures Latest(u)
  {
  }

  lemma LeaseSideKeeps(s: Lease.State, tm: Lease.Timing, e: Option<Lease.Event>)
    requires Lease.LeaseInv(s, tm) && Lease.HoldersShow(s) && tm.ttl > tm.period + tm.setup + 2 * tm.delay
    requires e.Some? ==> Lease.Careful(s, e.value, Lease.FULL)
    ensures Lease.LeaseInv(LeaseStep(s, tm, e), tm) && Lease.HoldersShow(LeaseStep(s, tm, e))
    ensures e.Some? && (e.value.Requeue? || e.value.Cancel?) ==> Lease.NoHolder(s)
  {
    hide Lease.LeaseInv, Lease.HoldersShow, Lease.Step, Lease.Careful, Lease.NoHolder;
    if e.Some? {
      Lease.StepKeepsShown(s, tm, e.value);
      Lease.StepKeeps(s, tm, e.value);
    }
  }

  lemma LifeKeepsGate(c: L.Case, e: L.Event)
    requires ApprovalGate.GateInv(c) && ApprovalGate.Released(c)
    ensures ApprovalGate.GateInv(L.Step(c, e)) && ApprovalGate.Released(L.Step(c, e))
  {
    hide L.Step;
    ApprovalGate.StepKeepsGate(c, e);
  }

  lemma StepKeeps(t: Timed, tm: Lease.Timing, e: Event)
    requires TimedInv(t, tm) && tm.ttl > tm.period + tm.setup + 2 * tm.delay
    requires e.Do? ==> OnClock(t, tm, e.event)
    requires LockSide(t, e).Some? ==> Lease.Careful(t.s, LockSide(t, e).value, Lease.FULL)
    ensures TimedInv(Step(t, tm, e), tm)
  {
    hide Agree, Latest, LeaseStep, Lease.LeaseInv, Lease.HoldersShow, Lease.Careful, Side, OnClock, L.Step;
    hide ApprovalGate.GateInv, ApprovalGate.Released, Lease.NoHolder, Lease.AtMostOneHolder;
    LeaseSideKeeps(t.s, tm, LockSide(t, e));
    if e.Do? {
      LifeKeepsGate(t.c, e.event);
      DoKeepsAgreement(t, tm, e.event);
      OneHolder(Step(t, tm, e).s, tm);
      DoKeepsLatest(t, tm, e.event);
    } else {
      ClockKeepsAgreement(t, tm, e);
      SameCaseSameLatest(t, Step(t, tm, e));
    }
  }

  lemma OneHolder(s: Lease.State, tm: Lease.Timing)
    requires Lease.LeaseInv(s, tm)
    ensures Lease.AtMostOneHolder(s)
  {
  }

  lemma {:induction false} TimedThroughout(t: Timed, tm: Lease.Timing, es: seq<Event>)
    requires TimedInv(t, tm) && tm.ttl > tm.period + tm.setup + 2 * tm.delay && Valid(t, tm, es)
    ensures TimedInv(RunAll(t, tm, es), tm)
    decreases |es|
  {
    hide Step, TimedInv, LockSide, OnClock, Lease.Careful;
    if es != [] {
      StepKeeps(t, tm, es[0]);
      TimedThroughout(Step(t, tm, es[0]), tm, es[1..]);
    }
  }

  /** The timed run is a run of `Lifecycle`. */
  lemma {:induction false} LifeIsARun(t: Timed, tm: Lease.Timing, es: seq<Event>)
    ensures RunAll(t, tm, es).c == L.RunAll(t.c, Life(es))
    decreases |es|
  {
    hide L.Step, LeaseStep, LockSide;
    if es != [] {
      LifeIsARun(Step(t, tm, es[0]), tm, es[1..]);
      if es[0].Do? {
        assert Life(es)[0] == es[0].event && Life(es)[1..] == Life(es[1..]);
      } else {
        assert Life(es) == Life(es[1..]);
      }
    }
  }

  /** A released action at rest, and its lock. */
  function At(c: L.Case, start: int): Timed {
    Timed(c, Lease.Start(c.rows.action, start))
  }

  /**
   The lock does what attempts need. In every run of `Lifecycle` that keeps the clock, with a lock that
   outlives one period, one setup and two delays, and with writers that take care of the row: at most
   one call is at work on the action, and whatever it writes belongs to the latest claim, so that no
   completion, though none checks the lock, ever overwrites a later one.
   */
  lemma OneCallOnTheLatestAttempt(c: L.Case, start: int, tm: Lease.Timing, es: seq<Event>, a: string, b: string)
    requires ApprovalGate.GateInv(c) && ApprovalGate.Released(c) && c.runs == map[] && !c.rows.action.status.Running?
    requires tm.ttl > tm.period + tm.setup + 2 * tm.delay && Valid(At(c, start), tm, es)
    ensures var d := L.RunAll(c, Life(es));
            && (a in d.runs && b in d.runs && AtWork(d.runs[a]) && AtWork(d.runs[b]) ==> a == b)
            && (a in d.runs && L.InTry(d.runs[a]) ==> d.runs[a].attemptNo == d.rows.action.attemptCount)
  {
    hide L.Step, Step;
    TimedThroughout(At(c, start), tm, es);
    LifeIsARun(At(c, start), tm, es);
    var t := RunAll(At(c, start), tm, es);
    if a in t.c.runs && AtWork(t.c.runs[a]) { WorkersHold(t, tm, a); }
    if b in t.c.runs && AtWork(t.c.runs[b]) { WorkersHold(t, tm, b); }
  }
}
