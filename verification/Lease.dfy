/**
 The action lock against the clock: claims, heartbeats and takeovers of one action by any
 number of worker calls, with the delay of every database call made explicit.

 `heartbeat` is fired by a timer and not awaited, so each beat computes its expiry first and
 reaches the row later, possibly after a younger one, or after its own call has ended.
 */
module Lease {
  import opened Domain
  import opened ActionRows

  /**
   `ttl` is the lock's life; a working call fires a beat at most `period` apart; it starts its
   timer at most `setup` after it computed the expiry it claims with; and a beat reaches the
   database at most `delay` after it computed its own.
   */
  datatype Timing = Timing(ttl: int, period: nat, setup: nat, delay: nat)

  datatype Stage = Reading | Ready | Doomed | Setup | Working

  /** One call; `fires` and `covered` (its last expiry known to the row) are history. */
  datatype Call = Call(
    stage: Stage, worker: string, readAt: int, stamp: int, limit: nat, fires: seq<int>, covered: int)

  datatype Beat = Beat(worker: string, stamp: int)

  datatype State = State(row: Action, calls: map<string, Call>, beats: multiset<Beat>, now: int)

  datatype Event =
    | Tick(dt: nat)
    | Begin(call: string, worker: string)
    | ReadRow(call: string)
    | Win(call: string)
    | StartTimer(call: string)
    | Fire(call: string)
    | Land(beat: Beat)
    | Mark(call: string)
    | End(call: string, status: Option<ActionStatus>)
    | DeadLetterDoomed(call: string)
    | Requeue(limit: nat, reset: bool)
    | Cancel

  /** A call that won the lock and has not returned or crashed. */
  predicate Holds(k: Call) {
    k.stage.Setup? || k.stage.Working?
  }

  predicate InTime(s: State, tm: Timing, t: int) {
    && (forall id | id in s.calls ::
          var k := s.calls[id];
          && ((k.stage.Ready? || k.stage.Setup?) ==> t <= k.stamp + tm.setup)
          && (k.stage.Working? && k.fires != [] ==> t <= k.fires[|k.fires| - 1] + tm.period))
    && (forall b | b in s.beats :: t <= b.stamp + tm.delay)
  }

  function SetCall(s: State, id: string, k: Call): State {
    s.(calls := s.calls[id := k])
  }

  function Covered(k: Call, b: Beat): Call {
    if k.worker == b.worker && k.covered < b.stamp then k.(covered := b.stamp) else k
  }

  function LandStep(s: State, tm: Timing, b: Beat): State
    requires b in s.beats
  {
    s.(row := BeatRow(s.row, b.worker, b.stamp, b.stamp + tm.ttl),
       calls := map id | id in s.calls :: Covered(s.calls[id], b),
       beats := s.beats - multiset{b})
  }

  function CallStep(s: State, tm: Timing, e: Event, k: Call): State
    requires !e.Tick? && !e.Land? && !e.Requeue? && !e.Cancel?
  {
    match e
    case ReadRow(id) =>
      if !k.stage.Reading? then s
      else if Unclaimable(s.row) then s.(calls := s.calls - {id})
      else if s.row.attemptCount >= s.row.maxAttempts then SetCall(s, id, k.(stage := Doomed))
      else SetCall(s, id, k.(stage := Ready, stamp := s.now, limit := s.row.maxAttempts, covered := s.now))
    case Win(id) =>
      if !k.stage.Ready? then s
      else if ClaimGuard(s.row, k.readAt, k.limit) then
        SetCall(s, id, k.(stage := Setup, covered := k.stamp))
        .(row := ClaimRow(s.row, k.worker, k.readAt, k.stamp + tm.ttl))
      else s.(calls := s.calls - {id})
    case StartTimer(id) => if k.stage.Setup? then SetCall(s, id, k.(stage := Working, fires := [s.now])) else s
    case Fire(id) =>
      if k.stage.Working?
      then SetCall(s, id, k.(fires := k.fires + [s.now])).(beats := s.beats + multiset{Beat(k.worker, s.now)})
      else s
    case Mark(id) => if k.stage.Working? then s.(row := FinishRow(s.row, Executed)) else s
    case End(id, status) =>
      s.(calls := s.calls - {id},
         row := if k.stage.Working? && status.Some? && (status.value.Failed? || status.value.DeadLetter?)
                then FinishRow(s.row, status.value) else s.row)
    case DeadLetterDoomed(id) =>
      if k.stage.Doomed? then s.(calls := s.calls - {id}, row := FinishRow(s.row, DeadLetter)) else s
    case _ => s
  }

  function Step(s: State, tm: Timing, e: Event): State {
    if e.Tick? then
      if InTime(s, tm, s.now + e.dt) then s.(now := s.now + e.dt) else s
    else if e.Land? then
      if e.beat in s.beats then LandStep(s, tm, e.beat) else s
    else if e.Requeue? then s.(row := RequeueRow(s.row, e.limit, e.reset))
    else if e.Cancel? then s.(row := s.row.(status := Canceled))
    else if e.Begin? then
      if e.call in s.calls then s
      else SetCall(s, e.call, Call(Reading, e.worker, s.now, s.now, 0, [], s.now))
    else if e.call in s.calls then CallStep(s, tm, e, s.calls[e.call])
    else s
  }

  function RunAll(s: State, tm: Timing, es: seq<Event>): State
    decreases |es|
  {
    if es == [] then s else RunAll(Step(s, tm, es[0]), tm, es[1..])
  }

  ghost predicate AtMostOneHolder(s: State) {
    forall a, b | a in s.calls && b in s.calls && Holds(s.calls[a]) && Holds(s.calls[b]) :: a == b
  }

  ghost predicate NoHolder(s: State) {
    forall id | id in s.calls :: !Holds(s.calls[id])
  }

  /** No retry, reprocess or expiry commits while some call holds the lock. */
  ghost predicate Quiet(s: State, tm: Timing, es: seq<Event>)
    decreases |es|
  {
    es != [] ==>
      && (es[0].Requeue? || es[0].Cancel? ==> NoHolder(s))
      && Quiet(Step(s, tm, es[0]), tm, es[1..])
  }

  /** The row shows a lock that has not run out. */
  predicate LockLive(row: Action, now: int) {
    row.status.Running? && row.lockExpiresAt.Some? && row.lockExpiresAt.value > now
  }

  /** Which guards on the row the writers that ignore the lock would have. */
  datatype Care = Care(locked: bool, executed: bool, doomed: bool)

  const FULL := Care(true, true, true)

  /**
   A promise about the row that a writer can check: retries, reprocesses and expiries spare it while
   its lock is live, and while it reads `Executed`; and the max-attempts branch of a claim spares it in
   both cases, but may bury an action whose worker crashed, once the lock has run out.
   */
  predicate Careful(s: State, e: Event, care: Care) {
    && (e.Requeue? || e.Cancel? ==>
          (care.locked ==> !LockLive(s.row, s.now)) && (care.executed ==> !s.row.status.Executed?))
    && (e.DeadLetterDoomed? && e.call in s.calls && s.calls[e.call].stage.Doomed? && care.doomed ==>
          !LockLive(s.row, s.now) && !s.row.status.Executed?)
  }

  ghost predicate Sparing(s: State, tm: Timing, es: seq<Event>, care: Care)
    decreases |es|
  {
    es != [] ==> Careful(s, es[0], care) && Sparing(Step(s, tm, es[0]), tm, es[1..], care)
  }

  // ----- the invariant -----

  predicate FiresOk(k: Call, tm: Timing, beats: multiset<Beat>, now: int) {
    && |k.fires| >= 1
    && k.fires[0] <= k.stamp + tm.setup
    && (forall i | 0 <= i < |k.fires| :: k.fires[i] <= now)
    && (forall i | 1 <= i < |k.fires| :: k.fires[i] <= k.fires[i - 1] + tm.period)
    && (forall i | 1 <= i < |k.fires| :: k.fires[i] > k.covered ==> Beat(k.worker, k.fires[i]) in beats)
    && now <= k.fires[|k.fires| - 1] + tm.period
  }

  predicate CallOk(s: State, tm: Timing, k: Call) {
    && k.readAt <= k.stamp <= k.covered <= s.now
    && (k.stage.Ready? || k.stage.Setup? ==> s.now <= k.stamp + tm.setup)
    && (k.stage.Working? ==> FiresOk(k, tm, s.beats, s.now))
    && (Holds(k) ==>
          || s.row.status.Executed?
          || s.row.status.DeadLetter?
          || (&& s.row.status.Running? && s.row.lockedBy == Some(k.worker)
              && s.row.lockExpiresAt.Some? && s.row.lockExpiresAt.value >= k.covered - tm.delay + tm.ttl))
  }

  ghost predicate LeaseInv(s: State, tm: Timing) {
    && (forall b | b in s.beats :: b.stamp <= s.now <= b.stamp + tm.delay)
    && (forall id | id in s.calls :: CallOk(s, tm, s.calls[id]))
    && AtMostOneHolder(s)
    && (s.row.status.Running? ==>
          s.row.heartbeatAt.Some? && s.row.lockExpiresAt.Some?
          && s.row.heartbeatAt.value + tm.ttl <= s.row.lockExpiresAt.value)
  }

  /** The first beat the row has not caught up with is in flight and was fired in time. */
  lemma {:induction false} NextBeat(k: Call, tm: Timing, beats: multiset<Beat>, now: int, i: nat)
    requires FiresOk(k, tm, beats, now) && k.stamp <= k.covered && i < |k.fires|
    requires k.fires[i] <= k.covered + tm.setup
    requires forall b | b in beats :: now <= b.stamp + tm.delay
    ensures now <= k.covered + tm.setup + tm.period + tm.delay
    decreases |k.fires| - i
  {
    if i + 1 < |k.fires| {
      if k.fires[i + 1] <= k.covered {
        NextBeat(k, tm, beats, now, i + 1);
      } else {
        assert Beat(k.worker, k.fires[i + 1]) in beats;
      }
    }
  }

  /** The lock of a call that still holds it has not run out. */
  lemma LockOutlives(s: State, tm: Timing, id: string)
    requires LeaseInv(s, tm) && id in s.calls && Holds(s.calls[id]) && s.row.status.Running?
    requires tm.ttl > tm.period + tm.setup + 2 * tm.delay
    ensures s.row.lockExpiresAt.Some? && s.row.lockExpiresAt.value > s.now
  {
    var k := s.calls[id];
    assert CallOk(s, tm, k);
    if k.stage.Working? {
      NextBeat(k, tm, s.beats, s.now, 0);
    }
  }

  // ----- every event keeps it -----

  lemma TickKeeps(s: State, tm: Timing, dt: nat)
    requires LeaseInv(s, tm) && InTime(s, tm, s.now + dt)
    ensures LeaseInv(s.(now := s.now + dt), tm)
  {
    var t := s.(now := s.now + dt);
    forall id | id in t.calls ensures CallOk(t, tm, t.calls[id]) {
      assert CallOk(s, tm, s.calls[id]);
    }
  }

  lemma FiresAfterLanding(k: Call, tm: Timing, beats: multiset<Beat>, now: int, b: Beat)
    requires FiresOk(k, tm, beats, now) && b in beats
    ensures FiresOk(Covered(k, b), tm, beats - multiset{b}, now)
  {
    var k' := Covered(k, b);
    forall i | 1 <= i < |k'.fires| && k'.fires[i] > k'.covered
      ensures Beat(k'.worker, k'.fires[i]) in beats - multiset{b}
    {
      assert Beat(k.worker, k.fires[i]) in beats && Beat(k.worker, k.fires[i]) != b;
    }
  }

  lemma FiresAfterFiring(k: Call, tm: Timing, beats: multiset<Beat>, now: int)
    requires FiresOk(k, tm, beats, now)
    ensures FiresOk(k.(fires := k.fires + [now]), tm, beats + multiset{Beat(k.worker, now)}, now)
  {
  }

  lemma FiresWithMore(k: Call, tm: Timing, beats: multiset<Beat>, now: int, b: Beat)
    requires FiresOk(k, tm, beats, now)
    ensures FiresOk(k, tm, beats + multiset{b}, now)
  {
  }

  lemma LandKeeps(s: State, tm: Timing, b: Beat)
    requires LeaseInv(s, tm) && b in s.beats
    ensures LeaseInv(LandStep(s, tm, b), tm)
  {
    var t := LandStep(s, tm, b);
    forall id | id in t.calls ensures CallOk(t, tm, t.calls[id]) {
      assert CallOk(s, tm, s.calls[id]);
      if s.calls[id].stage.Working? {
        FiresAfterLanding(s.calls[id], tm, s.beats, s.now, b);
      }
    }
  }

  lemma WinKeeps(s: State, tm: Timing, id: string)
    requires LeaseInv(s, tm) && id in s.calls && s.calls[id].stage.Ready?
    requires tm.ttl > tm.period + tm.setup + 2 * tm.delay
    ensures LeaseInv(CallStep(s, tm, Win(id), s.calls[id]), tm)
  {
    var k := s.calls[id];
    var t := CallStep(s, tm, Win(id), k);
    assert CallOk(s, tm, k);
    if ClaimGuard(s.row, k.readAt, k.limit) {
      forall other | other in s.calls ensures !Holds(s.calls[other]) {
        assert CallOk(s, tm, s.calls[other]);
        if Holds(s.calls[other]) {
          LockOutlives(s, tm, other);
        }
      }
    }
    forall other | other in t.calls ensures CallOk(t, tm, t.calls[other]) {
      assert CallOk(s, tm, s.calls[other]);
    }
  }

  lemma FireKeeps(s: State, tm: Timing, id: string)
    requires LeaseInv(s, tm) && id in s.calls && s.calls[id].stage.Working?
    ensures LeaseInv(CallStep(s, tm, Fire(id), s.calls[id]), tm)
  {
    var t := CallStep(s, tm, Fire(id), s.calls[id]);
    var b := Beat(s.calls[id].worker, s.now);
    forall other | other in t.calls ensures CallOk(t, tm, t.calls[other]) {
      var k := s.calls[other];
      assert CallOk(s, tm, k);
      if other == id {
        FiresAfterFiring(k, tm, s.beats, s.now);
      } else if k.stage.Working? {
        FiresWithMore(k, tm, s.beats, s.now, b);
      }
    }
  }

  lemma StartKeeps(s: State, tm: Timing, id: string)
    requires LeaseInv(s, tm) && id in s.calls && s.calls[id].stage.Setup?
    ensures LeaseInv(CallStep(s, tm, StartTimer(id), s.calls[id]), tm)
  {
    var t := CallStep(s, tm, StartTimer(id), s.calls[id]);
    forall other | other in t.calls ensures CallOk(t, tm, t.calls[other]) {
      assert CallOk(s, tm, s.calls[other]);
    }
  }

  lemma ReadKeeps(s: State, tm: Timing, id: string)
    requires LeaseInv(s, tm) && id in s.calls && s.calls[id].stage.Reading?
    ensures LeaseInv(CallStep(s, tm, ReadRow(id), s.calls[id]), tm)
  {
    hide FiresOk, Unclaimable;
    var t := CallStep(s, tm, ReadRow(id), s.calls[id]);
    forall other | other in t.calls ensures CallOk(t, tm, t.calls[other]) {
      assert CallOk(s, tm, s.calls[other]);
    }
  }

  /** Writes that end a call, or that only its holder or nobody can make. */
  lemma EndKeeps(s: State, tm: Timing, e: Event)
    requires LeaseInv(s, tm) && (e.Mark? || e.End? || e.DeadLetterDoomed?) && e.call in s.calls
    ensures LeaseInv(CallStep(s, tm, e, s.calls[e.call]), tm)
  {
    var t := CallStep(s, tm, e, s.calls[e.call]);
    forall other | other in t.calls ensures CallOk(t, tm, t.calls[other]) {
      assert CallOk(s, tm, s.calls[other]);
    }
  }

  predicate IsCallEvent(e: Event) {
    !e.Tick? && !e.Land? && !e.Requeue? && !e.Cancel? && !e.Begin?
  }

  lemma IdleKeeps(s: State, tm: Timing, e: Event)
    requires LeaseInv(s, tm) && IsCallEvent(e) && e.call in s.calls && CallStep(s, tm, e, s.calls[e.call]) == s
    ensures LeaseInv(CallStep(s, tm, e, s.calls[e.call]), tm)
  {
    hide LeaseInv, CallStep;
  }

  lemma CallKeeps(s: State, tm: Timing, e: Event)
    requires LeaseInv(s, tm) && tm.ttl > tm.period + tm.setup + 2 * tm.delay
    requires IsCallEvent(e) && e.call in s.calls
    ensures LeaseInv(CallStep(s, tm, e, s.calls[e.call]), tm)
  {
    hide LeaseInv;
    var stage := s.calls[e.call].stage;
    if e.Win? {
      if stage.Ready? { WinKeeps(s, tm, e.call); } else { IdleKeeps(s, tm, e); }
    } else if e.Fire? {
      if stage.Working? { FireKeeps(s, tm, e.call); } else { IdleKeeps(s, tm, e); }
    } else if e.ReadRow? {
      if stage.Reading? { ReadKeeps(s, tm, e.call); } else { IdleKeeps(s, tm, e); }
    } else if e.StartTimer? {
      if stage.Setup? { StartKeeps(s, tm, e.call); } else { IdleKeeps(s, tm, e); }
    } else {
      EndKeeps(s, tm, e);
    }
  }

  /** A new call, or an admin write that meets no holder. */
  lemma OutsideKeeps(s: State, tm: Timing, e: Event)
    requires LeaseInv(s, tm) && (e.Requeue? || e.Cancel? || e.Begin?)
    requires e.Requeue? || e.Cancel? ==> NoHolder(s)
    ensures LeaseInv(Step(s, tm, e), tm)
  {
    hide FiresOk;
    var t := Step(s, tm, e);
    forall id | id in t.calls ensures CallOk(t, tm, t.calls[id]) {
      assert id in s.calls ==> CallOk(s, tm, s.calls[id]);
    }
  }

  lemma StepKeeps(s: State, tm: Timing, e: Event)
    requires LeaseInv(s, tm) && tm.ttl > tm.period + tm.setup + 2 * tm.delay
    requires e.Requeue? || e.Cancel? ==> NoHolder(s)
    ensures LeaseInv(Step(s, tm, e), tm)
  {
    hide LeaseInv, CallStep, LandStep, InTime, NoHolder;
    if e.Tick? {
      if InTime(s, tm, s.now + e.dt) { TickKeeps(s, tm, e.dt); }
    } else if e.Land? {
      if e.beat in s.beats { LandKeeps(s, tm, e.beat); }
    } else if e.Requeue? || e.Cancel? || e.Begin? {
      OutsideKeeps(s, tm, e);
    } else if e.call in s.calls {
      CallKeeps(s, tm, e);
    }
  }

  lemma {:induction false} LeaseThroughout(s: State, tm: Timing, es: seq<Event>)
    requires LeaseInv(s, tm) && tm.ttl > tm.period + tm.setup + 2 * tm.delay
    requires Quiet(s, tm, es)
    ensures LeaseInv(RunAll(s, tm, es), tm)
    decreases |es|
  {
    if es != [] {
      StepKeeps(s, tm, es[0]);
      LeaseThroughout(Step(s, tm, es[0]), tm, es[1..]);
    }
  }

  // ----- what holds over every run -----

  function Start(row: Action, now: int): State {
    State(row, map[], multiset{}, now)
  }

  /** A running row's lock was set to run out a full `ttl` after the claim or beat it records. */
  ghost predicate RecordedInv(s: State, tm: Timing) {
    && (forall id | id in s.calls :: s.calls[id].readAt <= s.calls[id].stamp <= s.now)
    && (s.row.status.Running? ==>
          s.row.heartbeatAt.Some? && s.row.lockExpiresAt.Some?
          && s.row.heartbeatAt.value + tm.ttl <= s.row.lockExpiresAt.value)
  }

  lemma CallKeepsRecorded(s: State, tm: Timing, e: Event, id: string)
    requires RecordedInv(s, tm) && id in s.calls && !e.Tick? && !e.Land? && !e.Requeue? && !e.Cancel? && !e.Begin?
    requires id == e.call
    ensures RecordedInv(CallStep(s, tm, e, s.calls[id]), tm)
  {
  }

  lemma StepKeepsRecorded(s: State, tm: Timing, e: Event)
    requires RecordedInv(s, tm)
    ensures RecordedInv(Step(s, tm, e), tm)
  {
    hide CallStep;
    if e.Tick? || e.Land? || e.Requeue? || e.Cancel? || e.Begin? {
    } else if e.call in s.calls {
      CallKeepsRecorded(s, tm, e, e.call);
    }
  }

  lemma {:induction false} RecordedThroughout(s: State, tm: Timing, es: seq<Event>)
    requires RecordedInv(s, tm)
    ensures RecordedInv(RunAll(s, tm, es), tm)
    decreases |es|
  {
    if es != [] {
      StepKeepsRecorded(s, tm, es[0]);
      RecordedThroughout(Step(s, tm, es[0]), tm, es[1..]);
    }
  }

  /**
   Nothing but time lets a second worker in: whatever the timing and whatever admins write, a
   claim that takes over a running action read its clock a full `ttl` after the claim or beat
   recorded in the row.
   */
  lemma TakeoverTakesAFullTtl(row: Action, start: int, tm: Timing, es: seq<Event>, id: string)
    requires !row.status.Running?
    ensures var s := RunAll(Start(row, start), tm, es);
            s.row.status.Running? && Step(s, tm, Win(id)).row.attemptCount > s.row.attemptCount ==>
              && id in s.calls && s.row.heartbeatAt.Some?
              && s.calls[id].readAt >= s.row.heartbeatAt.value + tm.ttl
  {
    RecordedThroughout(Start(row, start), tm, es);
  }

  /** And with the timing of `MutualExclusion` it finds nobody at work. */
  lemma TakeoverFindsNobody(row: Action, start: int, tm: Timing, es: seq<Event>, id: string)
    requires !row.status.Running? && tm.ttl > tm.period + tm.setup + 2 * tm.delay
    requires Quiet(Start(row, start), tm, es)
    ensures var s := RunAll(Start(row, start), tm, es);
            s.row.status.Running? && Step(s, tm, Win(id)).row.attemptCount > s.row.attemptCount ==> NoHolder(s)
  {
    LeaseThroughout(Start(row, start), tm, es);
    var s := RunAll(Start(row, start), tm, es);
    if s.row.status.Running? && Step(s, tm, Win(id)).row.attemptCount > s.row.attemptCount {
      assert CallOk(s, tm, s.calls[id]);
      forall other | other in s.calls ensures !Holds(s.calls[other]) {
        if Holds(s.calls[other]) { LockOutlives(s, tm, other); }
      }
    }
  }

  /** Only calls, beats and time. */
  predicate Undisturbed(e: Event) {
    !e.Requeue? && !e.Cancel? && !e.DeadLetterDoomed?
  }

  predicate AllUndisturbed(es: seq<Event>) {
    forall i | 0 <= i < |es| :: Undisturbed(es[i])
  }

  lemma {:induction false} UndisturbedIsCareful(s: State, tm: Timing, es: seq<Event>, care: Care)
    requires AllUndisturbed(es)
    ensures Quiet(s, tm, es) && Sparing(s, tm, es, care)
    decreases |es|
  {
    hide Step;
    if es != [] {
      assert Undisturbed(es[0]);
      UndisturbedIsCareful(Step(s, tm, es[0]), tm, es[1..], care);
    }
  }

  lemma {:induction false} RunAllThen(s: State, tm: Timing, es: seq<Event>, e: Event, care: Care)
    ensures RunAll(s, tm, es + [e]) == Step(RunAll(s, tm, es), tm, e)
    ensures Sparing(s, tm, es, care) && Careful(RunAll(s, tm, es), e, care) ==> Sparing(s, tm, es + [e], care)
    decreases |es|
  {
    hide Step, Careful;
    if es == [] {
      assert [e][1..] == [] && [] + [e] == [e];
    } else {
      assert (es + [e])[0] == es[0] && (es + [e])[1..] == es[1..] + [e];
      RunAllThen(Step(s, tm, es[0]), tm, es[1..], e, care);
    }
  }

  /** `es` leads to `s`: undisturbed, or with some care. */
  ghost predicate Leads(s0: State, tm: Timing, es: seq<Event>, s: State, care: Option<Care>) {
    RunAll(s0, tm, es) == s && if care.None? then AllUndisturbed(es) else Sparing(s0, tm, es, care.value)
  }

  predicate Allowed(s: State, e: Event, care: Option<Care>) {
    if care.None? then Undisturbed(e) else Careful(s, e, care.value)
  }

  lemma NothingYet(s: State, tm: Timing, care: Option<Care>)
    ensures Leads(s, tm, [], s, care)
  {
  }

  lemma Then(s0: State, tm: Timing, es: seq<Event>, s: State, care: Option<Care>, e: Event)
    returns (es': seq<Event>, s': State)
    requires Leads(s0, tm, es, s, care) && Allowed(s, e, care)
    ensures Leads(s0, tm, es', s', care) && s' == Step(s, tm, e)
  {
    hide Step, Careful, Undisturbed;
    es', s' := es + [e], Step(s, tm, e);
    RunAllThen(s0, tm, es, e, if care.None? then FULL else care.value);
  }

  /** A call that reads, computes its expiry and claims, all at one instant. */
  lemma Claim(s0: State, tm: Timing, es: seq<Event>, s: State, care: Option<Care>, id: string, worker: string)
    returns (es': seq<Event>, s': State)
    requires Leads(s0, tm, es, s, care)
    requires id !in s.calls && ClaimGuard(s.row, s.now, s.row.maxAttempts)
    ensures Leads(s0, tm, es', s', care)
    ensures s' == s.(row := ClaimRow(s.row, worker, s.now, s.now + tm.ttl),
                     calls := s.calls[id := Call(Setup, worker, s.now, s.now, s.row.maxAttempts, [], s.now)])
  {
    hide Leads;
    es', s' := Then(s0, tm, es, s, care, Begin(id, worker));
    es', s' := Then(s0, tm, es', s', care, ReadRow(id));
    es', s' := Then(s0, tm, es', s', care, Win(id));
    assert s'.calls == s.calls[id := Call(Setup, worker, s.now, s.now, s.row.maxAttempts, [], s.now)];
  }

  /** A call that is alone starts its timer after `wait` and fires one period later. */
  lemma WaitAndFire(s0: State, tm: Timing, es: seq<Event>, s: State, id: string, wait: nat)
    returns (es': seq<Event>, s': State)
    requires Leads(s0, tm, es, s, None) && wait <= tm.setup
    requires s.beats == multiset{} && s.calls.Keys == {id}
    requires s.calls[id].stage.Setup? && s.calls[id].stamp == s.now
    ensures Leads(s0, tm, es', s', None)
    ensures s'.now == s.now + wait + tm.period && s'.row == s.row
    ensures s'.beats == multiset{Beat(s.calls[id].worker, s'.now)}
    ensures s'.calls == map[id := s.calls[id].(stage := Working, fires := [s.now + wait, s'.now])]
  {
    es', s' := Then(s0, tm, es, s, None, Tick(wait));
    assert s' == s.(now := s.now + wait);
    es', s' := Then(s0, tm, es', s', None, StartTimer(id));
    es', s' := WaitForFire(s0, tm, es', s', id);
    assert s'.calls[id] == s.calls[id].(stage := Working, fires := [s.now + wait, s'.now]);
  }

  lemma WaitForFire(s0: State, tm: Timing, es: seq<Event>, s: State, id: string)
    returns (es': seq<Event>, s': State)
    requires Leads(s0, tm, es, s, None)
    requires s.beats == multiset{} && s.calls.Keys == {id}
    requires s.calls[id].stage.Working? && s.calls[id].fires == [s.now]
    ensures Leads(s0, tm, es', s', None)
    ensures s'.now == s.now + tm.period && s'.row == s.row
    ensures s'.beats == multiset{Beat(s.calls[id].worker, s'.now)}
    ensures s'.calls == map[id := s.calls[id].(fires := [s.now, s'.now])]
  {
    es', s' := Then(s0, tm, es, s, None, Tick(tm.period));
    assert s' == s.(now := s.now + tm.period);
    es', s' := Then(s0, tm, es', s', None, Fire(id));
    assert s'.calls[id].fires == [s.now, s'.now];
  }

  /** A first call fails while its only beat is still on its way. */
  lemma BeatLeftBehind(row: Action, tm: Timing) returns (es: seq<Event>, s: State)
    requires row.status.Pending? && !row.requiresApproval && row.attemptCount < row.maxAttempts
    ensures Leads(Start(row, 0), tm, es, s, None)
    ensures s.calls == map[] && s.beats == multiset{Beat("w", tm.period)} && s.now == tm.period + tm.delay
    ensures s.row == FinishRow(row, Failed).(attemptCount := row.attemptCount + 1)
  {
    var s0 := Start(row, 0);
    es, s := Claim(s0, tm, [], s0, None, "a", "w");
    es, s := WaitAndFire(s0, tm, es, s, "a", 0);
    es, s := Then(s0, tm, es, s, None, End("a", Some(Failed)));
    assert s.calls == map[];
    es, s := Then(s0, tm, es, s, None, Tick(tm.delay));
  }

  /** The next call of the same process claims, and the old beat shortens its lock. */
  lemma ShortenedLock(row: Action, tm: Timing) returns (es: seq<Event>, s: State)
    requires row.status.Pending? && !row.requiresApproval && row.attemptCount + 1 < row.maxAttempts
    ensures Leads(Start(row, 0), tm, es, s, None)
    ensures s.beats == multiset{} && s.now == tm.period + tm.delay
    ensures s.row == ClaimRow(FinishRow(row, Failed), "w", tm.period, tm.period + tm.ttl)
                     .(attemptCount := row.attemptCount + 2)
    ensures s.calls == map["b" := Call(Setup, "w", s.now, s.now, row.maxAttempts, [], s.now)]
  {
    var s0 := Start(row, 0);
    es, s := BeatLeftBehind(row, tm);
    es, s := Claim(s0, tm, es, s, None, "b", "w");
    var b := Beat("w", tm.period);
    es, s := Then(s0, tm, es, s, None, Land(b));
    assert s.calls["b"] == Call(Setup, "w", s.now, s.now, row.maxAttempts, [], s.now);
    assert s.calls == map["b" := Call(Setup, "w", s.now, s.now, row.maxAttempts, [], s.now)];
  }

  /** That call starts its timer and fires in time, but the lock runs out before the beat lands. */
  lemma LockRunsOut(row: Action, tm: Timing) returns (es: seq<Event>, s: State)
    requires row.status.Pending? && !row.requiresApproval && row.attemptCount + 1 < row.maxAttempts && tm.period >= 1
    ensures Leads(Start(row, 0), tm, es, s, None)
    ensures s.now == 2 * tm.period + 2 * tm.delay + tm.setup
    ensures s.row == ClaimRow(FinishRow(row, Failed), "w", tm.period, tm.period + tm.ttl)
                     .(attemptCount := row.attemptCount + 2)
    ensures s.calls.Keys == {"b"} && Holds(s.calls["b"])
  {
    var s0 := Start(row, 0);
    es, s := ShortenedLock(row, tm);
    es, s := WaitAndFire(s0, tm, es, s, "b", tm.setup);
    es, s := KeepFiring(s0, tm, es, s, "b", tm.delay);
  }

  /** A call that is alone beats on in time while no beat lands. */
  lemma {:induction false} KeepFiring(s0: State, tm: Timing, es: seq<Event>, s: State, id: string, rest: nat)
    returns (es': seq<Event>, s': State)
    requires Leads(s0, tm, es, s, None) && tm.period >= 1
    requires s.calls.Keys == {id} && s.calls[id].stage.Working?
    requires |s.calls[id].fires| >= 1 && s.calls[id].fires[|s.calls[id].fires| - 1] == s.now
    requires forall b | b in s.beats :: s.now + rest <= b.stamp + tm.delay
    requires rest <= tm.delay
    ensures Leads(s0, tm, es', s', None)
    ensures s'.now == s.now + rest && s'.row == s.row
    ensures s'.calls.Keys == {id} && Holds(s'.calls[id])
    decreases rest
  {
    if rest <= tm.period {
      es', s' := Then(s0, tm, es, s, None, Tick(rest));
    } else {
      es', s' := Then(s0, tm, es, s, None, Tick(tm.period));
      assert s' == s.(now := s.now + tm.period);
      es', s' := Then(s0, tm, es', s', None, Fire(id));
      es', s' := KeepFiring(s0, tm, es', s', id, rest - tm.period);
    }
  }

  lemma TooShort(row: Action, tm: Timing) returns (es: seq<Event>)
    requires row.status.Pending? && !row.requiresApproval && row.attemptCount + 2 < row.maxAttempts && tm.period >= 1
    requires tm.ttl <= tm.period + tm.setup + 2 * tm.delay
    ensures Quiet(Start(row, 0), tm, es) && Sparing(Start(row, 0), tm, es, FULL)
    ensures !AtMostOneHolder(RunAll(Start(row, 0), tm, es))
  {
    var s;
    es, s := LockRunsOut(row, tm);
    es, s := Claim(Start(row, 0), tm, es, s, None, "c", "x");
    UndisturbedIsCareful(Start(row, 0), tm, es, FULL);
    assert Holds(s.calls["b"]) && Holds(s.calls["c"]);
  }

  /** Whatever the lock's past, calls, beats and crashes never put two calls at work on it. */
  lemma MutualExclusion(row: Action, start: int, tm: Timing, es: seq<Event>)
    requires !row.status.Running? && tm.ttl > tm.period + tm.setup + 2 * tm.delay
    requires Quiet(Start(row, start), tm, es)
    ensures AtMostOneHolder(RunAll(Start(row, start), tm, es))
  {
    LeaseThroughout(Start(row, start), tm, es);
  }

  /** A call at work can tell from the row: it reads `Running`, or `Executed` if the call is finishing. */
  ghost predicate HoldersShow(s: State) {
    (exists id :: id in s.calls && Holds(s.calls[id])) ==> s.row.status.Running? || s.row.status.Executed?
  }

  /** With a lock that lives long enough, a call at work shows as a live lock or as `Executed`. */
  lemma ShowsLock(s: State, tm: Timing)
    requires LeaseInv(s, tm) && HoldersShow(s) && tm.ttl > tm.period + tm.setup + 2 * tm.delay
    requires !LockLive(s.row, s.now) && !s.row.status.Executed?
    ensures NoHolder(s)
  {
    hide LeaseInv;
    forall id | id in s.calls ensures !Holds(s.calls[id]) {
      if Holds(s.calls[id]) { LockOutlives(s, tm, id); }
    }
  }

  lemma CallKeepsShown(s: State, tm: Timing, e: Event)
    requires LeaseInv(s, tm) && HoldersShow(s)
    requires IsCallEvent(e) && e.call in s.calls
    requires e.DeadLetterDoomed? && s.calls[e.call].stage.Doomed? ==> NoHolder(s)
    ensures HoldersShow(CallStep(s, tm, e, s.calls[e.call]))
  {
    hide CallOk;
  }

  lemma StepKeepsShown(s: State, tm: Timing, e: Event)
    requires LeaseInv(s, tm) && HoldersShow(s) && Careful(s, e, FULL)
    requires tm.ttl > tm.period + tm.setup + 2 * tm.delay
    ensures HoldersShow(Step(s, tm, e))
    ensures e.Requeue? || e.Cancel? ==> NoHolder(s)
  {
    hide LeaseInv, CallStep, InTime, LockLive;
    if !LockLive(s.row, s.now) && !s.row.status.Executed? { ShowsLock(s, tm); }
    if IsCallEvent(e) {
      if e.call in s.calls { CallKeepsShown(s, tm, e); }
    } else if e.Land? && e.beat in s.beats {
      var t := Step(s, tm, e);
      assert forall id | id in t.calls :: Holds(t.calls[id]) <==> Holds(s.calls[id]);
    }
  }

  /** Sparing the row is enough to spare the calls. */
  lemma {:induction false} SparingIsQuiet(s: State, tm: Timing, es: seq<Event>)
    requires LeaseInv(s, tm) && HoldersShow(s) && Sparing(s, tm, es, FULL)
    requires tm.ttl > tm.period + tm.setup + 2 * tm.delay
    ensures Quiet(s, tm, es)
    decreases |es|
  {
    hide Step, LeaseInv, HoldersShow, Careful, NoHolder;
    if es != [] {
      StepKeepsShown(s, tm, es[0]);
      StepKeeps(s, tm, es[0]);
      SparingIsQuiet(Step(s, tm, es[0]), tm, es[1..]);
    }
  }

  /**
   Mutual exclusion from what the row shows: if admin writes and the max-attempts branch spare a row
   whose lock is live or that reads `Executed`, and the lock outlives one period, one setup and two
   delays, no run ever has two calls at work on the action.
   */
  lemma MutualExclusionByRow(row: Action, start: int, tm: Timing, es: seq<Event>)
    requires !row.status.Running? && tm.ttl > tm.period + tm.setup + 2 * tm.delay
    requires Sparing(Start(row, start), tm, es, FULL)
    ensures Quiet(Start(row, start), tm, es) && AtMostOneHolder(RunAll(Start(row, start), tm, es))
  {
    SparingIsQuiet(Start(row, start), tm, es);
    MutualExclusion(row, start, tm, es);
  }

  /**
   Mutual exclusion, exactly: no interleaving of claims, beats, crashes and completions, with admin
   writes that spare held locks or that spare the row, ever has two calls at work on the action, if
   and only if the lock outlives one period, one setup and two delays. Two delays, because a beat
   left behind by an earlier call of the same process can set the expiry back.
   */
  lemma MutualExclusionIff(row: Action, tm: Timing)
    requires row.status.Pending? && !row.requiresApproval && row.attemptCount + 2 < row.maxAttempts && tm.period >= 1
    ensures (forall es | Quiet(Start(row, 0), tm, es) :: AtMostOneHolder(RunAll(Start(row, 0), tm, es)))
       <==> tm.ttl > tm.period + tm.setup + 2 * tm.delay
    ensures (forall es | Sparing(Start(row, 0), tm, es, FULL) :: AtMostOneHolder(RunAll(Start(row, 0), tm, es)))
       <==> tm.ttl > tm.period + tm.setup + 2 * tm.delay
  {
    if tm.ttl > tm.period + tm.setup + 2 * tm.delay {
      forall es | Quiet(Start(row, 0), tm, es) ensures AtMostOneHolder(RunAll(Start(row, 0), tm, es)) {
        MutualExclusion(row, 0, tm, es);
      }
      forall es | Sparing(Start(row, 0), tm, es, FULL) ensures AtMostOneHolder(RunAll(Start(row, 0), tm, es)) {
        MutualExclusionByRow(row, 0, tm, es);
      }
    } else {
      var es := TooShort(row, tm);
    }
  }

  // ----- every part of the care is needed -----

  /** A retry or reprocess of a running action lets a second call in. */
  lemma RequeueOfRunning(row: Action, tm: Timing, care: Care, limit: nat) returns (es: seq<Event>)
    requires row.status.Pending? && !row.requiresApproval && row.attemptCount < row.maxAttempts && limit >= 1
            && !care.locked
    ensures Sparing(Start(row, 0), tm, es, care) && !AtMostOneHolder(RunAll(Start(row, 0), tm, es))
  {
    hide Leads;
    var s0 := Start(row, 0);
    var s;
    NothingYet(s0, tm, Some(care));
    es, s := Claim(s0, tm, [], s0, Some(care), "a", "w");
    es := Intrude(s0, tm, es, s, care, limit);
  }

  /**
   A call is not finished when its row reads `Executed`: it still writes its audit row. A retry that
   read the action before may commit then, and lets a second call in beside it.
   */
  lemma RequeueOfExecuted(row: Action, tm: Timing, care: Care, limit: nat) returns (es: seq<Event>)
    requires row.status.Pending? && !row.requiresApproval && row.attemptCount < row.maxAttempts && limit >= 1
            && !care.executed
    ensures Sparing(Start(row, 0), tm, es, care) && !AtMostOneHolder(RunAll(Start(row, 0), tm, es))
  {
    hide Leads;
    var s0 := Start(row, 0);
    var s;
    NothingYet(s0, tm, Some(care));
    es, s := Claim(s0, tm, [], s0, Some(care), "a", "w");
    es, s := Then(s0, tm, es, s, Some(care), StartTimer("a"));
    es, s := Then(s0, tm, es, s, Some(care), Mark("a"));
    es := Intrude(s0, tm, es, s, care, limit);
  }

  /** With "a" still at work, a requeue that the care permits lets "c" in. */
  lemma Intrude(s0: State, tm: Timing, es: seq<Event>, s: State, care: Care, limit: nat)
    returns (es': seq<Event>)
    requires Leads(s0, tm, es, s, Some(care)) && Careful(s, Requeue(limit, true), care)
    requires s.calls.Keys == {"a"} && Holds(s.calls["a"]) && !s.row.requiresApproval && limit >= 1
    ensures Sparing(s0, tm, es', care) && !AtMostOneHolder(RunAll(s0, tm, es'))
  {
    var s';
    es', s' := Then(s0, tm, es, s, Some(care), Requeue(limit, true));
    es', s' := Claim(s0, tm, es', s', Some(care), "c", "y");
    assert Holds(s'.calls["a"]) && Holds(s'.calls["c"]);
  }

  /**
   It is not enough that admin writes spare the row. A second delivery of an action on its last
   attempt dead-letters it without looking at its lock, and a retry of that dead letter lets another
   call in beside the first, whatever the timing.
   */
  lemma RetryUnderALiveCall(row: Action, tm: Timing, care: Care, limit: nat) returns (es: seq<Event>)
    requires row.status.Pending? && !row.requiresApproval && row.maxAttempts == row.attemptCount + 1
    requires limit >= 1 && !care.doomed
    ensures Sparing(Start(row, 0), tm, es, care) && !AtMostOneHolder(RunAll(Start(row, 0), tm, es))
  {
    hide Leads;
    var s0 := Start(row, 0);
    var s;
    NothingYet(s0, tm, Some(care));
    es, s := Claim(s0, tm, [], s0, Some(care), "a", "w");
    es, s := Then(s0, tm, es, s, Some(care), Begin("b", "x"));
    es, s := Then(s0, tm, es, s, Some(care), ReadRow("b"));
    es, s := Then(s0, tm, es, s, Some(care), DeadLetterDoomed("b"));
    assert s.calls.Keys == {"a"};
    es := Intrude(s0, tm, es, s, care, limit);
  }

  /** With a lock that lives long enough, no run has two calls at work if and only if all three guards are there. */
  lemma FullCareIff(row: Action, tm: Timing, care: Care)
    requires tm.ttl > tm.period + tm.setup + 2 * tm.delay
    requires row.status.Pending? && !row.requiresApproval && row.maxAttempts == row.attemptCount + 1
    ensures (forall es | Sparing(Start(row, 0), tm, es, care) :: AtMostOneHolder(RunAll(Start(row, 0), tm, es)))
       <==> care == FULL
  {
    if care == FULL {
      forall es | Sparing(Start(row, 0), tm, es, care) ensures AtMostOneHolder(RunAll(Start(row, 0), tm, es)) {
        MutualExclusionByRow(row, 0, tm, es);
      }
    } else if !care.locked {
      var es := RequeueOfRunning(row, tm, care, 1);
    } else if !care.executed {
      var es := RequeueOfExecuted(row, tm, care, 1);
    } else {
      var es := RetryUnderALiveCall(row, tm, care, 1);
    }
  }
}
