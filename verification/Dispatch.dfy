/**
 One outbox row and the dispatchers that work on it: claims with stale takeover, the job
 queue, backoff, dead-lettering and reprocessing, over one clock in seconds.
 */
module Dispatch {
  import opened Domain

  const PROCESSING_TIMEOUT := 300
  const BATCH_ATTEMPT_CEILING := 1000

  datatype EventStatus = Pending | Processing | Processed | Failed | DeadLetter

  datatype Row = Row(
    status: EventStatus, attempts: nat, maxAttempts: nat,
    availableAt: int, processingStartedAt: Option<int>, claimedBy: Option<string>)

  datatype DeadStatus = Open | Reprocessed

  datatype Phase = Picked | Timed | Won | Dispatching | Added

  /** One pass of the batch loop over this row; `ticket` is the number of the claim it won. */
  datatype Pass = Pass(phase: Phase, stamp: int, limit: nat, attempts: nat, ticket: nat)

  /** `claims` are the claim times since creation or the last reset, `total` counts all claims. */
  datatype State = State(
    row: Row, deadLetter: Option<DeadStatus>, jobAdded: bool, passes: map<string, Pass>,
    reprocesses: set<string>, now: int, claims: seq<int>, total: nat)

  datatype Event =
    | Tick(dt: nat)
    | Pick(pass: string)
    | TakeTime(pass: string)
    | Claim(pass: string, dispatcher: string)
    | Reread(pass: string)
    | AddJob(pass: string)
    | MarkProcessed(pass: string)
    | Fail(pass: string)
    | Crash(pass: string)
    | ReadDeadLetter(request: string)
    | Reprocess(request: string)

  function Pow2(n: nat): nat {
    if n == 0 then 1 else 2 * Pow2(n - 1)
  }

  /** Seconds to wait after a failed attempt with this count. */
  function Backoff(attempts: nat): nat {
    var s := Pow2(if attempts == 0 then 0 else attempts - 1) * 5;
    if s < 300 then s else 300
  }

  /** The same as a table: 5 seconds after the first failure, twice as long each time, and from the seventh on 300. */
  function Wait(attempts: nat): nat {
    if attempts <= 1 then 5
    else if attempts == 2 then 10
    else if attempts == 3 then 20
    else if attempts == 4 then 40
    else if attempts == 5 then 80
    else if attempts == 6 then 160
    else 300
  }

  lemma BackoffIsTheTable(attempts: nat)
    ensures Backoff(attempts) == Wait(attempts)
  {
    assert Pow2(2) == 4 && Pow2(4) == 16 && Pow2(6) == 64;
    if attempts >= 7 { Pow2Grows(6, attempts - 1); }
  }

  lemma {:induction false} Pow2Grows(a: nat, b: nat)
    requires a <= b
    ensures Pow2(a) <= Pow2(b)
  {
    if a < b { Pow2Grows(a, b - 1); }
  }

  predicate ClaimGuard(row: Row, now: int, limit: nat) {
    && row.attempts < limit
    && (|| ((row.status.Pending? || row.status.Failed?) && row.availableAt <= now)
        || (row.status.Processing? && row.processingStartedAt.Some?
            && row.processingStartedAt.value <= now - PROCESSING_TIMEOUT))
  }

  function ClaimRow(row: Row, now: int, dispatcher: string): Row {
    row.(status := Processing, attempts := row.attempts + 1,
         processingStartedAt := Some(now), claimedBy := Some(dispatcher))
  }

  function Released(row: Row, status: EventStatus): Row {
    row.(status := status, processingStartedAt := None, claimedBy := None)
  }

  function FailedRow(row: Row, attempts: nat, limit: nat, now: int): Row {
    if attempts >= limit then Released(row, DeadLetter)
    else Released(row, Failed).(availableAt := now + Backoff(attempts))
  }

  function SetPass(s: State, id: string, p: Pass): State {
    s.(passes := s.passes[id := p])
  }

  function EndPass(s: State, id: string): State {
    s.(passes := s.passes - {id})
  }

  function PassStep(s: State, e: Event, p: Pass): State
    requires !e.Tick? && !e.ReadDeadLetter? && !e.Reprocess?
  {
    match e
    case TakeTime(id) => if p.phase.Picked? then SetPass(s, id, p.(phase := Timed, stamp := s.now)) else s
    case Claim(id, dispatcher) =>
      if !p.phase.Timed? then s
      else if ClaimGuard(s.row, p.stamp, p.limit) then
        SetPass(s, id, p.(phase := Won, ticket := s.total + 1))
        .(row := ClaimRow(s.row, p.stamp, dispatcher), claims := s.claims + [p.stamp], total := s.total + 1)
      else EndPass(s, id)
    case Reread(id) =>
      if p.phase.Won?
      then SetPass(s, id, p.(phase := Dispatching, attempts := s.row.attempts, limit := s.row.maxAttempts)) else s
    case AddJob(id) =>
      if p.phase.Dispatching? then SetPass(s, id, p.(phase := Added)).(jobAdded := true) else s
    case MarkProcessed(id) =>
      if p.phase.Added? then EndPass(s, id).(row := Released(s.row, Processed)) else s
    case Fail(id) =>
      if p.phase.Dispatching? || p.phase.Added? then
        EndPass(s, id).(row := FailedRow(s.row, p.attempts, p.limit, s.now),
                        deadLetter := if p.attempts >= p.limit then Some(Open) else s.deadLetter)
      else s
    case Crash(id) => EndPass(s, id)
    case _ => s
  }

  function Step(s: State, e: Event): State {
    if e.Tick? then s.(now := s.now + e.dt)
    else if e.ReadDeadLetter? then
      if s.deadLetter == Some(Open) then s.(reprocesses := s.reprocesses + {e.request}) else s
    else if e.Reprocess? then
      if e.request in s.reprocesses then
        s.(reprocesses := s.reprocesses - {e.request}, deadLetter := Some(Reprocessed), claims := [],
           row := s.row.(status := Pending, attempts := 0, availableAt := s.now))
      else s
    else if e.Pick? then
      if e.pass !in s.passes && ClaimGuard(s.row, s.now, BATCH_ATTEMPT_CEILING)
      then SetPass(s, e.pass, Pass(Picked, s.now, s.row.maxAttempts, 0, 0)) else s
    else if e.pass in s.passes then PassStep(s, e, s.passes[e.pass])
    else s
  }

  function RunAll(s: State, es: seq<Event>): State
    decreases |es|
  {
    if es == [] then s else RunAll(Step(s, es[0]), es[1..])
  }

  /** The row as `createOutboxEvent` inserts it. */
  function NewRow(maxAttempts: nat, now: int): State {
    State(Row(Pending, 0, maxAttempts, now, None, None), None, false, map[], {}, now, [], 0)
  }

  // ----- accounting, with no hypothesis on time or crashes -----

  ghost predicate CountInv(s: State) {
    && s.row.attempts == |s.claims| <= s.row.maxAttempts
    && (forall id | id in s.passes ::
          && s.passes[id].limit == s.row.maxAttempts
          && s.passes[id].ticket <= s.total
          && (s.passes[id].phase.Added? ==> s.jobAdded))
    && (s.row.status.Processed? ==> s.jobAdded)
    && (s.row.status.DeadLetter? ==> s.deadLetter == Some(Open))
    && (s.reprocesses != {} ==> s.deadLetter.Some?)
  }

  lemma StepKeepsCount(s: State, e: Event)
    requires CountInv(s)
    ensures CountInv(Step(s, e)) && Step(s, e).row.maxAttempts == s.row.maxAttempts
  {
  }

  lemma {:induction false} CountThroughout(s: State, es: seq<Event>)
    requires CountInv(s)
    ensures CountInv(RunAll(s, es)) && RunAll(s, es).row.maxAttempts == s.row.maxAttempts
    decreases |es|
  {
    if es != [] {
      StepKeepsCount(s, es[0]);
      CountThroughout(Step(s, es[0]), es[1..]);
    }
  }

  /**
   For any dispatchers, crashes and reprocesses: the count is the number of claims won since
   creation or reset and never passes the limit, a row is `Processed` only after its job went
   to the queue, and a dead-lettered row has an open dead letter.
   */
  lemma OutboxAccounting(maxAttempts: nat, now: int, es: seq<Event>)
    ensures var s := RunAll(NewRow(maxAttempts, now), es);
            && s.row.attempts == |s.claims| <= maxAttempts
            && (s.row.status.Processed? ==> s.jobAdded)
            && (s.row.status.DeadLetter? ==> s.deadLetter == Some(Open))
  {
    CountThroughout(NewRow(maxAttempts, now), es);
  }

  // ----- backoff, when nobody writes after losing its claim -----

  predicate InFlight(p: Pass) {
    p.phase.Won? || p.phase.Dispatching? || p.phase.Added?
  }

  /** Events of a pass that has begun. */
  predicate IsPassEvent(e: Event) {
    !e.Tick? && !e.Pick? && !e.ReadDeadLetter? && !e.Reprocess?
  }

  /** The event writes the outcome of a pass to the row. */
  predicate Writes(s: State, e: Event) {
    && (e.MarkProcessed? || e.Fail?) && e.pass in s.passes
    && (s.passes[e.pass].phase.Added? || (e.Fail? && s.passes[e.pass].phase.Dispatching?))
  }

  /** No dispatcher writes its result after a later claim of the same row. */
  ghost predicate Fenced(s: State, es: seq<Event>)
    decreases |es|
  {
    es != [] ==>
      && (Writes(s, es[0]) ==> s.passes[es[0].pass].ticket == s.total)
      && Fenced(Step(s, es[0]), es[1..])
  }

  /** Claim i+1 comes at least the i-th wait of the table after claim i. */
  predicate Spaced(claims: seq<int>) {
    forall i | 1 <= i < |claims| :: claims[i] >= claims[i - 1] + Wait(i)
  }

  ghost predicate PaceInv(s: State) {
    && CountInv(s)
    && Spaced(s.claims)
    && (forall id | id in s.passes ::
          && s.passes[id].stamp <= s.now
          && (s.passes[id].ticket == s.total && s.claims != []
              && (s.passes[id].phase.Dispatching? || s.passes[id].phase.Added?) ==>
                s.passes[id].attempts == |s.claims|)
          && (s.passes[id].phase.Picked? || s.passes[id].phase.Timed? || s.passes[id].ticket >= 1))
    && (s.claims != [] ==>
          var last := s.claims[|s.claims| - 1];
          && last <= s.now
          && s.total >= 1
          && (s.row.status.Pending? ==> false)
          && (s.row.status.Processing? ==> s.row.processingStartedAt == Some(last))
          && (s.row.status.Failed? ==> s.row.availableAt >= last + Backoff(|s.claims|)))
    && (s.row.status.Failed? ==> s.row.attempts < s.row.maxAttempts)
    && (s.total >= 1 ==> s.row.maxAttempts >= 1)
  }

  lemma ClaimKeepsPace(s: State, id: string, dispatcher: string)
    requires PaceInv(s) && id in s.passes
    ensures PaceInv(PassStep(s, Claim(id, dispatcher), s.passes[id]))
  {
    hide Pow2;
    var p := s.passes[id];
    var t := PassStep(s, Claim(id, dispatcher), p);
    StepKeepsCount(s, Claim(id, dispatcher));
    if p.phase.Timed? && ClaimGuard(s.row, p.stamp, p.limit) {
      var n := |s.claims|;
      forall i | 1 <= i < |t.claims| ensures t.claims[i] >= t.claims[i - 1] + Wait(i) {
        if i == n {
          BackoffIsTheTable(n);
        } else {
          assert t.claims[i] == s.claims[i];
        }
      }
    }
  }

  lemma PassKeepsPace(s: State, e: Event)
    requires PaceInv(s) && IsPassEvent(e) && !e.Claim? && e.pass in s.passes
    requires Writes(s, e) ==> s.passes[e.pass].ticket == s.total
    ensures PaceInv(PassStep(s, e, s.passes[e.pass]))
  {
    hide Backoff, ClaimGuard;
    StepKeepsCount(s, e);
  }

  lemma OutsideKeepsPace(s: State, e: Event)
    requires PaceInv(s) && !IsPassEvent(e)
    ensures PaceInv(Step(s, e))
  {
    hide Backoff, ClaimGuard, PassStep;
    StepKeepsCount(s, e);
  }

  lemma StepKeepsPace(s: State, e: Event)
    requires PaceInv(s)
    requires Writes(s, e) ==> s.passes[e.pass].ticket == s.total
    ensures PaceInv(Step(s, e))
  {
    hide PaceInv, PassStep, Writes, ClaimGuard;
    if !IsPassEvent(e) {
      OutsideKeepsPace(s, e);
    } else if e.pass in s.passes {
      if e.Claim? { ClaimKeepsPace(s, e.pass, e.dispatcher); } else { PassKeepsPace(s, e); }
    }
  }

  lemma {:induction false} PaceThroughout(s: State, es: seq<Event>)
    requires PaceInv(s) && Fenced(s, es)
    ensures PaceInv(RunAll(s, es))
    decreases |es|
  {
    if es != [] {
      StepKeepsPace(s, es[0]);
      PaceThroughout(Step(s, es[0]), es[1..]);
    }
  }

  lemma {:induction false} SumOfBackoffs(claims: seq<int>, k: nat)
    requires Spaced(claims) && k < |claims| && k <= 6
    ensures claims[k] >= claims[0] + 5 * (Pow2(k) - 1)
  {
    if k > 0 {
      SumOfBackoffs(claims, k - 1);
      assert Pow2(2) == 4 && Pow2(4) == 16;
      assert Wait(k) == Pow2(k - 1) * 5;
    }
  }

  /**
   Backoff holds on the failure path and on the crash path alike, because the stale timeout is
   the cap of the backoff: claims of one life of the row are spaced by the backoffs, so up to
   the cap the k-th after the first comes at least 5 * (2^k - 1) seconds later; and a `Failed`
   row has attempts left.
   */
  lemma BackoffHolds(maxAttempts: nat, now: int, es: seq<Event>)
    requires Fenced(NewRow(maxAttempts, now), es)
    ensures var s := RunAll(NewRow(maxAttempts, now), es);
            && (forall i | 1 <= i < |s.claims| :: s.claims[i] >= s.claims[i - 1] + Wait(i))
            && (forall k | 0 <= k < |s.claims| && k <= 6 :: s.claims[k] >= s.claims[0] + 5 * (Pow2(k) - 1))
            && (s.row.status.Failed? ==> s.row.attempts < maxAttempts)
  {
    CountThroughout(NewRow(maxAttempts, now), es);
    PaceThroughout(NewRow(maxAttempts, now), es);
    var s := RunAll(NewRow(maxAttempts, now), es);
    forall k | 0 <= k < |s.claims| && k <= 6 ensures s.claims[k] >= s.claims[0] + 5 * (Pow2(k) - 1) {
      SumOfBackoffs(s.claims, k);
    }
  }

  // ----- how prompt a dispatcher has to be -----

  /** What dispatchers and admins keep to. */
  datatype Pledge = Pledge(deadline: nat, guarded: bool)

  /**
   Results are written within `deadline` of the claim; and if `guarded`, a reprocess commits only on a
   row that still reads `DeadLetter`, which its handler does not check.
   */
  predicate OnTime(s: State, e: Event, pledge: Pledge) {
    && (Writes(s, e) ==> s.now <= s.passes[e.pass].stamp + pledge.deadline)
    && (pledge.guarded && e.Reprocess? && e.request in s.reprocesses ==> s.row.status.DeadLetter?)
  }

  ghost predicate Prompt(s: State, es: seq<Event>, pledge: Pledge)
    decreases |es|
  {
    es != [] ==> OnTime(s, es[0], pledge) && Prompt(Step(s, es[0]), es[1..], pledge)
  }

  /** The latest claim still stands in the row, and older ones are a full timeout old. */
  predicate PassOk(s: State, p: Pass) {
    && p.stamp <= s.now
    && (InFlight(p) ==>
          && 1 <= p.ticket <= s.total
          && (p.ticket < s.total ==> p.stamp + PROCESSING_TIMEOUT <= s.now)
          && (p.ticket == s.total ==> s.row.status.Processing? && s.row.processingStartedAt == Some(p.stamp)))
  }

  ghost predicate StandingInv(s: State) {
    && (forall id | id in s.passes :: PassOk(s, s.passes[id]))
    && (forall a, b | a in s.passes && b in s.passes && InFlight(s.passes[a]) && InFlight(s.passes[b])
                      && s.passes[a].ticket == s.total && s.passes[b].ticket == s.total :: a == b)
  }

  lemma ClaimKeepsStanding(s: State, id: string, dispatcher: string)
    requires StandingInv(s) && id in s.passes
    ensures StandingInv(PassStep(s, Claim(id, dispatcher), s.passes[id]))
  {
    var d := PassStep(s, Claim(id, dispatcher), s.passes[id]);
    assert PassOk(s, s.passes[id]);
    forall other | other in d.passes ensures PassOk(d, d.passes[other]) {
      assert PassOk(s, s.passes[other]);
    }
  }

  lemma PassKeepsStanding(s: State, e: Event, pledge: Pledge)
    requires StandingInv(s) && OnTime(s, e, pledge) && pledge.guarded && pledge.deadline < PROCESSING_TIMEOUT
    requires IsPassEvent(e) && !e.Claim? && e.pass in s.passes
    ensures StandingInv(PassStep(s, e, s.passes[e.pass]))
    ensures Writes(s, e) ==> s.passes[e.pass].ticket == s.total
  {
    hide Backoff, ClaimGuard;
    var d := PassStep(s, e, s.passes[e.pass]);
    assert PassOk(s, s.passes[e.pass]);
    forall other | other in d.passes ensures PassOk(d, d.passes[other]) {
      assert PassOk(s, s.passes[other]);
    }
  }

  lemma OutsideKeepsStanding(s: State, e: Event, pledge: Pledge)
    requires StandingInv(s) && OnTime(s, e, pledge) && pledge.guarded && !IsPassEvent(e)
    ensures StandingInv(Step(s, e))
  {
    hide ClaimGuard, PassStep;
    var d := Step(s, e);
    forall id | id in d.passes ensures PassOk(d, d.passes[id]) {
      assert id in s.passes ==> PassOk(s, s.passes[id]);
    }
  }

  lemma StepKeepsStanding(s: State, e: Event, pledge: Pledge)
    requires StandingInv(s) && OnTime(s, e, pledge) && pledge.guarded && pledge.deadline < PROCESSING_TIMEOUT
    ensures StandingInv(Step(s, e))
    ensures Writes(s, e) ==> s.passes[e.pass].ticket == s.total
  {
    hide StandingInv, PassStep, ClaimGuard, OnTime;
    if !IsPassEvent(e) {
      OutsideKeepsStanding(s, e, pledge);
    } else if e.pass in s.passes {
      if e.Claim? { ClaimKeepsStanding(s, e.pass, e.dispatcher); } else { PassKeepsStanding(s, e, pledge); }
    }
  }

  lemma {:induction false} PromptIsFenced(s: State, es: seq<Event>, pledge: Pledge)
    requires StandingInv(s) && Prompt(s, es, pledge) && pledge.guarded && pledge.deadline < PROCESSING_TIMEOUT
    ensures Fenced(s, es)
    decreases |es|
  {
    if es != [] {
      StepKeepsStanding(s, es[0], pledge);
      PromptIsFenced(Step(s, es[0]), es[1..], pledge);
    }
  }

  // ----- very prompt dispatchers need no guard -----

  /** The latest claim of this life of the row, if any. */
  function LastClaim(s: State): int
    requires s.claims != []
  {
    s.claims[|s.claims| - 1]
  }

  /** A pass that does not hold the latest claim of this life was stamped before it, and well before a second one. */
  predicate YoungOk(s: State, p: Pass) {
    if p.ticket == s.total && s.claims != [] then p.stamp == LastClaim(s)
    else
      && (s.claims == [] ==> p.stamp <= s.row.availableAt)
      && (|s.claims| == 1 ==> p.stamp <= LastClaim(s))
      && (|s.claims| >= 2 ==> p.stamp + 5 <= LastClaim(s))
  }

  ghost predicate YoungInv(s: State) {
    && PaceInv(s)
    && (s.claims == [] ==> !s.row.status.Processing?)
    && forall id | id in s.passes && InFlight(s.passes[id]) :: YoungOk(s, s.passes[id])
  }

  /** A late result of an older claim does no harm while this life has at most one claim. */
  lemma StaleWriteKeepsPace(s: State, e: Event)
    requires PaceInv(s) && Writes(s, e) && |s.claims| <= 1 && s.row.maxAttempts >= 2
    requires s.passes[e.pass].ticket != s.total
    ensures PaceInv(PassStep(s, e, s.passes[e.pass]))
  {
    hide ClaimGuard, Backoff;
    StepKeepsCount(s, e);
    FirstBackoffs();
    BackoffIsAtLeastFive(s.passes[e.pass].attempts);
  }

  lemma FirstBackoffs()
    ensures Backoff(1) == 5 && Backoff(2) == 10
  {
    assert Pow2(1) == 2;
  }

  lemma BackoffIsAtLeastFive(attempts: nat)
    ensures Backoff(attempts) >= 5
  {
    Pow2Grows(0, if attempts == 0 then 0 else attempts - 1);
  }

  lemma ClaimKeepsYoung(s: State, id: string, dispatcher: string)
    requires YoungInv(s) && id in s.passes
    ensures YoungInv(PassStep(s, Claim(id, dispatcher), s.passes[id]))
  {
    hide Backoff;
    ClaimKeepsPace(s, id, dispatcher);
    var p := s.passes[id];
    var d := PassStep(s, Claim(id, dispatcher), p);
    BackoffIsAtLeastFive(|s.claims|);
    BackoffIsShort(|s.claims|);
    forall other | other in d.passes && InFlight(d.passes[other]) ensures YoungOk(d, d.passes[other]) {
      if other != id {
        assert YoungOk(s, s.passes[other]);
        assert s.passes[other].ticket <= s.total;
      }
    }
  }

  lemma BackoffIsShort(attempts: nat)
    ensures Backoff(attempts) <= PROCESSING_TIMEOUT
  {
  }

  lemma PassKeepsYoung(s: State, e: Event, pledge: Pledge)
    requires YoungInv(s) && OnTime(s, e, pledge) && pledge.deadline < 5 && s.row.maxAttempts >= 2
    requires IsPassEvent(e) && !e.Claim? && e.pass in s.passes
    ensures YoungInv(PassStep(s, e, s.passes[e.pass]))
  {
    hide Backoff, ClaimGuard, PaceInv;
    assert InFlight(s.passes[e.pass]) ==> YoungOk(s, s.passes[e.pass]);
    if s.claims != [] { LastIsPast(s); }
    if Writes(s, e) && s.passes[e.pass].ticket != s.total {
      StaleWriteKeepsPace(s, e);
    } else {
      PassKeepsPace(s, e);
    }
    StampsArePast(s);
    var d := PassStep(s, e, s.passes[e.pass]);
    assert d.row.availableAt >= s.row.availableAt || d.row.availableAt >= s.now by { AvailableMovesOn(s, e); }
    forall other | other in d.passes && InFlight(d.passes[other]) ensures YoungOk(d, d.passes[other]) {
      assert YoungOk(s, s.passes[other]);
    }
  }

  lemma LastIsPast(s: State)
    requires PaceInv(s) && s.claims != []
    ensures LastClaim(s) <= s.now
  {
  }

  lemma StampsArePast(s: State)
    requires PaceInv(s)
    ensures forall id | id in s.passes :: s.passes[id].stamp <= s.now
  {
  }

  /** A result either leaves the row's availability alone or moves it past the clock. */
  lemma AvailableMovesOn(s: State, e: Event)
    requires IsPassEvent(e) && e.pass in s.passes
    ensures var d := PassStep(s, e, s.passes[e.pass]);
            d.row.availableAt == s.row.availableAt || d.row.availableAt >= s.now
  {
  }

  lemma OutsideKeepsYoung(s: State, e: Event)
    requires YoungInv(s) && !IsPassEvent(e)
    ensures YoungInv(Step(s, e))
  {
    hide Backoff, ClaimGuard, PassStep, PaceInv;
    OutsideKeepsPace(s, e);
    StampsArePast(s);
    var d := Step(s, e);
    forall other | other in d.passes && InFlight(d.passes[other]) ensures YoungOk(d, d.passes[other]) {
      assert other in s.passes && InFlight(s.passes[other]) ==> YoungOk(s, s.passes[other]);
    }
  }

  lemma StepKeepsYoung(s: State, e: Event, pledge: Pledge)
    requires YoungInv(s) && OnTime(s, e, pledge) && pledge.deadline < 5 && s.row.maxAttempts >= 2
    ensures YoungInv(Step(s, e)) && Step(s, e).row.maxAttempts == s.row.maxAttempts
  {
    hide YoungInv, PassStep, ClaimGuard, OnTime;
    assert Step(s, e).row.maxAttempts == s.row.maxAttempts by { YoungCounts(s); StepKeepsCount(s, e); }
    if !IsPassEvent(e) {
      OutsideKeepsYoung(s, e);
    } else if e.pass in s.passes {
      if e.Claim? { ClaimKeepsYoung(s, e.pass, e.dispatcher); } else { PassKeepsYoung(s, e, pledge); }
    }
  }

  lemma YoungCounts(s: State)
    requires YoungInv(s)
    ensures CountInv(s)
  {
  }

  lemma {:induction false} YoungThroughout(s: State, es: seq<Event>, pledge: Pledge)
    requires YoungInv(s) && Prompt(s, es, pledge) && pledge.deadline < 5 && s.row.maxAttempts >= 2
    ensures YoungInv(RunAll(s, es)) && RunAll(s, es).row.maxAttempts == s.row.maxAttempts
    decreases |es|
  {
    hide Step, YoungInv, OnTime;
    if es != [] {
      StepKeepsYoung(s, es[0], pledge);
      YoungThroughout(Step(s, es[0]), es[1..], pledge);
    }
  }

  // ----- runs built event by event -----

  const PROMPT := Pledge(0, true)

  /** `es` is a prompt run from `s0` to `s`. */
  ghost predicate Leads(s0: State, es: seq<Event>, s: State, pledge: Pledge) {
    RunAll(s0, es) == s && Prompt(s0, es, pledge)
  }

  lemma {:induction false} RunAllThen(s: State, es: seq<Event>, e: Event, pledge: Pledge)
    ensures RunAll(s, es + [e]) == Step(RunAll(s, es), e)
    ensures Prompt(s, es, pledge) && OnTime(RunAll(s, es), e, pledge) ==> Prompt(s, es + [e], pledge)
    decreases |es|
  {
    hide Step, OnTime;
    if es == [] {
      assert [e][1..] == [] && [] + [e] == [e];
    } else {
      assert (es + [e])[0] == es[0] && (es + [e])[1..] == es[1..] + [e];
      RunAllThen(Step(s, es[0]), es[1..], e, pledge);
    }
  }

  lemma NothingYet(s: State, pledge: Pledge)
    ensures Leads(s, [], s, pledge)
  {
  }

  lemma Then(s0: State, es: seq<Event>, s: State, e: Event, pledge: Pledge) returns (es': seq<Event>, s': State)
    requires Leads(s0, es, s, pledge) && OnTime(s, e, pledge)
    ensures Leads(s0, es', s', pledge) && s' == Step(s, e)
  {
    hide Step, OnTime;
    es', s' := es + [e], Step(s, e);
    RunAllThen(s0, es, e, pledge);
  }

  /** One pass picks the row up, claims it and reads it back. */
  lemma Take(s0: State, es: seq<Event>, s: State, id: string, pledge: Pledge) returns (es': seq<Event>, s': State)
    requires Leads(s0, es, s, pledge) && id !in s.passes
    requires ClaimGuard(s.row, s.now, s.row.maxAttempts) && s.row.attempts < BATCH_ATTEMPT_CEILING
    ensures Leads(s0, es', s', pledge)
    ensures s' == s.(row := ClaimRow(s.row, s.now, id), claims := s.claims + [s.now], total := s.total + 1,
                     passes := s.passes[
                       id := Pass(Dispatching, s.now, s.row.maxAttempts, s.row.attempts + 1, s.total + 1)])
  {
    hide Leads;
    es', s' := Then(s0, es, s, Pick(id), pledge);
    es', s' := Then(s0, es', s', TakeTime(id), pledge);
    es', s' := Then(s0, es', s', Claim(id, id), pledge);
    es', s' := Then(s0, es', s', Reread(id), pledge);
    assert s'.passes == s.passes[id := Pass(Dispatching, s.now, s.row.maxAttempts, s.row.attempts + 1, s.total + 1)];
  }

  lemma TwoClaims(maxAttempts: nat, now: int, pledge: Pledge) returns (es: seq<Event>, s: State)
    requires 2 <= maxAttempts
    ensures Leads(NewRow(maxAttempts, now), es, s, pledge)
    ensures s.row == Row(Processing, 2, maxAttempts, now, Some(now + 300), Some("b"))
    ensures s.claims == [now, now + 300] && s.now == now + 300 && s.deadLetter == None && s.reprocesses == {}
    ensures s.passes == map["a" := Pass(Dispatching, now, maxAttempts, 1, 1),
                            "b" := Pass(Dispatching, now + 300, maxAttempts, 2, 2)]
  {
    hide Leads;
    var s0 := NewRow(maxAttempts, now);
    NothingYet(s0, pledge);
    es, s := Take(s0, [], s0, "a", pledge);
    es, s := Then(s0, es, s, Tick(300), pledge);
    es, s := Take(s0, es, s, "b", pledge);
  }

  /**
   A dispatcher that outlives its claim: its late failure lets the next claim come after five
   seconds instead of ten ...
   */
  lemma LateFailureShortensBackoff(maxAttempts: nat, now: int, pledge: Pledge) returns (es: seq<Event>)
    requires maxAttempts >= 3 && pledge.deadline >= PROCESSING_TIMEOUT
    ensures Prompt(NewRow(maxAttempts, now), es, pledge) && !Spaced(RunAll(NewRow(maxAttempts, now), es).claims)
  {
    var s0 := NewRow(maxAttempts, now);
    var s;
    es, s := TwoClaims(maxAttempts, now, pledge);
    es, s := Then(s0, es, s, Fail("a"), pledge);
    assert Backoff(1) == 5 && Backoff(2) == 10;
    es, s := Then(s0, es, s, Tick(5), pledge);
    es, s := Take(s0, es, s, "c", pledge);
    assert s.claims == [now, now + 300, now + 305];
    assert !Spaced(s.claims) by { assert s.claims[2] < s.claims[2 - 1] + Wait(2); }
  }

  /** A row all of whose attempts failed at once, `k` of them so far. */
  lemma {:induction false} FailAtOnce(maxAttempts: nat, now: int, pledge: Pledge, k: nat)
    returns (es: seq<Event>, s: State)
    requires k <= maxAttempts <= BATCH_ATTEMPT_CEILING && maxAttempts >= 1
    ensures Leads(NewRow(maxAttempts, now), es, s, pledge)
    ensures s.passes == map[] && s.reprocesses == {} && s.row.attempts == k && s.row.maxAttempts == maxAttempts
    ensures if k == maxAttempts then s.row.status.DeadLetter? && s.deadLetter == Some(Open)
            else (s.row.status.Pending? || s.row.status.Failed?) && s.row.availableAt <= s.now
  {
    hide Leads, Backoff;
    var s0 := NewRow(maxAttempts, now);
    if k == 0 {
      NothingYet(s0, pledge);
      es, s := [], s0;
    } else {
      es, s := FailAtOnce(maxAttempts, now, pledge, k - 1);
      es, s := Take(s0, es, s, "a", pledge);
      es, s := Then(s0, es, s, Fail("a"), pledge);
      assert s.passes == map[];
      es, s := Then(s0, es, s, Tick(Backoff(k)), pledge);
    }
  }

  /** Two reprocesses read the same dead letter; the second commits under the claim that the first allowed. */
  lemma ReprocessUnderClaim(maxAttempts: nat, now: int, pledge: Pledge) returns (es: seq<Event>, s: State)
    requires 3 <= maxAttempts <= BATCH_ATTEMPT_CEILING && !pledge.guarded
    ensures Leads(NewRow(maxAttempts, now), es, s, pledge)
    ensures s.row.status.Pending? && s.row.attempts == 0 && s.row.maxAttempts == maxAttempts
            && s.row.availableAt == s.now
    ensures s.claims == [] && s.total >= 1 && s.passes == map["b" := Pass(Dispatching, s.now, maxAttempts, 1, s.total)]
  {
    hide Leads, Backoff;
    var s0 := NewRow(maxAttempts, now);
    es, s := FailAtOnce(maxAttempts, now, pledge, maxAttempts);
    es, s := Then(s0, es, s, ReadDeadLetter("p"), pledge);
    es, s := Then(s0, es, s, ReadDeadLetter("q"), pledge);
    es, s := Then(s0, es, s, Reprocess("p"), pledge);
    assert s.reprocesses == {"q"};
    es, s := Take(s0, es, s, "b", pledge);
    es, s := Then(s0, es, s, Reprocess("q"), pledge);
  }

  /** In its second life the row fails once and is claimed again, with "b" still at work from the first. */
  lemma SecondLife(maxAttempts: nat, now: int, pledge: Pledge) returns (es: seq<Event>, s: State)
    requires 3 <= maxAttempts <= BATCH_ATTEMPT_CEILING && !pledge.guarded
    ensures Leads(NewRow(maxAttempts, now), es, s, pledge)
    ensures s.claims == [s.now - 5, s.now] && s.row.attempts == 2 && s.row.maxAttempts == maxAttempts
    ensures "e" !in s.passes && "b" in s.passes
    ensures s.passes["b"] == Pass(Dispatching, s.now - 5, maxAttempts, 1, s.passes["b"].ticket)
  {
    hide Leads, Backoff;
    var s0 := NewRow(maxAttempts, now);
    FirstBackoffs();
    es, s := ReprocessUnderClaim(maxAttempts, now, pledge);
    es, s := Take(s0, es, s, "c", pledge);
    es, s := Then(s0, es, s, Fail("c"), pledge);
    es, s := Then(s0, es, s, Tick(5), pledge);
    es, s := Take(s0, es, s, "d", pledge);
  }

  /**
   So the dispatcher of the first life of the row reports its failure, as soon as five seconds after
   its claim, into the second: the third claim there comes five seconds after the second instead of ten.
   */
  lemma UnguardedReprocessShortensBackoff(maxAttempts: nat, now: int, pledge: Pledge) returns (es: seq<Event>)
    requires 3 <= maxAttempts <= BATCH_ATTEMPT_CEILING && !pledge.guarded && pledge.deadline >= 5
    ensures Prompt(NewRow(maxAttempts, now), es, pledge) && !Spaced(RunAll(NewRow(maxAttempts, now), es).claims)
  {
    hide Leads, Backoff;
    var s0 := NewRow(maxAttempts, now);
    FirstBackoffs();
    var s;
    es, s := SecondLife(maxAttempts, now, pledge);
    var t := s.now;
    es, s := Then(s0, es, s, Fail("b"), pledge);
    es, s := Then(s0, es, s, Tick(5), pledge);
    es, s := Take(s0, es, s, "e", pledge);
    assert s.claims == [t - 5, t, t + 5];
    assert !Spaced(s.claims) by { assert s.claims[2] < s.claims[2 - 1] + Wait(2); }
    LeadsThere(s0, es, s, pledge);
  }

  lemma LeadsThere(s0: State, es: seq<Event>, s: State, pledge: Pledge)
    requires Leads(s0, es, s, pledge)
    ensures RunAll(s0, es) == s && Prompt(s0, es, pledge)
  {
  }

  /** Claims keep their backoff, and a failed row has attempts left. */
  predicate KeepsBackoff(s: State) {
    Spaced(s.claims) && (s.row.status.Failed? ==> s.row.attempts < s.row.maxAttempts)
  }

  /**
   Exactly what the backoff takes: it holds in every run whose dispatchers write within the deadline,
   if and only if the deadline is below the five minutes after which a claim counts as stale, and
   either reprocesses look at the row they reset or the deadline is also below the first backoff.
   */
  lemma BackoffHoldsIff(maxAttempts: nat, now: int, pledge: Pledge)
    requires 3 <= maxAttempts <= 1000
    ensures (forall es | Prompt(NewRow(maxAttempts, now), es, pledge) ::
               KeepsBackoff(RunAll(NewRow(maxAttempts, now), es)))
       <==> pledge.deadline < 300 && (pledge.guarded || pledge.deadline < 5)
  {
    hide Step, OnTime, Backoff;
    var s0 := NewRow(maxAttempts, now);
    if pledge.deadline >= PROCESSING_TIMEOUT {
      var es := LateFailureShortensBackoff(maxAttempts, now, pledge);
    } else if !pledge.guarded && pledge.deadline >= 5 {
      var es := UnguardedReprocessShortensBackoff(maxAttempts, now, pledge);
    } else {
      forall es | Prompt(s0, es, pledge) ensures KeepsBackoff(RunAll(s0, es)) {
        PromptKeepsBackoff(maxAttempts, now, es, pledge);
      }
    }
  }

  /** For any limit of at least two attempts, the condition is enough. */
  lemma PromptKeepsBackoff(maxAttempts: nat, now: int, es: seq<Event>, pledge: Pledge)
    requires maxAttempts >= 2 && Prompt(NewRow(maxAttempts, now), es, pledge)
    requires pledge.deadline < PROCESSING_TIMEOUT && (pledge.guarded || pledge.deadline < 5)
    ensures KeepsBackoff(RunAll(NewRow(maxAttempts, now), es))
  {
    var s0 := NewRow(maxAttempts, now);
    if pledge.guarded {
      PromptIsFenced(s0, es, pledge);
      BackoffHolds(maxAttempts, now, es);
      CountThroughout(s0, es);
    } else {
      YoungThroughout(s0, es, pledge);
    }
  }

  // ----- rows that nobody can see or move -----

  /** Out of attempts, but not dead-lettered, and nobody holds a claim on it. */
  predicate Stuck(s: State) {
    && s.row.attempts >= s.row.maxAttempts
    && (s.row.status.Failed? || s.row.status.Processing?)
    && s.deadLetter != Some(Open) && s.reprocesses == {}
    && forall id | id in s.passes :: s.passes[id].limit == s.row.maxAttempts && !InFlight(s.passes[id])
  }

  /** Such a row never changes again: no claim, no dead letter, nothing to reprocess. */
  lemma {:induction false} StuckForEver(s: State, es: seq<Event>)
    requires Stuck(s)
    ensures Stuck(RunAll(s, es)) && RunAll(s, es).row == s.row
    decreases |es|
  {
    if es != [] {
      StuckForEver(Step(s, es[0]), es[1..]);
    }
  }

  /** ... or strands a row in `Failed`. */
  lemma LateFailureStrands(now: int)
    ensures exists es :: Stuck(RunAll(NewRow(2, now), es)) && RunAll(NewRow(2, now), es).row.status.Failed?
  {
    var s0 := NewRow(2, now);
    var es, s := TwoClaims(2, now, Pledge(PROCESSING_TIMEOUT, true));
    es, s := Then(s0, es, s, Fail("a"), Pledge(PROCESSING_TIMEOUT, true));
    es, s := Then(s0, es, s, Crash("b"), Pledge(PROCESSING_TIMEOUT, true));
  }

  /** The only dispatcher at work on a row that was not dead-lettered. */
  predicate OnlyHolder(s: State, id: string) {
    && id in s.passes && InFlight(s.passes[id])
    && s.row.status.Processing? && s.deadLetter != Some(Open) && s.reprocesses == {}
    && forall other | other in s.passes && other != id :: !InFlight(s.passes[other])
  }

  /** A crash strands the row exactly when it comes on the last attempt. */
  lemma CrashStrandsExactly(maxAttempts: nat, now: int, es: seq<Event>, id: string)
    requires OnlyHolder(RunAll(NewRow(maxAttempts, now), es), id)
    ensures var s := RunAll(NewRow(maxAttempts, now), es);
            Stuck(Step(s, Crash(id))) <==> s.row.attempts == maxAttempts
  {
    CountThroughout(NewRow(maxAttempts, now), es);
  }

  /** And that happens: the last attempt of any row can crash. */
  lemma CrashOnLastAttemptStrands(now: int)
    ensures exists es :: Stuck(RunAll(NewRow(1, now), es)) && RunAll(NewRow(1, now), es).row.status.Processing?
  {
    var s0 := NewRow(1, now);
    var es, s := Take(s0, [], s0, "a", PROMPT);
    es, s := Then(s0, es, s, Crash("a"), PROMPT);
  }

  // ----- the batch loop, with nobody else at work -----

  datatype Verdict = NotClaimed | Delivered | Retried | Buried

  /** One round of the loop: claim, dispatch, and the update or the catch block. */
  function DispatchRow(row: Row, stamp: int, later: int, dispatcher: string, works: bool): (Row, Verdict) {
    if !ClaimGuard(row, stamp, row.maxAttempts) then (row, NotClaimed)
    else
      var c := ClaimRow(row, stamp, dispatcher);
      if works then (Released(c, Processed), Delivered)
      else (FailedRow(c, c.attempts, c.maxAttempts, later), if c.attempts >= c.maxAttempts then Buried else Retried)
  }

  /** Attempts left, and due or abandoned for five minutes. */
  predicate Claimable(row: Row, now: int, limit: nat) {
    && row.attempts < limit
    && (|| (row.status in {Pending, Failed} && row.availableAt <= now)
        || (row.status == Processing
            && match row.processingStartedAt case None => false case Some(t) => t + 300 <= now))
  }

  /**
   A round: a claimable row uses one attempt. If its dispatch works it is processed; if it fails on the last
   attempt it is dead-lettered; and if it fails on an earlier attempt, the k-th, it is put back to be
   available 5, 10, 20, 40, 80, 160 and from then on 300 seconds after the failure, for k = 1, 2, ...
   */
  predicate Rounds(row: Row, r: Row, v: Verdict, stamp: int, later: int, works: bool) {
    var k := row.attempts + 1;
    if !Claimable(row, stamp, row.maxAttempts) then v == NotClaimed && r == row
    else if works then v == Delivered && r == Row(Processed, k, row.maxAttempts, row.availableAt, None, None)
    else if k == row.maxAttempts then v == Buried && r == Row(DeadLetter, k, k, row.availableAt, None, None)
    else v == Retried && r == Row(Failed, k, row.maxAttempts, later + Wait(k), None, None)
  }

  /** The batch query picks exactly a row with fewer than a thousand attempts that is due or abandoned. */
  lemma PicksExactly(s: State, id: string)
    ensures Step(s, Pick(id)) ==
              if id !in s.passes && Claimable(s.row, s.now, 1000)
              then s.(passes := s.passes[id := Pass(Picked, s.now, s.row.maxAttempts, 0, 0)]) else s
  {
  }

  lemma RoundKeepsItsPromise(row: Row, stamp: int, later: int, dispatcher: string, works: bool)
    ensures var (r, v) := DispatchRow(row, stamp, later, dispatcher, works); Rounds(row, r, v, stamp, later, works)
  {
    hide Backoff, Wait;
    BackoffIsTheTable(row.attempts + 1);
  }

  /** The same wait for a pass in any interleaving: from its own failure, by the count it read after its claim. */
  lemma FailurePutsBack(s: State, id: string)
    requires id in s.passes && (s.passes[id].phase.Dispatching? || s.passes[id].phase.Added?)
    ensures var p, d := s.passes[id], Step(s, Fail(id));
            && d.passes == s.passes - {id} && d.claims == s.claims && d.jobAdded == s.jobAdded
            && if p.attempts < p.limit
               then && d.row == Row(Failed, s.row.attempts, s.row.maxAttempts, s.now + Wait(p.attempts), None, None)
                    && d.deadLetter == s.deadLetter
               else && d.row == Row(DeadLetter, s.row.attempts, s.row.maxAttempts, s.row.availableAt, None, None)
                    && d.deadLetter == Some(Open)
  {
    hide Backoff, Wait;
    BackoffIsTheTable(s.passes[id].attempts);
  }

  lemma DeliveryIsARun(s0: State, es: seq<Event>, s: State, id: string, pledge: Pledge)
    returns (es': seq<Event>, s': State)
    requires Leads(s0, es, s, pledge) && id in s.passes && s.passes[id].phase.Dispatching?
    requires s.now <= s.passes[id].stamp + pledge.deadline
    ensures Leads(s0, es', s', pledge) && s'.passes == s.passes - {id}
    ensures s'.row == Released(s.row, Processed) && s'.jobAdded
  {
    hide Leads;
    es', s' := Then(s0, es, s, AddJob(id), pledge);
    es', s' := Then(s0, es', s', MarkProcessed(id), pledge);
  }

  lemma FailureIsARun(s0: State, es: seq<Event>, s: State, id: string, pledge: Pledge)
    returns (es': seq<Event>, s': State)
    requires Leads(s0, es, s, pledge) && id in s.passes && s.passes[id].phase.Dispatching?
    requires s.now <= s.passes[id].stamp + pledge.deadline
    ensures Leads(s0, es', s', pledge) && s'.passes == s.passes - {id}
    ensures s'.row == FailedRow(s.row, s.passes[id].attempts, s.passes[id].limit, s.now)
  {
    hide Leads;
    es', s' := Then(s0, es, s, Fail(id), pledge);
  }

  /** A round that takes `wait` seconds from its claim to its outcome. */
  lemma ClaimedRoundIsARun(s: State, id: string, wait: nat, works: bool) returns (es: seq<Event>, t: State)
    requires id !in s.passes && ClaimGuard(s.row, s.now, s.row.maxAttempts) && s.row.attempts < BATCH_ATTEMPT_CEILING
    ensures Leads(s, es, t, Pledge(wait, true)) && t.passes == s.passes
    ensures t.row == DispatchRow(s.row, s.now, s.now + wait, id, works).0 && (works ==> t.jobAdded)
  {
    hide Leads;
    NothingYet(s, Pledge(wait, true));
    es, t := Take(s, [], s, id, Pledge(wait, true));
    es, t := Then(s, es, t, Tick(wait), Pledge(wait, true));
    if works {
      es, t := DeliveryIsARun(s, es, t, id, Pledge(wait, true));
    } else {
      es, t := FailureIsARun(s, es, t, id, Pledge(wait, true));
    }
    assert t.passes == s.passes;
  }

  /** An undisturbed round of the loop is a sequence of events of the transition system. */
  lemma RoundIsARun(s: State, id: string, wait: nat, works: bool)
    requires id !in s.passes && s.row.attempts < 1000
    ensures exists es :: var t := RunAll(s, es);
                         var (r, v) := DispatchRow(s.row, s.now, s.now + wait, id, works);
                         t.row == r && t.passes == s.passes && (v.Delivered? ==> t.jobAdded)
  {
    if ClaimGuard(s.row, s.now, s.row.maxAttempts) {
      var es, t := ClaimedRoundIsARun(s, id, wait, works);
      assert RunAll(s, es) == t;
    } else {
      assert RunAll(s, []) == s;
    }
  }

  /** The tables one batch works on, by outbox id. */
  datatype Tables = Tables(rows: map<string, Row>, deadLetters: map<string, DeadStatus>, jobs: set<string>)

  /**
   What the loop is given for each candidate: its id, the clock at its claim and at its failure, and
   whether its dispatch works.
   */
  datatype Candidate = Candidate(id: string, stamp: int, later: int, works: bool)

  function Round(t: Tables, c: Candidate, dispatcher: string): (Tables, Verdict)
    requires c.id in t.rows
  {
    var (r, v) := DispatchRow(t.rows[c.id], c.stamp, c.later, dispatcher, c.works);
    (Tables(t.rows[c.id := r],
            if v.Buried? then t.deadLetters[c.id := Open] else t.deadLetters,
            if v.Delivered? then t.jobs + {c.id} else t.jobs), v)
  }

  ghost predicate Candidates(t: Tables, cs: seq<Candidate>) {
    forall i | 0 <= i < |cs| :: cs[i].id in t.rows
  }

  /** The tables after the rounds of all candidates. */
  function Batch(t: Tables, cs: seq<Candidate>, dispatcher: string): (b: Tables)
    requires Candidates(t, cs)
    ensures b.rows.Keys == t.rows.Keys
  {
    if cs == [] then t
    else Round(Batch(t, cs[..|cs| - 1], dispatcher), cs[|cs| - 1], dispatcher).0
  }

  function Count(t: Tables, cs: seq<Candidate>, dispatcher: string, v: Verdict): nat
    requires Candidates(t, cs)
  {
    if cs == [] then 0
    else
      var rest := cs[..|cs| - 1];
      Count(t, rest, dispatcher, v)
      + if Round(Batch(t, rest, dispatcher), cs[|cs| - 1], dispatcher).1 == v then 1 else 0
  }

  /** The attempts of all rows together. */
  ghost function Attempts(rows: map<string, Row>): nat
    decreases |rows|
  {
    if rows == map[] then 0
    else
      var id :| id in rows;
      rows[id].attempts + Attempts(rows - {id})
  }

  /** The sum does not depend on the order. */
  lemma {:induction false} AttemptsSplit(rows: map<string, Row>, id: string)
    requires id in rows
    ensures Attempts(rows) == rows[id].attempts + Attempts(rows - {id})
    decreases |rows|
  {
    var first :| first in rows && Attempts(rows) == rows[first].attempts + Attempts(rows - {first});
    if first != id {
      AttemptsSplit(rows - {first}, id);
      AttemptsSplit(rows - {id}, first);
      assert rows - {first} - {id} == rows - {id} - {first};
    }
  }

  /** A round adds one attempt to the table if it won a claim, and none if it did not. */
  lemma RoundClaims(t: Tables, c: Candidate, dispatcher: string)
    requires c.id in t.rows
    ensures var (u, v) := Round(t, c, dispatcher);
            Attempts(u.rows) == Attempts(t.rows) + if v.NotClaimed? then 0 else 1
  {
    var u := Round(t, c, dispatcher).0;
    AttemptsSplit(t.rows, c.id);
    AttemptsSplit(u.rows, c.id);
    assert u.rows - {c.id} == t.rows - {c.id};
  }

  /**
   The counts of a batch are the claims it won: the attempts in the table rise by exactly the events
   it counts as processed, failed and dead-lettered, and every other candidate was not claimed.
   */
  lemma {:induction false} CountsAddUp(t: Tables, cs: seq<Candidate>, dispatcher: string)
    requires Candidates(t, cs)
    ensures Count(t, cs, dispatcher, Delivered) + Count(t, cs, dispatcher, Retried) + Count(t, cs, dispatcher, Buried)
         == |cs| - Count(t, cs, dispatcher, NotClaimed)
    ensures Attempts(Batch(t, cs, dispatcher).rows)
         == Attempts(t.rows) + Count(t, cs, dispatcher, Delivered) + Count(t, cs, dispatcher, Retried)
            + Count(t, cs, dispatcher, Buried)
  {
    hide Round;
    if cs != [] {
      var n := |cs| - 1;
      CountsAddUp(t, cs[..n], dispatcher);
      RoundClaims(Batch(t, cs[..n], dispatcher), cs[n], dispatcher);
    }
  }

  lemma {:induction false} BatchLeavesOthers(t: Tables, cs: seq<Candidate>, dispatcher: string, id: string)
    requires Candidates(t, cs) && id in t.rows && forall c | c in cs :: c.id != id
    ensures var b := Batch(t, cs, dispatcher);
            && b.rows[id] == t.rows[id] && (id in b.jobs <==> id in t.jobs)
            && (id in b.deadLetters <==> id in t.deadLetters)
            && (id in t.deadLetters ==> b.deadLetters[id] == t.deadLetters[id])
  {
    if cs != [] {
      BatchLeavesOthers(t, cs[..|cs| - 1], dispatcher, id);
      assert cs[|cs| - 1] in cs;
    }
  }

  /**
   A batch of distinct candidates treats each as if it were alone: sent with its job added, put
   back with its backoff, or dead-lettered with an open dead letter.
   */
  lemma {:induction false} BatchHandlesEach(t: Tables, cs: seq<Candidate>, dispatcher: string, i: nat)
    requires Candidates(t, cs) && i < |cs|
    requires forall j, k | 0 <= j < k < |cs| :: cs[j].id != cs[k].id
    ensures var b := Batch(t, cs, dispatcher);
            var (r, v) := DispatchRow(t.rows[cs[i].id], cs[i].stamp, cs[i].later, dispatcher, cs[i].works);
            && b.rows[cs[i].id] == r && Rounds(t.rows[cs[i].id], r, v, cs[i].stamp, cs[i].later, cs[i].works)
            && (cs[i].id in b.jobs <==> v.Delivered? || cs[i].id in t.jobs)
            && (cs[i].id in b.deadLetters <==> v.Buried? || cs[i].id in t.deadLetters)
            && (cs[i].id in b.deadLetters ==>
                  b.deadLetters[cs[i].id] == if v.Buried? then Open else t.deadLetters[cs[i].id])
  {
    hide Rounds;
    var n := |cs| - 1;
    RoundKeepsItsPromise(t.rows[cs[i].id], cs[i].stamp, cs[i].later, dispatcher, cs[i].works);
    if i == n {
      BatchLeavesOthers(t, cs[..n], dispatcher, cs[n].id);
    } else {
      BatchHandlesEach(t, cs[..n], dispatcher, i);
    }
  }

  /** `RolledBack`: the outbox row that the dead letter names is gone, so its update throws. */
  datatype Reply = Done | NotFound | Conflict | RolledBack

  /** The reprocess method below is two events of the transition system. */
  lemma ReprocessIsARun(s: State, request: string)
    requires request !in s.reprocesses
    ensures var d := RunAll(s, [ReadDeadLetter(request), Reprocess(request)]);
            if s.deadLetter == Some(Open)
            then d == s.(row := s.row.(status := Pending, attempts := 0, availableAt := s.now),
                         deadLetter := Some(Reprocessed), claims := [])
            else d == s
  {
    var read, write := ReadDeadLetter(request), Reprocess(request);
    assert [read, write][1..] == [write] && [write][1..] == [];
    assert RunAll(s, [read, write]) == RunAll(Step(s, read), [write]) == RunAll(Step(Step(s, read), write), []);
    assert s.reprocesses + {request} - {request} == s.reprocesses;
  }

  class Outbox {
    var rows: map<string, Row>
    var deadLetters: map<string, DeadStatus>
    var jobs: set<string>

    function View(): Tables
      reads this
    {
      Tables(rows, deadLetters, jobs)
    }

    constructor ()
      ensures View() == Tables(map[], map[], {})
    {
      rows, deadLetters, jobs := map[], map[], {};
    }

    method ClaimOutboxEvent(id: string, limit: nat, now: int, dispatcher: string) returns (event: Option<Row>)
      modifies this`rows
      ensures event.Some? <==> id in old(rows) && Claimable(old(rows)[id], now, limit)
      ensures event.Some? ==>
                var row := old(rows)[id];
                && event.value == Row(Processing, row.attempts + 1, row.maxAttempts, row.availableAt, Some(now),
                                      Some(dispatcher))
                && rows == old(rows)[id := event.value]
      ensures event.None? ==> rows == old(rows)
    {
      if id !in rows || !ClaimGuard(rows[id], now, limit) { return None; }
      rows := rows[id := ClaimRow(rows[id], now, dispatcher)];
      return Some(rows[id]);
    }

    /** One round of the loop. */
    method DispatchOne(c: Candidate, dispatcher: string) returns (v: Verdict)
      requires c.id in rows
      modifies this
      ensures (View(), v) == Round(old(View()), c, dispatcher)
      ensures c.id in rows && Rounds(old(rows)[c.id], rows[c.id], v, c.stamp, c.later, c.works)
      ensures rows == old(rows)[c.id := rows[c.id]]
      ensures jobs == old(jobs) + if v == Delivered then {c.id} else {}
      ensures deadLetters == if v == Buried then old(deadLetters)[c.id := Open] else old(deadLetters)
    {
      hide Rounds;
      RoundKeepsItsPromise(rows[c.id], c.stamp, c.later, dispatcher, c.works);
      var event := ClaimOutboxEvent(c.id, rows[c.id].maxAttempts, c.stamp, dispatcher);
      if event.None? {
        assert rows == old(rows)[c.id := old(rows)[c.id]];
        return NotClaimed;
      }
      if c.works {
        jobs := jobs + {c.id};
        rows := rows[c.id := Released(rows[c.id], Processed)];
        assert rows == old(rows)[c.id := Released(event.value, Processed)];
        return Delivered;
      }
      rows := rows[c.id := FailedRow(rows[c.id], event.value.attempts, event.value.maxAttempts, c.later)];
      assert rows == old(rows)[c.id := FailedRow(event.value, event.value.attempts, event.value.maxAttempts, c.later)];
      if event.value.attempts >= event.value.maxAttempts {
        deadLetters := deadLetters[c.id := Open];
        return Buried;
      }
      return Retried;
    }

    /** The reprocess of an outbox dead letter, past its role check. */
    method Reprocess(id: string, now: int) returns (reply: Reply)
      modifies this
      ensures reply == (if id !in old(deadLetters) then NotFound
                        else if old(deadLetters)[id] == Reprocessed then Conflict
                        else if id !in old(rows) then RolledBack else Done)
      ensures reply == Done ==>
                && rows == old(rows)[id := old(rows)[id].(status := Pending, attempts := 0, availableAt := now)]
                && deadLetters == old(deadLetters)[id := Reprocessed]
      ensures reply != Done ==> rows == old(rows) && deadLetters == old(deadLetters)
      ensures jobs == old(jobs)
    {
      if id !in deadLetters { return NotFound; }
      if deadLetters[id].Reprocessed? { return Conflict; }
      if id !in rows { return RolledBack; }
      rows := rows[id := rows[id].(status := Pending, attempts := 0, availableAt := now)];
      deadLetters := deadLetters[id := Reprocessed];
      return Done;
    }

    method DispatchBatch(cs: seq<Candidate>, dispatcher: string)
      returns (processed: nat, failed: nat, deadLettered: nat)
      requires Candidates(View(), cs)
      modifies this
      ensures View() == Batch(old(View()), cs, dispatcher)
      ensures processed == Count(old(View()), cs, dispatcher, Delivered)
      ensures failed == Count(old(View()), cs, dispatcher, Retried)
      ensures deadLettered == Count(old(View()), cs, dispatcher, Buried)
      ensures Attempts(rows) == Attempts(old(rows)) + processed + failed + deadLettered
    {
      processed, failed, deadLettered := 0, 0, 0;
      for n := 0 to |cs|
        invariant View() == Batch(old(View()), cs[..n], dispatcher)
        invariant processed == Count(old(View()), cs[..n], dispatcher, Delivered)
        invariant failed == Count(old(View()), cs[..n], dispatcher, Retried)
        invariant deadLettered == Count(old(View()), cs[..n], dispatcher, Buried)
      {
        assert cs[..n + 1][..n] == cs[..n];
        var v := DispatchOne(cs[n], dispatcher);
        match v
        case NotClaimed =>
        case Delivered => processed := processed + 1;
        case Retried => failed := failed + 1;
        case Buried => deadLettered := deadLettered + 1;
      }
      assert cs[..|cs|] == cs;
      CountsAddUp(old(View()), cs, dispatcher);
    }
  }
}
