/**
 One worker process at a time: `claim`, `executeActionById` and the job handler as they run
 when nobody interferes, written as methods on the tables and specified by functions on the
 rows of one action. `ExecuteIsARun` ties those functions to the transition system.
 */
module Worker {
  import opened Domain
  import opened ActionRows
  import opened Lifecycle

  /** Where the `try` block throws, if it does, and how the error is classified. */
  datatype Outcome = Outcome(content: Content, breaksAt: Option<Phase>, retryable: bool)

  datatype Result = NotClaimed | Threw | Done | Failure(retryable: bool)

  // ----- what one call does to the rows -----

  function ClaimRows(rows: Rows, worker: string, now: int, expires: int): (Rows, Option<Action>) {
    var x := rows.action;
    if Unclaimable(x) then (rows, None)
    else if x.attemptCount >= x.maxAttempts then (MoveToDeadLetter(rows, None), None)
    else if !ClaimGuard(x, now, x.maxAttempts) then (rows, None)
    else
      var y := ClaimRow(x, worker, now, expires);
      (rows.(action := y), Some(y))
  }

  predicate Breaks(rows: Rows, o: Outcome, at: Phase) {
    o.breaksAt == Some(at) || (at.Executing? && EffectOf(rows.action.plan).UnknownType?)
  }

  predicate IsRetryable(p: Planned, o: Outcome) {
    o.retryable && !EffectOf(p).UnknownType?
  }

  function CatchRows(rows: Rows, no: nat, limit: nat, retryable: bool): (Rows, Result) {
    if !retryable || no >= limit
    then (MoveToDeadLetter(rows, Some(no)), Failure(false))
    else (FailTransaction(rows, no), Failure(true))
  }

  function EffectRows(rows: Rows, content: Content): Rows {
    match EffectOf(rows.action.plan)
    case WriteRow(key) => WriteEffect(rows, key, content)
    case _ => rows
  }

  /** The rows when the `try` block returns or throws, and whether it threw. */
  function ProgressRows(rows: Rows, no: nat, o: Outcome): (Rows, bool) {
    if Breaks(rows, o, Executing) then (rows, true)
    else
      var r1 := EffectRows(rows, o.content);
      if Breaks(rows, o, Effected) then (r1, true)
      else
        var r2 := SetAttempt(r1, no, Succeeded);
        if Breaks(rows, o, Succeeding) then (r2, true)
        else (r2.(action := FinishRow(r2.action, Executed)), Breaks(rows, o, Marked))
  }

  function TryRows(rows: Rows, no: nat, limit: nat, o: Outcome): (Rows, Result) {
    var (r, threw) := ProgressRows(rows, no, o);
    if threw then CatchRows(r, no, limit, IsRetryable(rows.action.plan, o)) else (r, Done)
  }

  function ExecuteRows(rows: Rows, run: string, worker: string, now: int, expires: int, o: Outcome): (Rows, Result) {
    var (r, claimed) := ClaimRows(rows, worker, now, expires);
    match claimed
    case None =>
      (if r.action.status.WaitingApproval? || r.action.requiresApproval then EnsureApproval(r, now) else r, NotClaimed)
    case Some(x) =>
      if x.attemptCount in r.attempts then (r, Threw)
      else
        var begun := r.(attempts := r.attempts[x.attemptCount := Attempt(Started, run)]);
        TryRows(begun, x.attemptCount, x.maxAttempts, o)
  }

  /** The clock and the outcome of each delivery that the queue has in store, and the lock's TTL. */
  datatype Delivery = Delivery(now: int, outcome: Outcome)
  datatype Job = Job(deliveries: seq<Delivery>, ttl: int)

  /** Whether the handler throws; `made` counts this delivery too. */
  predicate Throws(result: Result, made: nat, queueAttempts: nat) {
    result.Threw? || (result == Failure(true) && made < queueAttempts)
  }

  /** The rows after deliveries `k`, `k + 1`, ... of the job, and how many deliveries it took in all. */
  function Redeliver(rows: Rows, run: string, worker: string, job: Job, k: nat): (Rows, nat)
    requires k < |job.deliveries|
    decreases |job.deliveries| - k
  {
    var d := job.deliveries[k];
    var (r, result) := ExecuteRows(rows, run, worker, d.now, d.now + job.ttl, d.outcome);
    if Throws(result, k + 1, |job.deliveries|) && k + 1 < |job.deliveries|
    then Redeliver(r, run, worker, job, k + 1) else (r, k + 1)
  }

  // ----- what each call promises -----

  /** Free, failed, or left behind by a worker whose lock has run out. */
  predicate UpForGrabs(x: Action, now: int) {
    || x.status in {Pending, Failed}
    || (x.status == Running && match x.lockExpiresAt case None => false case Some(t) => t <= now)
  }

  /**
   A claim: it wins the action exactly if that is past the gate, has attempts left and is up for grabs. An
   action past the gate that is neither waiting nor ended and has none left is dead-lettered. Else nothing
   changes.
   */
  predicate Claims(r: Rows, s: Rows, worker: string, now: int, expires: int, claimed: Option<Action>) {
    var x := r.action;
    var open := !x.requiresApproval && (x.status.Pending? || x.status.Failed? || x.status.Running?);
    && (claimed.Some? <==> open && x.attemptCount < x.maxAttempts && UpForGrabs(x, now))
    && (claimed.Some? ==>
          && claimed.value == Action(x.plan, Running, false, x.attemptCount + 1, x.maxAttempts,
                                     Some(worker), Some(now), Some(expires))
          && s == r.(action := claimed.value))
    && (open && x.attemptCount >= x.maxAttempts ==> Buries(r, s))
    && (claimed.None? && (!open || x.attemptCount < x.maxAttempts) ==> s == r)
  }

  /** Dead-lettered and unlocked, with an open dead letter. */
  predicate Buries(r: Rows, s: Rows) {
    && s == r.(action := s.action, deadLetter := Some(Open))
    && Ends(r.action, s.action, DeadLetter)
  }

  /** The status changes, the lock goes and the rest stays. */
  predicate Ends(x: Action, y: Action, status: ActionStatus) {
    y == Action(x.plan, status, x.requiresApproval, x.attemptCount, x.maxAttempts, None, None, None)
  }

  /** The attempt's status changes, if the row is there, and nothing else about any attempt. */
  predicate Records(before: map<nat, Attempt>, after: map<nat, Attempt>, no: nat, status: AttemptStatus) {
    && after.Keys == before.Keys
    && forall k | k in before :: after[k] == if k == no then Attempt(status, before[k].owner) else before[k]
  }

  /** The effects grow by what the plan asks for, and no old row is rewritten. */
  ghost predicate Affects(p: Planned, before: map<EffectKey, Content>, after: map<EffectKey, Content>, content: Content)
  {
    && (forall key :: key in after <==> key in before || AsksFor(p, key))
    && (forall key | key in after :: after[key] == if key in before then before[key] else content)
  }

  predicate KnownType(p: Planned) {
    Delegated(p) || BuiltIn(p.kind)
  }

  predicate Succeeds(p: Planned, o: Outcome) {
    KnownType(p) && o.breaksAt !in {Some(Executing), Some(Effected), Some(Succeeding), Some(Marked)}
  }

  /** The try block as far as it gets: the effect, then the attempt's success, then the end of the action. */
  ghost predicate Progresses(r: Rows, s: Rows, no: nat, o: Outcome, threw: bool) {
    var works := KnownType(r.action.plan) && o.breaksAt != Some(Executing);
    && (threw <==> !Succeeds(r.action.plan, o))
    && s == r.(effects := s.effects, attempts := s.attempts, action := s.action)
    && (if works then Affects(r.action.plan, r.effects, s.effects, o.content) else s == r)
    && (if works && o.breaksAt != Some(Effected) then Records(r.attempts, s.attempts, no, Succeeded)
        else s.attempts == r.attempts)
    && (if works && o.breaksAt !in {Some(Effected), Some(Succeeding)} then Ends(r.action, s.action, Executed)
        else s.action == r.action)
  }

  /** The catch block: the attempt reads `Faulted`; the action is dead-lettered at its end and else `Failed`. */
  predicate Catches(r: Rows, s: Rows, no: nat, limit: nat, retryable: bool, result: Result) {
    && result == Failure(retryable && no < limit)
    && Records(r.attempts, s.attempts, no, Faulted)
    && Ends(r.action, s.action, if retryable && no < limit then Failed else DeadLetter)
    && s.deadLetter == (if retryable && no < limit then r.deadLetter else Some(Open))
    && s == r.(attempts := s.attempts, action := s.action, deadLetter := s.deadLetter)
  }

  /** How an attempt that was begun ends, with attempt number `n` on a row that had `n` claims. */
  ghost predicate Attempted(r: Rows, s: Rows, n: nat, run: string, o: Outcome, result: Result) {
    var x := r.action;
    var done, again := Succeeds(x.plan, o), o.retryable && KnownType(x.plan) && n < x.maxAttempts;
    && result == (if done then Done else Failure(again))
    && s == r.(action := s.action, attempts := s.attempts, effects := s.effects, deadLetter := s.deadLetter)
    && s.action == Action(x.plan, if done then Executed else if again then Failed else DeadLetter,
                          false, n, x.maxAttempts, None, None, None)
    && s.attempts == r.attempts[n := Attempt(if done then Succeeded else Faulted, run)]
    && s.deadLetter == (if done || again then r.deadLetter else Some(Open))
    && (if KnownType(x.plan) && o.breaksAt != Some(Executing)
        then Affects(x.plan, r.effects, s.effects, o.content) else s.effects == r.effects)
  }

  /**
   A whole call. An action that has ended is left alone, one that waits only gets its approval if that is
   missing, one without attempts is dead-lettered, and one that somebody holds is left to them. Else the call
   takes the next number: if that is used it throws and leaves the lock behind; if not it makes the attempt.
   */
  ghost predicate Executes(r: Rows, s: Rows, run: string, worker: string, now: int, expires: int, o: Outcome,
                           result: Result)
  {
    var x := r.action;
    if x.requiresApproval || x.status.WaitingApproval? then
      && result == NotClaimed && s == r.(approval := s.approval)
      && (if r.approval == None then s.approval.Some? && Asked(s.approval.value, x.plan, now)
          else s.approval == r.approval)
    else if !(x.status.Pending? || x.status.Failed? || x.status.Running?) then result == NotClaimed && s == r
    else if x.attemptCount >= x.maxAttempts then result == NotClaimed && Buries(r, s)
    else if !UpForGrabs(x, now) then result == NotClaimed && s == r
    else if x.attemptCount + 1 in r.attempts then
      && result == Threw
      && s == r.(action := Action(x.plan, Running, false, x.attemptCount + 1, x.maxAttempts,
                                  Some(worker), Some(now), Some(expires)))
    else Attempted(r, s, x.attemptCount + 1, run, o, result)
  }

  lemma EffectRowsAffect(r: Rows, content: Content)
    ensures Affects(r.action.plan, r.effects, EffectRows(r, content).effects, content)
    ensures EffectRows(r, content) == r.(effects := EffectRows(r, content).effects)
  {
    hide AsksFor, EffectOf;
    forall key ensures EffectOf(r.action.plan) == WriteRow(key) <==> AsksFor(r.action.plan, key) {
      EffectsByTable(r.action.plan, key);
    }
  }

  lemma ProgressKeepsItsPromise(r: Rows, no: nat, o: Outcome)
    ensures var (s, threw) := ProgressRows(r, no, o); Progresses(r, s, no, o, threw)
  {
    hide AsksFor, EffectOf, Delegated, BuiltIn, EffectRows, Affects;
    EffectsByTable(r.action.plan, IncidentRow);
    EffectRowsAffect(r, o.content);
  }

  lemma ClaimKeepsItsPromise(r: Rows, worker: string, now: int, expires: int)
    ensures var (s, claimed) := ClaimRows(r, worker, now, expires); Claims(r, s, worker, now, expires, claimed)
  {
  }

  lemma TryKeepsItsPromise(r: Rows, n: nat, run: string, o: Outcome)
    requires n !in r.attempts && !r.action.requiresApproval && r.action.attemptCount == n
    ensures var begun := r.(attempts := r.attempts[n := Attempt(Started, run)]);
            var (s, result) := TryRows(begun, n, r.action.maxAttempts, o);
            Attempted(r, s, n, run, o, result)
  {
    hide ProgressRows, Affects, Delegated, BuiltIn;
    var begun := r.(attempts := r.attempts[n := Attempt(Started, run)]);
    ProgressKeepsItsPromise(begun, n, o);
    EffectsByTable(r.action.plan, IncidentRow);
  }

  lemma ExecuteKeepsItsPromise(r: Rows, run: string, worker: string, now: int, expires: int, o: Outcome)
    ensures var (s, result) := ExecuteRows(r, run, worker, now, expires, o);
            Executes(r, s, run, worker, now, expires, o, result)
  {
    hide TryRows, ClaimRows, Affects, Succeeds, KnownType;
    ClaimKeepsItsPromise(r, worker, now, expires);
    var (s, claimed) := ClaimRows(r, worker, now, expires);
    if claimed.Some? && claimed.value.attemptCount !in s.attempts {
      TryKeepsItsPromise(s, claimed.value.attemptCount, run, o);
    }
  }

  // ----- the calls themselves -----

  class Database {
    var actions: map<string, Rows>

    constructor ()
      ensures actions == map[]
    {
      actions := map[];
    }

    method Claim(id: string, worker: string, now: int, expires: int) returns (claimed: Option<Action>)
      modifies this
      ensures id !in old(actions) ==> claimed == None && actions == old(actions)
      ensures id in old(actions) ==>
                var (r, c) := ClaimRows(old(actions)[id], worker, now, expires);
                claimed == c && actions == old(actions)[id := r]
      ensures id in old(actions) ==> Claims(old(actions)[id], actions[id], worker, now, expires, claimed)
    {
      if id !in actions { return None; }
      var current := actions[id].action;
      if Unclaimable(current) { return None; }
      if current.attemptCount >= current.maxAttempts {
        actions := actions[id := MoveToDeadLetter(actions[id], None)];
        return None;
      }
      if !ClaimGuard(actions[id].action, now, current.maxAttempts) { return None; }
      actions := actions[id := actions[id].(action := ClaimRow(actions[id].action, worker, now, expires))];
      return Some(actions[id].action);
    }

    /** Extends the lock, if this worker still holds it. */
    method Heartbeat(id: string, worker: string, now: int, expires: int) returns (count: nat)
      modifies this
      ensures id !in old(actions) ==> count == 0 && actions == old(actions)
      ensures id in old(actions) ==>
                var x := old(actions)[id].action;
                && actions == old(actions)[id := old(actions)[id].(action := BeatRow(x, worker, now, expires))]
                && (count == 1 <==> x.status.Running? && x.lockedBy == Some(worker)) && count <= 1
                && actions[id] == old(actions)[id].(action :=
                     if count == 1 then x.(heartbeatAt := Some(now), lockExpiresAt := Some(expires)) else x)
    {
      if id !in actions { return 0; }
      if !actions[id].action.status.Running? || actions[id].action.lockedBy != Some(worker) { return 0; }
      var row := actions[id].action.(heartbeatAt := Some(now), lockExpiresAt := Some(expires));
      actions := actions[id := actions[id].(action := row)];
      return 1;
    }

    /** The catch block. */
    method Fail(id: string, attemptNo: nat, limit: nat, retryable: bool) returns (result: Result)
      requires id in actions
      modifies this
      ensures var (r, s) := CatchRows(old(actions)[id], attemptNo, limit, retryable);
              result == s && actions == old(actions)[id := r]
      ensures Catches(old(actions)[id], actions[id], attemptNo, limit, retryable, result)
    {
      if !retryable || attemptNo >= limit {
        actions := actions[id := MoveToDeadLetter(actions[id], Some(attemptNo))];
        return Failure(false);
      }
      actions := actions[id := FailTransaction(actions[id], attemptNo)];
      return Failure(true);
    }

    method ExecuteActionById(id: string, run: string, worker: string, now: int, expires: int, o: Outcome)
      returns (result: Result)
      modifies this
      ensures id !in old(actions) ==> result == NotClaimed && actions == old(actions)
      ensures id in old(actions) ==>
                var (r, s) := ExecuteRows(old(actions)[id], run, worker, now, expires, o);
                result == s && actions == old(actions)[id := r]
      ensures id in old(actions) ==>
                Executes(old(actions)[id], actions[id], run, worker, now, expires, o, result)
    {
      hide Claims, Progresses, Catches, Executes, ProgressRows, CatchRows;
      if id in actions { ExecuteKeepsItsPromise(actions[id], run, worker, now, expires, o); }
      var claimed := Claim(id, worker, now, expires);
      if id !in actions { return NotClaimed; }
      if claimed.None? {
        var current := actions[id].action;
        if current.status.WaitingApproval? || current.requiresApproval {
          actions := actions[id := EnsureApproval(actions[id], now)];
        }
        return NotClaimed;
      }
      var attemptNo, limit := claimed.value.attemptCount, claimed.value.maxAttempts;
      if attemptNo in actions[id].attempts { return Threw; }
      actions := actions[id := actions[id].(attempts := actions[id].attempts[attemptNo := Attempt(Started, run)])];
      var retryable := IsRetryable(actions[id].action.plan, o);
      var threw := Progress(id, attemptNo, o);
      if threw {
        result := Fail(id, attemptNo, limit, retryable);
      } else {
        result := Done;
      }
    }

    /** The body of the try block: effect, attempt, action, audit. */
    method Progress(id: string, attemptNo: nat, o: Outcome) returns (threw: bool)
      requires id in actions
      modifies this
      ensures var (r, t) := ProgressRows(old(actions)[id], attemptNo, o);
              threw == t && actions == old(actions)[id := r]
      ensures Progresses(old(actions)[id], actions[id], attemptNo, o, threw)
    {
      ProgressKeepsItsPromise(actions[id], attemptNo, o);
      if Breaks(actions[id], o, Executing) { return true; }
      actions := actions[id := EffectRows(actions[id], o.content)];
      if o.breaksAt == Some(Effected) { return true; }
      actions := actions[id := SetAttempt(actions[id], attemptNo, Succeeded)];
      if o.breaksAt == Some(Succeeding) { return true; }
      actions := actions[id := actions[id].(action := FinishRow(actions[id].action, Executed))];
      return o.breaksAt == Some(Marked);
    }

    /** Delivery `k` of a queue job, and those after it: one more each time the handler throws. */
    method RunJob(id: string, run: string, worker: string, job: Job, k: nat) returns (deliveries: nat)
      requires k < |job.deliveries|
      modifies this
      ensures id !in old(actions) ==> deliveries == k + 1 && actions == old(actions)
      ensures id in old(actions) ==>
                var (r, n) := Redeliver(old(actions)[id], run, worker, job, k);
                deliveries == n && actions == old(actions)[id := r]
      decreases |job.deliveries| - k
    {
      hide ExecuteRows;
      var d := job.deliveries[k];
      var result := ExecuteActionById(id, run, worker, d.now, d.now + job.ttl, d.outcome);
      deliveries := k + 1;
      if Throws(result, k + 1, |job.deliveries|) && k + 1 < |job.deliveries| {
        deliveries := RunJob(id, run, worker, job, k + 1);
      }
    }
  }

  /**
   A delivery is followed by another exactly if the call threw or failed retryably and the queue has one
   left; else its rows are the job's.
   */
  lemma {:induction false} RedeliveredWhileItThrows(rows: Rows, run: string, worker: string, job: Job, k: nat)
    requires k < |job.deliveries|
    ensures var d := job.deliveries[k];
            var (r, result) := ExecuteRows(rows, run, worker, d.now, d.now + job.ttl, d.outcome);
            var (last, n) := Redeliver(rows, run, worker, job, k);
            && k < n <= |job.deliveries|
            && (n > k + 1 <==> k + 1 < |job.deliveries| && (result == Threw || result == Failure(true)))
            && (n == k + 1 ==> last == r)
            && (n > k + 1 ==> (last, n) == Redeliver(r, run, worker, job, k + 1))
    decreases |job.deliveries| - k
  {
    hide ExecuteRows;
    var d := job.deliveries[k];
    var (r, result) := ExecuteRows(rows, run, worker, d.now, d.now + job.ttl, d.outcome);
    if Throws(result, k + 1, |job.deliveries|) && k + 1 < |job.deliveries| {
      RedeliveredWhileItThrows(r, run, worker, job, k + 1);
    }
  }

  // ----- one job settles one action -----

  /** Nobody else is at work, and every attempt row has a number the counter has passed. */
  predicate Workable(rows: Rows) {
    && !rows.action.requiresApproval
    && (rows.action.status.Pending? || rows.action.status.Failed?)
    && forall no | no in rows.attempts :: no <= rows.action.attemptCount
  }

  /** The attempt numbers in (lo, hi]. */
  function Numbers(lo: nat, hi: nat): set<nat>
    requires lo <= hi
  {
    if lo == hi then {} else Numbers(lo, hi - 1) + {hi}
  }

  lemma ProgressOutcome(rows: Rows, no: nat, o: Outcome)
    ensures var (r, threw) := ProgressRows(rows, no, o);
            && r.action.plan == rows.action.plan && r.action.maxAttempts == rows.action.maxAttempts
            && r.action.attemptCount == rows.action.attemptCount
            && r.action.requiresApproval == rows.action.requiresApproval
            && r.attempts.Keys == rows.attempts.Keys
            && (!threw <==> Succeeds(rows.action.plan, o))
            && (!threw ==> r.action.status.Executed?)
  {
  }

  lemma TryOutcome(rows: Rows, no: nat, limit: nat, o: Outcome)
    ensures var (r, result) := TryRows(rows, no, limit, o);
            && r.action.plan == rows.action.plan && r.action.maxAttempts == rows.action.maxAttempts
            && r.action.attemptCount == rows.action.attemptCount
            && r.action.requiresApproval == rows.action.requiresApproval
            && r.attempts.Keys == rows.attempts.Keys
            && (result.Done? <==> Succeeds(rows.action.plan, o))
            && (result.Done? ==> r.action.status.Executed?)
            && (result == Failure(true) <==>
                !Succeeds(rows.action.plan, o) && IsRetryable(rows.action.plan, o) && no < limit)
            && (result == Failure(true) ==> r.action.status.Failed?)
            && (result == Failure(false) ==> r.action.status.DeadLetter?)
            && (result.Done? || result.Failure?)
  {
    ProgressOutcome(rows, no, o);
  }

  /** What a single delivery does to a workable action. */
  ghost predicate Delivered(rows: Rows, o: Outcome, r: Rows, result: Result) {
    var n, limit := rows.action.attemptCount, rows.action.maxAttempts;
    && r.action.plan == rows.action.plan && r.action.maxAttempts == limit
    && if n >= limit then result.NotClaimed? && r.action.status.DeadLetter? else
       && r.action.attemptCount == n + 1
       && r.attempts.Keys == rows.attempts.Keys + {n + 1}
       && (result.Done? <==> Succeeds(rows.action.plan, o))
       && (result.Done? ==> r.action.status.Executed?)
       && (result == Failure(true) <==>
           !Succeeds(rows.action.plan, o) && IsRetryable(rows.action.plan, o) && n + 1 < limit)
       && (result == Failure(true) ==> Workable(r))
       && (result == Failure(false) ==> r.action.status.DeadLetter?)
       && (result.Done? || result.Failure?)
  }

  lemma OneDelivery(rows: Rows, run: string, worker: string, now: int, expires: int, o: Outcome)
    requires Workable(rows)
    ensures var (r, result) := ExecuteRows(rows, run, worker, now, expires, o); Delivered(rows, o, r, result)
  {
    var (c, claimed) := ClaimRows(rows, worker, now, expires);
    if claimed.Some? {
      var n := claimed.value.attemptCount;
      TryOutcome(c.(attempts := c.attempts[n := Attempt(Started, run)]), n, claimed.value.maxAttempts, o);
    }
  }

  /** An action of unknown type is dead-lettered on its first execution; it is never left `Failed`. */
  lemma UnknownTypesAreDeadLettered(rows: Rows, run: string, worker: string, now: int, expires: int, o: Outcome)
    requires Workable(rows) && EffectOf(rows.action.plan).UnknownType?
    ensures var (r, result) := ExecuteRows(rows, run, worker, now, expires, o);
            r.action.status.DeadLetter? && (result == Failure(false) || result.NotClaimed?)
  {
    hide ExecuteRows;
    OneDelivery(rows, run, worker, now, expires, o);
  }

  /** The attempts of deliveries `k` to `n` are used in order, and only the last may settle the action. */
  predicate Settled(rows: Rows, job: Job, k: nat, r: Rows, n: nat)
    requires k < n <= |job.deliveries|
  {
    var c, limit, p := rows.action.attemptCount, rows.action.maxAttempts, rows.action.plan;
    var last := job.deliveries[n - 1].outcome;
    if c >= limit then r.action.status.DeadLetter? && n == k + 1 else
      && n - k <= limit - c
      && r.attempts.Keys == rows.attempts.Keys + Numbers(c, c + n - k)
      && (forall i | k <= i < n - 1 ::
            !Succeeds(p, job.deliveries[i].outcome) && IsRetryable(p, job.deliveries[i].outcome))
      && (Succeeds(p, last) || !IsRetryable(p, last) || n - k == limit - c)
      && if Succeeds(p, last) then r.action.status.Executed? else r.action.status.DeadLetter?
  }

  lemma LastDeliverySettles(rows: Rows, job: Job, k: nat, r: Rows, result: Result)
    requires Workable(rows) && k < |job.deliveries| && rows.action.maxAttempts == |job.deliveries|
    requires Delivered(rows, job.deliveries[k].outcome, r, result) && result != Failure(true)
    ensures Settled(rows, job, k, r, k + 1)
  {
    var c := rows.action.attemptCount;
    assert Numbers(c, c + 1) == {c + 1};
  }

  lemma EarlierDeliverySettles(rows: Rows, job: Job, k: nat, r: Rows, r': Rows, n: nat)
    requires k + 1 < n <= |job.deliveries|
    requires Delivered(rows, job.deliveries[k].outcome, r, Failure(true))
    requires Settled(r, job, k + 1, r', n)
    ensures Settled(rows, job, k, r', n)
  {
    NumbersFrom(rows.action.attemptCount, rows.action.attemptCount + n - k);
  }

  lemma {:induction false} RestOfJobSettles(rows: Rows, run: string, worker: string, job: Job, k: nat)
    requires Workable(rows) && k < |job.deliveries|
    requires rows.action.maxAttempts == |job.deliveries| && k <= rows.action.attemptCount
    ensures var (r, n) := Redeliver(rows, run, worker, job, k);
            k < n <= |job.deliveries| && Settled(rows, job, k, r, n)
    decreases |job.deliveries| - k
  {
    hide ExecuteRows;
    var d := job.deliveries[k];
    var (r, result) := ExecuteRows(rows, run, worker, d.now, d.now + job.ttl, d.outcome);
    OneDelivery(rows, run, worker, d.now, d.now + job.ttl, d.outcome);
    if result == Failure(true) {
      RestOfJobSettles(r, run, worker, job, k + 1);
      var (r', n) := Redeliver(r, run, worker, job, k + 1);
      EarlierDeliverySettles(rows, job, k, r, r', n);
    } else {
      LastDeliverySettles(rows, job, k, r, result);
    }
  }

  lemma {:induction false} NumbersFrom(lo: nat, hi: nat)
    requires lo < hi
    ensures Numbers(lo, hi) == {lo + 1} + Numbers(lo + 1, hi)
  {
    if lo + 1 < hi { NumbersFrom(lo, hi - 1); }
  }

  /**
   One job settles one action. With nobody else at work, no attempt row above the count, and the
   queue's limit equal to the action's, the action ends executed or dead-lettered, never `Failed`,
   within the attempts that are left; these are used one after the other, every delivery but the
   last failed and was retryable, and the last succeeded, was fatal, or was the last one left.
   */
  lemma OneJobSettlesOneAction(rows: Rows, run: string, worker: string, job: Job)
    requires Workable(rows) && 1 <= rows.action.maxAttempts == |job.deliveries|
    ensures var (r, n) := Redeliver(rows, run, worker, job, 0);
            && 1 <= n <= |job.deliveries| && Settled(rows, job, 0, r, n)
            && (r.action.status.Executed? || r.action.status.DeadLetter?)
  {
    RestOfJobSettles(rows, run, worker, job, 0);
  }

  // ----- the straight-line code is a run of the transition system -----

  /** A run inside its `try` that goes as far as the outcome lets it. */
  lemma ProgressIsARun(c0: Case, es: seq<Event>, c: Case, run: string, o: Outcome) returns (es': seq<Event>, c': Case)
    requires RunAll(c0, es) == c && run in c.runs && c.runs[run].phase.Executing?
    ensures RunAll(c0, es') == c' && run in c'.runs && InTry(c'.runs[run])
    ensures c'.runs == c.runs[run := c.runs[run].(phase := c'.runs[run].phase)] && c'.requests == c.requests
    ensures var (r, threw) := ProgressRows(c.rows, c.runs[run].attemptNo, o);
            c'.rows == r && (!threw ==> c'.runs[run].phase.Marked?)
  {
    es', c' := es, c;
    if Breaks(c.rows, o, Executing) { return; }
    es', c' := ThenEffect(c0, es', c', run, o.content);
    assert c'.rows == EffectRows(c.rows, o.content);
    if Breaks(c.rows, o, Effected) { return; }
    es', c' := ThenSucceed(c0, es', c', run);
    if Breaks(c.rows, o, Succeeding) { return; }
    es', c' := ThenMark(c0, es', c', run);
  }

  lemma TryIsARun(c0: Case, es: seq<Event>, c: Case, run: string, o: Outcome) returns (es': seq<Event>, c': Case)
    requires RunAll(c0, es) == c && run in c.runs && c.runs[run].phase.Executing?
    ensures RunAll(c0, es') == c' && c'.runs == c.runs - {run} && c'.requests == c.requests
    ensures c'.rows == TryRows(c.rows, c.runs[run].attemptNo, c.runs[run].limit, o).0
  {
    es', c' := ProgressIsARun(c0, es, c, run, o);
    var (r, threw) := ProgressRows(c.rows, c.runs[run].attemptNo, o);
    if threw {
      es', c' := ThenFail(c0, es', c', run, IsRetryable(c.rows.action.plan, o));
    } else {
      es', c' := ThenFinish(c0, es', c', run);
    }
  }

  lemma ClaimIsARun(c0: Case, es: seq<Event>, c: Case, run: string, worker: string, now: int, expires: int)
    returns (es': seq<Event>, c': Case)
    requires RunAll(c0, es) == c && run !in c.runs
    ensures RunAll(c0, es') == c' && c'.requests == c.requests
    ensures var (r, claimed) := ClaimRows(c.rows, worker, now, expires);
            && c'.rows == r
            && match claimed
               case None => c'.runs == c.runs
               case Some(x) => c'.runs == c.runs[
                   run := Run(Holding, worker, now, expires, x.maxAttempts, x.attemptCount)]
  {
    es', c' := es, c;
    if Unclaimable(c.rows.action) { return; }
    es', c' := ThenRead(c0, es', c', run, worker, now, expires);
    if c.rows.action.attemptCount >= c.rows.action.maxAttempts {
      es', c' := ThenGiveUp(c0, es', c', run);
      assert c'.runs == c.runs;
    } else {
      es', c' := ThenClaim(c0, es', c', run);
      if run in c'.runs {
        es', c' := ThenReread(c0, es', c', run);
      } else {
        assert c'.runs == c.runs;
      }
    }
  }

  lemma EnsureIsARun(c0: Case, es: seq<Event>, c: Case, request: string, now: int) returns (es': seq<Event>, c': Case)
    requires RunAll(c0, es) == c && request !in c.requests
    requires c.rows.action.status.WaitingApproval? || c.rows.action.requiresApproval
    ensures RunAll(c0, es') == c' && c'.requests == c.requests && c'.runs == c.runs
    ensures c'.rows == EnsureApproval(c.rows, now)
  {
    es', c' := ThenAsk(c0, es, c, ReadToEnsure(request));
    es', c' := ThenCommit(c0, es', c', request, now);
    assert c'.requests == c.requests;
  }

  /**
   A whole call of `executeActionById`, whatever it finds and wherever it breaks, is a sequence
   of events of the transition system, so everything proved about all runs holds of it too.
   */
  lemma ExecuteIsARun(c: Case, run: string, request: string, worker: string, now: int, expires: int, o: Outcome)
    requires run !in c.runs && request !in c.requests
    ensures exists es :: var d := RunAll(c, es);
                         && d.rows == ExecuteRows(c.rows, run, worker, now, expires, o).0
                         && d.runs == c.runs && d.requests == c.requests
  {
    var (r, claimed) := ClaimRows(c.rows, worker, now, expires);
    var es, d := ClaimIsARun(c, [], c, run, worker, now, expires);
    if claimed.None? {
      if r.action.status.WaitingApproval? || r.action.requiresApproval {
        es, d := EnsureIsARun(c, es, d, request, now);
      }
    } else {
      es, d := ThenInsert(c, es, d, run);
      if run in d.runs {
        es, d := TryIsARun(c, es, d, run, o);
      }
      assert d.runs == c.runs;
    }
    assert RunAll(c, es) == d;
  }

  /** And so is a job with all its redeliveries. */
  lemma {:induction false} JobIsARun(c: Case, run: string, request: string, worker: string, job: Job, k: nat)
    requires run !in c.runs && request !in c.requests && k < |job.deliveries|
    ensures exists es :: var d := RunAll(c, es);
                         && d.rows == Redeliver(c.rows, run, worker, job, k).0
                         && d.runs == c.runs && d.requests == c.requests
    decreases |job.deliveries| - k
  {
    hide RunAll, ExecuteRows;
    var x := job.deliveries[k];
    ExecuteIsARun(c, run, request, worker, x.now, x.now + job.ttl, x.outcome);
    var es :| var d := RunAll(c, es);
              && d.rows == ExecuteRows(c.rows, run, worker, x.now, x.now + job.ttl, x.outcome).0
              && d.runs == c.runs && d.requests == c.requests;
    var result := ExecuteRows(c.rows, run, worker, x.now, x.now + job.ttl, x.outcome).1;
    if Throws(result, k + 1, |job.deliveries|) && k + 1 < |job.deliveries| {
      JobIsARun(RunAll(c, es), run, request, worker, job, k + 1);
      var more :| var d := RunAll(RunAll(c, es), more);
                  && d.rows == Redeliver(RunAll(c, es).rows, run, worker, job, k + 1).0
                  && d.runs == c.runs && d.requests == c.requests;
      RunOn(c, es, more);
      assert RunAll(c, es + more).runs == c.runs;
    }
  }

  lemma {:induction false} InNumbers(lo: nat, hi: nat, k: nat)
    requires lo <= hi
    ensures k in Numbers(lo, hi) <==> lo < k <= hi
  {
    if lo < hi { InNumbers(lo, hi - 1, k); }
  }
}
