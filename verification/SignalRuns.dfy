/**
 One signal over its whole life: any number of deliveries of its job, each a read, a claim of the
 signal, a transaction and, if that fails, an unconditional failure mark; with the actions it
 planned living on in between as `Lifecycle` lets them.
 */
module SignalRuns {
  import opened ActionRows
  import opened Planning
  import L = Lifecycle
  import ApprovalGate
  import AttemptLedger
  import Outcomes
  import World

  type Actions = map<Key, L.Case>

  datatype Stage = Seen | Claimed | Failing

  /** `commits` are the planned lists applied so far, `relapses` the failure marks that hit a processed signal. */
  datatype State = State(
    status: SignalStatus, actions: Actions, jobs: map<string, Stage>, commits: seq<seq<Item>>, relapses: nat)

  datatype Event =
    | Enqueue
    | Read(job: string)
    | Start(job: string)
    | Apply(job: string, items: seq<Item>, auto: bool)
    | Break(job: string)
    | MarkFailed(job: string)
    | Crash(job: string)
    | Act(key: Key, event: L.Event)

  // ----- the planning loop on whole cases -----

  function PlanCase(db: Actions, signal: string, item: Item, auto: bool, limit: nat): Actions {
    var key := KeyOf(signal, item);
    db[key := if key in db then L.Step(db[key], L.Replan(item.at)) else L.NewCase(item.plan, auto, limit, item.at)]
  }

  function PlanCases(db: Actions, signal: string, items: seq<Item>, auto: bool, limit: nat): Actions {
    if items == [] then db
    else PlanCase(PlanCases(db, signal, items[..|items| - 1], auto, limit), signal, items[|items| - 1], auto, limit)
  }

  function RowsOf(db: Actions): map<Key, Rows> {
    map k | k in db :: db[k].rows
  }

  /** On the rows it is the transaction of `Planning`. */
  lemma {:induction false} PlanCasesIsPlanAll(db: Actions, signal: string, items: seq<Item>, auto: bool, limit: nat)
    ensures RowsOf(PlanCases(db, signal, items, auto, limit)) == PlanAll(RowsOf(db), signal, items, auto, limit)
  {
    if items != [] {
      var rest := items[..|items| - 1];
      PlanCasesIsPlanAll(db, signal, rest, auto, limit);
      PlanCaseIsPlanOne(PlanCases(db, signal, rest, auto, limit), signal, items[|items| - 1], auto, limit);
    }
  }

  lemma PlanCaseIsPlanOne(db: Actions, signal: string, item: Item, auto: bool, limit: nat)
    ensures RowsOf(PlanCase(db, signal, item, auto, limit)) == PlanOne(RowsOf(db), signal, item, auto, limit)
  {
    hide FollowUp, Born;
  }

  // ----- the system -----

  function EndJob(s: State, job: string): State {
    s.(jobs := s.jobs - {job})
  }

  function JobStep(s: State, signal: string, limit: nat, e: Event, stage: Stage): State
    requires !e.Enqueue? && !e.Act?
  {
    match e
    case Start(job) =>
      if !stage.Seen? then s
      else if s.status.Handled? then EndJob(s, job)
      else s.(status := InProgress, jobs := s.jobs[job := Claimed])
    case Apply(job, items, auto) =>
      if !stage.Claimed? then s
      else if s.status.Handled? then EndJob(s, job)
      else EndJob(s, job).(status := Handled, actions := PlanCases(s.actions, signal, items, auto, limit),
                           commits := s.commits + [items])
    case Break(job) => if stage.Claimed? then s.(jobs := s.jobs[job := Failing]) else s
    case MarkFailed(job) =>
      if stage.Failing?
      then EndJob(s, job).(status := SignalStatus.Broken, relapses := s.relapses + if s.status.Handled? then 1 else 0)
      else s
    case Crash(job) => EndJob(s, job)
    case _ => s
  }

  function Step(s: State, signal: string, limit: nat, e: Event): State {
    if e.Enqueue? then if s.status.Received? then s.(status := Queued) else s
    else if e.Act? then
      if e.key in s.actions then s.(actions := s.actions[e.key := L.Step(s.actions[e.key], e.event)]) else s
    else if e.Read? then
      if e.job in s.jobs || s.status.Handled? then s else s.(jobs := s.jobs[e.job := Seen])
    else if e.job in s.jobs then JobStep(s, signal, limit, e, s.jobs[e.job])
    else s
  }

  function RunAll(s: State, signal: string, limit: nat, es: seq<Event>): State
    decreases |es|
  {
    if es == [] then s else RunAll(Step(s, signal, limit, es[0]), signal, limit, es[1..])
  }

  const ARRIVED := State(Received, map[], map[], [], 0)

  /**
   How a signal changes its status: it is queued once, from `Received`; a delivery takes it up unless it is
   processed; an applied plan, and only that, makes it processed; and only a failure mark, of a delivery that
   had taken it up, makes it failed or ends its being processed.
   */
  lemma StatusMoves(s: State, signal: string, limit: nat, e: Event)
    ensures var d := Step(s, signal, limit, e);
            d.status != s.status ==>
              match d.status
              case Received => false
              case Queued => s.status == Received && e.Enqueue?
              case InProgress => e.Start? && s.status != Handled
              case Handled => e.Apply? && d.commits == s.commits + [e.items]
              case Broken => e.MarkFailed? && e.job in s.jobs && s.jobs[e.job] == Failing
  {
    hide PlanCases, L.Step;
  }

  // ----- how often the plan is applied -----

  predicate CommitInv(s: State) {
    |s.commits| == s.relapses + if s.status.Handled? then 1 else 0
  }

  lemma StepKeepsCommits(s: State, signal: string, limit: nat, e: Event)
    requires CommitInv(s)
    ensures CommitInv(Step(s, signal, limit, e))
  {
    hide PlanCases, L.Step;
  }

  lemma {:induction false} CommitsThroughout(s: State, signal: string, limit: nat, es: seq<Event>)
    requires CommitInv(s)
    ensures CommitInv(RunAll(s, signal, limit, es))
    decreases |es|
  {
    if es != [] {
      StepKeepsCommits(s, signal, limit, es[0]);
      CommitsThroughout(Step(s, signal, limit, es[0]), signal, limit, es[1..]);
    }
  }

  /**
   For any deliveries in any interleaving: the signal reads processed exactly when one more plan was
   applied than failure marks hit it while processed. So without such a late mark the plan is applied
   at most once, and is applied if the signal reads processed.
   */
  lemma PlansAreApplied(signal: string, limit: nat, es: seq<Event>)
    ensures var s := RunAll(ARRIVED, signal, limit, es);
            && |s.commits| == s.relapses + (if s.status.Handled? then 1 else 0)
            && (s.relapses == 0 ==> |s.commits| <= 1 && (s.status.Handled? <==> s.commits != []))
  {
    CommitsThroughout(ARRIVED, signal, limit, es);
  }

  // ----- where actions come from -----

  function Flatten(lists: seq<seq<Item>>): seq<Item> {
    if lists == [] then [] else Flatten(lists[..|lists| - 1]) + lists[|lists| - 1]
  }

  /** The case was born from this planned item and has only gone through events of its own since. */
  ghost predicate GrewFrom(c: L.Case, item: Item, limit: nat) {
    exists auto: bool, es: seq<L.Event> :: c == L.RunAll(L.NewCase(item.plan, auto, limit, item.at), es)
  }

  /** The actions are the keys planned so far, each grown from the first item planned with that key. */
  ghost predicate OriginOf(db: Actions, signal: string, planned: seq<Item>, limit: nat, key: Key) {
    var first := FirstWith(signal, planned, key);
    && (key in db <==> first.Some?)
    && (key in db ==> GrewFrom(db[key], first.value, limit))
  }

  lemma GrowsOn(c: L.Case, item: Item, limit: nat, e: L.Event)
    requires GrewFrom(c, item, limit)
    ensures GrewFrom(L.Step(c, e), item, limit)
  {
    hide L.Step, L.NewCase;
    var auto: bool, es: seq<L.Event> :| c == L.RunAll(L.NewCase(item.plan, auto, limit, item.at), es);
    L.RunAllThen(L.NewCase(item.plan, auto, limit, item.at), es, e);
    assert L.Step(c, e) == L.RunAll(L.NewCase(item.plan, auto, limit, item.at), es + [e]);
  }

  lemma NewlyBorn(item: Item, auto: bool, limit: nat)
    ensures GrewFrom(L.NewCase(item.plan, auto, limit, item.at), item, limit)
  {
    hide L.NewCase;
    assert L.RunAll(L.NewCase(item.plan, auto, limit, item.at), []) == L.NewCase(item.plan, auto, limit, item.at);
  }

  lemma PlanCaseKeepsOrigin(
      db: Actions, signal: string, planned: seq<Item>, item: Item, auto: bool, limit: nat, key: Key)
    requires OriginOf(db, signal, planned, limit, key)
    ensures OriginOf(PlanCase(db, signal, item, auto, limit), signal, planned + [item], limit, key)
  {
    hide L.Step, L.NewCase, GrewFrom;
    FirstOfMore(signal, planned, item, key);
    if KeyOf(signal, item) == key {
      if key in db {
        GrowsOn(db[key], FirstWith(signal, planned, key).value, limit, L.Replan(item.at));
      } else {
        NewlyBorn(item, auto, limit);
      }
    }
  }

  lemma {:induction false} PlanCasesKeepOrigin(
      db: Actions, signal: string, planned: seq<Item>, items: seq<Item>, auto: bool, limit: nat, key: Key)
    requires OriginOf(db, signal, planned, limit, key)
    ensures OriginOf(PlanCases(db, signal, items, auto, limit), signal, planned + items, limit, key)
  {
    hide PlanCase, OriginOf;
    if items == [] {
      assert planned + items == planned;
    } else {
      var n := |items| - 1;
      PlanCasesKeepOrigin(db, signal, planned, items[..n], auto, limit, key);
      var before := PlanCases(db, signal, items[..n], auto, limit);
      PlanCaseKeepsOrigin(before, signal, planned + items[..n], items[n], auto, limit, key);
      assert planned + items == planned + items[..n] + [items[n]];
    }
  }

  lemma StepKeepsOrigin(s: State, signal: string, limit: nat, e: Event, key: Key)
    requires OriginOf(s.actions, signal, Flatten(s.commits), limit, key)
    ensures var d := Step(s, signal, limit, e); OriginOf(d.actions, signal, Flatten(d.commits), limit, key)
  {
    hide L.Step, PlanCases, GrewFrom;
    if e.Act? {
      if key == e.key && key in s.actions {
        GrowsOn(s.actions[key], FirstWith(signal, Flatten(s.commits), key).value, limit, e.event);
      }
    } else if e.Apply? && e.job in s.jobs && s.jobs[e.job].Claimed? && !s.status.Handled? {
      PlanCasesKeepOrigin(s.actions, signal, Flatten(s.commits), e.items, e.auto, limit, key);
      assert (s.commits + [e.items])[..|s.commits|] == s.commits;
    }
  }

  lemma {:induction false} OriginsThroughout(s: State, signal: string, limit: nat, es: seq<Event>, key: Key)
    requires OriginOf(s.actions, signal, Flatten(s.commits), limit, key)
    ensures var d := RunAll(s, signal, limit, es); OriginOf(d.actions, signal, Flatten(d.commits), limit, key)
    decreases |es|
  {
    hide OriginOf, Step;
    if es != [] {
      StepKeepsOrigin(s, signal, limit, es[0], key);
      OriginsThroughout(Step(s, signal, limit, es[0]), signal, limit, es[1..], key);
    }
  }

  /**
   Whatever deliveries, failures and replays there are, and whatever has happened to the actions
   since: the signal has an action exactly for each key it ever planned, and that action was born as
   the first item planned with that key says, once, and has only gone through events of its own.
   */
  lemma ActionsComeFromTheirFirstPlan(signal: string, limit: nat, es: seq<Event>, key: Key)
    ensures var s := RunAll(ARRIVED, signal, limit, es);
            var first := FirstWith(signal, Flatten(s.commits), key);
            && (key in s.actions <==> first.Some?)
            && (key in s.actions ==> GrewFrom(s.actions[key], first.value, limit))
  {
    OriginsThroughout(ARRIVED, signal, limit, es, key);
  }

  /** Replaying the same plan any number of times leaves the keys and the plans of the first time. */
  lemma {:induction false} SamePlanAgain(signal: string, lists: seq<seq<Item>>, items: seq<Item>, key: Key)
    requires lists != [] && forall i | 0 <= i < |lists| :: lists[i] == items
    ensures FirstWith(signal, Flatten(lists), key) == FirstWith(signal, items, key)
  {
    var n := |lists| - 1;
    if n == 0 {
      assert lists[..0] == [] && Flatten(lists[..0]) == [];
      assert Flatten(lists) == [] + items == items;
    } else {
      SamePlanAgain(signal, lists[..n], items, key);
      FirstOfBoth(signal, Flatten(lists[..n]), items, key);
    }
  }

  lemma {:induction false} FirstOfBoth(signal: string, a: seq<Item>, b: seq<Item>, key: Key)
    ensures FirstWith(signal, a + b, key)
         == if FirstWith(signal, a, key).Some? then FirstWith(signal, a, key) else FirstWith(signal, b, key)
  {
    if a == [] {
      assert a + b == b;
    } else {
      assert (a + b)[0] == a[0] && (a + b)[1..] == a[1..] + b;
      FirstOfBoth(signal, a[1..], b, key);
    }
  }

  /** So with unchanged rules, the actions of a processed signal are those of its plan, however often it was applied. */
  lemma ReplaysAddNothing(signal: string, limit: nat, es: seq<Event>, items: seq<Item>, key: Key)
    requires var s := RunAll(ARRIVED, signal, limit, es);
             s.status.Handled? && forall i | 0 <= i < |s.commits| :: s.commits[i] == items
    ensures var s := RunAll(ARRIVED, signal, limit, es);
            var first := FirstWith(signal, items, key);
            && (key in s.actions <==> first.Some?)
            && (key in s.actions ==> GrewFrom(s.actions[key], first.value, limit))
  {
    var s := RunAll(ARRIVED, signal, limit, es);
    PlansAreApplied(signal, limit, es);
    ActionsComeFromTheirFirstPlan(signal, limit, es, key);
    SamePlanAgain(signal, s.commits, items, key);
  }

  /** And everything proved of one action's runs holds of each of them: the gate, the ledger, the outcomes. */
  lemma SignalActionsAreSafe(signal: string, limit: nat, es: seq<Event>, key: Key)
    requires key in RunAll(ARRIVED, signal, limit, es).actions
    ensures var s := RunAll(ARRIVED, signal, limit, es);
            var c, first := s.actions[key], FirstWith(signal, Flatten(s.commits), key);
            && first.Some? && c.rows.action.plan == first.value.plan
            && ApprovalGate.GateInv(c) && AttemptLedger.LedgerInv(c) && Outcomes.OutcomeInv(c)
  {
    hide L.NewCase, L.Step, ApprovalGate.GateInv, AttemptLedger.LedgerInv, Outcomes.OutcomeInv;
    ActionsComeFromTheirFirstPlan(signal, limit, es, key);
    var s := RunAll(ARRIVED, signal, limit, es);
    var item := FirstWith(signal, Flatten(s.commits), key).value;
    var auto: bool, own: seq<L.Event> :| s.actions[key] == L.RunAll(L.NewCase(item.plan, auto, limit, item.at), own);
    World.CaseIsSafe(item.plan, auto, limit, item.at, own);
    ApprovalGate.NothingRunsUnapproved(item.plan, auto, limit, item.at, own);
  }

  // ----- the failure mark checks nothing -----

  /**
   A delivery whose transaction fails after another one's committed marks the processed signal
   failed, and the next delivery applies a plan again; with rules that changed in between, an action
   is added to a signal that had been processed.
   */
  lemma LateFailureReopens(signal: string, limit: nat, item: Item)
    ensures exists es :: var s := RunAll(ARRIVED, signal, limit, es);
              && s.relapses == 1 && s.commits == [[], [item]] && KeyOf(signal, item) in s.actions
  {
    hide RunAll, Step;
    var es := LateFailure(signal, limit);
    var more := [Read("c"), Start("c"), Apply("c", [item], false)];
    AppliedAgain(signal, limit, RunAll(ARRIVED, signal, limit, es), item);
    RunOn(ARRIVED, signal, limit, es, more);
  }

  lemma LateFailure(signal: string, limit: nat) returns (es: seq<Event>)
    ensures RunAll(ARRIVED, signal, limit, es)
         == ARRIVED.(status := SignalStatus.Broken, commits := [[]], relapses := 1)
  {
    hide RunAll, Step;
    var first := [Read("a"), Read("b"), Start("a"), Start("b")];
    var rest := [Apply("a", [], false), Break("b"), MarkFailed("b")];
    TwoClaim(signal, limit);
    AppliedThenFailed(signal, limit, RunAll(ARRIVED, signal, limit, first));
    RunOn(ARRIVED, signal, limit, first, rest);
    es := first + rest;
  }

  lemma TwoClaim(signal: string, limit: nat)
    ensures RunAll(ARRIVED, signal, limit, [Read("a"), Read("b"), Start("a"), Start("b")])
         == ARRIVED.(status := InProgress, jobs := map["a" := Claimed, "b" := Claimed])
  {
    RunTwo(ARRIVED, signal, limit, Read("a"), Read("b"));
    var s := ARRIVED.(jobs := map["a" := Seen, "b" := Seen]);
    assert RunAll(ARRIVED, signal, limit, [Read("a"), Read("b")]) == s;
    RunTwo(s, signal, limit, Start("a"), Start("b"));
    RunOn(ARRIVED, signal, limit, [Read("a"), Read("b")], [Start("a"), Start("b")]);
    assert [Read("a"), Read("b")] + [Start("a"), Start("b")] == [Read("a"), Read("b"), Start("a"), Start("b")];
  }

  lemma AppliedThenFailed(signal: string, limit: nat, s: State)
    requires s == ARRIVED.(status := InProgress, jobs := map["a" := Claimed, "b" := Claimed])
    ensures RunAll(s, signal, limit, [Apply("a", [], false), Break("b"), MarkFailed("b")])
         == ARRIVED.(status := SignalStatus.Broken, commits := [[]], relapses := 1)
  {
    RunTwo(s, signal, limit, Apply("a", [], false), Break("b"));
    var t := ARRIVED.(status := Handled, jobs := map["b" := Failing], commits := [[]]);
    assert RunAll(s, signal, limit, [Apply("a", [], false), Break("b")]) == t;
    RunOne(t, signal, limit, MarkFailed("b"));
    RunOn(s, signal, limit, [Apply("a", [], false), Break("b")], [MarkFailed("b")]);
    assert [Apply("a", [], false), Break("b")] + [MarkFailed("b")]
        == [Apply("a", [], false), Break("b"), MarkFailed("b")];
  }

  lemma AppliedAgain(signal: string, limit: nat, s: State, item: Item)
    requires s == ARRIVED.(status := SignalStatus.Broken, commits := [[]], relapses := 1)
    ensures var t := RunAll(s, signal, limit, [Read("c"), Start("c"), Apply("c", [item], false)]);
            t.relapses == 1 && t.commits == [[], [item]] && KeyOf(signal, item) in t.actions
  {
    hide L.NewCase;
    RunTwo(s, signal, limit, Read("c"), Start("c"));
    var t := s.(status := InProgress, jobs := map["c" := Claimed]);
    assert RunAll(s, signal, limit, [Read("c"), Start("c")]) == t;
    RunOne(t, signal, limit, Apply("c", [item], false));
    RunOn(s, signal, limit, [Read("c"), Start("c")], [Apply("c", [item], false)]);
    assert [Read("c"), Start("c")] + [Apply("c", [item], false)] == [Read("c"), Start("c"), Apply("c", [item], false)];
  }

  lemma RunOne(s: State, signal: string, limit: nat, a: Event)
    ensures RunAll(s, signal, limit, [a]) == Step(s, signal, limit, a)
  {
    assert [a][1..] == [];
  }

  lemma RunTwo(s: State, signal: string, limit: nat, a: Event, b: Event)
    ensures RunAll(s, signal, limit, [a, b]) == Step(Step(s, signal, limit, a), signal, limit, b)
  {
    hide Step;
    assert [a, b][1..] == [b];
    RunOne(Step(s, signal, limit, a), signal, limit, b);
  }

  lemma {:induction false} RunOn(s: State, signal: string, limit: nat, es: seq<Event>, more: seq<Event>)
    ensures RunAll(s, signal, limit, es + more) == RunAll(RunAll(s, signal, limit, es), signal, limit, more)
    decreases |es|
  {
    hide Step;
    if es == [] {
      assert es + more == more;
    } else {
      assert (es + more)[1..] == es[1..] + more;
      RunOn(Step(s, signal, limit, es[0]), signal, limit, es[1..], more);
    }
  }
}
