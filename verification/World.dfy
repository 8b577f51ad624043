/**
 All actions together. No statement on one action reads or writes another's rows, so a run over
 any number of actions is, action by action, a run of `Lifecycle`; the main results carry over.
 */
module World {
  import opened ActionRows
  import L = Lifecycle
  import ApprovalGate
  import AttemptLedger
  import Outcomes

  datatype Event =
    | Create(id: string, plan: Planned, auto: bool, now: int)
    | At(id: string, event: L.Event)

  type World = map<string, L.Case>

  /** The signal worker's upsert inserts an action once; everything else happens to an action that is there. */
  function Step(w: World, limit: nat, e: Event): World {
    match e
    case Create(id, plan, auto, now) => if id in w then w else w[id := L.NewCase(plan, auto, limit, now)]
    case At(id, event) => if id in w then w[id := L.Step(w[id], event)] else w
  }

  function RunAll(w: World, limit: nat, es: seq<Event>): World
    decreases |es|
  {
    if es == [] then w else RunAll(Step(w, limit, es[0]), limit, es[1..])
  }

  ghost predicate Reachable(c: L.Case, limit: nat) {
    exists p: Planned, auto: bool, now: int, es: seq<L.Event> :: c == L.RunAll(L.NewCase(p, auto, limit, now), es)
  }

  lemma StepKeepsReachable(w: World, limit: nat, e: Event, id: string)
    requires forall k | k in w :: Reachable(w[k], limit)
    requires id in Step(w, limit, e)
    ensures Reachable(Step(w, limit, e)[id], limit)
  {
    hide L.Step, L.NewCase;
    if e.Create? && id == e.id && id !in w {
      assert L.RunAll(L.NewCase(e.plan, e.auto, limit, e.now), []) == L.NewCase(e.plan, e.auto, limit, e.now);
    } else {
      var p: Planned, auto: bool, now: int, es: seq<L.Event> :|
        w[id] == L.RunAll(L.NewCase(p, auto, limit, now), es);
      if e.At? && e.id == id {
        L.RunAllThen(L.NewCase(p, auto, limit, now), es, e.event);
        assert Step(w, limit, e)[id] == L.RunAll(L.NewCase(p, auto, limit, now), es + [e.event]);
      }
    }
  }

  /** Projection: each action of a world has gone through a run of its own. */
  lemma {:induction false} EachActionHasItsRun(w: World, limit: nat, es: seq<Event>)
    requires forall k | k in w :: Reachable(w[k], limit)
    ensures forall k | k in RunAll(w, limit, es) :: Reachable(RunAll(w, limit, es)[k], limit)
    decreases |es|
  {
    if es != [] {
      var v := Step(w, limit, es[0]);
      forall k | k in v ensures Reachable(v[k], limit) {
        StepKeepsReachable(w, limit, es[0], k);
      }
      EachActionHasItsRun(v, limit, es[1..]);
    }
  }

  /** What the other modules prove of one action, for every action of every reachable world. */
  lemma WorldIsSafe(limit: nat, es: seq<Event>, id: string)
    requires id in RunAll(map[], limit, es)
    ensures var c := RunAll(map[], limit, es)[id];
            && ApprovalGate.GateInv(c) && AttemptLedger.LedgerInv(c) && Outcomes.OutcomeInv(c)
  {
    hide L.Step, L.NewCase, ApprovalGate.GateInv, AttemptLedger.LedgerInv, Outcomes.OutcomeInv;
    EachActionHasItsRun(map[], limit, es);
    var c := RunAll(map[], limit, es)[id];
    var p: Planned, auto: bool, now: int, own: seq<L.Event> :| c == L.RunAll(L.NewCase(p, auto, limit, now), own);
    CaseIsSafe(p, auto, limit, now, own);
  }

  lemma CaseIsSafe(p: Planned, auto: bool, limit: nat, now: int, es: seq<L.Event>)
    ensures var c := L.RunAll(L.NewCase(p, auto, limit, now), es);
            && ApprovalGate.GateInv(c) && AttemptLedger.LedgerInv(c) && Outcomes.OutcomeInv(c)
  {
    hide L.Step;
    var c0 := L.NewCase(p, auto, limit, now);
    ApprovalGate.NewCaseGate(p, auto, limit, now);
    ApprovalGate.RunKeepsGateThroughout(c0, es);
    AttemptLedger.LedgerThroughout(c0, es);
    Outcomes.OutcomesThroughout(c0, es);
  }
}
