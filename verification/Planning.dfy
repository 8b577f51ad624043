/**
 Signal processing: the rule loop that plans actions, and the transaction that upserts them
 with their approvals and outbox rows.

 An action row is addressed by its dedupe key within the signal: the rule (or the fallback) and
 the action type. The key is unique and never changes, so it stands for the row's id here.
 */
module Planning {
  import opened Domain
  import opened ActionRows

  datatype SignalStatus = Received | Queued | InProgress | Handled | Broken

  datatype Key = Key(signal: string, rule: Option<string>, kind: Kind)

  /** One entry of the planned list, with the clock when the loop reaches it. */
  datatype Item = Item(rule: Option<string>, plan: Planned, at: int)

  function KeyOf(signal: string, item: Item): Key {
    Key(signal, item.rule, item.plan.kind)
  }

  /** The action upsert and what follows it in the same round. */
  function PlanOne(db: map<Key, Rows>, signal: string, item: Item, auto: bool, limit: nat): map<Key, Rows> {
    var key := KeyOf(signal, item);
    db[key := if key in db then FollowUp(db[key], item.at) else Born(item.plan, auto, limit, item.at)]
  }

  function PlanAll(db: map<Key, Rows>, signal: string, items: seq<Item>, auto: bool, limit: nat): map<Key, Rows> {
    if items == [] then db
    else PlanOne(PlanAll(db, signal, items[..|items| - 1], auto, limit), signal, items[|items| - 1], auto, limit)
  }

  /** What a round does to the table: a new row as its plan says, or what an old one lacks; nothing else. */
  predicate RowPlanned(db: map<Key, Rows>, after: map<Key, Rows>, key: Key, item: Item, auto: bool, limit: nat) {
    && after.Keys == db.Keys + {key}
    && (if key in db then Followed(db[key], after[key], item.at)
        else Newborn(after[key], item.plan, auto, limit, item.at))
    && forall k | k in db && k != key :: after[k] == db[k]
  }

  lemma PlanOnePlansItsRow(db: map<Key, Rows>, signal: string, item: Item, auto: bool, limit: nat)
    ensures RowPlanned(db, PlanOne(db, signal, item, auto, limit), Key(signal, item.rule, item.plan.kind), item, auto,
                limit)
  {
    BornAsPlanned(item.plan, auto, limit, item.at);
  }

  // ----- the transaction as a closed form -----

  /** The first planned item with a key. */
  function FirstWith(signal: string, items: seq<Item>, key: Key): (r: Option<Item>)
    ensures r.Some? ==> r.value in items && KeyOf(signal, r.value) == key
  {
    if items == [] then None
    else if KeyOf(signal, items[0]) == key then Some(items[0])
    else FirstWith(signal, items[1..], key)
  }

  lemma {:induction false} FirstOfMore(signal: string, items: seq<Item>, item: Item, key: Key)
    ensures FirstWith(signal, items + [item], key)
         == match FirstWith(signal, items, key)
            case Some(first) => Some(first)
            case None => if KeyOf(signal, item) == key then Some(item) else None
  {
    if items != [] {
      assert (items + [item])[0] == items[0] && (items + [item])[1..] == items[1..] + [item];
      FirstOfMore(signal, items[1..], item, key);
    }
  }

  /** A second round on the same row changes nothing. */
  lemma FollowUpIsIdempotent(rows: Rows, at: int, later: int)
    ensures FollowUp(FollowUp(rows, at), later) == FollowUp(rows, at)
    ensures FollowUp(rows, at).action == rows.action
  {
  }

  /**
   The whole loop, key by key: a key that was absent gets the row of the first planned item that
   has it, whatever later items say; a key that was present keeps its row and only gets the
   outbox row or approval that its status asks for; and no other key moves.
   */
  lemma {:induction false} FirstPlannedWins(db: map<Key, Rows>, signal: string, items: seq<Item>, auto: bool,
      limit: nat, key: Key)
    ensures var r, first := PlanAll(db, signal, items, auto, limit), FirstWith(signal, items, key);
            match first
            case None => (key in r <==> key in db) && (key in db ==> r[key] == db[key])
            case Some(item) =>
              && key in r
              && r[key] == if key in db then FollowUp(db[key], item.at) else Born(item.plan, auto, limit, item.at)
  {
    if items != [] {
      var n := |items| - 1;
      var rest, last := items[..n], items[n];
      assert items == rest + [last];
      FirstPlannedWins(db, signal, rest, auto, limit, key);
      FirstOfMore(signal, rest, last, key);
      var first := FirstWith(signal, rest, key);
      if first.Some? {
        if key in db {
          FollowUpIsIdempotent(db[key], first.value.at, last.at);
        } else {
          var born := Rows(NewAction(first.value.plan, auto, limit), None, map[], map[], None, map[]);
          FollowUpIsIdempotent(born, first.value.at, last.at);
        }
      }
    }
  }

  /** On first processing, exactly the planned keys get rows, each the newborn one of its first item. */
  lemma FirstProcessing(signal: string, items: seq<Item>, auto: bool, limit: nat)
    ensures var r := PlanAll(map[], signal, items, auto, limit);
            && (forall key :: key in r <==> FirstWith(signal, items, key).Some?)
            && (forall key | key in r ::
                  var first := FirstWith(signal, items, key).value;
                  Newborn(r[key], first.plan, auto, limit, first.at))
  {
    hide Newborn;
    var r := PlanAll(map[], signal, items, auto, limit);
    forall key
      ensures key in r <==> FirstWith(signal, items, key).Some?
      ensures var first := FirstWith(signal, items, key);
              first.Some? ==> Newborn(r[key], first.value.plan, auto, limit, first.value.at)
    {
      FirstPlannedWins(map[], signal, items, auto, limit, key);
      var first := FirstWith(signal, items, key);
      if first.Some? { BornAsPlanned(first.value.plan, auto, limit, first.value.at); }
    }
  }

  /**
   A replay from any later state adds and changes no action and no approval, and adds an outbox
   row only to an action that is `Pending`, and then only the policy's own.
   */
  lemma ReplayIsHarmless(db: map<Key, Rows>, signal: string, items: seq<Item>, auto: bool, limit: nat, key: Key)
    requires forall item | item in items :: KeyOf(signal, item) in db
    requires forall k | k in db :: db[k].action.status.WaitingApproval? ==> db[k].approval.Some?
    ensures var r := PlanAll(db, signal, items, auto, limit);
            && (key in r <==> key in db)
            && (key in db ==>
                  && r[key] == db[key].(outbox := r[key].outbox)
                  && (r[key].outbox == db[key].outbox
                      || (db[key].action.status.Pending? && SignalPolicy !in db[key].outbox
                          && r[key].outbox == db[key].outbox[SignalPolicy := Unsent])))
  {
    FirstPlannedWins(db, signal, items, auto, limit, key);
  }

  // ----- the rule loop -----

  /** A rule row with what the given condition matcher says of it for this signal. */
  datatype Rule = Rule(id: string, matched: bool, actions: Option<seq<Planned>>)

  function ItemsOf(rule: Rule, at: int): seq<Item> {
    if rule.matched && rule.actions.Some?
    then seq(|rule.actions.value|,
        i requires 0 <= i < |rule.actions.value| => Item(Some(rule.id), rule.actions.value[i], at))
    else []
  }

  /** Matched rules in the order the query returned them, each with its actions in order. */
  function PlannedBy(rules: seq<Rule>, at: int): seq<Item> {
    if rules == [] then [] else PlannedBy(rules[..|rules| - 1], at) + ItemsOf(rules[|rules| - 1], at)
  }

  /** How many actions the first rules contribute. */
  function Offset(rules: seq<Rule>, i: nat): nat
    requires i <= |rules|
  {
    if i == 0 then 0
    else
      var r := rules[i - 1];
      Offset(rules, i - 1) + if r.matched && r.actions.Some? then |r.actions.value| else 0
  }

  lemma {:induction false} OffsetOfFirst(rules: seq<Rule>, n: nat, i: nat)
    requires i <= n <= |rules|
    ensures Offset(rules[..n], i) == Offset(rules, i)
  {
    if i > 0 {
      assert rules[..n][i - 1] == rules[i - 1];
      OffsetOfFirst(rules, n, i - 1);
    }
  }

  lemma {:induction false} PlannedLength(rules: seq<Rule>, at: int)
    ensures |PlannedBy(rules, at)| == Offset(rules, |rules|)
  {
    if rules != [] {
      var n := |rules| - 1;
      PlannedLength(rules[..n], at);
      OffsetOfFirst(rules, n, n);
    }
  }

  /** Rule `i` contributes its action `j`. */
  predicate Lists(rules: seq<Rule>, i: nat, j: nat) {
    i < |rules| && rules[i].matched && rules[i].actions.Some? && j < |rules[i].actions.value|
  }

  lemma {:induction false} PlannedAt(rules: seq<Rule>, at: int, i: nat, j: nat)
    requires Lists(rules, i, j)
    ensures Offset(rules, i) + j < |PlannedBy(rules, at)|
    ensures PlannedBy(rules, at)[Offset(rules, i) + j] == Item(Some(rules[i].id), rules[i].actions.value[j], at)
  {
    var n := |rules| - 1;
    var rest := PlannedBy(rules[..n], at);
    assert PlannedBy(rules, at) == rest + ItemsOf(rules[n], at);
    OffsetOfFirst(rules, n, i);
    if i < n {
      PlannedAt(rules[..n], at, i, j);
    } else {
      PlannedLength(rules[..n], at);
      assert |rest| == Offset(rules, n);
    }
  }

  /**
   The planned list, position by position: the actions of the matched rules with well-formed actions,
   rule after rule in the query's order and each rule's in its own order, and nothing else.
   */
  lemma PlannedExactly(rules: seq<Rule>, at: int, i: nat, j: nat)
    ensures |PlannedBy(rules, at)| == Offset(rules, |rules|)
    ensures Lists(rules, i, j) ==>
              && Offset(rules, i) + j < |PlannedBy(rules, at)|
              && PlannedBy(rules, at)[Offset(rules, i) + j] == Item(Some(rules[i].id), rules[i].actions.value[j], at)
  {
    hide PlannedBy, Offset;
    PlannedLength(rules, at);
    if Lists(rules, i, j) { PlannedAt(rules, at, i, j); }
  }

  /** The rule-execution rows: whether each rule matched, by signal and rule. */
  function Matches(executions: map<(string, string), bool>, signal: string, rules: seq<Rule>)
    : map<(string, string), bool>
  {
    if rules == [] then executions
    else
      var last := rules[|rules| - 1];
      Matches(executions, signal, rules[..|rules| - 1])[(signal, last.id) := last.matched]
  }

  /** The last evaluation of a rule in the list is what its row records... */
  lemma {:induction false} MatchesAreRecorded(
      executions: map<(string, string), bool>, signal: string, rules: seq<Rule>, i: nat)
    requires i < |rules| && forall j | i < j < |rules| :: rules[j].id != rules[i].id
    ensures var m := Matches(executions, signal, rules);
            (signal, rules[i].id) in m && m[(signal, rules[i].id)] == rules[i].matched
  {
    if i < |rules| - 1 { MatchesAreRecorded(executions, signal, rules[..|rules| - 1], i); }
  }

  /** ... and rows of other rules or signals stay as they are. */
  lemma {:induction false} OtherMatchesStay(
      executions: map<(string, string), bool>, signal: string, rules: seq<Rule>, other: (string, string))
    requires forall j | 0 <= j < |rules| :: other != (signal, rules[j].id)
    ensures var m := Matches(executions, signal, rules);
            (other in m <==> other in executions) && (other in executions ==> m[other] == executions[other])
  {
    if rules != [] { OtherMatchesStay(executions, signal, rules[..|rules| - 1], other); }
  }

  class Processor {
    var actions: map<Key, Rows>
    var signals: map<string, SignalStatus>
    var executions: map<(string, string), bool>

    constructor ()
      ensures actions == map[] && signals == map[] && executions == map[]
    {
      actions, signals, executions := map[], map[], map[];
    }

    method EvaluateRules(signal: string, rules: seq<Rule>, at: int) returns (planned: seq<Item>)
      modifies this`executions
      ensures planned == PlannedBy(rules, at)
      ensures executions == Matches(old(executions), signal, rules)
    {
      planned := [];
      for n := 0 to |rules|
        invariant planned == PlannedBy(rules[..n], at)
        invariant executions == Matches(old(executions), signal, rules[..n])
      {
        assert rules[..n + 1][..n] == rules[..n];
        executions := executions[(signal, rules[n].id) := rules[n].matched];
        if rules[n].matched && rules[n].actions.Some? {
          planned := planned + ItemsOf(rules[n], at);
        } else {
          assert planned + ItemsOf(rules[n], at) == planned;
        }
      }
      assert rules[..|rules|] == rules;
    }

    /** One round of the loop over the planned list: the action upsert and what its status asks for. */
    method PlanRound(signal: string, item: Item, auto: bool, limit: nat)
      modifies this`actions
      ensures actions == PlanOne(old(actions), signal, item, auto, limit)
      ensures RowPlanned(old(actions), actions, Key(signal, item.rule, item.plan.kind), item, auto, limit)
    {
      hide RowPlanned;
      var key := KeyOf(signal, item);
      if key !in actions {
        actions := actions[key := Rows(NewAction(item.plan, auto, limit), None, map[], map[], None, map[])];
      }
      var action := actions[key].action;
      if action.status.Pending? {
        actions := actions[key := CreateOutboxEvent(actions[key], SignalPolicy)];
      } else if action.status.WaitingApproval? {
        actions := actions[key := EnsureApproval(actions[key], item.at)];
      }
      assert actions == PlanOne(old(actions), signal, item, auto, limit);
      PlanOnePlansItsRow(old(actions), signal, item, auto, limit);
    }

    /** The worker's transaction on one signal, with the fallback's list when no rule plans anything. */
    method Process(signal: string, rules: seq<Rule>, fallback: seq<Item>, auto: bool, limit: nat, at: int)
      modifies this
      ensures signal !in old(signals) || old(signals)[signal].Handled? ==>
                actions == old(actions) && signals == old(signals) && executions == old(executions)
      ensures signal in old(signals) && !old(signals)[signal].Handled? ==>
                var planned := if PlannedBy(rules, at) != [] then PlannedBy(rules, at) else fallback;
                && actions == PlanAll(old(actions), signal, planned, auto, limit)
                && signals == old(signals)[signal := Handled]
                && executions == Matches(old(executions), signal, rules)
    {
      if signal !in signals || signals[signal].Handled? { return; }
      var planned := EvaluateRules(signal, rules, at);
      if planned == [] { planned := fallback; }
      for n := 0 to |planned|
        invariant actions == PlanAll(old(actions), signal, planned[..n], auto, limit)
        invariant signals == old(signals) && executions == Matches(old(executions), signal, rules)
      {
        assert planned[..n + 1][..n] == planned[..n];
        PlanRound(signal, planned[n], auto, limit);
      }
      assert planned[..|planned|] == planned;
      signals := signals[signal := Handled];
    }
  }
}
