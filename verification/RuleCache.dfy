/**
 The rule table, the query for a trigger's active rules, and the cache in front of it.

 The first half takes each request as one step and proves the cache exact. The second half lets
 requests interleave, deletions fail and entries expire, and bounds how stale an answer can be.
 */
module RuleCache {
  import opened Domain
  import opened Keys

  /** `body` stands for the conditions, the actions and the description. */
  datatype Rule = Rule(
    id: string, tenant: string, name: string, trigger: string, priority: int, active: bool,
    createdAt: int, body: nat)

  datatype Changes = Changes(
    name: Option<string>, trigger: Option<string>, priority: Option<int>, active: Option<bool>, body: Option<nat>)

  // ----- the query -----

  predicate Wanted(r: Rule, tenant: string, trigger: string) {
    r.tenant == tenant && r.trigger == trigger && r.active
  }

  function Filter(rules: seq<Rule>, tenant: string, trigger: string): seq<Rule> {
    if rules == [] then []
    else
      var last := rules[|rules| - 1];
      Filter(rules[..|rules| - 1], tenant, trigger) + if Wanted(last, tenant, trigger) then [last] else []
  }

  predicate Before(a: Rule, b: Rule) {
    a.priority < b.priority || (a.priority == b.priority && a.createdAt < b.createdAt)
  }

  function Insert(rules: seq<Rule>, r: Rule): seq<Rule> {
    if rules != [] && Before(r, rules[|rules| - 1])
    then Insert(rules[..|rules| - 1], r) + [rules[|rules| - 1]]
    else rules + [r]
  }

  /** A stable sort by priority and age. */
  function Sort(rules: seq<Rule>): seq<Rule> {
    if rules == [] then [] else Insert(Sort(rules[..|rules| - 1]), rules[|rules| - 1])
  }

  function Query(rules: seq<Rule>, tenant: string, trigger: string): seq<Rule> {
    Sort(Filter(rules, tenant, trigger))
  }

  predicate Sorted(rules: seq<Rule>) {
    forall i, j | 0 <= i < j < |rules| :: !Before(rules[j], rules[i])
  }

  lemma {:induction false} InsertCounts(rules: seq<Rule>, r: Rule)
    ensures multiset(Insert(rules, r)) == multiset(rules) + multiset{r}
  {
    var n := |rules| - 1;
    if rules != [] && Before(r, rules[n]) {
      InsertCounts(rules[..n], r);
      assert rules == rules[..n] + [rules[n]];
    }
  }

  lemma {:induction false} InsertSorts(rules: seq<Rule>, r: Rule)
    requires Sorted(rules)
    ensures Sorted(Insert(rules, r))
  {
    var n := |rules| - 1;
    if rules != [] && Before(r, rules[n]) {
      InsertSorts(rules[..n], r);
      InsertCounts(rules[..n], r);
      var front := Insert(rules[..n], r);
      forall i | 0 <= i < |front| ensures !Before(rules[n], front[i]) {
        assert front[i] in multiset(front);
      }
    }
  }

  lemma {:induction false} SortCounts(rules: seq<Rule>)
    ensures multiset(Sort(rules)) == multiset(rules)
  {
    hide Insert, Before;
    if rules != [] {
      var n := |rules| - 1;
      SortCounts(rules[..n]);
      InsertCounts(Sort(rules[..n]), rules[n]);
      assert rules == rules[..n] + [rules[n]];
    }
  }

  lemma {:induction false} SortSorts(rules: seq<Rule>)
    ensures Sorted(Sort(rules))
  {
    if rules != [] {
      SortSorts(rules[..|rules| - 1]);
      InsertSorts(Sort(rules[..|rules| - 1]), rules[|rules| - 1]);
    }
  }

  lemma {:induction false} FilterCounts(rules: seq<Rule>, tenant: string, trigger: string, r: Rule)
    ensures multiset(Filter(rules, tenant, trigger))[r]
         == if Wanted(r, tenant, trigger) then multiset(rules)[r] else 0
  {
    if rules != [] {
      var n := |rules| - 1;
      FilterCounts(rules[..n], tenant, trigger, r);
      assert rules == rules[..n] + [rules[n]];
    }
  }

  /**
   A listing answers for a tenant and a trigger: by priority and then by age, each active rule of theirs as
   often as the table has it, and nothing else.
   */
  ghost predicate Answers(list: seq<Rule>, rules: seq<Rule>, tenant: string, trigger: string) {
    && (forall i, j | 0 <= i < j < |list| ::
          || list[i].priority < list[j].priority
          || (list[i].priority == list[j].priority && list[i].createdAt <= list[j].createdAt))
    && forall r: Rule :: multiset(list)[r]
         == if r.tenant == tenant && r.trigger == trigger && r.active then multiset(rules)[r] else 0
  }

  lemma QueryAnswers(rules: seq<Rule>, tenant: string, trigger: string)
    ensures Answers(Query(rules, tenant, trigger), rules, tenant, trigger)
  {
    SortSorts(Filter(rules, tenant, trigger));
    SortCounts(Filter(rules, tenant, trigger));
    forall r: Rule ensures multiset(Filter(rules, tenant, trigger))[r]
                        == if Wanted(r, tenant, trigger) then multiset(rules)[r] else 0
    {
      FilterCounts(rules, tenant, trigger, r);
    }
  }

  // ----- the requests, each as one step -----

  datatype Db = Db(rules: seq<Rule>, cache: map<string, seq<Rule>>)

  function CacheKey(tenant: string, trigger: string): string {
    "rules:" + tenant + ":" + trigger
  }

  /** Distinct tenants and triggers never share a key, as long as tenant ids hold no colon. */
  lemma KeysDoNotCollide(a: string, x: string, b: string, y: string)
    requires NoColon(a) && NoColon(b)
    ensures CacheKey(a, x) == CacheKey(b, y) <==> a == b && x == y
  {
    if CacheKey(a, x) == CacheKey(b, y) {
      assert a + ":" + x == CacheKey(a, x)[6..] == CacheKey(b, y)[6..] == b + ":" + y;
      SplitsAt(a, x, b, y, ':');
    }
  }

  /** With a colon in the tenant id they can. */
  lemma ColonsCollide()
    ensures CacheKey("a:b", "c") == CacheKey("a", "b:c")
  {
    assert CacheKey("a:b", "c") == "rules:a:b:c" == CacheKey("a", "b:c");
  }

  function ListStep(db: Db, tenant: string, trigger: string): (Db, seq<Rule>) {
    var key := CacheKey(tenant, trigger);
    if key in db.cache then (db, db.cache[key])
    else
      var rules := Query(db.rules, tenant, trigger);
      (db.(cache := db.cache[key := rules]), rules)
  }

  /** An absent or empty trigger drops every key of the tenant. */
  function Invalidate(db: Db, tenant: string, trigger: Option<string>): Db {
    if trigger.Some? && trigger.value != "" then db.(cache := db.cache - {CacheKey(tenant, trigger.value)})
    else db.(cache := map k | k in db.cache && !(CacheKey(tenant, "") <= k) :: db.cache[k])
  }

  /** The unique keys: the id, and the name within a tenant. */
  predicate Taken(rules: seq<Rule>, id: string, tenant: string, name: string) {
    exists i | 0 <= i < |rules| :: rules[i].id == id || (rules[i].tenant == tenant && rules[i].name == name)
  }

  function CreateStep(db: Db, r: Rule): Db {
    if Taken(db.rules, r.id, r.tenant, r.name) then db
    else Invalidate(db.(rules := db.rules + [r]), r.tenant, Some(r.trigger))
  }

  function Or<T>(o: Option<T>, default: T): T {
    if o.Some? then o.value else default
  }

  function Patched(r: Rule, c: Changes): Rule {
    r.(name := Or(c.name, r.name), trigger := Or(c.trigger, r.trigger), priority := Or(c.priority, r.priority),
       active := Or(c.active, r.active), body := Or(c.body, r.body))
  }

  function Find(rules: seq<Rule>, tenant: string, id: string): (i: Option<nat>)
    ensures i.Some? ==> i.value < |rules| && rules[i.value].id == id && rules[i.value].tenant == tenant
    ensures i.None? ==> forall k | 0 <= k < |rules| :: rules[k].id != id || rules[k].tenant != tenant
  {
    if rules == [] then None
    else if rules[|rules| - 1].id == id && rules[|rules| - 1].tenant == tenant then Some(|rules| - 1)
    else Find(rules[..|rules| - 1], tenant, id)
  }

  predicate NameFree(rules: seq<Rule>, except: nat, tenant: string, name: string) {
    forall k | 0 <= k < |rules| && k != except :: rules[k].tenant != tenant || rules[k].name != name
  }

  /** The old trigger's key goes, and the new one's if it differs. */
  function PatchStep(db: Db, tenant: string, id: string, c: Changes): Db {
    match Find(db.rules, tenant, id)
    case None => db
    case Some(i) =>
      var current, rule := db.rules[i], Patched(db.rules[i], c);
      if !NameFree(db.rules, i, tenant, rule.name) then db
      else
        var d := Invalidate(db.(rules := db.rules[i := rule]), tenant, Some(current.trigger));
        if rule.trigger != current.trigger then Invalidate(d, tenant, Some(rule.trigger)) else d
  }

  datatype Request =
    | List(tenant: string, trigger: string)
    | Create(rule: Rule)
    | Patch(tenant: string, id: string, changes: Changes)
    | DropAll(tenant: string)
    | Expire(key: string)

  function Step(db: Db, q: Request): Db {
    match q
    case List(tenant, trigger) => ListStep(db, tenant, trigger).0
    case Create(rule) => CreateStep(db, rule)
    case Patch(tenant, id, changes) => PatchStep(db, tenant, id, changes)
    case DropAll(tenant) => Invalidate(db, tenant, None)
    case Expire(key) => db.(cache := db.cache - {key})
  }

  function RunAll(db: Db, qs: seq<Request>): Db
    decreases |qs|
  {
    if qs == [] then db else RunAll(Step(db, qs[0]), qs[1..])
  }

  // ----- the cache is exact -----

  /** Whatever is cached for a tenant and a trigger is what the query would answer now. */
  ghost predicate Coherent(db: Db) {
    forall tenant, trigger | NoColon(tenant) && CacheKey(tenant, trigger) in db.cache ::
      db.cache[CacheKey(tenant, trigger)] == Query(db.rules, tenant, trigger)
  }

  predicate TenantOk(q: Request) {
    match q
    case List(tenant, _) => NoColon(tenant)
    case Create(rule) => NoColon(rule.tenant)
    case Patch(tenant, _, _) => NoColon(tenant)
    case _ => true
  }

  predicate TenantsOk(qs: seq<Request>) {
    forall i | 0 <= i < |qs| :: TenantOk(qs[i])
  }

  lemma {:induction false} OtherRowsDoNotMatter(rules: seq<Rule>, i: nat, r: Rule, tenant: string, trigger: string)
    requires i < |rules| && !Wanted(rules[i], tenant, trigger) && !Wanted(r, tenant, trigger)
    ensures Filter(rules[i := r], tenant, trigger) == Filter(rules, tenant, trigger)
  {
    var n := |rules| - 1;
    if i == n {
      assert rules[i := r][..n] == rules[..n];
    } else {
      assert rules[i := r][..n] == rules[..n][i := r];
      OtherRowsDoNotMatter(rules[..n], i, r, tenant, trigger);
    }
  }

  lemma CreateKeepsCoherent(db: Db, r: Rule)
    requires Coherent(db) && NoColon(r.tenant)
    ensures Coherent(CreateStep(db, r))
  {
    var d := CreateStep(db, r);
    if Taken(db.rules, r.id, r.tenant, r.name) { return; }
    forall tenant, trigger | NoColon(tenant) && CacheKey(tenant, trigger) in d.cache
      ensures d.cache[CacheKey(tenant, trigger)] == Query(d.rules, tenant, trigger)
    {
      if tenant == r.tenant && trigger == r.trigger {
        DroppedIsGone(db.(rules := db.rules + [r]), tenant, trigger);
      } else {
        assert (db.rules + [r])[..|db.rules|] == db.rules;
        assert Filter(d.rules, tenant, trigger) == Filter(db.rules, tenant, trigger);
      }
    }
  }

  /** Rules have non-empty triggers, but an empty one would drop its own key too. */
  lemma DroppedIsGone(db: Db, tenant: string, trigger: string)
    ensures CacheKey(tenant, trigger) !in Invalidate(db, tenant, Some(trigger)).cache
  {
  }

  lemma InvalidateOnlyDrops(db: Db, tenant: string, trigger: Option<string>, key: string)
    ensures var d := Invalidate(db, tenant, trigger);
            && d.rules == db.rules
            && (key in d.cache ==> key in db.cache && d.cache[key] == db.cache[key])
  {
  }

  lemma PatchKeepsCoherent(db: Db, tenant: string, id: string, c: Changes)
    requires Coherent(db) && NoColon(tenant)
    ensures Coherent(PatchStep(db, tenant, id, c))
  {
    var d := PatchStep(db, tenant, id, c);
    var i := Find(db.rules, tenant, id);
    if i.None? { return; }
    var current, rule := db.rules[i.value], Patched(db.rules[i.value], c);
    if !NameFree(db.rules, i.value, tenant, rule.name) { return; }
    var d0 := db.(rules := db.rules[i.value := rule]);
    var d1 := Invalidate(d0, tenant, Some(current.trigger));
    forall t, g | NoColon(t) && CacheKey(t, g) in d.cache
      ensures d.cache[CacheKey(t, g)] == Query(d.rules, t, g)
    {
      InvalidateOnlyDrops(d0, tenant, Some(current.trigger), CacheKey(t, g));
      InvalidateOnlyDrops(d1, tenant, Some(rule.trigger), CacheKey(t, g));
      DroppedIsGone(d0, tenant, current.trigger);
      DroppedIsGone(d1, tenant, rule.trigger);
      assert !(t == tenant && (g == current.trigger || g == rule.trigger));
      OtherRowsDoNotMatter(db.rules, i.value, rule, t, g);
    }
  }

  lemma ListKeepsCoherent(db: Db, tenant: string, trigger: string)
    requires Coherent(db) && NoColon(tenant)
    ensures Coherent(ListStep(db, tenant, trigger).0)
    ensures ListStep(db, tenant, trigger).1 == Query(db.rules, tenant, trigger)
  {
    var d := ListStep(db, tenant, trigger).0;
    forall t, g | NoColon(t) && CacheKey(t, g) in d.cache
      ensures d.cache[CacheKey(t, g)] == Query(d.rules, t, g)
    {
      KeysDoNotCollide(t, g, tenant, trigger);
    }
  }

  lemma StepKeepsCoherent(db: Db, q: Request)
    requires Coherent(db) && TenantOk(q)
    ensures Coherent(Step(db, q))
  {
    match q
    case List(tenant, trigger) => ListKeepsCoherent(db, tenant, trigger);
    case Create(rule) => CreateKeepsCoherent(db, rule);
    case Patch(tenant, id, changes) => PatchKeepsCoherent(db, tenant, id, changes);
    case DropAll(tenant) =>
      forall t, g | CacheKey(t, g) in Step(db, q).cache ensures CacheKey(t, g) in db.cache {
        InvalidateOnlyDrops(db, tenant, None, CacheKey(t, g));
      }
    case Expire(_) =>
  }

  lemma {:induction false} CoherentThroughout(db: Db, qs: seq<Request>)
    requires Coherent(db) && TenantsOk(qs)
    ensures Coherent(RunAll(db, qs))
    decreases |qs|
  {
    if qs != [] {
      StepKeepsCoherent(db, qs[0]);
      CoherentThroughout(Step(db, qs[0]), qs[1..]);
    }
  }

  /** After any sequence of requests a listing answers exactly what the query would, hit or miss. */
  lemma CacheNeverLies(qs: seq<Request>, tenant: string, trigger: string)
    requires TenantsOk(qs) && NoColon(tenant)
    ensures var db := RunAll(Db([], map[]), qs);
            ListStep(db, tenant, trigger).1 == Query(db.rules, tenant, trigger)
  {
    CoherentThroughout(Db([], map[]), qs);
    ListKeepsCoherent(RunAll(Db([], map[]), qs), tenant, trigger);
  }

  // ----- the service and the routes -----

  datatype PatchReply = NotFound | NameTaken | Updated

  /** The keys that an invalidation drops. */
  predicate Drops(tenant: string, trigger: Option<string>, key: string) {
    if trigger.Some? && trigger.value != "" then key == "rules:" + tenant + ":" + trigger.value
    else "rules:" + tenant + ":" <= key
  }

  /** The cache has lost the keys that this tenant's triggers drop, and nothing else. */
  predicate Dropped(before: map<string, seq<Rule>>, after: map<string, seq<Rule>>, tenant: string,
                    trigger: Option<string>, other: Option<string>)
  {
    && (forall k | k in before :: k in after <==> !Drops(tenant, trigger, k) && !Drops(tenant, other, k))
    && (forall k | k in after :: k in before && after[k] == before[k])
  }

  /** Each field is the one that was asked for, or else the old one. */
  predicate Applies(r: Rule, s: Rule, c: Changes) {
    && s.id == r.id && s.tenant == r.tenant && s.createdAt == r.createdAt
    && (c.name == None ==> s.name == r.name) && (c.name.Some? ==> c.name == Some(s.name))
    && (c.trigger == None ==> s.trigger == r.trigger) && (c.trigger.Some? ==> c.trigger == Some(s.trigger))
    && (c.priority == None ==> s.priority == r.priority) && (c.priority.Some? ==> c.priority == Some(s.priority))
    && (c.active == None ==> s.active == r.active) && (c.active.Some? ==> c.active == Some(s.active))
    && (c.body == None ==> s.body == r.body) && (c.body.Some? ==> c.body == Some(s.body))
  }

  /** Exactly the rule with this id changes, as the changes say, to a name of its own; its triggers' keys go. */
  predicate Patches(d: Db, e: Db, tenant: string, id: string, c: Changes, i: nat) {
    && i < |d.rules| == |e.rules| && d.rules[i].id == id && d.rules[i].tenant == tenant
    && Applies(d.rules[i], e.rules[i], c) && e.rules == d.rules[i := e.rules[i]]
    && (forall k | 0 <= k < |e.rules| && k != i :: e.rules[k].tenant != tenant || e.rules[k].name != e.rules[i].name)
    && Dropped(d.cache, e.cache, tenant, Some(d.rules[i].trigger), Some(e.rules[i].trigger))
  }

  /** An applied patch shows: its rule is listed for a trigger exactly if it is now active and has that trigger. */
  lemma PatchedIsListed(d: Db, e: Db, tenant: string, id: string, c: Changes, i: nat, trigger: string)
    requires Patches(d, e, tenant, id, c, i)
    ensures e.rules[i] in Query(e.rules, tenant, trigger) <==>
              && (if c.active.Some? then c.active == Some(true) else d.rules[i].active)
              && (if c.trigger.Some? then c.trigger == Some(trigger) else d.rules[i].trigger == trigger)
  {
    hide Query;
    QueryAnswers(e.rules, tenant, trigger);
    assert e.rules[i] in multiset(e.rules);
    assert multiset(Query(e.rules, tenant, trigger))[e.rules[i]] > 0
           <==> e.rules[i].trigger == trigger && e.rules[i].active;
  }

  class RuleEngine {
    var rules: seq<Rule>
    var cache: map<string, seq<Rule>>

    function View(): Db
      reads this
    {
      Db(rules, cache)
    }

    constructor ()
      ensures View() == Db([], map[])
    {
      rules, cache := [], map[];
    }

    method ListActiveRules(tenant: string, trigger: string) returns (result: seq<Rule>)
      modifies this`cache
      ensures (View(), result) == ListStep(old(View()), tenant, trigger)
      ensures var key := "rules:" + tenant + ":" + trigger;
              if key in old(cache) then result == old(cache)[key] && cache == old(cache)
              else Answers(result, rules, tenant, trigger) && cache == old(cache)[key := result]
    {
      var key := CacheKey(tenant, trigger);
      if key in cache { return cache[key]; }
      QueryAnswers(rules, tenant, trigger);
      result := Query(rules, tenant, trigger);
      cache := cache[key := result];
    }

    method InvalidateRules(tenant: string, trigger: Option<string>)
      modifies this`cache
      ensures View() == Invalidate(old(View()), tenant, trigger)
      ensures Dropped(old(cache), cache, tenant, trigger, trigger)
    {
      if trigger.Some? && trigger.value != "" {
        cache := cache - {CacheKey(tenant, trigger.value)};
        return;
      }
      var keys := set k | k in cache && CacheKey(tenant, "") <= k;
      cache := cache - keys;
    }

    method CreateRule(r: Rule) returns (created: bool)
      modifies this
      ensures View() == CreateStep(old(View()), r)
      ensures created <==>
                forall k | 0 <= k < |old(rules)| ::
                  && old(rules)[k].id != r.id
                  && (old(rules)[k].tenant != r.tenant || old(rules)[k].name != r.name)
      ensures created ==>
                rules == old(rules) + [r] && Dropped(old(cache), cache, r.tenant, Some(r.trigger), Some(r.trigger))
      ensures !created ==> View() == old(View())
    {
      if Taken(rules, r.id, r.tenant, r.name) { return false; }
      rules := rules + [r];
      InvalidateRules(r.tenant, Some(r.trigger));
      return true;
    }

    method PatchRule(tenant: string, id: string, c: Changes) returns (reply: PatchReply)
      modifies this
      ensures View() == PatchStep(old(View()), tenant, id, c)
      ensures reply.NotFound? <==>
                forall k | 0 <= k < |old(rules)| :: old(rules)[k].id != id || old(rules)[k].tenant != tenant
      ensures reply.Updated? ==> exists i :: Patches(old(View()), View(), tenant, id, c, i)
      ensures reply.NameTaken? ==>
                exists i, k | 0 <= i < |old(rules)| && 0 <= k < |old(rules)| && i != k ::
                  && old(rules)[i].id == id && old(rules)[i].tenant == tenant && old(rules)[k].tenant == tenant
                  && old(rules)[k].name == if c.name.Some? then c.name.value else old(rules)[i].name
      ensures !reply.Updated? ==> View() == old(View())
    {
      var i := Find(rules, tenant, id);
      if i.None? { return NotFound; }
      var current := rules[i.value];
      var rule := Patched(current, c);
      if !NameFree(rules, i.value, tenant, rule.name) { return NameTaken; }
      rules := rules[i.value := rule];
      InvalidateRules(tenant, Some(current.trigger));
      if rule.trigger != current.trigger { InvalidateRules(tenant, Some(rule.trigger)); }
      assert Patches(old(View()), View(), tenant, id, c, i.value);
      return Updated;
    }
  }

  // ----- requests that interleave -----

  const RULE_CACHE_TTL := 60

  /** What one listing read, with the version of the table it saw and when. */
  datatype Read = Read(tenant: string, trigger: string, list: seq<Rule>, version: nat, at: int)

  datatype Entry = Entry(read: Read, expires: int)

  /** Every version of the table so far, with the time it became current. */
  datatype Version = Version(rules: seq<Rule>, since: int)

  datatype World = World(versions: seq<Version>, cache: map<(string, string), Entry>, listings: map<string, Read>,
      now: int)

  /** `Change` is any write to the table; `Drop` an eviction, an expiry or a deletion that got through. */
  datatype Event =
    | Tick(dt: nat)
    | ReadTable(request: string, tenant: string, trigger: string)
    | Store(request: string)
    | Change(rules: seq<Rule>)
    | Drop(tenant: string, trigger: string)

  function Next(w: World, e: Event): World
    requires w.versions != []
  {
    match e
    case Tick(dt) => w.(now := w.now + dt)
    case ReadTable(request, tenant, trigger) =>
      var v := |w.versions| - 1;
      var list := Query(w.versions[v].rules, tenant, trigger);
      w.(listings := w.listings[request := Read(tenant, trigger, list, v, w.now)])
    case Store(request) =>
      if request in w.listings then
        var r := w.listings[request];
        w.(cache := w.cache[(r.tenant, r.trigger) := Entry(r, w.now + RULE_CACHE_TTL)],
            listings := w.listings - {request})
      else w
    case Change(rules) => w.(versions := w.versions + [Version(rules, w.now)])
    case Drop(tenant, trigger) => w.(cache := w.cache - {(tenant, trigger)})
  }

  function Evolve(w: World, es: seq<Event>): (r: World)
    requires w.versions != []
    ensures r.versions != []
    decreases |es|
  {
    if es == [] then w else Evolve(Next(w, es[0]), es[1..])
  }

  /** No listing waits longer than `delay` between its read and its store. */
  ghost predicate Prompt(w: World, es: seq<Event>, delay: nat)
    requires w.versions != []
    decreases |es|
  {
    es != [] ==>
      && (es[0].Store? && es[0].request in w.listings ==> w.now <= w.listings[es[0].request].at + delay)
      && Prompt(Next(w, es[0]), es[1..], delay)
  }

  /** The read is what the query answered on a version that was still current at that time. */
  predicate ReadOk(w: World, r: Read) {
    && r.version < |w.versions| && r.at <= w.now
    && r.list == Query(w.versions[r.version].rules, r.tenant, r.trigger)
    && (r.version + 1 < |w.versions| ==> r.at <= w.versions[r.version + 1].since)
  }

  ghost predicate RecentInv(w: World, delay: nat) {
    && w.versions != []
    && (forall q | q in w.listings :: ReadOk(w, w.listings[q]))
    && (forall k | k in w.cache ::
          && ReadOk(w, w.cache[k].read) && (w.cache[k].read.tenant, w.cache[k].read.trigger) == k
          && w.cache[k].expires <= w.cache[k].read.at + delay + RULE_CACHE_TTL)
  }

  lemma NextKeepsRecent(w: World, e: Event, delay: nat)
    requires RecentInv(w, delay)
    requires e.Store? && e.request in w.listings ==> w.now <= w.listings[e.request].at + delay
    ensures RecentInv(Next(w, e), delay)
  {
    hide Query;
    var x := Next(w, e);
    forall q | q in x.listings ensures ReadOk(x, x.listings[q]) {
      assert q in w.listings ==> ReadOk(w, w.listings[q]);
    }
    forall k | k in x.cache ensures ReadOk(x, x.cache[k].read) {
      if k in w.cache { assert ReadOk(w, w.cache[k].read); }
      if e.Store? && e.request in w.listings { assert ReadOk(w, w.listings[e.request]); }
    }
  }

  lemma {:induction false} RecentThroughout(w: World, es: seq<Event>, delay: nat)
    requires RecentInv(w, delay) && Prompt(w, es, delay)
    ensures RecentInv(Evolve(w, es), delay)
    decreases |es|
  {
    if es != [] {
      NextKeepsRecent(w, es[0], delay);
      RecentThroughout(Next(w, es[0]), es[1..], delay);
    }
  }

  /** The cache is stale by no more than `age`: it holds the answer of a version replaced at most that long ago. */
  ghost predicate FreshWithin(w: World, tenant: string, trigger: string, age: int)
    requires (tenant, trigger) in w.cache
  {
    exists v | 0 <= v < |w.versions| ::
      && w.cache[(tenant, trigger)].read.list == Query(w.versions[v].rules, tenant, trigger)
      && (v + 1 < |w.versions| ==> w.now - w.versions[v + 1].since < age)
  }

  /**
   Whatever interleaves, and even if no deletion ever reaches the cache, an entry that has not
   expired holds an answer that was right less than the TTL plus the longest delay ago.
   */
  lemma StalenessIsBounded(rules: seq<Rule>, now: int, es: seq<Event>, delay: nat, tenant: string, trigger: string)
    requires var w0 := World([Version(rules, now)], map[], map[], now); Prompt(w0, es, delay)
    ensures var w := Evolve(World([Version(rules, now)], map[], map[], now), es);
            (tenant, trigger) in w.cache && w.now < w.cache[(tenant, trigger)].expires ==>
              FreshWithin(w, tenant, trigger, delay + 60)
  {
    var w0 := World([Version(rules, now)], map[], map[], now);
    RecentThroughout(w0, es, delay);
    var w := Evolve(w0, es);
    if (tenant, trigger) in w.cache && w.now < w.cache[(tenant, trigger)].expires {
      var r := w.cache[(tenant, trigger)].read;
      assert ReadOk(w, r);
      assert r.list == Query(w.versions[r.version].rules, tenant, trigger);
    }
  }

  /** What the query for a key answers now. */
  function Current(w: World, key: (string, string)): seq<Rule>
    requires w.versions != []
  {
    Query(w.versions[|w.versions| - 1].rules, key.0, key.1)
  }

  predicate IsExact(w: World, key: (string, string))
    requires w.versions != []
  {
    key in w.cache ==> w.cache[key].read.list == Current(w, key)
  }

  /** The cached keys whose query this event alters; their invalidation is still owed. */
  function Altered(w: World, e: Event): set<(string, string)>
    requires w.versions != []
  {
    if e.Change? then set k | k in w.cache && Query(e.rules, k.0, k.1) != Current(w, k) else {}
  }

  /** The keys that a drop, or the store of a fresh answer, settles. */
  function Settled(w: World, e: Event): set<(string, string)> {
    match e
    case Drop(tenant, trigger) => {(tenant, trigger)}
    case Store(request) =>
      if request in w.listings then {(w.listings[request].tenant, w.listings[request].trigger)} else {}
    case _ => {}
  }

  /** The invalidations still owed at the end of a run. */
  function Owed(w: World, es: seq<Event>, owed: set<(string, string)>): set<(string, string)>
    requires w.versions != []
    decreases |es|
  {
    if es == [] then owed else Owed(Next(w, es[0]), es[1..], owed + Altered(w, es[0]) - Settled(w, es[0]))
  }

  /** Every store is of an answer read from a version that at most `lag` later ones have replaced. */
  predicate StoresWithin(w: World, es: seq<Event>, lag: nat)
    requires w.versions != []
    decreases |es|
  {
    es != [] ==>
      && (es[0].Store? && es[0].request in w.listings ==> w.listings[es[0].request].version + lag >= |w.versions| - 1)
      && StoresWithin(Next(w, es[0]), es[1..], lag)
  }

  ghost predicate ExactInv(w: World, owed: set<(string, string)>) {
    && w.versions != []
    && (forall q | q in w.listings :: ReadOk(w, w.listings[q]))
    && (forall k | k !in owed :: IsExact(w, k))
  }

  lemma NextKeepsExact(w: World, e: Event, owed: set<(string, string)>)
    requires ExactInv(w, owed)
    requires e.Store? && e.request in w.listings ==> w.listings[e.request].version >= |w.versions| - 1
    ensures ExactInv(Next(w, e), owed + Altered(w, e) - Settled(w, e))
  {
    hide Query;
    var x := Next(w, e);
    forall q | q in x.listings ensures ReadOk(x, x.listings[q]) {
      assert q in w.listings ==> ReadOk(w, w.listings[q]);
    }
    forall k | k !in owed + Altered(w, e) - Settled(w, e) ensures IsExact(x, k) {
      if e.Store? && e.request in w.listings {
        assert ReadOk(w, w.listings[e.request]);
      }
      if k !in Settled(w, e) { assert IsExact(w, k); }
    }
  }

  /**
   When the interleaved cache is exact: if no listing stores an answer from a version that has been
   replaced, every entry is what the query answers now, except those whose invalidation is still owed;
   so once each change has been followed by the drops of the keys it altered, all are.
   */
  lemma {:induction false} FreshStoresAreExact(w: World, es: seq<Event>, owed: set<(string, string)>)
    requires ExactInv(w, owed) && StoresWithin(w, es, 0)
    ensures ExactInv(Evolve(w, es), Owed(w, es, owed))
    decreases |es|
  {
    hide Next, Altered, Settled, ExactInv;
    if es != [] {
      assert w.versions != [] by { HasVersion(w, owed); }
      NextKeepsExact(w, es[0], owed);
      FreshStoresAreExact(Next(w, es[0]), es[1..], owed + Altered(w, es[0]) - Settled(w, es[0]));
    }
  }

  lemma HasVersion(w: World, owed: set<(string, string)>)
    requires ExactInv(w, owed)
    ensures w.versions != []
  {
  }

  lemma ExactWhenNothingIsOwed(rules: seq<Rule>, now: int, es: seq<Event>, tenant: string, trigger: string)
    requires var w0 := World([Version(rules, now)], map[], map[], now);
             StoresWithin(w0, es, 0) && (tenant, trigger) !in Owed(w0, es, {})
    ensures IsExact(Evolve(World([Version(rules, now)], map[], map[], now), es), (tenant, trigger))
  {
    FreshStoresAreExact(World([Version(rules, now)], map[], map[], now), es, {});
  }

  /**
   Exactly which writes spoil an exact entry: a change of its query's answer, and a store from a version
   where it differed.
   */
  lemma SpoiledExactly(w: World, e: Event, key: (string, string))
    requires w.versions != [] && IsExact(w, key)
    requires e.Store? && e.request in w.listings ==> ReadOk(w, w.listings[e.request])
    ensures !IsExact(Next(w, e), key) <==>
              || key in Altered(w, e)
              || (e.Store? && key in Settled(w, e)
                  && Query(w.versions[w.listings[e.request].version].rules, key.0, key.1) != Current(w, key))
  {
    hide Query;
  }

  // ----- and only then -----

  /** A table with one more active rule answers differently. */
  lemma OneMoreRule(rules: seq<Rule>, r: Rule)
    requires r.active
    ensures Query(rules + [r], r.tenant, r.trigger) != Query(rules, r.tenant, r.trigger)
  {
    QueryAnswers(rules, r.tenant, r.trigger);
    QueryAnswers(rules + [r], r.tenant, r.trigger);
    assert multiset(rules + [r])[r] == multiset(rules)[r] + 1;
  }

  /** A listing reads, a rule is created and its key dropped, and then the listing stores what it read. */
  function LateStore(rules: seq<Rule>, r: Rule): seq<Event> {
    [ReadTable("q", r.tenant, r.trigger), Change(rules + [r]), Drop(r.tenant, r.trigger), Store("q")]
  }

  lemma Unroll(w: World, e: Event, es: seq<Event>, rest: seq<Event>, owed: set<(string, string)>, lag: nat)
    requires w.versions != [] && es == [e] + rest
    ensures Evolve(w, es) == Evolve(Next(w, e), rest)
    ensures Owed(w, es, owed) == Owed(Next(w, e), rest, owed + Altered(w, e) - Settled(w, e))
    ensures StoresWithin(w, es, lag) <==>
              (e.Store? && e.request in w.listings ==> w.listings[e.request].version + lag >= |w.versions| - 1)
              && StoresWithin(Next(w, e), rest, lag)
  {
    hide Altered, Settled;
    assert es[0] == e && es[1..] == rest;
  }

  lemma AtTheEnd(w: World, owed: set<(string, string)>, lag: nat)
    requires w.versions != []
    ensures Evolve(w, []) == w && Owed(w, [], owed) == owed && StoresWithin(w, [], lag)
  {
  }

  /** What a late store's four events lead to. */
  function StaleWorld(rules: seq<Rule>, now: int, r: Rule): World {
    var read := Read(r.tenant, r.trigger, Query(rules, r.tenant, r.trigger), 0, now);
    World([Version(rules, now), Version(rules + [r], now)],
        map[(r.tenant, r.trigger) := Entry(read, now + RULE_CACHE_TTL)],
          map[], now)
  }

  lemma LateStoreRuns(rules: seq<Rule>, now: int, r: Rule)
    ensures var w0, es := World([Version(rules, now)], map[], map[], now), LateStore(rules, r);
            && Evolve(w0, es) == StaleWorld(rules, now, r) && Owed(w0, es, {}) == {} && StoresWithin(w0, es, 1)
  {
    hide Query, Evolve, Owed, StoresWithin;
    var w0 := World([Version(rules, now)], map[], map[], now);
    var a, b, c, d := ReadTable("q", r.tenant, r.trigger), Change(rules + [r]), Drop(r.tenant, r.trigger), Store("q");
    var read := Read(r.tenant, r.trigger, Query(rules, r.tenant, r.trigger), 0, now);
    var w1 := w0.(listings := map["q" := read]);
    var w2 := w1.(versions := [Version(rules, now), Version(rules + [r], now)]);
    assert Next(w0, a) == w1 && Next(w1, b) == w2 && Next(w2, c) == w2;
    assert Next(w2, d) == StaleWorld(rules, now, r);
    hide Next;
    Unroll(w0, a, [a, b, c, d], [b, c, d], {}, 1);
    Unroll(w1, b, [b, c, d], [c, d], {}, 1);
    Unroll(w2, c, [c, d], [d], {}, 1);
    Unroll(w2, d, [d], [], {}, 1);
    AtTheEnd(StaleWorld(rules, now, r), {}, 1);
    assert {} + Altered(w0, a) - Settled(w0, a) == {} && {} + Altered(w1, b) - Settled(w1, b) == {};
    assert {} + Altered(w2, c) - Settled(w2, c) == {} && {} + Altered(w2, d) - Settled(w2, d) == {};
  }

  /**
   Interleaving does cost exactness: a store that lands after the invalidation leaves the old answer
   behind, though every invalidation was carried out and the answer is only one version old.
   */
  lemma LateStoreIsStale(rules: seq<Rule>, now: int, r: Rule)
    requires r.active
    ensures var w0, es := World([Version(rules, now)], map[], map[], now), LateStore(rules, r);
            var w := Evolve(w0, es);
            && Owed(w0, es, {}) == {} && StoresWithin(w0, es, 1)
            && (r.tenant, r.trigger) in w.cache && w.now < w.cache[(r.tenant, r.trigger)].expires
            && !IsExact(w, (r.tenant, r.trigger))
  {
    hide Query, Evolve, Owed, StoresWithin;
    LateStoreRuns(rules, now, r);
    OneMoreRule(rules, r);
  }

  /**
   Exactly when the interleaved cache is exact: for any key, every run whose stores are at most `lag`
   versions old, and which owes the key no invalidation, leaves the key exact, if and only if `lag` is
   0: a store has to check that the version it read is still the current one.
   */
  lemma ExactIffStoresAreFresh(rules: seq<Rule>, now: int, tenant: string, trigger: string, lag: nat)
    ensures var w0 := World([Version(rules, now)], map[], map[], now);
            (forall es | StoresWithin(w0, es, lag) && (tenant, trigger) !in Owed(w0, es, {}) ::
               IsExact(Evolve(w0, es), (tenant, trigger)))
            <==> lag == 0
  {
    var w0 := World([Version(rules, now)], map[], map[], now);
    if lag == 0 {
      forall es | StoresWithin(w0, es, lag) && (tenant, trigger) !in Owed(w0, es, {})
        ensures IsExact(Evolve(w0, es), (tenant, trigger))
      {
        ExactWhenNothingIsOwed(rules, now, es, tenant, trigger);
      }
    } else {
      var r := Rule("id", tenant, "name", trigger, 1, true, now, 0);
      LateStoreIsStale(rules, now, r);
      MoreLag(w0, LateStore(rules, r), 1, lag);
    }
  }

  lemma {:induction false} MoreLag(w: World, es: seq<Event>, lag: nat, more: nat)
    requires w.versions != [] && StoresWithin(w, es, lag) && lag <= more
    ensures StoresWithin(w, es, more)
    decreases |es|
  {
    hide Next;
    if es != [] {
      assert Next(w, es[0]).versions != [] by { StillVersions(w, es[0]); }
      MoreLag(Next(w, es[0]), es[1..], lag, more);
    }
  }

  lemma StillVersions(w: World, e: Event)
    requires w.versions != []
    ensures Next(w, e).versions != []
  {
  }
}
