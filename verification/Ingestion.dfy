/**
 Idempotent ingestion: POST /signals as a lookup, an inserting transaction and a fallback after a
 unique violation, for any number of requests in any interleaving.
 */
module Ingestion {
  import opened Domain

  /** `request` is the request that inserted the row, `body` everything else it said. */
  datatype Signal = Signal(tenant: string, key: Option<string>, request: string, body: nat)

  datatype Phase = Inserting | Conflicted

  datatype Post = Post(tenant: string, key: Option<string>, body: nat, phase: Phase)

  datatype Reply = Accepted(tenant: string, key: Option<string>, signal: string, replay: bool) | Failed

  /** `index` is the unique index on tenant and idempotency key; `outbox` holds the signal.process rows by signal. */
  datatype State = State(
    signals: map<string, Signal>, index: map<(string, string), string>, outbox: set<string>,
    posts: map<string, Post>, replies: map<string, Reply>)

  datatype Event =
    | Lookup(request: string, tenant: string, key: Option<string>, body: nat)
    | Insert(request: string, id: string)
    | Fallback(request: string)
    | Abort(request: string)

  function Existing(s: State, tenant: string, key: Option<string>): Option<string> {
    if key.Some? && (tenant, key.value) in s.index then Some(s.index[(tenant, key.value)]) else None
  }

  function Answer(s: State, request: string, reply: Reply): State {
    s.(posts := s.posts - {request}, replies := s.replies[request := reply])
  }

  /** The transaction: the signal, its index entry and its outbox row together, or nothing. */
  function Inserted(s: State, request: string, p: Post, id: string): State {
    s.(signals := s.signals[id := Signal(p.tenant, p.key, request, p.body)],
       index := if p.key.Some? then s.index[(p.tenant, p.key.value) := id] else s.index,
       outbox := s.outbox + {id})
  }

  predicate Violates(s: State, p: Post, id: string) {
    id in s.signals || Existing(s, p.tenant, p.key).Some?
  }

  function LookupStep(s: State, request: string, tenant: string, key: Option<string>, body: nat): State {
    if request in s.posts || request in s.replies then s
    else
      var found := Existing(s, tenant, key);
      if found.Some? then Answer(s, request, Accepted(tenant, key, found.value, true))
      else s.(posts := s.posts[request := Post(tenant, key, body, Inserting)])
  }

  function InsertStep(s: State, request: string, p: Post, id: string): State {
    if Violates(s, p, id) then
      if p.key.Some? then s.(posts := s.posts[request := p.(phase := Conflicted)]) else Answer(s, request, Failed)
    else Answer(Inserted(s, request, p, id), request, Accepted(p.tenant, p.key, id, false))
  }

  function FallbackStep(s: State, request: string, p: Post): State {
    var found := Existing(s, p.tenant, p.key);
    Answer(s, request, if found.Some? then Accepted(p.tenant, p.key, found.value, true) else Failed)
  }

  function Step(s: State, e: Event): State {
    match e
    case Lookup(request, tenant, key, body) => LookupStep(s, request, tenant, key, body)
    case Insert(request, id) =>
      if request in s.posts && s.posts[request].phase.Inserting?
      then InsertStep(s, request, s.posts[request], id) else s
    case Fallback(request) =>
      if request in s.posts && s.posts[request].phase.Conflicted? then FallbackStep(s, request, s.posts[request]) else s
    case Abort(request) => if request in s.posts then Answer(s, request, Failed) else s
  }

  function RunAll(s: State, es: seq<Event>): State
    decreases |es|
  {
    if es == [] then s else RunAll(Step(s, es[0]), es[1..])
  }

  const NOTHING := State(map[], map[], {}, map[], map[])

  // ----- what every interleaving keeps -----

  /** The index is exactly the keyed signals, and each signal has its outbox row. */
  ghost predicate TablesInv(s: State) {
    && s.outbox == s.signals.Keys
    && (forall k | k in s.index ::
          s.index[k] in s.signals && s.signals[s.index[k]].tenant == k.0 && s.signals[s.index[k]].key == Some(k.1))
    && (forall id | id in s.signals && s.signals[id].key.Some? ::
          var k := (s.signals[id].tenant, s.signals[id].key.value); k in s.index && s.index[k] == id)
  }

  ghost predicate IngestInv(s: State) {
    && TablesInv(s)
    && (forall q | q in s.replies :: ReplyOk(s, q, s.replies[q]))
    && s.posts.Keys !! s.replies.Keys
  }

  predicate ReplyOk(s: State, request: string, r: Reply) {
    r.Accepted? ==>
      && r.signal in s.signals
      && s.signals[r.signal].tenant == r.tenant && s.signals[r.signal].key == r.key
      && (r.replay ==> r.key.Some?)
      && (!r.replay ==> s.signals[r.signal].request == request)
  }

  /** Nothing is ever deleted or rewritten. */
  ghost predicate Grows(s: State, t: State) {
    && (forall id | id in s.signals :: id in t.signals && t.signals[id] == s.signals[id])
    && (forall k | k in s.index :: k in t.index && t.index[k] == s.index[k])
    && (forall q | q in s.replies :: q in t.replies && t.replies[q] == s.replies[q])
  }

  lemma InsertedKeeps(s: State, request: string, p: Post, id: string)
    requires IngestInv(s) && !Violates(s, p, id)
    ensures var t := Inserted(s, request, p, id); IngestInv(t) && Grows(s, t)
  {
    var t := Inserted(s, request, p, id);
    forall q | q in t.replies ensures ReplyOk(t, q, t.replies[q]) {
      assert ReplyOk(s, q, s.replies[q]);
    }
  }

  lemma AnswerKeeps(s: State, request: string, reply: Reply)
    requires IngestInv(s) && request !in s.replies && ReplyOk(s, request, reply)
    ensures var t := Answer(s, request, reply); IngestInv(t) && Grows(s, t)
  {
    var t := Answer(s, request, reply);
    forall q | q in t.replies ensures ReplyOk(t, q, t.replies[q]) {
      if q != request { assert ReplyOk(s, q, s.replies[q]); }
    }
  }

  lemma PostsDoNotMatter(s: State, t: State)
    requires IngestInv(s) && t == s.(posts := t.posts) && t.posts.Keys !! t.replies.Keys
    ensures IngestInv(t) && Grows(s, t)
  {
    forall q | q in t.replies ensures ReplyOk(t, q, t.replies[q]) {
      assert ReplyOk(s, q, s.replies[q]);
    }
  }

  lemma InsertKeeps(s: State, request: string, id: string)
    requires IngestInv(s) && request in s.posts
    ensures var t := InsertStep(s, request, s.posts[request], id); IngestInv(t) && Grows(s, t)
  {
    var p := s.posts[request];
    if !Violates(s, p, id) {
      InsertedKeeps(s, request, p, id);
      AnswerKeeps(Inserted(s, request, p, id), request, Accepted(p.tenant, p.key, id, false));
    } else if p.key.Some? {
      PostsDoNotMatter(s, InsertStep(s, request, p, id));
    } else {
      AnswerKeeps(s, request, Failed);
    }
  }

  lemma LookupKeeps(s: State, request: string, tenant: string, key: Option<string>, body: nat)
    requires IngestInv(s)
    ensures var t := LookupStep(s, request, tenant, key, body); IngestInv(t) && Grows(s, t)
  {
    var found := Existing(s, tenant, key);
    if request in s.posts || request in s.replies { return; }
    if found.Some? {
      AnswerKeeps(s, request, Accepted(tenant, key, found.value, true));
    } else {
      PostsDoNotMatter(s, LookupStep(s, request, tenant, key, body));
    }
  }

  lemma FallbackKeeps(s: State, request: string)
    requires IngestInv(s) && request in s.posts
    ensures var t := FallbackStep(s, request, s.posts[request]); IngestInv(t) && Grows(s, t)
  {
    var p := s.posts[request];
    var found := Existing(s, p.tenant, p.key);
    AnswerKeeps(s, request, if found.Some? then Accepted(p.tenant, p.key, found.value, true) else Failed);
  }

  lemma StepKeeps(s: State, e: Event)
    requires IngestInv(s)
    ensures IngestInv(Step(s, e)) && Grows(s, Step(s, e))
  {
    hide TablesInv, ReplyOk, InsertStep, LookupStep, FallbackStep;
    match e
    case Lookup(request, tenant, key, body) => LookupKeeps(s, request, tenant, key, body);
    case Insert(request, id) => if request in s.posts { InsertKeeps(s, request, id); }
    case Fallback(request) => if request in s.posts { FallbackKeeps(s, request); }
    case Abort(request) => if request in s.posts { AbortKeeps(s, request); }
  }

  lemma AbortKeeps(s: State, request: string)
    requires IngestInv(s) && request in s.posts
    ensures IngestInv(Answer(s, request, Failed)) && Grows(s, Answer(s, request, Failed))
  {
    AnswerKeeps(s, request, Failed);
  }

  lemma {:induction false} KeptThroughout(s: State, es: seq<Event>)
    requires IngestInv(s)
    ensures IngestInv(RunAll(s, es)) && Grows(s, RunAll(s, es))
    decreases |es|
  {
    if es != [] {
      StepKeeps(s, es[0]);
      KeptThroughout(Step(s, es[0]), es[1..]);
    }
  }

  function SignalsWith(s: State, tenant: string, key: string): set<string> {
    set id | id in s.signals && s.signals[id].tenant == tenant && s.signals[id].key == Some(key)
  }

  /**
   Whatever interleaves: once a request with an idempotency key was accepted, its tenant has
   exactly one signal with that key and one signal.process row for it, every accepted reply to
   that key names this signal, in this and in every later state, and only one of them was not a
   replay.
   */
  lemma IngestionIsIdempotent(es: seq<Event>, later: seq<Event>, q: string, q': string)
    requires var s := RunAll(NOTHING, es); q in s.replies && s.replies[q].Accepted? && s.replies[q].key.Some?
    ensures var t := RunAll(RunAll(NOTHING, es), later);
            var r := RunAll(NOTHING, es).replies[q];
            && SignalsWith(t, r.tenant, r.key.value) == {r.signal}
            && t.outbox == t.signals.Keys
            && (q' in t.replies && t.replies[q'].Accepted? && t.replies[q'].tenant == r.tenant
                && t.replies[q'].key == r.key ==>
                  && t.replies[q'].signal == r.signal
                  && (!r.replay && !t.replies[q'].replay ==> q == q'))
  {
    var s := RunAll(NOTHING, es);
    KeptThroughout(NOTHING, es);
    KeptThroughout(s, later);
    var t := RunAll(s, later);
    assert ReplyOk(t, q, t.replies[q]);
    if q' in t.replies { assert ReplyOk(t, q', t.replies[q']); }
  }

  /**
   A request that loses the race for its key is answered like the winner: whatever happens between
   its failed insert and its second lookup, it is accepted with the winner's signal.
   */
  lemma LosersAreAnswered(es: seq<Event>, request: string, id: string, between: seq<Event>)
    requires var s := RunAll(NOTHING, es);
             && request in s.posts && s.posts[request].phase.Inserting?
             && Existing(s, s.posts[request].tenant, s.posts[request].key).Some?
    requires var t := RunAll(Step(RunAll(NOTHING, es), Insert(request, id)), between);
             request in t.posts && t.posts[request] == Step(RunAll(NOTHING, es), Insert(request, id)).posts[request]
    ensures var s := RunAll(NOTHING, es);
            var p := s.posts[request];
            var t := RunAll(Step(s, Insert(request, id)), between);
            Step(t, Fallback(request)).replies[request]
              == Accepted(p.tenant, p.key, Existing(s, p.tenant, p.key).value, true)
  {
    var s := RunAll(NOTHING, es);
    KeptThroughout(NOTHING, es);
    StepKeeps(s, Insert(request, id));
    KeptThroughout(Step(s, Insert(request, id)), between);
  }

  // ----- where signals come from -----

  /** Each signal, and each request under way, says what some request of these events said. */
  ghost predicate SentInv(s: State, es: seq<Event>) {
    && (forall id | id in s.signals ::
          var x := s.signals[id]; Lookup(x.request, x.tenant, x.key, x.body) in es)
    && (forall q | q in s.posts :: Lookup(q, s.posts[q].tenant, s.posts[q].key, s.posts[q].body) in es)
  }

  lemma StepKeepsSent(s: State, es: seq<Event>, e: Event)
    requires SentInv(s, es)
    ensures SentInv(Step(s, e), es + [e])
  {
  }

  lemma {:induction false} SentThroughout(es: seq<Event>, n: nat)
    requires n <= |es|
    ensures SentInv(RunAll(NOTHING, es[..n]), es[..n])
  {
    hide Step, SentInv;
    if n == 0 {
      assert SentInv(NOTHING, []) by { NothingSent(); }
    } else {
      assert es[..n] == es[..n - 1] + [es[n - 1]];
      SentThroughout(es, n - 1);
      RunAllThen(NOTHING, es[..n - 1], es[n - 1]);
      StepKeepsSent(RunAll(NOTHING, es[..n - 1]), es[..n - 1], es[n - 1]);
    }
  }

  lemma NothingSent()
    ensures SentInv(NOTHING, [])
  {
  }

  lemma {:induction false} RunAllThen(s: State, es: seq<Event>, e: Event)
    ensures RunAll(s, es + [e]) == Step(RunAll(s, es), e)
    decreases |es|
  {
    hide Step;
    if es == [] {
      assert [e][1..] == [];
    } else {
      assert (es + [e])[1..] == es[1..] + [e];
      RunAllThen(Step(s, es[0]), es[1..], e);
    }
  }

  /** No signal is made up: each holds the tenant, the key and the body of the request that inserted it. */
  lemma SignalsAreAsSent(es: seq<Event>, id: string)
    ensures var s := RunAll(NOTHING, es);
            id in s.signals ==>
              Lookup(s.signals[id].request, s.signals[id].tenant, s.signals[id].key, s.signals[id].body) in es
  {
    SentThroughout(es, |es|);
    assert es[..|es|] == es;
  }

  // ----- the handler, one request at a time -----

  /** A whole request that nobody interrupts. */
  function PostRows(s: State, request: string, tenant: string, key: Option<string>, body: nat, id: string)
    : (State, Reply)
  {
    var found := Existing(s, tenant, key);
    if found.Some? then (s, Accepted(tenant, key, found.value, true))
    else if id in s.signals then (s, Failed)
    else (Inserted(s, request, Post(tenant, key, body, Inserting), id), Accepted(tenant, key, id, false))
  }

  lemma PostIsARun(s: State, request: string, tenant: string, key: Option<string>, body: nat, id: string)
    requires request !in s.posts && request !in s.replies
    ensures var t := RunAll(s, [Lookup(request, tenant, key, body), Insert(request, id), Fallback(request)]);
            var (u, reply) := PostRows(s, request, tenant, key, body, id);
            t.signals == u.signals && t.index == u.index && t.outbox == u.outbox
                && t.replies == s.replies[request := reply]
  {
    RunOfThree(s, Lookup(request, tenant, key, body), Insert(request, id), Fallback(request));
    var t := LookupStep(s, request, tenant, key, body);
    if Existing(s, tenant, key).None? {
      assert t.posts[request] == Post(tenant, key, body, Inserting);
      assert Violates(t, t.posts[request], id) <==> id in s.signals;
    }
  }

  lemma RunOfThree(s: State, a: Event, b: Event, c: Event)
    ensures RunAll(s, [a, b, c]) == Step(Step(Step(s, a), b), c)
  {
    hide Step;
    assert [a, b, c][1..] == [b, c] && [b, c][1..] == [c] && [c][1..] == [];
    assert RunAll(s, [a, b, c]) == RunAll(Step(s, a), [b, c]) == RunAll(Step(Step(s, a), b), [c]);
    assert RunAll(Step(Step(s, a), b), [c]) == RunAll(Step(Step(Step(s, a), b), c), []);
  }

  class Signals {
    var signals: map<string, Signal>
    var index: map<(string, string), string>
    var outbox: set<string>

    function View(): State
      reads this
    {
      State(signals, index, outbox, map[], map[])
    }

    constructor ()
      ensures View() == NOTHING
    {
      signals, index, outbox := map[], map[], {};
    }

    method PostSignal(request: string, tenant: string, key: Option<string>, body: nat, id: string)
      returns (reply: Reply)
      modifies this
      ensures (View(), reply) == PostRows(old(View()), request, tenant, key, body, id)
      ensures if key.Some? && (tenant, key.value) in old(index)
              then reply == Accepted(tenant, key, old(index)[(tenant, key.value)], true) && View() == old(View())
              else if id in old(signals) then reply == Failed && View() == old(View())
              else && reply == Accepted(tenant, key, id, false)
                   && signals == old(signals)[id := Signal(tenant, key, request, body)]
                   && index == (if key.Some? then old(index)[(tenant, key.value) := id] else old(index))
                   && outbox == old(outbox) + {id}
    {
      if key.Some? && (tenant, key.value) in index {
        return Accepted(tenant, key, index[(tenant, key.value)], true);
      }
      if id in signals { return Failed; }
      signals := signals[id := Signal(tenant, key, request, body)];
      if key.Some? { index := index[(tenant, key.value) := id]; }
      outbox := outbox + {id};
      return Accepted(tenant, key, id, false);
    }
  }
}
