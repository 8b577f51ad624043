/**
 Refresh sessions: login, rotation with reuse detection, logout and revocation, as a transition
 system over the session table. A refresh reads the session first and rotates or revokes in a
 later transaction, so any number of refreshes of one token may be between the two.
 */
module Sessions {
  import opened Domain

  datatype RevokedReason = Rotated | ReuseDetected | LoggedOut | LoggedOutEverywhere | UserRevoked

  /** `serial` is the row's place in the order of insertion. */
  datatype Session = Session(
    user: string, tenant: string, tokenHash: string, expiresAt: int, serial: nat,
    revoked: Option<RevokedReason>, replacedBy: Option<string>)

  type Table = map<string, Session>

  /** A refresh between its read and its transaction. */
  datatype Ask = Rotating(session: string) | Reporting(user: string, tenant: string)

  /** `rotatedFrom` records every committed rotation: new session to old. */
  datatype State = State(sessions: Table, asks: map<string, Ask>, inserted: nat, rotatedFrom: map<string, string>)

  datatype Event =
    | Login(id: string, user: string, tenant: string, tokenHash: string, expiresAt: int)
    | ReadToRefresh(request: string, id: string, tokenHash: string, now: int, member: bool)
    | Commit(request: string, id: string, tokenHash: string, expiresAt: int)
    | Logout(user: string, tenant: string, named: Option<string>, presented: Option<string>)
    | LogoutAll(user: string, tenant: string)
    | Revoke(user: string, tenant: string, id: string)

  // ----- statements and transactions -----

  predicate Live(s: Session) {
    s.revoked.None?
  }

  predicate Owns(s: Session, user: string, tenant: string) {
    s.user == user && s.tenant == tenant
  }

  /** The id and the token hash are unique keys. */
  predicate CanInsert(t: Table, id: string, tokenHash: string) {
    id !in t && forall k | k in t :: t[k].tokenHash != tokenHash
  }

  function RevokeAll(t: Table, user: string, tenant: string, reason: RevokedReason): (u: Table)
    ensures u.Keys == t.Keys
    ensures forall id | id in t && !Owns(t[id], user, tenant) :: u[id] == t[id]
    ensures forall id | id in t && Owns(t[id], user, tenant) :: !Live(u[id])
  {
    map id | id in t :: if Owns(t[id], user, tenant) && Live(t[id]) then t[id].(revoked := Some(reason)) else t[id]
  }

  function RevokeOne(t: Table, user: string, tenant: string, id: string, tokenHash: Option<string>,
      reason: RevokedReason): Table {
    if && id in t && Owns(t[id], user, tenant) && Live(t[id])
       && (tokenHash.Some? ==> t[id].tokenHash == tokenHash.value)
    then t[id := t[id].(revoked := Some(reason))] else t
  }

  /**
   A logout names the session of the refresh token it presents, or else of its access token. With
   neither, its update filters by owner only.
   */
  function LogoutRows(t: Table, user: string, tenant: string, named: Option<string>, presented: Option<string>): Table {
    match named
    case Some(id) => RevokeOne(t, user, tenant, id, presented, LoggedOut)
    case None => RevokeAll(t, user, tenant, LoggedOut)
  }

  /** The rotation: insert the next session, then revoke the old one if nobody else has; else roll back. */
  function Rotate(t: Table, from: string, id: string, tokenHash: string, expiresAt: int, serial: nat): Option<Table> {
    if !CanInsert(t, id, tokenHash) || from !in t || !Live(t[from]) then None
    else Some(t[id := Session(t[from].user, t[from].tenant, tokenHash, expiresAt, serial, None, None)]
               [from := t[from].(revoked := Some(Rotated), replacedBy := Some(id))])
  }

  /** What the handler does next after its reads; None when it answers with an error. */
  function AfterRead(t: Table, id: string, tokenHash: string, now: int, member: bool): Option<Ask> {
    if id !in t || t[id].tokenHash != tokenHash then None
    else if !Live(t[id]) then
      if t[id].revoked == Some(Rotated) then Some(Reporting(t[id].user, t[id].tenant)) else None
    else if t[id].expiresAt <= now || !member then None
    else Some(Rotating(id))
  }

  function CommitStep(s: State, e: Event, ask: Ask): State
    requires e.Commit?
  {
    var d := s.(asks := s.asks - {e.request});
    match ask
    case Reporting(user, tenant) => d.(sessions := RevokeAll(s.sessions, user, tenant, ReuseDetected))
    case Rotating(from) =>
      match Rotate(s.sessions, from, e.id, e.tokenHash, e.expiresAt, s.inserted)
      case None => d
      case Some(t) => d.(sessions := t, inserted := s.inserted + 1, rotatedFrom := s.rotatedFrom[e.id := from])
  }

  function Step(s: State, e: Event): State {
    match e
    case Login(id, user, tenant, tokenHash, expiresAt) =>
      if CanInsert(s.sessions, id, tokenHash)
      then s.(sessions := s.sessions[id := Session(user, tenant, tokenHash, expiresAt, s.inserted, None, None)],
              inserted := s.inserted + 1)
      else s
    case ReadToRefresh(request, id, tokenHash, now, member) =>
      var ask := AfterRead(s.sessions, id, tokenHash, now, member);
      if request in s.asks || ask.None? then s else s.(asks := s.asks[request := ask.value])
    case Commit(request, _, _, _) => if request in s.asks then CommitStep(s, e, s.asks[request]) else s
    case Logout(user, tenant, named, presented) =>
      s.(sessions := LogoutRows(s.sessions, user, tenant, named, presented))
    case LogoutAll(user, tenant) => s.(sessions := RevokeAll(s.sessions, user, tenant, LoggedOutEverywhere))
    case Revoke(user, tenant, id) => s.(sessions := RevokeOne(s.sessions, user, tenant, id, None, UserRevoked))
  }

  function RunAll(s: State, es: seq<Event>): State
    decreases |es|
  {
    if es == [] then s else RunAll(Step(s, es[0]), es[1..])
  }

  const NOBODY := State(map[], map[], 0, map[])

  // ----- lineages are chains -----

  /** `rotatedFrom` is the inverse of the links, which go to later sessions of the same owner. */
  ghost predicate ChainInv(s: State) {
    && (forall id | id in s.sessions :: NodeOk(s, id))
    && (forall next | next in s.rotatedFrom :: BackOk(s, next))
  }

  ghost predicate NodeOk(s: State, id: string)
    requires id in s.sessions
  {
    && s.sessions[id].serial < s.inserted
    && (s.sessions[id].replacedBy.Some? <==> s.sessions[id].revoked == Some(Rotated))
    && (s.sessions[id].replacedBy.Some? ==> LinkOk(s, id, s.sessions[id].replacedBy.value))
  }

  predicate BackOk(s: State, next: string)
    requires next in s.rotatedFrom
  {
    && s.rotatedFrom[next] in s.sessions
    && s.sessions[s.rotatedFrom[next]].replacedBy == Some(next)
  }

  ghost predicate LinkOk(s: State, id: string, next: string)
    requires id in s.sessions
  {
    && next in s.sessions
    && s.sessions[next].serial > s.sessions[id].serial
    && Owns(s.sessions[next], s.sessions[id].user, s.sessions[id].tenant)
    && next in s.rotatedFrom && s.rotatedFrom[next] == id
  }

  /** What no event changes: identities, and everything about a revoked session. */
  ghost predicate Kept(t: Table, u: Table) {
    forall id | id in t ::
      && id in u
      && u[id] == t[id].(revoked := u[id].revoked, replacedBy := u[id].replacedBy)
      && (!Live(t[id]) ==> u[id] == t[id])
  }

  /** Some live sessions were revoked, and not by a rotation. */
  ghost predicate OnlyRevoked(t: Table, u: Table) {
    u.Keys == t.Keys
    && forall id | id in t ::
         u[id] == t[id] || (Live(t[id]) && u[id] == t[id].(revoked := u[id].revoked) && u[id].revoked.Some?
                            && !u[id].revoked.value.Rotated?)
  }

  lemma RevokingKeepsChains(s: State, d: State)
    requires ChainInv(s) && OnlyRevoked(s.sessions, d.sessions)
    requires d.inserted == s.inserted && d.rotatedFrom == s.rotatedFrom
    ensures ChainInv(d)
  {
    forall id | id in d.sessions ensures NodeOk(d, id) {
      assert NodeOk(s, id);
    }
    forall next | next in d.rotatedFrom ensures BackOk(d, next) {
      assert BackOk(s, next);
    }
  }

  lemma LoginKeepsChains(s: State, e: Event)
    requires ChainInv(s) && e.Login?
    ensures ChainInv(Step(s, e))
  {
    var d := Step(s, e);
    forall id | id in d.sessions ensures NodeOk(d, id) {
      if id in s.sessions { assert NodeOk(s, id); }
    }
    forall next | next in d.rotatedFrom ensures BackOk(d, next) {
      assert BackOk(s, next);
    }
  }

  lemma RotationKeepsChains(s: State, e: Event, from: string)
    requires ChainInv(s) && e.Commit? && e.request in s.asks && s.asks[e.request] == Rotating(from)
    ensures ChainInv(CommitStep(s, e, Rotating(from)))
  {
    var d := CommitStep(s, e, Rotating(from));
    forall id | id in d.sessions ensures NodeOk(d, id) {
      if id in s.sessions { assert NodeOk(s, id); }
    }
    forall next | next in d.rotatedFrom ensures BackOk(d, next) {
      if next in s.rotatedFrom { assert BackOk(s, next); }
    }
  }

  lemma StepKeepsChains(s: State, e: Event)
    requires ChainInv(s)
    ensures ChainInv(Step(s, e))
  {
    match e
    case Login(_, _, _, _, _) => LoginKeepsChains(s, e);
    case ReadToRefresh(_, _, _, _, _) => RevokingKeepsChains(s, Step(s, e));
    case Commit(request, _, _, _) =>
      if request in s.asks {
        match s.asks[request]
        case Rotating(from) => RotationKeepsChains(s, e, from);
        case Reporting(_, _) => RevokingKeepsChains(s, Step(s, e));
      }
    case _ => RevokingKeepsChains(s, Step(s, e));
  }

  lemma StepKeepsRows(s: State, e: Event)
    ensures Kept(s.sessions, Step(s, e).sessions)
  {
  }

  lemma {:induction false} ChainsThroughout(s: State, es: seq<Event>)
    requires ChainInv(s)
    ensures ChainInv(RunAll(s, es))
    decreases |es|
  {
    if es != [] {
      StepKeepsChains(s, es[0]);
      ChainsThroughout(Step(s, es[0]), es[1..]);
    }
  }

  /** Rows are never deleted or handed over, and a revoked session never changes again. */
  lemma {:induction false} RevocationIsPermanent(s: State, es: seq<Event>)
    ensures Kept(s.sessions, RunAll(s, es).sessions)
    decreases |es|
  {
    if es != [] {
      StepKeepsRows(s, es[0]);
      RevocationIsPermanent(Step(s, es[0]), es[1..]);
    }
  }

  /** The session that `k` links lead to. */
  function Follow(t: Table, id: string, k: nat): Option<string> {
    if k == 0 then Some(id)
    else match Follow(t, id, k - 1)
         case None => None
         case Some(x) => if x in t then t[x].replacedBy else None
  }

  lemma {:induction false} FollowClimbs(s: State, id: string, k: nat)
    requires ChainInv(s) && id in s.sessions && Follow(s.sessions, id, k).Some?
    ensures var x := Follow(s.sessions, id, k).value;
            && x in s.sessions && s.sessions[x].serial >= s.sessions[id].serial + k
            && Owns(s.sessions[x], s.sessions[id].user, s.sessions[id].tenant)
  {
    if k > 0 {
      FollowClimbs(s, id, k - 1);
      var y := Follow(s.sessions, id, k - 1).value;
      assert NodeOk(s, y);
    }
  }

  /** The sessions that committed rotations made from this one. */
  function Successors(s: State, id: string): set<string> {
    set x | x in s.rotatedFrom && s.rotatedFrom[x] == id
  }

  /**
   In every reachable state each login's sessions form a chain: a session has one successor if it
   was rotated and none otherwise, however many refreshes of it ran at once; two sessions never
   share a successor; and no chain of links comes back to where it began. So only the last
   session of a chain can be live.
   */
  lemma LineagesAreChains(es: seq<Event>, a: string, b: string, k: nat)
    requires var s := RunAll(NOBODY, es); a in s.sessions && b in s.sessions
    ensures var s := RunAll(NOBODY, es);
            && (s.sessions[a].revoked == Some(Rotated) <==> s.sessions[a].replacedBy.Some?)
            && Successors(s, a) == (if s.sessions[a].replacedBy.Some? then {s.sessions[a].replacedBy.value} else {})
            && (s.sessions[a].replacedBy.Some? && s.sessions[a].replacedBy == s.sessions[b].replacedBy ==> a == b)
            && (k > 0 ==> Follow(s.sessions, a, k) != Some(a))
            && (Live(s.sessions[a]) ==> Follow(s.sessions, a, 1) == None)
  {
    var s := RunAll(NOBODY, es);
    ChainsThroughout(NOBODY, es);
    assert NodeOk(s, a) && NodeOk(s, b);
    assert forall next | next in Successors(s, a) :: BackOk(s, next);
    if k > 0 && Follow(s.sessions, a, k) == Some(a) { FollowClimbs(s, a, k); }
  }

  // ----- concurrent refreshes of one token -----

  /** Commits, in some order, of refreshes that all read the same session. */
  ghost predicate AllRotate(s: State, from: string, es: seq<Event>)
    decreases |es|
  {
    es == [] ||
      (&& es[0].Commit? && es[0].request in s.asks && s.asks[es[0].request] == Rotating(from)
       && CanInsert(s.sessions, es[0].id, es[0].tokenHash)
       && AllRotate(Step(s, es[0]), from, es[1..]))
  }

  lemma {:induction false} LosersChangeNothing(s: State, from: string, es: seq<Event>)
    requires from in s.sessions && !Live(s.sessions[from]) && AllRotate(s, from, es)
    ensures RunAll(s, es).sessions == s.sessions && RunAll(s, es).rotatedFrom == s.rotatedFrom
    decreases |es|
  {
    if es != [] {
      LosersChangeNothing(Step(s, es[0]), from, es[1..]);
    }
  }

  /** Whoever commits first rotates the token; all the others roll back and leave no trace. */
  lemma FirstRefreshWins(s: State, from: string, es: seq<Event>)
    requires from in s.sessions && Live(s.sessions[from]) && es != [] && AllRotate(s, from, es)
    ensures Some(RunAll(s, es).sessions)
         == Rotate(s.sessions, from, es[0].id, es[0].tokenHash, es[0].expiresAt, s.inserted)
    ensures RunAll(s, es).sessions.Keys == s.sessions.Keys + {es[0].id}
  {
    LosersChangeNothing(Step(s, es[0]), from, es[1..]);
  }

  // ----- what authentication accepts -----

  datatype Claims = Claims(user: string, tenant: string, role: Role, session: Option<string>)

  datatype Membership = Membership(role: Role, isActive: bool)

  /** The checks that `authenticate` makes on a verified access token. */
  predicate Authenticate(t: Table, c: Claims, membership: Option<Membership>, now: int) {
    && membership.Some? && membership.value.isActive && membership.value.role == c.role
    && (c.session.Some? ==>
          && c.session.value in t
          && Owns(t[c.session.value], c.user, c.tenant) && Live(t[c.session.value])
          && t[c.session.value].expiresAt > now)
  }

  /** Every session this user has in this tenant is revoked. */
  ghost predicate NoneLive(t: Table, user: string, tenant: string) {
    forall id | id in t && Owns(t[id], user, tenant) :: !Live(t[id])
  }

  /** `x` already existed in `d`, and is revoked in `t`. */
  predicate Ended(d: Table, t: Table, x: string) {
    x in d && x in t && !Live(t[x])
  }

  /** The links of a revoked session lead to the same sessions for ever. */
  lemma {:induction false} FrozenLinks(s: State, es: seq<Event>, id: string, k: nat)
    requires ChainInv(s) && id in s.sessions && NoneLive(s.sessions, s.sessions[id].user, s.sessions[id].tenant)
    ensures Follow(RunAll(s, es).sessions, id, k) == Follow(s.sessions, id, k)
  {
    RevocationIsPermanent(s, es);
    if k > 0 {
      FrozenLinks(s, es, id, k - 1);
      if Follow(s.sessions, id, k - 1).Some? { FollowClimbs(s, id, k - 1); }
    }
  }

  /**
   Once none of a user's sessions in a tenant is live, every session of that time, and whatever
   its links lead to, stays revoked, and every access token bound to one is rejected, whatever
   happens later: refreshes that had already read a session included.
   */
  lemma EndedForGood(s: State, es: seq<Event>, id: string, k: nat, c: Claims, membership: Option<Membership>, now: int)
    requires ChainInv(s) && id in s.sessions && NoneLive(s.sessions, s.sessions[id].user, s.sessions[id].tenant)
    ensures var t := RunAll(s, es).sessions;
            Follow(t, id, k).Some? ==>
              && Ended(s.sessions, t, Follow(t, id, k).value)
              && (c.session == Follow(t, id, k) ==> !Authenticate(t, c, membership, now))
  {
    RevocationIsPermanent(s, es);
    FrozenLinks(s, es, id, k);
    if Follow(s.sessions, id, k).Some? { FollowClimbs(s, id, k); }
  }

  /** A login of this user in this tenant. */
  predicate LogsIn(e: Event, user: string, tenant: string) {
    e.Login? && e.user == user && e.tenant == tenant
  }

  lemma StepRevivesNobody(s: State, e: Event, user: string, tenant: string)
    requires NoneLive(s.sessions, user, tenant) && !LogsIn(e, user, tenant)
    ensures NoneLive(Step(s, e).sessions, user, tenant)
  {
  }

  /** Once none of a user's sessions in a tenant is live, none is until that user logs in there again. */
  lemma {:induction false} NoneLiveUntilLogin(s: State, es: seq<Event>, user: string, tenant: string)
    requires NoneLive(s.sessions, user, tenant)
    requires forall i | 0 <= i < |es| :: !LogsIn(es[i], user, tenant)
    ensures NoneLive(RunAll(s, es).sessions, user, tenant)
    decreases |es|
  {
    hide Step, NoneLive;
    if es != [] {
      StepRevivesNobody(s, es[0], user, tenant);
      NoneLiveUntilLogin(Step(s, es[0]), es[1..], user, tenant);
    }
  }

  /** A request that presents the token of a rotated session is set to report it, expired or not. */
  lemma ReplayIsDetected(s: State, request: string, id: string, now: int, member: bool)
    requires id in s.sessions && s.sessions[id].revoked == Some(Rotated) && request !in s.asks
    ensures var d := Step(s, ReadToRefresh(request, id, s.sessions[id].tokenHash, now, member));
            && request in d.asks && d.asks[request] == Reporting(s.sessions[id].user, s.sessions[id].tenant)
            && d.sessions == s.sessions
  {
  }

  /**
   A replayed token ends everything. From any reachable state in which a refresh has recognised a
   rotated token, its commit leaves that user no live session in that tenant, and no session that
   exists then, nor any successor it will ever have, authenticates again in any later run.
   */
  lemma ReplayEndsEverySession(
      before: seq<Event>, request: string, commit: Event, after: seq<Event>,
      id: string, k: nat, c: Claims, membership: Option<Membership>, now: int)
    requires commit.Commit? && commit.request == request
    requires var s := RunAll(NOBODY, before);
             && request in s.asks && s.asks[request].Reporting?
             && id in s.sessions && Owns(s.sessions[id], s.asks[request].user, s.asks[request].tenant)
    ensures var s := RunAll(NOBODY, before);
            var d := Step(s, commit);
            var t := RunAll(d, after).sessions;
            && NoneLive(d.sessions, s.asks[request].user, s.asks[request].tenant)
            && (Follow(t, id, k).Some? ==>
                  && Ended(d.sessions, t, Follow(t, id, k).value)
                  && (c.session == Follow(t, id, k) ==> !Authenticate(t, c, membership, now)))
  {
    ChainsThroughout(NOBODY, before);
    var s := RunAll(NOBODY, before);
    StepKeepsChains(s, commit);
    EndedForGood(Step(s, commit), after, id, k, c, membership, now);
  }

  lemma AsksStand(s: State, es: seq<Event>, request: string)
    requires request in s.asks && forall i | 0 <= i < |es| :: !(es[i].Commit? && es[i].request == request)
    ensures request in RunAll(s, es).asks && RunAll(s, es).asks[request] == s.asks[request]
    decreases |es|
  {
    if es != [] { AsksStand(Step(s, es[0]), es[1..], request); }
  }

  /**
   The whole story of a replay: whoever presents the token of a rotated session, expired or not, and
   whatever happens before the report commits, that commit leaves no live session of its owner in that
   tenant, and none is live there again before a new login.
   */
  lemma ReplayedTokenEndsEverySession(
      before: seq<Event>, request: string, id: string, now: int, member: bool, between: seq<Event>,
      commit: Event, after: seq<Event>)
    requires var s := RunAll(NOBODY, before);
             && id in s.sessions && s.sessions[id].revoked == Some(Rotated) && request !in s.asks
    requires forall i | 0 <= i < |between| :: !(between[i].Commit? && between[i].request == request)
    requires commit.Commit? && commit.request == request
    requires var s := RunAll(NOBODY, before);
             forall i | 0 <= i < |after| :: !LogsIn(after[i], s.sessions[id].user, s.sessions[id].tenant)
    ensures var s := RunAll(NOBODY, before);
            var read := ReadToRefresh(request, id, s.sessions[id].tokenHash, now, member);
            var d := Step(RunAll(Step(s, read), between), commit);
            NoneLive(RunAll(d, after).sessions, s.sessions[id].user, s.sessions[id].tenant)
  {
    hide RunAll, NoneLive;
    var s := RunAll(NOBODY, before);
    var read := ReadToRefresh(request, id, s.sessions[id].tokenHash, now, member);
    ReplayIsDetected(s, request, id, now, member);
    AsksStand(Step(s, read), between, request);
    var t := RunAll(Step(s, read), between);
    ReportLeavesNone(t, commit);
    NoneLiveUntilLogin(Step(t, commit), after, s.sessions[id].user, s.sessions[id].tenant);
  }

  lemma ReportLeavesNone(s: State, commit: Event)
    requires commit.Commit? && commit.request in s.asks && s.asks[commit.request].Reporting?
    ensures NoneLive(Step(s, commit).sessions, s.asks[commit.request].user, s.asks[commit.request].tenant)
  {
  }

  /** The same holds of logging out everywhere. */
  lemma LogoutAllEndsEverySession(
      before: seq<Event>, user: string, tenant: string, after: seq<Event>,
      id: string, k: nat, c: Claims, membership: Option<Membership>, now: int)
    requires var s := RunAll(NOBODY, before); id in s.sessions && Owns(s.sessions[id], user, tenant)
    ensures var d := Step(RunAll(NOBODY, before), LogoutAll(user, tenant));
            var t := RunAll(d, after).sessions;
            && NoneLive(d.sessions, user, tenant)
            && (Follow(t, id, k).Some? ==>
                  && Ended(d.sessions, t, Follow(t, id, k).value)
                  && (c.session == Follow(t, id, k) ==> !Authenticate(t, c, membership, now)))
  {
    ChainsThroughout(NOBODY, before);
    var s := RunAll(NOBODY, before);
    StepKeepsChains(s, LogoutAll(user, tenant));
    EndedForGood(Step(s, LogoutAll(user, tenant)), after, id, k, c, membership, now);
  }

  // ----- logging in and out of one session -----

  /** This session is this user's in this tenant, and the presented token, if any, is its own. */
  predicate Named(t: Table, user: string, tenant: string, id: string, presented: Option<string>) {
    && id in t && t[id].user == user && t[id].tenant == tenant
    && match presented case None => true case Some(hash) => t[id].tokenHash == hash
  }

  /**
   A logout that names a session ends that one for good, if it is the caller's own and the presented token
   fits: in every later run no token bound to it is accepted. If not, the logout does nothing; and it never
   touches another session.
   */
  lemma LogoutEndsTheSession(
      s: State, user: string, tenant: string, id: string, presented: Option<string>, after: seq<Event>,
      c: Claims, membership: Option<Membership>, now: int)
    ensures var d := Step(s, Logout(user, tenant, Some(id), presented));
            var t := RunAll(d, after).sessions;
            if Named(s.sessions, user, tenant, id, presented)
            then && id in t && t[id].revoked.Some? && (c.session == Some(id) ==> !Authenticate(t, c, membership, now))
                 && forall other | other in s.sessions && other != id ::
                      other in d.sessions && d.sessions[other] == s.sessions[other]
            else d == s
  {
    var d := Step(s, Logout(user, tenant, Some(id), presented));
    RevocationIsPermanent(d, after);
  }

  /** The same of revoking a session by its id. */
  lemma RevokeEndsTheSession(s: State, user: string, tenant: string, id: string, after: seq<Event>,
                             c: Claims, membership: Option<Membership>, now: int)
    ensures var d := Step(s, Revoke(user, tenant, id));
            var t := RunAll(d, after).sessions;
            if Named(s.sessions, user, tenant, id, None)
            then id in t && t[id].revoked.Some? && (c.session == Some(id) ==> !Authenticate(t, c, membership, now))
            else d == s
  {
    var d := Step(s, Revoke(user, tenant, id));
    RevocationIsPermanent(d, after);
  }

  /**
   A login lasts exactly so long: whatever happens after it, a token bound to its session is accepted if and
   only if it names the session's user and tenant, the user is an active member with the token's role, the
   session has not expired, and nothing has revoked it.
   */
  lemma LoginLasts(s: State, login: Event, after: seq<Event>, c: Claims, membership: Option<Membership>, now: int)
    requires login.Login? && c.session == Some(login.id)
    requires login.id !in s.sessions && forall k | k in s.sessions :: s.sessions[k].tokenHash != login.tokenHash
    ensures var t := RunAll(Step(s, login), after).sessions;
            && login.id in t
            && (Authenticate(t, c, membership, now) <==>
                  && c.user == login.user && c.tenant == login.tenant
                  && membership == Some(Membership(c.role, true))
                  && now < login.expiresAt && t[login.id].revoked == None)
  {
    RevocationIsPermanent(Step(s, login), after);
  }

  // ----- the handlers, one at a time -----

  /** All live sessions of this user in this tenant are revoked for this reason, and nothing else changes. */
  predicate AllRevoked(t: Table, u: Table, user: string, tenant: string, reason: RevokedReason) {
    && u.Keys == t.Keys
    && forall id | id in t ::
         u[id] == if t[id].user == user && t[id].tenant == tenant && t[id].revoked == None
                  then t[id].(revoked := Some(reason)) else t[id]
  }

  /** One session is revoked and counted if it is the caller's, live and fits the token; else nothing changes. */
  predicate OneRevoked(t: Table, u: Table, user: string, tenant: string, id: string, presented: Option<string>,
                       reason: RevokedReason, count: nat)
  {
    if Named(t, user, tenant, id, presented) && t[id].revoked == None
    then && count == 1 && u.Keys == t.Keys && u[id] == t[id].(revoked := Some(reason))
         && forall other | other in t && other != id :: u[other] == t[other]
    else count == 0 && u == t
  }

  /**
   A refresh grants a new session, under the keys and the expiry it was given and to the same owner, exactly
   if it presents the token of a live, unexpired session of an active member and both keys are free; the
   old session is then rotated and linked to it. The token of a rotated session revokes all live sessions
   of its owner. Nothing else changes the table.
   */
  predicate Refreshes(t: Table, u: Table, id: string, tokenHash: string, now: int, member: bool,
                      next: string, nextHash: string, expiresAt: int, serial: nat, issued: Option<string>)
  {
    var known := id in t && t[id].tokenHash == tokenHash;
    var granted := && known && t[id].revoked == None && now < t[id].expiresAt && member
                   && next !in t && forall k | k in t :: t[k].tokenHash != nextHash;
    && issued == (if granted then Some(next) else None)
    && if granted
       then && u.Keys == t.Keys + {next}
            && u[next] == Session(t[id].user, t[id].tenant, nextHash, expiresAt, serial, None, None)
            && u[id] == t[id].(revoked := Some(Rotated), replacedBy := Some(next))
            && forall other | other in t && other != id :: u[other] == t[other]
       else if known && t[id].revoked == Some(Rotated)
       then AllRevoked(t, u, t[id].user, t[id].tenant, ReuseDetected)
       else u == t
  }

  /** A whole refresh that nobody interrupts. */
  function RefreshRows(t: Table, id: string, tokenHash: string, now: int, member: bool,
                       next: string, nextHash: string, expiresAt: int, serial: nat): (Table, Option<string>)
  {
    match AfterRead(t, id, tokenHash, now, member)
    case None => (t, None)
    case Some(Reporting(user, tenant)) => (RevokeAll(t, user, tenant, ReuseDetected), None)
    case Some(Rotating(from)) =>
      match Rotate(t, from, next, nextHash, expiresAt, serial)
      case None => (t, None)
      case Some(u) => (u, Some(next))
  }

  /** It is two events of the transition system. */
  lemma RefreshIsARun(s: State, request: string, id: string, tokenHash: string, now: int, member: bool,
                      next: string, nextHash: string, expiresAt: int)
    requires request !in s.asks
    ensures var es := [ReadToRefresh(request, id, tokenHash, now, member), Commit(request, next, nextHash, expiresAt)];
            && RunAll(s, es).asks == s.asks
            && RunAll(s, es).sessions
               == RefreshRows(s.sessions, id, tokenHash, now, member, next, nextHash, expiresAt, s.inserted).0
  {
    var read, commit := ReadToRefresh(request, id, tokenHash, now, member), Commit(request, next, nextHash, expiresAt);
    assert [read, commit][1..] == [commit];
    assert RunAll(s, [read, commit]) == RunAll(Step(s, read), [commit]);
    assert RunAll(Step(s, read), [commit]) == Step(Step(s, read), commit) by { assert [commit][1..] == []; }
    var ask := AfterRead(s.sessions, id, tokenHash, now, member);
    if ask.Some? { assert s.asks[request := ask.value] - {request} == s.asks; }
  }

  lemma RefreshHandsOver(t: Table, id: string, tokenHash: string, now: int, member: bool,
                         next: string, nextHash: string, expiresAt: int, serial: nat)
    ensures var (u, issued) := RefreshRows(t, id, tokenHash, now, member, next, nextHash, expiresAt, serial);
            Refreshes(t, u, id, tokenHash, now, member, next, nextHash, expiresAt, serial, issued)
  {
  }

  class Auth {
    var sessions: Table
    var inserted: nat

    constructor ()
      ensures sessions == map[] && inserted == 0
    {
      sessions, inserted := map[], 0;
    }

    method IssueTokens(id: string, user: string, tenant: string, tokenHash: string, expiresAt: int)
      returns (created: bool)
      modifies this
      ensures created <==>
                id !in old(sessions) && forall k | k in old(sessions) :: old(sessions)[k].tokenHash != tokenHash
      ensures created ==>
                && sessions == old(sessions)[
                     id := Session(user, tenant, tokenHash, expiresAt, old(inserted), None, None)]
                && inserted == old(inserted) + 1
      ensures !created ==> sessions == old(sessions) && inserted == old(inserted)
    {
      if !CanInsert(sessions, id, tokenHash) { return false; }
      sessions := sessions[id := Session(user, tenant, tokenHash, expiresAt, inserted, None, None)];
      inserted := inserted + 1;
      return true;
    }

    method RevokeWhere(user: string, tenant: string, reason: RevokedReason)
      modifies this`sessions
      ensures sessions == RevokeAll(old(sessions), user, tenant, reason)
      ensures AllRevoked(old(sessions), sessions, user, tenant, reason) && NoneLive(sessions, user, tenant)
    {
      sessions := map id | id in sessions ::
        if Owns(sessions[id], user, tenant) && Live(sessions[id])
        then sessions[id].(revoked := Some(reason)) else sessions[id];
    }

    method RevokeSession(user: string, tenant: string, id: string, tokenHash: Option<string>, reason: RevokedReason)
      returns (count: nat)
      modifies this`sessions
      ensures sessions == RevokeOne(old(sessions), user, tenant, id, tokenHash, reason)
      ensures OneRevoked(old(sessions), sessions, user, tenant, id, tokenHash, reason, count)
    {
      if id !in sessions { return 0; }
      var s := sessions[id];
      if !Owns(s, user, tenant) || !Live(s) || (tokenHash.Some? && s.tokenHash != tokenHash.value) { return 0; }
      sessions := sessions[id := s.(revoked := Some(reason))];
      return 1;
    }

    method Logout(user: string, tenant: string, named: Option<string>, presented: Option<string>)
      modifies this`sessions
      ensures sessions == LogoutRows(old(sessions), user, tenant, named, presented)
      ensures match named
              case None => AllRevoked(old(sessions), sessions, user, tenant, LoggedOut)
              case Some(id) =>
                OneRevoked(old(sessions), sessions, user, tenant, id, presented, LoggedOut,
                           if Named(old(sessions), user, tenant, id, presented) && old(sessions)[id].revoked == None
                           then 1 else 0)
    {
      if named.Some? {
        var count := RevokeSession(user, tenant, named.value, presented, LoggedOut);
      } else {
        RevokeWhere(user, tenant, LoggedOut);
      }
    }

    method Refresh(id: string, tokenHash: string, now: int, member: bool, next: string, nextHash: string,
        expiresAt: int)
      returns (issued: Option<string>)
      modifies this
      ensures var (t, r) := RefreshRows(old(sessions), id, tokenHash, now, member, next, nextHash, expiresAt,
              old(inserted));
              sessions == t && issued == r
      ensures Refreshes(old(sessions), sessions, id, tokenHash, now, member, next, nextHash, expiresAt,
                        old(inserted), issued)
    {
      RefreshHandsOver(sessions, id, tokenHash, now, member, next, nextHash, expiresAt, inserted);
      if id !in sessions || sessions[id].tokenHash != tokenHash { return None; }
      var session := sessions[id];
      if session.revoked.Some? {
        if session.revoked.value.Rotated? { RevokeWhere(session.user, session.tenant, ReuseDetected); }
        return None;
      }
      if session.expiresAt <= now || !member { return None; }
      var created := IssueTokens(next, session.user, session.tenant, nextHash, expiresAt);
      if !created { return None; }
      sessions := sessions[id := session.(revoked := Some(Rotated), replacedBy := Some(next))];
      return Some(next);
    }
  }
}
