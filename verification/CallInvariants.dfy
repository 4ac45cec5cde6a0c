/**
 What every reachable call satisfies, whatever requests arrive in whatever
 order: its lifecycle and timestamps, the fit between legs and invitations, and
 who can have been brought in.
 */
module CallInvariants {
  import opened Common
  import opened CallPermissions
  import opened CallProtocol

  // --- lifecycle and timestamps -------------------------------------------

  predicate HasAccept(events: seq<Event>) {
    exists i :: 0 <= i < |events| && events[i].CallAccepted?
  }

  ghost predicate Lifecycle(env: Environment, c: Call, clock: int) {
    var b := c.body;
    && b.startedAt <= clock
    && b.status != Failed
    && (b.endedAt.Some? <==> b.status.Terminal())
    && (b.connectedAt.Some? <==> HasAccept(c.events))
    && (b.connectedAt.Some? ==> b.status in {Accepted, Ended})
    && (b.status == Accepted ==> b.connectedAt.Some?)
    && (b.connectedAt.Some? ==> b.startedAt <= b.connectedAt.value <= clock)
    && (b.connectedAt.Some? ==> b.connectedAt.value <= b.startedAt + env.ringingTimeout)
    && (b.endedAt.Some? ==> b.startedAt <= b.endedAt.value <= clock)
    && (b.connectedAt.Some? && b.endedAt.Some? ==> b.connectedAt.value <= b.endedAt.value)
    && b.duration == (if b.connectedAt.Some? && b.status == Ended
                      then Some((b.endedAt.value - b.connectedAt.value) / MICROS) else None)
  }

  // --- legs and invitations -----------------------------------------------

  ghost predicate PendingFor(c: Call, p: Id) {
    exists i :: 0 <= i < |c.body.invitations| && c.body.invitations[i].invitee == p &&
                c.body.invitations[i].status == Pending
  }

  // The call belongs to one initiator, and nobody else ever gets a special role.
  ghost predicate Roster(c: Call) {
    && c.body.initiator in c.body.legs
    && (forall p <- c.body.legs :: c.body.legs[p].role == if p == c.body.initiator then Initiator else Participant)
    && c.body.legs[c.body.initiator].status != LegRemoved
  }

  ghost predicate Invitations(c: Call) {
    && (forall p <- c.body.legs :: c.body.legs[p].status == LegRinging ==> PendingFor(c, p))
    && (forall i :: 0 <= i < |c.body.invitations| && c.body.invitations[i].status == Pending ==>
                      var p := c.body.invitations[i].invitee;
                      p in c.body.legs && c.body.legs[p].status in {LegRinging, LegRemoved})
  }

  // Until somebody accepts, no invitee has ever been in the room.
  ghost predicate Unanswered(c: Call) {
    c.body.connectedAt.None? ==>
      forall p <- c.body.legs :: p != c.body.initiator ==>
                                   c.body.legs[p].joinedAt.None? &&
                                   c.body.legs[p].status in {LegRinging, LegDeclined, LegRemoved}
  }

  // --- who is in the call -------------------------------------------------

  ghost predicate Chain(env: Environment, c: Call, path: seq<Id>, last: Id) {
    && path != [] && path[0] == c.body.initiator && path[|path| - 1] == last
    && (forall i :: 0 <= i < |path| ==> path[i] in c.body.legs)
    && (forall i :: 0 < i < |path| ==> env.MayCall(path[i - 1], path[i]))
  }

  ghost predicate Linked(env: Environment, c: Call) {
    && c.body.initiator in c.body.legs
    && (forall p <- c.body.legs :: p in env.profiles)
    && (forall p <- c.body.legs :: exists path :: Chain(env, c, path, p))
  }

  ghost predicate Scoped(env: Environment, c: Call) {
    c.body.initiator in env.profiles &&
    (!env.Platform(c.body.initiator) ==> c.tenantId == env.profiles[c.body.initiator].tenantId)
  }

  ghost predicate OneTenant(env: Environment, c: Call) {
    forall p <- c.body.legs :: p in env.profiles && (!env.profiles[p].superadmin ==> env.profiles[p].tenantId == c.tenantId)
  }

  ghost predicate NoPlatform(env: Environment, c: Call) {
    forall p <- c.body.legs :: !env.Platform(p)
  }

  // --- every step keeps them ----------------------------------------------

  lemma AcceptAppended(events: seq<Event>, e: Event)
    ensures HasAccept(events + [e]) <==> HasAccept(events) || e.CallAccepted?
  {
    var more := events + [e];
    if HasAccept(events) {
      var i :| 0 <= i < |events| && events[i].CallAccepted?;
      assert more[i].CallAccepted?;
    }
    assert more[|events|] == e;
  }

  lemma StepAndAcceptance(env: Environment, c: Call, r: Request, now: int)
    ensures var c' := After(env, c, r, now);
            HasAccept(c'.events) <==>
              HasAccept(c.events) || (r.Accept? && Handle(env, c, r, now).Ok?)
              || (r.Token? && c.body.status == Ringing && c'.body.status == Accepted)
  {
    if Handle(env, c, r, now).Ok? {
      AcceptAppended(c.events, CallMissed(now));
      var e := ExpireStale(env, c, r.user, now);
      match r
      case Touch(_) =>
      case Token(user, _) =>
        AcceptAppended(e.events, ParticipantJoined(user, now));
        AcceptAppended(e.events + [ParticipantJoined(user, now)], CallAccepted(user, now));
        assert e.events + [ParticipantJoined(user, now)] + [] == e.events + [ParticipantJoined(user, now)];
      case Accept(user) => AcceptAppended(e.events, CallAccepted(user, now));
      case Decline(user) => AcceptAppended(e.events, CallDeclined(user, now));
      case Cancel(user) => AcceptAppended(c.events, CallEnded(user, true, now));
      case End(user) =>
        AcceptAppended(c.events, ParticipantLeft(user, now));
        AcceptAppended(Leave(c, user, now).events, CallEnded(user, false, now));
      case Invite(user, target) => AcceptAppended(c.events, ParticipantInvited(user, target, now));
      case Remove(user, subject) => AcceptAppended(c.events, ParticipantRemoved(user, subject, now));
    }
  }

  lemma StepKeepsLifecycle(env: Environment, c: Call, r: Request, clock: int, now: int)
    requires Lifecycle(env, c, clock) && clock <= now
    ensures Lifecycle(env, After(env, c, r, now), now)
  {
    StepAndAcceptance(env, c, r, now);
  }

  lemma StepKeepsRoster(env: Environment, c: Call, r: Request, now: int)
    requires Roster(c)
    ensures Roster(After(env, c, r, now))
  {
  }

  // Joining or declining: the leg settles and its pending invitations are answered.
  lemma AnswerKeepsInvitations(c: Call, c': Call, p: Id, leg: Leg, answer: InvitationStatus, now: int)
    requires Invitations(c) && answer != Pending && p in c.body.legs
    requires leg.status != LegRinging
    requires c'.body.legs == c.body.legs[p := leg]
    requires c'.body.invitations == Respond(c.body.invitations, p, answer, now)
    ensures Invitations(c')
  {
    forall q | q in c'.body.legs && c'.body.legs[q].status == LegRinging
      ensures PendingFor(c', q)
    {
      var i :| 0 <= i < |c.body.invitations| && c.body.invitations[i].invitee == q && c.body.invitations[i].status == Pending;
      assert c'.body.invitations[i] == c.body.invitations[i];
    }
  }

  lemma InviteKeepsInvitations(env: Environment, c: Call, user: Id, target: Id, now: int)
    requires Invitations(c) && HandleInvite(env, c, user, target, now).Ok?
    ensures Invitations(HandleInvite(env, c, user, target, now).value)
  {
    var c' := HandleInvite(env, c, user, target, now).value;
    forall q | q in c'.body.legs && c'.body.legs[q].status == LegRinging
      ensures PendingFor(c', q)
    {
      if q == target {
        assert c'.body.invitations[|c.body.invitations|].invitee == q;
      } else {
        var i :| 0 <= i < |c.body.invitations| && c.body.invitations[i].invitee == q && c.body.invitations[i].status == Pending;
        assert c'.body.invitations[i] == c.body.invitations[i];
      }
    }
  }

  // Leaving or being removed touches no invitation.
  lemma ExitKeepsInvitations(c: Call, c': Call, p: Id, leg: Leg)
    requires Invitations(c) && p in c.body.legs
    requires leg.status == LegRemoved || (leg.status == LegLeft && c.body.legs[p].status == LegJoined)
    requires c'.body.legs == c.body.legs[p := leg] && c'.body.invitations == c.body.invitations
    ensures Invitations(c')
  {
    forall q | q in c'.body.legs && c'.body.legs[q].status == LegRinging
      ensures PendingFor(c', q)
    {
      assert PendingFor(c, q);
    }
  }

  lemma StepKeepsInvitations(env: Environment, c: Call, r: Request, now: int)
    requires Invitations(c)
    ensures Invitations(After(env, c, r, now))
  {
    var h := Handle(env, c, r, now);
    if h.Ok? {
      var c' := h.value;
      match r
      case Token(user, _) =>
        if c.body.legs[user].status != LegJoined {
          AnswerKeepsInvitations(c, c', user, c'.body.legs[user], InvitationAccepted, now);
        }
      case Accept(user) => AnswerKeepsInvitations(c, c', user, c'.body.legs[user], InvitationAccepted, now);
      case Decline(user) => AnswerKeepsInvitations(c, c', user, c'.body.legs[user], InvitationDeclined, now);
      case Invite(user, target) => InviteKeepsInvitations(env, c, user, target, now);
      case End(user) =>
        if c.body.legs[user].status == LegJoined {
          ExitKeepsInvitations(c, c', user, c'.body.legs[user]);
        }
      case Remove(_, subject) => ExitKeepsInvitations(c, c', subject, c'.body.legs[subject]);
      case _ =>
    }
  }

  lemma StepKeepsUnanswered(env: Environment, c: Call, r: Request, clock: int, now: int)
    requires Unanswered(c) && Roster(c) && Lifecycle(env, c, clock)
    ensures Unanswered(After(env, c, r, now))
  {
  }

  // --- who is in the call -------------------------------------------------

  lemma EdgeExtendsLinks(env: Environment, c: Call, c': Call, caller: Id, target: Id)
    requires Linked(env, c) && caller in c.body.legs && env.MayCall(caller, target)
    requires c'.body.initiator == c.body.initiator && c'.body.legs.Keys == c.body.legs.Keys + {target}
    ensures Linked(env, c')
  {
    forall p | p in c'.body.legs
      ensures exists path :: Chain(env, c', path, p)
    {
      if p in c.body.legs {
        var path :| Chain(env, c, path, p);
        assert Chain(env, c', path, p);
      } else {
        var path :| Chain(env, c, path, caller);
        assert Chain(env, c', path + [target], target);
      }
    }
  }

  lemma SameRosterSameLinks(env: Environment, c: Call, c': Call)
    requires Linked(env, c)
    requires c'.body.initiator == c.body.initiator && c'.body.legs.Keys == c.body.legs.Keys
    ensures Linked(env, c')
  {
    forall p | p in c'.body.legs
      ensures exists path :: Chain(env, c', path, p)
    {
      var path :| Chain(env, c, path, p);
      assert Chain(env, c', path, p);
    }
  }

  lemma StepKeepsLinks(env: Environment, c: Call, r: Request, now: int)
    requires Linked(env, c)
    ensures Linked(env, After(env, c, r, now))
  {
    var c' := After(env, c, r, now);
    if r.Invite? && Handle(env, c, r, now).Ok? {
      EdgeExtendsLinks(env, c, c', r.user, r.target);
    } else {
      assert c'.body.legs.Keys == c.body.legs.Keys;
      SameRosterSameLinks(env, c, c');
    }
  }

  lemma StepKeepsScope(env: Environment, c: Call, r: Request, now: int)
    requires Scoped(env, c)
    ensures Scoped(env, After(env, c, r, now))
  {
  }

  lemma {:induction false} ChainStaysInCompany(env: Environment, c: Call, path: seq<Id>, last: Id, tenant: Option<Id>)
    requires Chain(env, c, path, last) && Linked(env, c) && NoPlatform(env, c)
    requires env.profiles[c.body.initiator].tenantId == tenant
    ensures env.profiles[last].tenantId == tenant
    decreases |path|
  {
    if |path| > 1 {
      var before := path[|path| - 2];
      ChainStaysInCompany(env, c, path[..|path| - 1], before, tenant);
      EdgeStaysInFirm(env.clients, env.profiles[before], env.profiles[last]);
    }
  }

  lemma OneCompanyWithoutPlatform(env: Environment, c: Call)
    requires Linked(env, c) && Scoped(env, c) && NoPlatform(env, c)
    ensures OneTenant(env, c)
  {
    forall p | p in c.body.legs
      ensures env.profiles[p].tenantId == c.tenantId
    {
      var path :| Chain(env, c, path, p);
      ChainStaysInCompany(env, c, path, p, c.tenantId);
    }
  }

  // --- reachable calls ----------------------------------------------------

  ghost predicate Good(env: Environment, c: Call, clock: int) {
    && Lifecycle(env, c, clock)
    && Roster(c)
    && Invitations(c)
    && Unanswered(c)
    && Linked(env, c)
    && Scoped(env, c)
  }

  lemma RingKeepsInvitations(c: Call, user: Id, target: Id, now: int)
    requires Invitations(c) && target !in c.body.legs
    ensures Invitations(Ring(c, user, target, now))
  {
    var c' := Ring(c, user, target, now);
    forall q | q in c'.body.legs && c'.body.legs[q].status == LegRinging
      ensures PendingFor(c', q)
    {
      if q == target {
        assert c'.body.invitations[|c.body.invitations|].invitee == q;
      } else {
        var i :| 0 <= i < |c.body.invitations| && c.body.invitations[i].invitee == q && c.body.invitations[i].status == Pending;
        assert c'.body.invitations[i] == c.body.invitations[i];
      }
    }
  }

  lemma RingIsGood(env: Environment, c: Call, user: Id, target: Id, now: int)
    requires Good(env, c, now) && c.body.status == Ringing && c.body.initiator == user
    requires target !in c.body.legs && env.MayCall(user, target)
    ensures Good(env, Ring(c, user, target, now), now)
  {
    var c' := Ring(c, user, target, now);
    AcceptAppended(c.events, CallRinging(user, target, now));
    EdgeExtendsLinks(env, c, c', user, target);
    RingKeepsInvitations(c, user, target, now);
  }

  lemma OpenedIsGood(env: Environment, tenantId: Option<Id>, user: Id, now: int)
    requires user in env.profiles
    requires !env.profiles[user].superadmin ==> tenantId == env.profiles[user].tenantId
    ensures Good(env, Opened(tenantId, user, now), now)
  {
    var c := Opened(tenantId, user, now);
    assert Chain(env, c, [user], user);
  }

  // A new call of `user`, ringing `others`.
  ghost predicate RingsFor(env: Environment, c: Call, user: Id, tenantId: Option<Id>, others: set<Id>, now: int) {
    && Good(env, c, now) && c.body.status == Ringing && c.body.initiator == user
    && c.body.legs.Keys == {user} + others && c.tenantId == tenantId
  }

  lemma RingOneMore(env: Environment, c: Call, user: Id, tenantId: Option<Id>, others: set<Id>, target: Id, now: int)
    requires RingsFor(env, c, user, tenantId, others, now)
    requires target !in {user} + others && env.MayCall(user, target)
    ensures RingsFor(env, Ring(c, user, target, now), user, tenantId, others + {target}, now)
  {
    RingIsGood(env, c, user, target, now);
  }

  function Elements(rows: seq<Id>): set<Id> {
    set p | p in rows
  }

  lemma {:induction false} OpenedThenRungIsGood(env: Environment, tenantId: Option<Id>, user: Id, rows: seq<Id>, now: int)
    requires user in env.profiles && (!env.profiles[user].superadmin ==> tenantId == env.profiles[user].tenantId)
    requires forall i, j :: 0 <= i < j < |rows| ==> rows[i] != rows[j]
    requires forall p <- rows :: p != user && env.MayCall(user, p)
    ensures RingsFor(env, RingAll(Opened(tenantId, user, now), user, rows, now), user, tenantId, Elements(rows), now)
  {
    if rows == [] {
      OpenedIsGood(env, tenantId, user, now);
    } else {
      var rest, last := rows[..|rows| - 1], rows[|rows| - 1];
      OpenedThenRungIsGood(env, tenantId, user, rest, now);
      assert rows == rest + [last];
      assert Elements(rows) == Elements(rest) + {last};
      RingOneMore(env, RingAll(Opened(tenantId, user, now), user, rest, now), user, tenantId, Elements(rest), last, now);
    }
  }

  lemma {:induction false} DistinctRows(rows: seq<Id>)
    requires forall i, j :: 0 <= i < j < |rows| ==> rows[i] != rows[j]
    ensures |Elements(rows)| == |rows|
  {
    if rows == [] {
      assert Elements(rows) == {};
    } else {
      DistinctRows(rows[1..]);
      assert rows[0] !in rows[1..];
      assert Elements(rows) == Elements(rows[1..]) + {rows[0]};
    }
  }

  lemma Subset<T>(a: set<T>, b: set<T>)
    requires a <= b
    ensures |a| <= |b|
  {
    assert b == a + (b - a);
  }

  lemma SmallSetIsUniform<T>(s: set<T>, x: T, y: T)
    requires |s| <= 1 && x in s && y in s
    ensures x == y
  {
    Subset({x, y}, s);
  }

  // As many rows as identifiers: every requested invitee was found.
  lemma RowsCover(env: Environment, ids: set<Id>, rows: seq<Id>)
    requires RowsFor(env, ids, rows) && |rows| == |ids|
    ensures Elements(rows) == ids
  {
    var found := Elements(rows);
    DistinctRows(rows);
    var missing := ids - found;
    if missing != {} {
      var p :| p in missing;
      assert found <= ids - {p};
      Subset(found, ids - {p});
    }
    assert forall p <- ids :: p in missing || p in found;
  }

  lemma CreateChecks(env: Environment, user: Id, payload: seq<Id>, rows: seq<Id>, now: int)
    requires user in env.profiles && RowsFor(env, InviteeIds(user, payload), rows)
    requires Create(env, user, payload, rows, now).Ok?
    ensures Create(env, user, payload, rows, now).value ==
              RingAll(Opened(ResolveTenant(env, user, rows), user, now), user, rows, now)
    ensures forall p <- rows :: p != user && env.MayCall(user, p)
    ensures Elements(rows) == InviteeIds(user, payload)
  {
    RowsCover(env, InviteeIds(user, payload), rows);
  }

  lemma CreatedIsGood(env: Environment, user: Id, payload: seq<Id>, rows: seq<Id>, now: int)
    requires user in env.profiles && RowsFor(env, InviteeIds(user, payload), rows)
    requires Create(env, user, payload, rows, now).Ok?
    ensures var c := Create(env, user, payload, rows, now).value;
            Good(env, c, now) && c.body.status == Ringing && c.body.legs.Keys == InviteeIds(user, payload) + {user}
  {
    CreateChecks(env, user, payload, rows, now);
    OpenedThenRungIsGood(env, ResolveTenant(env, user, rows), user, rows, now);
  }

  function Clock(at: int, rs: seq<Timed>): int {
    if rs == [] then at else rs[|rs| - 1].at
  }

  lemma StepKeepsGood(env: Environment, c: Call, r: Request, clock: int, now: int)
    requires Good(env, c, clock) && clock <= now
    ensures Good(env, After(env, c, r, now), now)
  {
    StepKeepsLifecycle(env, c, r, clock, now);
    StepKeepsRoster(env, c, r, now);
    StepKeepsInvitations(env, c, r, now);
    StepKeepsUnanswered(env, c, r, clock, now);
    StepKeepsLinks(env, c, r, now);
    StepKeepsScope(env, c, r, now);
  }

  lemma {:induction false} RunKeepsGood(env: Environment, c: Call, clock: int, rs: seq<Timed>)
    requires Good(env, c, clock) && InOrder(clock, rs)
    ensures Good(env, Run(env, c, rs), Clock(clock, rs))
    decreases |rs|
  {
    if rs != [] {
      StepKeepsGood(env, c, rs[0].request, clock, rs[0].at);
      RunKeepsGood(env, After(env, c, rs[0].request, rs[0].at), rs[0].at, rs[1..]);
    }
  }

  lemma EveryReachableCallIsGood(
      env: Environment, user: Id, payload: seq<Id>, rows: seq<Id>, at: int, rs: seq<Timed>)
    requires user in env.profiles && RowsFor(env, InviteeIds(user, payload), rows)
    requires Create(env, user, payload, rows, at).Ok? && InOrder(at, rs)
    ensures var c := Run(env, Create(env, user, payload, rows, at).value, rs);
            Good(env, c, Clock(at, rs)) && (NoPlatform(env, c) ==> OneTenant(env, c))
  {
    CreatedIsGood(env, user, payload, rows, at);
    var c0 := Create(env, user, payload, rows, at).value;
    RunKeepsGood(env, c0, at, rs);
    var c := Run(env, c0, rs);
    if NoPlatform(env, c) {
      OneCompanyWithoutPlatform(env, c);
    }
  }

  lemma {:induction false} TerminalIsForever(env: Environment, c: Call, rs: seq<Timed>)
    requires c.body.status.Terminal()
    ensures var b := Run(env, c, rs).body;
            b.status == c.body.status && b.connectedAt == c.body.connectedAt &&
            b.endedAt == c.body.endedAt && b.duration == c.body.duration
    decreases |rs|
  {
    if rs != [] {
      TerminalIsForever(env, After(env, c, rs[0].request, rs[0].at), rs[1..]);
    }
  }
}
