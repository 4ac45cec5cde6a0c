/**
 The append-only event log of a call is a complete record of it: folding the
 log from nothing rebuilds every field of every row (`LogRebuildsTheCall`),
 at every point of every run.
 */
module CallLog {
  import opened Common
  import opened CallPermissions
  import opened CallProtocol

  const BLANK: Body := Body(0, Failed, 0, None, None, None, map[], [])

  function Joined(b: Body, p: Id, at: int): Body {
    if p !in b.legs then b
    else b.(legs := b.legs[p := b.legs[p].(status := LegJoined, joinedAt := Some(at))],
            invitations := Respond(b.invitations, p, InvitationAccepted, at))
  }

  function Apply(b: Body, e: Event): Body {
    match e
    case CallCreated(actor, at) =>
      Body(actor, Ringing, at, None, None, None, map[actor := Leg(Initiator, LegInvited, at, None, None)], [])
    case CallRinging(actor, invitee, at) =>
      b.(legs := b.legs[invitee := Leg(Participant, LegRinging, at, None, None)],
         invitations := b.invitations + [Invitation(actor, invitee, Pending, None)])
    case ParticipantJoined(actor, at) =>
      Joined(b, actor, at)
    case CallAccepted(actor, at) =>
      var j := Joined(b, actor, at);
      if b.status == Ringing then j.(status := Accepted, connectedAt := Some(at)) else j
    case CallDeclined(actor, at) =>
      if actor !in b.legs then b
      else
        var d := b.(legs := b.legs[actor := b.legs[actor].(status := LegDeclined)],
                    invitations := Respond(b.invitations, actor, InvitationDeclined, at));
        if b.status == Ringing && OpenInvitees(d.legs) == {} then d.(status := Declined, endedAt := Some(at)) else d
    case CallMissed(at) =>
      b.(status := Missed, endedAt := Some(at))
    case ParticipantInvited(actor, invitee, at) =>
      b.(legs := b.legs[invitee := InvitedLeg(b.legs, invitee, at)],
         invitations := b.invitations + [Invitation(actor, invitee, Pending, None)])
    case ParticipantLeft(actor, at) =>
      if actor !in b.legs then b
      else b.(legs := b.legs[actor := b.legs[actor].(status := LegLeft, leftAt := Some(at))])
    case ParticipantRemoved(_, subject, at) =>
      if subject !in b.legs then b
      else b.(legs := b.legs[subject := b.legs[subject].(status := LegRemoved, leftAt := Some(at))])
    case CallEnded(_, cancelled, at) =>
      if cancelled then b.(status := Cancelled, endedAt := Some(at))
      else b.(status := Ended, endedAt := Some(at),
              duration := if b.connectedAt.Some? then Some(WholeSeconds(at - b.connectedAt.value)) else b.duration)
  }

  function Replay(events: seq<Event>): Body {
    if events == [] then BLANK else Apply(Replay(events[..|events| - 1]), events[|events| - 1])
  }

  predicate Faithful(c: Call) {
    Replay(c.events) == c.body
  }

  lemma ReplayOne(events: seq<Event>, e: Event)
    ensures Replay(events + [e]) == Apply(Replay(events), e)
  {
    assert (events + [e])[..|events|] == events;
  }

  // Answering a second time at the same instant finds nothing left to answer.
  lemma RespondIsIdempotent(invitations: seq<Invitation>, p: Id, answer: InvitationStatus, at: int)
    requires answer != Pending
    ensures var once := Respond(invitations, p, answer, at); Respond(once, p, answer, at) == once
  {
    var once := Respond(invitations, p, answer, at);
    var twice := Respond(once, p, answer, at);
    assert forall i :: 0 <= i < |once| ==> twice[i] == once[i];
  }

  lemma {:induction false} CreatedIsFaithful(tenantId: Option<Id>, user: Id, rows: seq<Id>, now: int)
    ensures Faithful(RingAll(Opened(tenantId, user, now), user, rows, now))
  {
    if rows == [] {
      ReplayOne([], CallCreated(user, now));
      assert [] + [CallCreated(user, now)] == [CallCreated(user, now)];
    } else {
      var before := RingAll(Opened(tenantId, user, now), user, rows[..|rows| - 1], now);
      CreatedIsFaithful(tenantId, user, rows[..|rows| - 1], now);
      ReplayOne(before.events, CallRinging(user, rows[|rows| - 1], now));
    }
  }

  lemma ExpiryIsFaithful(env: Environment, c: Call, user: Id, now: int)
    requires Faithful(c)
    ensures Faithful(ExpireStale(env, c, user, now))
  {
    ReplayOne(c.events, CallMissed(now));
  }

  lemma JoinIsFaithful(c: Call, user: Id, now: int)
    requires Faithful(c) && user in c.body.legs
    ensures Faithful(TokenJoin(c, user, now))
  {
    var joined := c.events + [ParticipantJoined(user, now)];
    ReplayOne(c.events, ParticipantJoined(user, now));
    if c.body.status == Ringing && c.body.legs[user].role != Initiator {
      ReplayOne(joined, CallAccepted(user, now));
      RespondIsIdempotent(c.body.invitations, user, InvitationAccepted, now);
      var leg := c.body.legs[user].(status := LegJoined, joinedAt := Some(now));
      assert c.body.legs[user := leg][user := leg] == c.body.legs[user := leg];
    } else {
      assert joined + [] == joined;
    }
  }

  lemma EndIsFaithful(c: Call, user: Id, now: int)
    requires Faithful(c) && user in c.body.legs
    ensures Faithful(HandleEnd(c, user, now).value)
  {
    ReplayOne(c.events, ParticipantLeft(user, now));
    var left := Leave(c, user, now);
    assert Faithful(left);
    ReplayOne(left.events, CallEnded(user, false, now));
  }

  lemma AcceptIsFaithful(env: Environment, c: Call, user: Id, now: int)
    requires Faithful(c) && HandleAccept(env, c, user, now).Ok?
    ensures Faithful(HandleAccept(env, c, user, now).value)
  {
    ExpiryIsFaithful(env, c, user, now);
    ReplayOne(ExpireStale(env, c, user, now).events, CallAccepted(user, now));
  }

  lemma DeclineIsFaithful(env: Environment, c: Call, user: Id, now: int)
    requires Faithful(c) && HandleDecline(env, c, user, now).Ok?
    ensures Faithful(HandleDecline(env, c, user, now).value)
  {
    ExpiryIsFaithful(env, c, user, now);
    ReplayOne(ExpireStale(env, c, user, now).events, CallDeclined(user, now));
  }

  lemma TokenIsFaithful(env: Environment, c: Call, user: Id, livekit: bool, now: int)
    requires Faithful(c) && HandleToken(env, c, user, livekit, now).Ok?
    ensures Faithful(HandleToken(env, c, user, livekit, now).value)
  {
    ExpiryIsFaithful(env, c, user, now);
    JoinIsFaithful(ExpireStale(env, c, user, now), user, now);
  }

  lemma CancelIsFaithful(c: Call, user: Id, now: int)
    requires Faithful(c) && HandleCancel(c, user, now).Ok?
    ensures Faithful(HandleCancel(c, user, now).value)
  {
    ReplayOne(c.events, CallEnded(user, true, now));
  }

  lemma InviteIsFaithful(env: Environment, c: Call, user: Id, target: Id, now: int)
    requires Faithful(c) && HandleInvite(env, c, user, target, now).Ok?
    ensures Faithful(HandleInvite(env, c, user, target, now).value)
  {
    ReplayOne(c.events, ParticipantInvited(user, target, now));
  }

  lemma RemoveIsFaithful(c: Call, user: Id, subject: Id, now: int)
    requires Faithful(c) && HandleRemove(c, user, subject, now).Ok?
    ensures Faithful(HandleRemove(c, user, subject, now).value)
  {
    ReplayOne(c.events, ParticipantRemoved(user, subject, now));
  }

  lemma StepIsFaithful(env: Environment, c: Call, r: Request, now: int)
    requires Faithful(c)
    ensures Faithful(After(env, c, r, now))
  {
    if Handle(env, c, r, now).Ok? {
      match r
      case Touch(user) => ExpiryIsFaithful(env, c, user, now);
      case Token(user, livekit) => TokenIsFaithful(env, c, user, livekit, now);
      case Accept(user) => AcceptIsFaithful(env, c, user, now);
      case Decline(user) => DeclineIsFaithful(env, c, user, now);
      case Cancel(user) => CancelIsFaithful(c, user, now);
      case End(user) => EndIsFaithful(c, user, now);
      case Invite(user, target) => InviteIsFaithful(env, c, user, target, now);
      case Remove(user, subject) => RemoveIsFaithful(c, user, subject, now);
    }
  }

  lemma {:induction false} RunIsFaithful(env: Environment, c: Call, rs: seq<Timed>)
    requires Faithful(c)
    ensures Faithful(Run(env, c, rs))
    decreases |rs|
  {
    if rs != [] {
      StepIsFaithful(env, c, rs[0].request, rs[0].at);
      RunIsFaithful(env, After(env, c, rs[0].request, rs[0].at), rs[1..]);
    }
  }

  lemma LogRebuildsTheCall(env: Environment, user: Id, payload: seq<Id>, rows: seq<Id>, at: int, rs: seq<Timed>)
    requires user in env.profiles && forall p <- rows :: p in env.profiles
    requires Create(env, user, payload, rows, at).Ok?
    ensures var c := Run(env, Create(env, user, payload, rows, at).value, rs);
            Replay(c.events) == c.body
  {
    CreatedIsFaithful(ResolveTenant(env, user, rows), user, rows, at);
    RunIsFaithful(env, Create(env, user, payload, rows, at).value, rs);
  }

  // Nothing ever rewrites the log: each request appends at most two events.
  lemma StepAppends(env: Environment, c: Call, r: Request, now: int)
    ensures var c' := After(env, c, r, now);
            c.events <= c'.events && |c'.events| <= |c.events| + 2
  {
  }

  lemma {:induction false} RunAppends(env: Environment, c: Call, rs: seq<Timed>)
    ensures c.events <= Run(env, c, rs).events
    decreases |rs|
  {
    if rs != [] {
      StepAppends(env, c, rs[0].request, rs[0].at);
      RunAppends(env, After(env, c, rs[0].request, rs[0].at), rs[1..]);
    }
  }
}
