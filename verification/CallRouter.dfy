/**
 The call router in its own form: one row object whose fields the handlers
 assign. Each handler is proved to reach exactly the value the protocol gives
 it, so every invariant of the protocol is an invariant of these objects.
 */
module CallRouter {
  import opened Common
  import opened CallPermissions
  import opened CallProtocol

  class CallSession {
    const tenantId: Option<Id>
    const initiator: Id
    const startedAt: int
    var status: CallStatus
    var connectedAt: Option<int>
    var endedAt: Option<int>
    var duration: Option<int>
    var legs: map<Id, Leg>
    var invitations: seq<Invitation>
    var events: seq<Event>

    ghost function State(): Call
      reads this
    {
      Call(tenantId, Body(initiator, status, startedAt, connectedAt, endedAt, duration, legs, invitations), events)
    }

    // The rows of a new call: the initiator's leg, then one ringing leg per invitee.
    constructor (tenantId: Option<Id>, user: Id, rows: seq<Id>, now: int)
      ensures State() == RingAll(Opened(tenantId, user, now), user, rows, now)
      ensures fresh(this)
    {
      this.tenantId, initiator, startedAt := tenantId, user, now;
      status, connectedAt, endedAt, duration := Ringing, None, None, None;
      legs := map[user := Leg(Initiator, LegInvited, now, None, None)];
      invitations := [];
      events := [CallCreated(user, now)];
      new;
      for i := 0 to |rows|
        invariant State() == RingAll(Opened(tenantId, user, now), user, rows[..i], now)
      {
        assert rows[..i + 1][..i] == rows[..i];
        legs := legs[rows[i] := Leg(Participant, LegRinging, now, None, None)];
        invitations := invitations + [Invitation(user, rows[i], Pending, None)];
        events := events + [CallRinging(user, rows[i], now)];
      }
      assert rows[..|rows|] == rows;
    }

    method ExpireStaleRinging(env: Environment, user: Id, now: int)
      modifies this
      ensures State() == ExpireStale(env, old(State()), user, now)
    {
      var cutoff := now - env.ringingTimeout;
      if user in legs && status == Ringing && startedAt < cutoff {
        status := Missed;
        endedAt := Some(now);
        events := events + [CallMissed(now)];
      }
    }

    method AnswerInvitations(user: Id, answer: InvitationStatus, now: int)
      modifies this`invitations
      ensures invitations == Respond(old(invitations), user, answer, now)
    {
      invitations := seq(|invitations|, i requires 0 <= i < |invitations| reads this =>
        if invitations[i].invitee == user && invitations[i].status == Pending
        then invitations[i].(status := answer, respondedAt := Some(now))
        else invitations[i]);
    }

    method CreateCallToken(env: Environment, user: Id, livekit: bool, now: int) returns (e: Option<Error>)
      modifies this
      ensures match HandleToken(env, old(State()), user, livekit, now)
              case Ok(c) => e == None && State() == c
              case Err(error) => e == Some(error)
    {
      ExpireStaleRinging(env, user, now);
      if user !in legs { return Some(NotFound); }
      if status !in {Ringing, Accepted} { return Some(NoLongerJoinable); }
      var leg := legs[user];
      if leg.status in {LegDeclined, LegRemoved} { return Some(NoLongerPart); }
      if leg.status != LegJoined {
        legs := legs[user := leg.(status := LegJoined, joinedAt := Some(now))];
        events := events + [ParticipantJoined(user, now)];
        if status == Ringing && leg.role != Initiator {
          status := Accepted;
          connectedAt := Some(now);
          events := events + [CallAccepted(user, now)];
        }
        AnswerInvitations(user, InvitationAccepted, now);
      }
      if !livekit { return Some(TokensNotConfigured); }
      return None;
    }

    method AcceptCall(env: Environment, user: Id, now: int) returns (e: Option<Error>)
      modifies this
      ensures match HandleAccept(env, old(State()), user, now)
              case Ok(c) => e == None && State() == c
              case Err(error) => e == Some(error)
    {
      ExpireStaleRinging(env, user, now);
      if user !in legs { return Some(NotFound); }
      if legs[user].status !in {LegInvited, LegRinging} { return Some(CannotAnswer); }
      if status !in {Ringing, Accepted} { return Some(NotActive); }
      legs := legs[user := legs[user].(status := LegJoined, joinedAt := Some(now))];
      if status == Ringing {
        status := Accepted;
        connectedAt := Some(now);
      }
      events := events + [CallAccepted(user, now)];
      AnswerInvitations(user, InvitationAccepted, now);
      return None;
    }

    method DeclineCall(env: Environment, user: Id, now: int) returns (e: Option<Error>)
      modifies this
      ensures match HandleDecline(env, old(State()), user, now)
              case Ok(c) => e == None && State() == c
              case Err(error) => e == Some(error)
    {
      ExpireStaleRinging(env, user, now);
      if user !in legs { return Some(NotFound); }
      if legs[user].status !in {LegInvited, LegRinging} { return Some(CannotAnswer); }
      legs := legs[user := legs[user].(status := LegDeclined)];
      events := events + [CallDeclined(user, now)];
      AnswerInvitations(user, InvitationDeclined, now);
      if status == Ringing {
        var remaining := |OpenInvitees(legs)|;
        if remaining == 0 {
          status := Declined;
          endedAt := Some(now);
        }
      }
      return None;
    }

    method CancelCall(user: Id, now: int) returns (e: Option<Error>)
      modifies this
      ensures match HandleCancel(old(State()), user, now)
              case Ok(c) => e == None && State() == c
              case Err(error) => e == Some(error)
    {
      if user !in legs { return Some(NotFound); }
      if initiator != user { return Some(NotTheCaller); }
      if status != Ringing { return Some(CannotCancel); }
      status := Cancelled;
      endedAt := Some(now);
      events := events + [CallEnded(user, true, now)];
      return None;
    }

    method EndCall(user: Id, now: int) returns (e: Option<Error>)
      modifies this
      ensures match HandleEnd(old(State()), user, now)
              case Ok(c) => e == None && State() == c
              case Err(error) => e == Some(error)
    {
      if user !in legs { return Some(NotFound); }
      var leg := legs[user];
      if leg.status == LegJoined {
        legs := legs[user := leg.(status := LegLeft, leftAt := Some(now))];
        events := events + [ParticipantLeft(user, now)];
      }
      if !status.Terminal() {
        var stillJoined := |JoinedLegs(legs)|;
        if stillJoined == 0 || leg.role in {Initiator, Moderator} {
          status := Ended;
          endedAt := Some(now);
          if connectedAt.Some? {
            duration := Some(WholeSeconds(now - connectedAt.value));
          }
          events := events + [CallEnded(user, false, now)];
        }
      }
      return None;
    }

    method InviteParticipant(env: Environment, user: Id, target: Id, now: int) returns (e: Option<Error>)
      modifies this
      ensures match HandleInvite(env, old(State()), user, target, now)
              case Ok(c) => e == None && State() == c
              case Err(error) => e == Some(error)
    {
      if user !in legs { return Some(NotFound); }
      if target !in env.profiles { return Some(NotFound); }
      if legs[user].status != LegJoined || !env.MayCall(user, target) { return Some(NotAllowed); }
      if target in legs && legs[target].status.Open() { return Some(AlreadyIn); }
      if target in legs {
        legs := legs[target := legs[target].(status := LegRinging, invitedAt := now, leftAt := None)];
      } else {
        legs := legs[target := Leg(Participant, LegRinging, now, None, None)];
      }
      invitations := invitations + [Invitation(user, target, Pending, None)];
      events := events + [ParticipantInvited(user, target, now)];
      return None;
    }

    method RemoveParticipant(user: Id, subject: Id, now: int) returns (e: Option<Error>)
      modifies this
      ensures match HandleRemove(old(State()), user, subject, now)
              case Ok(c) => e == None && State() == c
              case Err(error) => e == Some(error)
    {
      if user !in legs { return Some(NotFound); }
      if legs[user].role !in {Initiator, Moderator} { return Some(NotModerator); }
      if subject == user { return Some(UseEnd); }
      if subject !in legs { return Some(NotFound); }
      legs := legs[subject := legs[subject].(status := LegRemoved, leftAt := Some(now))];
      events := events + [ParticipantRemoved(user, subject, now)];
      return None;
    }

    // One request inside its own transaction: an error restores every row.
    method Serve(env: Environment, r: Request, now: int) returns (e: Option<Error>)
      modifies this
      ensures State() == After(env, old(State()), r, now)
      ensures e.Some? <==> Handle(env, old(State()), r, now).Err?
    {
      var status0, connectedAt0, endedAt0, duration0 := status, connectedAt, endedAt, duration;
      var legs0, invitations0, events0 := legs, invitations, events;
      e := None;
      match r {
        case Touch(user) => ExpireStaleRinging(env, user, now);
        case Token(user, livekit) => e := CreateCallToken(env, user, livekit, now);
        case Accept(user) => e := AcceptCall(env, user, now);
        case Decline(user) => e := DeclineCall(env, user, now);
        case Cancel(user) => e := CancelCall(user, now);
        case End(user) => e := EndCall(user, now);
        case Invite(user, target) => e := InviteParticipant(env, user, target, now);
        case Remove(user, subject) => e := RemoveParticipant(user, subject, now);
      }
      if e.Some? {
        status, connectedAt, endedAt, duration := status0, connectedAt0, endedAt0, duration0;
        legs, invitations, events := legs0, invitations0, events0;
      }
    }
  }

  // Start a call, or say why not.
  method CreateCall(env: Environment, user: Id, payload: seq<Id>, rows: seq<Id>, now: int)
    returns (call: CallSession?, e: Option<Error>)
    requires user in env.profiles && RowsFor(env, InviteeIds(user, payload), rows)
    ensures match Create(env, user, payload, rows, now)
            case Ok(c) => e == None && call != null && fresh(call) && call.State() == c
            case Err(error) => e == Some(error) && call == null
  {
    var ids := InviteeIds(user, payload);
    if ids == {} { return null, Some(NoInvitees); }
    if |rows| != |ids| { return null, Some(UnknownInvitee); }
    for i := 0 to |rows|
      invariant forall j :: 0 <= j < i ==> env.MayCall(user, rows[j])
    {
      if !env.MayCall(user, rows[i]) {
        return null, Some(NotAllowed);
      }
    }
    if |CompanyTenants(env, user, rows)| > 1 { return null, Some(ManyCompanies); }
    call := new CallSession(ResolveTenant(env, user, rows), user, rows, now);
    return call, None;
  }
}
