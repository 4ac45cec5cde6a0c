/**
 One call session of backend/app/routers/calls.py as a value, and what each
 request does to it. Time is a count of microseconds; a request reads the clock
 once. A request that ends in an error changes nothing, because the session
 dependency rolls the transaction back.
 */
module CallProtocol {
  import opened Common
  import opened CallPermissions

  datatype CallStatus = Ringing | Accepted | Declined | Missed | Cancelled | Ended | Failed
  {
    predicate Terminal() {
      this in {Ended, Cancelled, Declined, Missed, Failed}
    }
  }

  datatype LegRole = Initiator | Participant | Moderator

  datatype LegStatus = LegInvited | LegRinging | LegJoined | LegDeclined | LegLeft | LegRemoved
  {
    predicate Open() {
      this in {LegInvited, LegRinging, LegJoined}
    }
  }

  datatype Leg = Leg(role: LegRole, status: LegStatus, invitedAt: int, joinedAt: Option<int>, leftAt: Option<int>)

  datatype InvitationStatus = Pending | InvitationAccepted | InvitationDeclined

  datatype Invitation = Invitation(inviter: Id, invitee: Id, status: InvitationStatus, respondedAt: Option<int>)

  datatype Event =
    | CallCreated(actor: Id, at: int)
    | CallRinging(actor: Id, invitee: Id, at: int)
    | CallAccepted(actor: Id, at: int)
    | CallDeclined(actor: Id, at: int)
    | CallMissed(at: int)
    | ParticipantInvited(actor: Id, invitee: Id, at: int)
    | ParticipantJoined(actor: Id, at: int)
    | ParticipantLeft(actor: Id, at: int)
    | ParticipantRemoved(actor: Id, subject: Id, at: int)
    | CallEnded(actor: Id, cancelled: bool, at: int)

  // Everything the call's rows hold, apart from its tenant and its event log.
  datatype Body = Body(
    initiator: Id,
    status: CallStatus,
    startedAt: int,
    connectedAt: Option<int>,
    endedAt: Option<int>,
    duration: Option<int>,
    legs: map<Id, Leg>,
    invitations: seq<Invitation>)

  datatype Call = Call(tenantId: Option<Id>, body: Body, events: seq<Event>)

  datatype Environment = Environment(profiles: map<Id, Profile>, clients: ClientOwners, ringingTimeout: nat)
  {
    predicate MayCall(me: Id, target: Id) {
      me in profiles && target in profiles && CanCall(clients, profiles[me], profiles[target])
    }

    predicate Platform(p: Id) {
      p in profiles && profiles[p].superadmin
    }
  }

  datatype Error =
    | NoInvitees | UnknownInvitee | NotAllowed | ManyCompanies
    | NotFound | NoLongerJoinable | NoLongerPart | CannotAnswer | NotActive
    | NotTheCaller | CannotCancel | AlreadyIn | NotModerator | UseEnd | TokensNotConfigured

  const MICROS: int := 1_000_000

  // Python's int() on a number of seconds drops the fraction toward zero.
  function WholeSeconds(micros: int): int {
    if micros >= 0 then micros / MICROS else -((-micros) / MICROS)
  }

  // --- creating a call ----------------------------------------------------

  // The rows the profile query hands back: each known invitee once, in some order.
  ghost predicate RowsFor(env: Environment, ids: set<Id>, rows: seq<Id>) {
    && (forall i, j :: 0 <= i < j < |rows| ==> rows[i] != rows[j])
    && (forall p :: p in rows <==> p in ids && p in env.profiles)
  }

  function InviteeIds(user: Id, payload: seq<Id>): set<Id> {
    set p | p in payload && p != user
  }

  function ResolveTenant(env: Environment, user: Id, rows: seq<Id>): Option<Id>
    requires user in env.profiles && forall p <- rows :: p in env.profiles
  {
    if !env.profiles[user].superadmin then env.profiles[user].tenantId
    else if rows == [] then None
    else if !env.profiles[rows[0]].superadmin then env.profiles[rows[0]].tenantId
    else ResolveTenant(env, user, rows[1..])
  }

  function CompanyTenants(env: Environment, user: Id, rows: seq<Id>): set<Option<Id>>
    requires user in env.profiles && forall p <- rows :: p in env.profiles
  {
    (set p | p in rows && !env.profiles[p].superadmin :: env.profiles[p].tenantId) +
    (if env.profiles[user].superadmin then {} else {env.profiles[user].tenantId})
  }

  function Opened(tenantId: Option<Id>, user: Id, now: int): Call {
    Call(
      tenantId,
      Body(user, Ringing, now, None, None, None, map[user := Leg(Initiator, LegInvited, now, None, None)], []),
      [CallCreated(user, now)])
  }

  function Ring(c: Call, user: Id, target: Id, now: int): Call {
    c.(body := c.body.(
         legs := c.body.legs[target := Leg(Participant, LegRinging, now, None, None)],
         invitations := c.body.invitations + [Invitation(user, target, Pending, None)]),
       events := c.events + [CallRinging(user, target, now)])
  }

  function RingAll(c: Call, user: Id, rows: seq<Id>, now: int): Call {
    if rows == [] then c else Ring(RingAll(c, user, rows[..|rows| - 1], now), user, rows[|rows| - 1], now)
  }

  function Create(env: Environment, user: Id, payload: seq<Id>, rows: seq<Id>, now: int): Result<Call, Error>
    requires user in env.profiles && forall p <- rows :: p in env.profiles
  {
    var ids := InviteeIds(user, payload);
    if ids == {} then Err(NoInvitees)
    else if |rows| != |ids| then Err(UnknownInvitee)
    else if exists p <- rows :: !env.MayCall(user, p) then Err(NotAllowed)
    else if |CompanyTenants(env, user, rows)| > 1 then Err(ManyCompanies)
    else Ok(RingAll(Opened(ResolveTenant(env, user, rows), user, now), user, rows, now))
  }

  // --- requests on an existing call ---------------------------------------

  datatype Request =
    | Touch(user: Id)  // list or read calls; or a token, accept or decline that succeeds on another call
    | Token(user: Id, livekit: bool)
    | Accept(user: Id)
    | Decline(user: Id)
    | Cancel(user: Id)
    | End(user: Id)
    | Invite(user: Id, target: Id)
    | Remove(user: Id, subject: Id)

  function ExpireStale(env: Environment, c: Call, user: Id, now: int): Call {
    var b := c.body;
    if user in b.legs && b.status == Ringing && b.startedAt < now - env.ringingTimeout then
      c.(body := b.(status := Missed, endedAt := Some(now)), events := c.events + [CallMissed(now)])
    else
      c
  }

  // The bulk update of an invitee's pending invitations.
  function Respond(invitations: seq<Invitation>, invitee: Id, answer: InvitationStatus, now: int): (r: seq<Invitation>)
    ensures |r| == |invitations|
    ensures forall i :: 0 <= i < |r| ==>
                          r[i] == if invitations[i].invitee == invitee && invitations[i].status == Pending
                                  then invitations[i].(status := answer, respondedAt := Some(now))
                                  else invitations[i]
  {
    if invitations == [] then []
    else
      var first := invitations[0];
      [if first.invitee == invitee && first.status == Pending
       then first.(status := answer, respondedAt := Some(now)) else first]
      + Respond(invitations[1..], invitee, answer, now)
  }

  function OpenInvitees(legs: map<Id, Leg>): set<Id> {
    set p | p in legs && legs[p].role != Initiator && legs[p].status.Open()
  }

  function JoinedLegs(legs: map<Id, Leg>): set<Id> {
    set p | p in legs && legs[p].status == LegJoined
  }

  function TokenJoin(c: Call, user: Id, now: int): Call
    requires user in c.body.legs
  {
    var b := c.body;
    var leg := b.legs[user];
    var answers := b.status == Ringing && leg.role != Initiator;
    Call(
      c.tenantId,
      b.(legs := b.legs[user := leg.(status := LegJoined, joinedAt := Some(now))],
         status := if answers then Accepted else b.status,
         connectedAt := if answers then Some(now) else b.connectedAt,
         invitations := Respond(b.invitations, user, InvitationAccepted, now)),
      c.events + [ParticipantJoined(user, now)] + if answers then [CallAccepted(user, now)] else [])
  }

  function HandleToken(env: Environment, before: Call, user: Id, livekit: bool, now: int): Result<Call, Error> {
    var c := ExpireStale(env, before, user, now);
    if user !in c.body.legs then Err(NotFound)
    else if c.body.status !in {Ringing, Accepted} then Err(NoLongerJoinable)
    else if c.body.legs[user].status in {LegDeclined, LegRemoved} then Err(NoLongerPart)
    else if !livekit then Err(TokensNotConfigured)
    else if c.body.legs[user].status != LegJoined then Ok(TokenJoin(c, user, now))
    else Ok(c)
  }

  function HandleAccept(env: Environment, before: Call, user: Id, now: int): Result<Call, Error> {
    var c := ExpireStale(env, before, user, now);
    var b := c.body;
    if user !in b.legs then Err(NotFound)
    else if b.legs[user].status !in {LegInvited, LegRinging} then Err(CannotAnswer)
    else if b.status !in {Ringing, Accepted} then Err(NotActive)
    else Ok(Call(
              c.tenantId,
              b.(legs := b.legs[user := b.legs[user].(status := LegJoined, joinedAt := Some(now))],
                 status := Accepted,
                 connectedAt := if b.status == Ringing then Some(now) else b.connectedAt,
                 invitations := Respond(b.invitations, user, InvitationAccepted, now)),
              c.events + [CallAccepted(user, now)]))
  }

  function HandleDecline(env: Environment, before: Call, user: Id, now: int): Result<Call, Error> {
    var c := ExpireStale(env, before, user, now);
    var b := c.body;
    if user !in b.legs then Err(NotFound)
    else if b.legs[user].status !in {LegInvited, LegRinging} then Err(CannotAnswer)
    else
      var legs := b.legs[user := b.legs[user].(status := LegDeclined)];
      var over := b.status == Ringing && |OpenInvitees(legs)| == 0;
      Ok(Call(
           c.tenantId,
           b.(legs := legs,
              status := if over then Declined else b.status,
              endedAt := if over then Some(now) else b.endedAt,
              invitations := Respond(b.invitations, user, InvitationDeclined, now)),
           c.events + [CallDeclined(user, now)]))
  }

  function HandleCancel(c: Call, user: Id, now: int): Result<Call, Error> {
    if user !in c.body.legs then Err(NotFound)
    else if c.body.initiator != user then Err(NotTheCaller)
    else if c.body.status != Ringing then Err(CannotCancel)
    else Ok(c.(body := c.body.(status := Cancelled, endedAt := Some(now)),
               events := c.events + [CallEnded(user, true, now)]))
  }

  function Leave(c: Call, user: Id, now: int): Call
    requires user in c.body.legs
  {
    var leg := c.body.legs[user];
    if leg.status == LegJoined then
      c.(body := c.body.(legs := c.body.legs[user := leg.(status := LegLeft, leftAt := Some(now))]),
         events := c.events + [ParticipantLeft(user, now)])
    else
      c
  }

  function HandleEnd(before: Call, user: Id, now: int): Result<Call, Error> {
    if user !in before.body.legs then Err(NotFound)
    else
      var c := Leave(before, user, now);
      var b := c.body;
      if !b.status.Terminal() &&
         (|JoinedLegs(b.legs)| == 0 || b.legs[user].role in {Initiator, Moderator}) then
        Ok(c.(body := b.(status := Ended,
                         endedAt := Some(now),
                         duration := if b.connectedAt.Some? then Some(WholeSeconds(now - b.connectedAt.value))
                                     else b.duration),
              events := c.events + [CallEnded(user, false, now)]))
      else
        Ok(c)
  }

  predicate CanInvite(env: Environment, c: Call, user: Id, target: Id) {
    user in c.body.legs && c.body.legs[user].status == LegJoined && env.MayCall(user, target)
  }

  function InvitedLeg(legs: map<Id, Leg>, target: Id, now: int): Leg {
    if target in legs then legs[target].(status := LegRinging, invitedAt := now, leftAt := None)
    else Leg(Participant, LegRinging, now, None, None)
  }

  function HandleInvite(env: Environment, c: Call, user: Id, target: Id, now: int): Result<Call, Error> {
    var b := c.body;
    if user !in b.legs then Err(NotFound)
    else if target !in env.profiles then Err(NotFound)
    else if !CanInvite(env, c, user, target) then Err(NotAllowed)
    else if target in b.legs && b.legs[target].status.Open() then Err(AlreadyIn)
    else Ok(Call(
              c.tenantId,
              b.(legs := b.legs[target := InvitedLeg(b.legs, target, now)],
                 invitations := b.invitations + [Invitation(user, target, Pending, None)]),
              c.events + [ParticipantInvited(user, target, now)]))
  }

  function HandleRemove(c: Call, user: Id, subject: Id, now: int): Result<Call, Error> {
    var b := c.body;
    if user !in b.legs then Err(NotFound)
    else if b.legs[user].role !in {Initiator, Moderator} then Err(NotModerator)
    else if subject == user then Err(UseEnd)
    else if subject !in b.legs then Err(NotFound)
    else Ok(Call(
              c.tenantId,
              b.(legs := b.legs[subject := b.legs[subject].(status := LegRemoved, leftAt := Some(now))]),
              c.events + [ParticipantRemoved(user, subject, now)]))
  }

  function Handle(env: Environment, c: Call, r: Request, now: int): Result<Call, Error> {
    match r
    case Touch(user) => Ok(ExpireStale(env, c, user, now))
    case Token(user, livekit) => HandleToken(env, c, user, livekit, now)
    case Accept(user) => HandleAccept(env, c, user, now)
    case Decline(user) => HandleDecline(env, c, user, now)
    case Cancel(user) => HandleCancel(c, user, now)
    case End(user) => HandleEnd(c, user, now)
    case Invite(user, target) => HandleInvite(env, c, user, target, now)
    case Remove(user, subject) => HandleRemove(c, user, subject, now)
  }

  // The committed effect of a request: nothing at all when it fails.
  function After(env: Environment, c: Call, r: Request, now: int): Call {
    match Handle(env, c, r, now)
    case Ok(c') => c'
    case Err(_) => c
  }

  datatype Timed = Timed(request: Request, at: int)

  function Run(env: Environment, c: Call, rs: seq<Timed>): Call
    decreases |rs|
  {
    if rs == [] then c else Run(env, After(env, c, rs[0].request, rs[0].at), rs[1..])
  }

  // The clock never steps back, starting from `now`.
  predicate InOrder(now: int, rs: seq<Timed>)
    decreases |rs|
  {
    rs != [] ==> now <= rs[0].at && InOrder(rs[0].at, rs[1..])
  }
}
