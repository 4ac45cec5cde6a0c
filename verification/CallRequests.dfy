/**
 What each request does to a call (backend/app/routers/calls.py), field by field: when
 it is accepted, what becomes of the caller's leg, of the call and of the invitations,
 and what it leaves alone.
 */
module CallRequests {
  import opened Common
  import opened CallPermissions
  import opened CallProtocol
  import opened CallInvariants

  predicate Overdue(env: Environment, c: Call, now: int) {
    c.body.startedAt + env.ringingTimeout < now
  }

  // Still to be answered in time, or answered.
  predicate Live(env: Environment, c: Call, now: int) {
    c.body.status == Accepted || (c.body.status == Ringing && !Overdue(env, c, now))
  }

  // Nothing that is not about p has changed.
  predicate OnlyAbout(c: Call, c': Call, p: Id) {
    && c'.tenantId == c.tenantId && c'.body.initiator == c.body.initiator && c'.body.startedAt == c.body.startedAt
    && c'.body.legs.Keys == c.body.legs.Keys + {p}
    && (forall q <- c.body.legs :: q != p ==> c'.body.legs[q] == c.body.legs[q])
    && |c.body.invitations| <= |c'.body.invitations|
    && (forall i :: 0 <= i < |c.body.invitations| && c.body.invitations[i].invitee != p ==>
                      c'.body.invitations[i] == c.body.invitations[i])
  }

  // Every pending invitation of p has this answer now, and no other of p's is touched.
  predicate Answered(c: Call, c': Call, p: Id, answer: InvitationStatus, now: int) {
    && |c'.body.invitations| == |c.body.invitations|
    && forall i :: 0 <= i < |c.body.invitations| && c.body.invitations[i].invitee == p ==>
         var before, after := c.body.invitations[i], c'.body.invitations[i];
         after == if before.status == Pending then Invitation(before.inviter, p, answer, Some(now)) else before
  }

  predicate SameCall(c: Call, c': Call) {
    && c'.body.status == c.body.status && c'.body.connectedAt == c.body.connectedAt
    && c'.body.endedAt == c.body.endedAt && c'.body.duration == c.body.duration
  }

  // --- creating -------------------------------------------------------------

  ghost predicate OneCompany(env: Environment, ps: set<Id>) {
    forall p, q :: p in ps && q in ps && p in env.profiles && q in env.profiles &&
                   !env.profiles[p].superadmin && !env.profiles[q].superadmin ==>
                     env.profiles[p].tenantId == env.profiles[q].tenantId
  }

  lemma TwoTenants<T>(tenants: set<T>) returns (s: T, t: T)
    requires |tenants| > 1
    ensures s in tenants && t in tenants && s != t
  {
    s :| s in tenants;
    if tenants - {s} == {} {
      Subset(tenants, {s});
      assert false;
    }
    t :| t in tenants - {s};
  }

  lemma TenantsAre(env: Environment, user: Id, rows: seq<Id>, t: Option<Id>)
    requires user in env.profiles && forall p <- rows :: p in env.profiles
    ensures t in CompanyTenants(env, user, rows) <==>
              exists p :: p in Elements(rows) + {user} && !env.profiles[p].superadmin && env.profiles[p].tenantId == t
  {
    if t in CompanyTenants(env, user, rows) {
      if p :| p in rows && !env.profiles[p].superadmin && env.profiles[p].tenantId == t {
        assert p in Elements(rows) + {user};
      } else {
        assert user in Elements(rows) + {user};
      }
    }
  }

  lemma FewTenants(env: Environment, user: Id, rows: seq<Id>)
    requires user in env.profiles && forall p <- rows :: p in env.profiles
    ensures |CompanyTenants(env, user, rows)| <= 1 <==> OneCompany(env, Elements(rows) + {user})
  {
    var tenants, all := CompanyTenants(env, user, rows), Elements(rows) + {user};
    if |tenants| > 1 {
      var s, t := TwoTenants(tenants);
      TenantsAre(env, user, rows, s);
      TenantsAre(env, user, rows, t);
      var p :| p in all && !env.profiles[p].superadmin && env.profiles[p].tenantId == s;
      var q :| q in all && !env.profiles[q].superadmin && env.profiles[q].tenantId == t;
      assert !OneCompany(env, all);
    } else {
      forall p, q | p in all && q in all && !env.profiles[p].superadmin && !env.profiles[q].superadmin
        ensures env.profiles[p].tenantId == env.profiles[q].tenantId
      {
        TenantsAre(env, user, rows, env.profiles[p].tenantId);
        TenantsAre(env, user, rows, env.profiles[q].tenantId);
        SmallSetIsUniform(tenants, env.profiles[p].tenantId, env.profiles[q].tenantId);
      }
    }
  }

  lemma RowsAreAll(env: Environment, ids: set<Id>, rows: seq<Id>)
    requires RowsFor(env, ids, rows)
    ensures |rows| == |ids| <==> forall p <- ids :: p in env.profiles
    ensures |rows| == |ids| ==> Elements(rows) == ids
  {
    DistinctRows(rows);
    if forall p <- ids :: p in env.profiles {
      assert Elements(rows) == ids;
    }
    if |rows| == |ids| {
      RowsCover(env, ids, rows);
    }
  }

  // A call is created exactly when somebody else is asked for, everybody asked for is
  // known and may be called, and all outside the platform are of one company.
  lemma CreatesExactly(env: Environment, user: Id, payload: seq<Id>, rows: seq<Id>, now: int)
    requires user in env.profiles && RowsFor(env, InviteeIds(user, payload), rows)
    ensures var others := set p | p in payload && p != user;
            Create(env, user, payload, rows, now).Ok? <==>
              others != {} && (forall p <- others :: env.MayCall(user, p)) && OneCompany(env, others + {user})
  {
    var others := set p | p in payload && p != user;
    assert InviteeIds(user, payload) == others;
    RowsAreAll(env, others, rows);
    FewTenants(env, user, rows);
    if |rows| == |others| {
      assert forall p :: p in rows <==> p in others;
      assert (exists p <- rows :: !env.MayCall(user, p)) <==> !(forall p <- others :: env.MayCall(user, p));
    }
  }

  // --- answering --------------------------------------------------------------

  lemma TokenTakesEffect(env: Environment, c: Call, user: Id, livekit: bool, now: int)
    requires Roster(c)
    ensures Handle(env, c, Token(user, livekit), now).Ok? <==>
              user in c.body.legs && c.body.legs[user].status !in {LegDeclined, LegRemoved} && livekit && Live(env, c, now)
    ensures Handle(env, c, Token(user, livekit), now).Ok? ==>
              var c', leg := After(env, c, Token(user, livekit), now), c.body.legs[user];
              if leg.status == LegJoined then c' == c
              else
                && OnlyAbout(c, c', user) && Answered(c, c', user, InvitationAccepted, now)
                && c'.body.legs[user] == Leg(leg.role, LegJoined, leg.invitedAt, Some(now), leg.leftAt)
                && c'.body.endedAt == c.body.endedAt && c'.body.duration == c.body.duration
                && (if c.body.status == Ringing && user != c.body.initiator
                    then c'.body.status == Accepted && c'.body.connectedAt == Some(now)
                    else c'.body.status == c.body.status && c'.body.connectedAt == c.body.connectedAt)
  {
  }

  lemma AcceptTakesEffect(env: Environment, c: Call, user: Id, now: int)
    ensures Handle(env, c, Request.Accept(user), now).Ok? <==>
              user in c.body.legs && c.body.legs[user].status in {LegInvited, LegRinging} && Live(env, c, now)
    ensures Handle(env, c, Request.Accept(user), now).Ok? ==>
              var c', leg := After(env, c, Request.Accept(user), now), c.body.legs[user];
              && OnlyAbout(c, c', user) && Answered(c, c', user, InvitationAccepted, now)
              && c'.body.legs[user] == Leg(leg.role, LegJoined, leg.invitedAt, Some(now), leg.leftAt)
              && c'.body.status == Accepted
              && c'.body.connectedAt == (if c.body.status == Ringing then Some(now) else c.body.connectedAt)
              && c'.body.endedAt == c.body.endedAt && c'.body.duration == c.body.duration
  {
  }

  // Nobody but the initiator and `user` is still there or expected.
  ghost predicate NobodyElseOpen(c: Call, user: Id) {
    forall p <- c.body.legs :: p != c.body.initiator && p != user ==>
                                 c.body.legs[p].status !in {LegInvited, LegRinging, LegJoined}
  }

  lemma OpenInviteesAre(c: Call, user: Id, legs: map<Id, Leg>)
    requires Roster(c) && user in c.body.legs
    requires legs == c.body.legs[user := c.body.legs[user].(status := LegDeclined)]
    ensures |OpenInvitees(legs)| == 0 <==> NobodyElseOpen(c, user)
  {
    var open := OpenInvitees(legs);
    assert |open| == 0 <==> open == {};
    assert forall p <- c.body.legs :: p in open <==> p != c.body.initiator && p != user && c.body.legs[p].status.Open();
  }

  lemma DeclineTakesEffect(env: Environment, c: Call, user: Id, now: int)
    requires Roster(c)
    ensures Handle(env, c, Request.Decline(user), now).Ok? <==>
              user in c.body.legs && c.body.legs[user].status in {LegInvited, LegRinging}
    ensures Handle(env, c, Request.Decline(user), now).Ok? ==>
              var c', leg := After(env, c, Request.Decline(user), now), c.body.legs[user];
              && OnlyAbout(c, c', user) && Answered(c, c', user, InvitationDeclined, now)
              && c'.body.legs[user] == Leg(leg.role, LegDeclined, leg.invitedAt, leg.joinedAt, leg.leftAt)
              && c'.body.connectedAt == c.body.connectedAt && c'.body.duration == c.body.duration
              && (if c.body.status == Ringing && Overdue(env, c, now) then
                    c'.body.status == Missed && c'.body.endedAt == Some(now)
                  else if c.body.status == Ringing && NobodyElseOpen(c, user) then
                    c'.body.status == Declined && c'.body.endedAt == Some(now)
                  else
                    c'.body.status == c.body.status && c'.body.endedAt == c.body.endedAt)
  {
    if Handle(env, c, Request.Decline(user), now).Ok? {
      OpenInviteesAre(c, user, After(env, c, Request.Decline(user), now).body.legs);
    }
  }

  // --- ending -------------------------------------------------------------------

  lemma CancelTakesEffect(env: Environment, c: Call, user: Id, now: int)
    requires Roster(c)
    ensures Handle(env, c, Cancel(user), now).Ok? <==> user == c.body.initiator && c.body.status == Ringing
    ensures Handle(env, c, Cancel(user), now).Ok? ==>
              After(env, c, Cancel(user), now).body == c.body.(status := Cancelled, endedAt := Some(now))
  {
  }

  ghost predicate NobodyElseJoined(c: Call, user: Id) {
    forall p <- c.body.legs :: p != user ==> c.body.legs[p].status != LegJoined
  }

  lemma JoinedAre(c: Call, user: Id, now: int)
    requires user in c.body.legs
    ensures |JoinedLegs(Leave(c, user, now).body.legs)| == 0 <==> NobodyElseJoined(c, user)
  {
    var legs := Leave(c, user, now).body.legs;
    var joined := JoinedLegs(legs);
    assert |joined| == 0 <==> joined == {};
    assert legs.Keys == c.body.legs.Keys;
    assert forall p <- c.body.legs :: p in joined <==> p != user && c.body.legs[p].status == LegJoined;
  }

  // Leaving ends a call that is not over exactly when the initiator leaves, or the last
  // one in it.
  lemma EndTakesEffect(env: Environment, c: Call, user: Id, now: int)
    requires Roster(c) && c.body.status != Failed
    ensures Handle(env, c, End(user), now).Ok? <==> user in c.body.legs
    ensures user in c.body.legs ==>
              var c', leg := After(env, c, End(user), now), c.body.legs[user];
              && OnlyAbout(c, c', user) && c'.body.invitations == c.body.invitations
              && c'.body.legs[user] == (if leg.status == LegJoined
                                        then Leg(leg.role, LegLeft, leg.invitedAt, leg.joinedAt, Some(now)) else leg)
              && c'.body.connectedAt == c.body.connectedAt
              && (if c.body.status in {Ringing, Accepted} && (user == c.body.initiator || NobodyElseJoined(c, user))
                  then c'.body.status == Ended && c'.body.endedAt == Some(now)
                  else SameCall(c, c'))
  {
    if user in c.body.legs {
      JoinedAre(c, user, now);
    }
  }

  // --- who is in the call ---------------------------------------------------------

  lemma InviteTakesEffect(env: Environment, c: Call, user: Id, target: Id, now: int)
    ensures Handle(env, c, Invite(user, target), now).Ok? <==>
              && user in c.body.legs && c.body.legs[user].status == LegJoined && env.MayCall(user, target)
              && (target in c.body.legs ==> c.body.legs[target].status !in {LegInvited, LegRinging, LegJoined})
    ensures Handle(env, c, Invite(user, target), now).Ok? ==>
              var c' := After(env, c, Invite(user, target), now);
              && OnlyAbout(c, c', target) && SameCall(c, c')
              && c'.body.invitations == c.body.invitations + [Invitation(user, target, Pending, None)]
              && c'.body.legs[target] ==
                   (if target in c.body.legs
                    then Leg(c.body.legs[target].role, LegRinging, now, c.body.legs[target].joinedAt, None)
                    else Leg(Participant, LegRinging, now, None, None))
  {
  }

  lemma RemoveTakesEffect(env: Environment, c: Call, user: Id, subject: Id, now: int)
    requires Roster(c)
    ensures Handle(env, c, Remove(user, subject), now).Ok? <==>
              user == c.body.initiator && subject != user && subject in c.body.legs
    ensures Handle(env, c, Remove(user, subject), now).Ok? ==>
              var c', leg := After(env, c, Remove(user, subject), now), c.body.legs[subject];
              && OnlyAbout(c, c', subject) && SameCall(c, c') && c'.body.invitations == c.body.invitations
              && c'.body.legs[subject] == Leg(leg.role, LegRemoved, leg.invitedAt, leg.joinedAt, Some(now))
  {
  }

  // Reading records a miss exactly when the reader is in an overdue ringing call, and
  // changes nothing else.
  lemma TouchTakesEffect(env: Environment, c: Call, user: Id, now: int)
    ensures After(env, c, Touch(user), now).body ==
              if user in c.body.legs && c.body.status == Ringing && Overdue(env, c, now)
              then c.body.(status := Missed, endedAt := Some(now)) else c.body
  {
  }

  // A refused request changes nothing.
  lemma RefusalChangesNothing(env: Environment, c: Call, r: Request, now: int)
    requires Handle(env, c, r, now).Err?
    ensures After(env, c, r, now) == c
  {
  }
}
