/**
 Claims about calls that need a condition: when a decline closes the call, when a
 late answer is lost, and the exact conditions under which a connection has a callee,
 pending invitations stay single, and a call stays within one company. Where a claim
 fails without its condition, a short run shows it.
 */
module CallClaims {
  import opened Common
  import opened CallPermissions
  import opened CallProtocol
  import opened CallInvariants

  // --- what a decline does ------------------------------------------------

  // After `user` declines, no invitee is open exactly when nobody else was.
  lemma NobodyLeftToAnswer(c: Call, user: Id, legs: map<Id, Leg>)
    requires Roster(c) && user in c.body.legs
    requires legs == c.body.legs[user := c.body.legs[user].(status := LegDeclined)]
    ensures |OpenInvitees(legs)| == 0 <==>
              forall p <- c.body.legs :: p in {c.body.initiator, user} || !c.body.legs[p].status.Open()
  {
    var open := OpenInvitees(legs);
    assert |open| == 0 <==> open == {};
    assert forall p <- c.body.legs :: p in open <==> !(p in {c.body.initiator, user} || !c.body.legs[p].status.Open());
  }

  // A decline closes the call exactly when it was still ringing and left no invitee
  // to answer; then nobody but the initiator has ever been in it.
  lemma DeclineClosesExactly(env: Environment, c: Call, user: Id, clock: int, now: int)
    requires Good(env, c, clock) && HandleDecline(env, c, user, now).Ok? && c.body.status != Declined
    ensures var c' := HandleDecline(env, c, user, now).value;
            && (c'.body.status == Declined <==>
                  c.body.status == Ringing && now <= c.body.startedAt + env.ringingTimeout &&
                  forall p <- c.body.legs :: p in {c.body.initiator, user} || !c.body.legs[p].status.Open())
            && (c'.body.status == Declined ==>
                  forall p <- c'.body.legs :: p != c.body.initiator ==> c'.body.legs[p].joinedAt.None?)
  {
    NobodyLeftToAnswer(c, user, HandleDecline(env, c, user, now).value.body.legs);
    assert Unanswered(HandleDecline(env, c, user, now).value) by {
      StepKeepsUnanswered(env, c, Request.Decline(user), clock, now);
    }
  }

  // --- when lazy expiry happens ---------------------------------------------

  // An overdue call is recorded as missed by exactly these requests of its
  // participants: a read, or a decline that the leg still allows.
  lemma OverdueCallIsMissedExactly(env: Environment, c: Call, r: Request, now: int)
    requires c.body.status == Ringing && c.body.startedAt + env.ringingTimeout < now
    ensures After(env, c, r, now).body.status == Missed <==>
              r.user in c.body.legs &&
              (r.Touch? || (r.Decline? && c.body.legs[r.user].status in {LegInvited, LegRinging}))
  {
  }

  // A late answer is rejected, and the expiry is rolled back with it: nothing changes.
  lemma LateAnswerIsRolledBack(env: Environment, c: Call, r: Request, now: int)
    requires c.body.status == Ringing && c.body.startedAt + env.ringingTimeout < now
    requires (r.Accept? || r.Token?) && r.user in c.body.legs
    ensures Handle(env, c, r, now).Err? && After(env, c, r, now) == c
  {
  }

  // --- three claims that hold only with a condition -------------------------

  // "Connected means a callee joined": true exactly when it is not the initiator
  // who accepts the still ringing call.
  lemma ConnectionHasACallee(env: Environment, c: Call, r: Request, clock: int, now: int)
    requires Good(env, c, clock) && c.body.connectedAt.None? && After(env, c, r, now).body.connectedAt.Some?
    ensures var c' := After(env, c, r, now);
            (exists p <- c'.body.legs :: p != c'.body.initiator && c'.body.legs[p].joinedAt.Some?)
            <==> r.user != c.body.initiator
  {
    var c' := After(env, c, r, now);
    assert c'.body.legs[r.user].joinedAt == Some(now);
    assert forall p <- c'.body.legs :: p != r.user ==> c'.body.legs[p] == c.body.legs[p];
  }

  ghost predicate OnePendingEach(c: Call) {
    forall i, j :: 0 <= i < j < |c.body.invitations| &&
                   c.body.invitations[i].status == Pending && c.body.invitations[j].status == Pending ==>
                     c.body.invitations[i].invitee != c.body.invitations[j].invitee
  }

  // "One pending invitation each": an invitation keeps it exactly when the invitee was
  // not removed from the call with an invitation still unanswered.
  lemma InviteKeepsOnePending(env: Environment, c: Call, user: Id, target: Id, now: int)
    requires Invitations(c) && OnePendingEach(c) && HandleInvite(env, c, user, target, now).Ok?
    ensures OnePendingEach(HandleInvite(env, c, user, target, now).value) <==>
              !(target in c.body.legs && c.body.legs[target].status == LegRemoved && PendingFor(c, target))
  {
    var before, after := c.body.invitations, HandleInvite(env, c, user, target, now).value.body.invitations;
    assert forall i :: 0 <= i < |before| ==> after[i] == before[i];
    if PendingFor(c, target) {
      var i :| 0 <= i < |before| && before[i].invitee == target && before[i].status == Pending;
      assert after[i].invitee == after[|before|].invitee;
    }
  }

  predicate OnlyAnswered(before: seq<Invitation>, after: seq<Invitation>) {
    && |after| == |before|
    && forall i :: 0 <= i < |before| ==>
                     after[i].invitee == before[i].invitee && (after[i].status == Pending ==> before[i].status == Pending)
  }

  lemma OtherStepsOnlyAnswer(env: Environment, c: Call, r: Request, now: int)
    requires !r.Invite?
    ensures OnlyAnswered(c.body.invitations, After(env, c, r, now).body.invitations)
  {
    match r
    case Token(_, _) =>
    case Accept(_) =>
    case Decline(_) =>
    case _ =>
  }

  lemma OtherStepsKeepOnePending(env: Environment, c: Call, r: Request, now: int)
    requires OnePendingEach(c) && !r.Invite?
    ensures OnePendingEach(After(env, c, r, now))
  {
    OtherStepsOnlyAnswer(env, c, r, now);
  }

  // "One company per call": an invitation keeps it exactly when the inviter is not the
  // platform, or the owner invited belongs to the call's own company.
  lemma InviteKeepsOneTenant(env: Environment, c: Call, user: Id, target: Id, now: int)
    requires Linked(env, c) && OneTenant(env, c) && HandleInvite(env, c, user, target, now).Ok?
    ensures OneTenant(env, HandleInvite(env, c, user, target, now).value) <==>
              (!env.Platform(user) || env.profiles[target].tenantId == c.tenantId)
  {
    var c' := HandleInvite(env, c, user, target, now).value;
    assert user in c.body.legs && target in c'.body.legs;
    assert c'.body.legs.Keys == c.body.legs.Keys + {target};
  }

  // No other request brings anybody in.
  lemma OtherStepsKeepOneTenant(env: Environment, c: Call, r: Request, now: int)
    requires OneTenant(env, c) && !r.Invite?
    ensures OneTenant(env, After(env, c, r, now))
  {
    assert After(env, c, r, now).body.legs.Keys == c.body.legs.Keys;
  }

  lemma RingAllTenant(tenantId: Option<Id>, user: Id, rows: seq<Id>, now: int)
    ensures RingAll(Opened(tenantId, user, now), user, rows, now).tenantId == tenantId
  {
  }

  lemma {:induction false} ResolvedTenantIsAnyones(env: Environment, user: Id, rows: seq<Id>, p: Id)
    requires user in env.profiles && forall q <- rows :: q in env.profiles
    requires (p == user || p in rows) && !env.profiles[p].superadmin
    ensures ResolveTenant(env, user, rows) in CompanyTenants(env, user, rows)
  {
    if env.profiles[user].superadmin && env.profiles[rows[0]].superadmin {
      ResolvedTenantIsAnyones(env, user, rows[1..], p);
    }
  }

  lemma CreatedInOneTenant(env: Environment, user: Id, payload: seq<Id>, rows: seq<Id>, now: int)
    requires user in env.profiles && RowsFor(env, InviteeIds(user, payload), rows)
    requires Create(env, user, payload, rows, now).Ok?
    ensures OneTenant(env, Create(env, user, payload, rows, now).value)
  {
    CreateChecks(env, user, payload, rows, now);
    CreatedIsGood(env, user, payload, rows, now);
    var c := Create(env, user, payload, rows, now).value;
    var tenants := CompanyTenants(env, user, rows);
    assert c.tenantId == ResolveTenant(env, user, rows) by { RingAllTenant(ResolveTenant(env, user, rows), user, rows, now); }
    forall p | p in c.body.legs && !env.profiles[p].superadmin
      ensures env.profiles[p].tenantId == c.tenantId
    {
      assert p == user || p in rows;
      assert env.profiles[p].tenantId in tenants;
      ResolvedTenantIsAnyones(env, user, rows, p);
      SmallSetIsUniform(tenants, env.profiles[p].tenantId, c.tenantId);
    }
  }

  // --- the inputs that break the unconditional claims -----------------------

  // Two firms (10 and 20) with an owner each, a member of the first, and the platform.
  const SAMPLE: Environment := Environment(
    map[1 := Profile(1, Some(10), None, Owner, true, false),
        2 := Profile(2, Some(10), None, Member, true, false),
        5 := Profile(5, Some(20), None, Owner, true, false),
        9 := Profile(9, None, None, Member, true, true)],
    map[], 30 * MICROS)

  lemma RunThree(env: Environment, c: Call, a: Timed, b: Timed, d: Timed)
    ensures Run(env, c, [a, b, d]) ==
              After(env, After(env, After(env, c, a.request, a.at), b.request, b.at), d.request, d.at)
  {
    assert [a, b, d][1..] == [b, d] && [b, d][1..] == [d] && [d][1..] == [];
    var c1 := After(env, c, a.request, a.at);
    var c2 := After(env, c1, b.request, b.at);
    assert Run(env, c2, [d]) == After(env, c2, d.request, d.at);
    assert Run(env, c1, [b, d]) == Run(env, c2, [d]);
  }

  lemma RunTwo(env: Environment, c: Call, a: Timed, b: Timed)
    ensures Run(env, c, [a, b]) == After(env, After(env, c, a.request, a.at), b.request, b.at)
  {
    assert [a, b][1..] == [b] && [b][1..] == [];
    var c1 := After(env, c, a.request, a.at);
    assert Run(env, c1, [b]) == After(env, c1, b.request, b.at);
  }

  // The owner of firm 10 calls the platform.
  lemma PlatformIsCalled() returns (c: Call)
    ensures Create(SAMPLE, 1, [9], [9], 0) == Ok(c) && OneTenant(SAMPLE, c)
    ensures c.tenantId == Some(10) && c.body.status == Ringing && c.body.startedAt == 0 && c.body.legs.Keys == {1, 9}
    ensures c.body.legs[9].role == Participant && c.body.legs[9].status == LegRinging
  {
    assert InviteeIds(1, [9]) == {9};
    assert CompanyTenants(SAMPLE, 1, [9]) == {Some(10)};
    c := Create(SAMPLE, 1, [9], [9], 0).value;
    assert c.body.legs.Keys == {1, 9};
  }

  // The same owner calls a member of their own firm.
  lemma MemberIsCalled() returns (c: Call)
    ensures Create(SAMPLE, 1, [2], [2], 0) == Ok(c)
    ensures c.body.status == Ringing && c.body.startedAt == 0 && c.body.connectedAt.None? && c.body.legs.Keys == {1, 2}
    ensures c.body.legs[1] == Leg(Initiator, LegInvited, 0, None, None)
    ensures c.body.legs[2] == Leg(Participant, LegRinging, 0, None, None)
    ensures c.body.invitations == [Invitation(1, 2, Pending, None)]
  {
    assert InviteeIds(1, [2]) == {2};
    assert CompanyTenants(SAMPLE, 1, [2]) == {Some(10)};
    c := Create(SAMPLE, 1, [2], [2], 0).value;
    assert c.body.legs.Keys == {1, 2};
  }

  lemma RemovalThenReinvitationLeavesTwoPending()
    ensures var c0 := Create(SAMPLE, 1, [2], [2], 0);
            c0.Ok? &&
            !OnePendingEach(Run(SAMPLE, c0.value, [Timed(Token(1, true), 1), Timed(Remove(1, 2), 2), Timed(Invite(1, 2), 3)]))
  {
    var c0 := MemberIsCalled();
    var c1 := After(SAMPLE, c0, Token(1, true), 1);
    assert c1.body.legs[1].status == LegJoined && c1.body.invitations == c0.body.invitations;
    var c2 := After(SAMPLE, c1, Remove(1, 2), 2);
    assert c2.body.legs[2].status == LegRemoved && c2.body.invitations == c0.body.invitations;
    var c3 := After(SAMPLE, c2, Invite(1, 2), 3);
    assert c3.body.invitations == [Invitation(1, 2, Pending, None), Invitation(1, 2, Pending, None)];
    assert c3.body.invitations[0].invitee == c3.body.invitations[1].invitee;
    RunThree(SAMPLE, c0, Timed(Token(1, true), 1), Timed(Remove(1, 2), 2), Timed(Invite(1, 2), 3));
  }

  // The member accepts a second past the timeout of thirty, and the call goes on ringing.
  lemma LateAnswerLeavesTheCallRinging()
    ensures var c0 := Create(SAMPLE, 1, [2], [2], 0);
            c0.Ok? && c0.value.body.status == Ringing &&
            After(SAMPLE, c0.value, Request.Accept(2), 31 * MICROS) == c0.value
  {
    var c0 := MemberIsCalled();
    LateAnswerIsRolledBack(SAMPLE, c0, Request.Accept(2), 31 * MICROS);
  }

  lemma InitiatorCanAnswerTheirOwnCall()
    ensures var c0 := Create(SAMPLE, 1, [2], [2], 0);
            c0.Ok? &&
            var c := After(SAMPLE, c0.value, Request.Accept(1), 1);
            c.body.connectedAt == Some(1) && c.body.legs[2].joinedAt == None
  {
    var c0 := MemberIsCalled();
  }

  lemma PlatformCanMixCompanies()
    ensures var c0 := Create(SAMPLE, 1, [9], [9], 0);
            c0.Ok? && OneTenant(SAMPLE, c0.value) &&
            !OneTenant(SAMPLE, Run(SAMPLE, c0.value, [Timed(Token(9, true), 1), Timed(Invite(9, 5), 2)]))
  {
    var c0 := PlatformIsCalled();
    var c1 := After(SAMPLE, c0, Token(9, true), 1);
    assert c1.body.legs[9].status == LegJoined && c1.body.legs.Keys == {1, 9} && c1.tenantId == Some(10);
    var c2 := After(SAMPLE, c1, Invite(9, 5), 2);
    assert 5 in c2.body.legs && c2.tenantId == Some(10);
    RunTwo(SAMPLE, c0, Timed(Token(9, true), 1), Timed(Invite(9, 5), 2));
  }
}
