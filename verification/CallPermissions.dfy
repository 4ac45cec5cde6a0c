/**
 The calling matrix of backend/app/permissions.py: who may ring whom.
 The code decides it by a chain of early returns on one directed pair;
 `MatrixEdge` is the relation its documentation lists, and `CanCallIsTheMatrix`
 proves that the two agree.
 */
module CallPermissions {
  import opened Common

  type Id = nat

  datatype StaffRole = Owner | Admin | Member | Viewer

  datatype Profile = Profile(
    id: Id,
    tenantId: Option<Id>,
    clientId: Option<Id>,  // Some for a client-portal login
    role: StaffRole,
    active: bool,
    superadmin: bool)

  // A client row, reduced to the staff member it is assigned to.
  type ClientOwners = map<Id, Option<Id>>

  predicate CanCall(clients: ClientOwners, me: Profile, target: Profile) {
    if me.id == target.id || !target.active then
      false
    else if me.superadmin || target.superadmin then
      if me.clientId.Some? || target.clientId.Some? then
        false
      else
        var other := if me.superadmin then target else me;
        !other.superadmin && other.role == Owner
    else if me.tenantId.None? || me.tenantId != target.tenantId then
      false
    else if me.clientId.Some? && target.clientId.Some? then
      false
    else if me.clientId.Some? || target.clientId.Some? then
      var clientSide := if me.clientId.Some? then me else target;
      var staffSide := if me.clientId.Some? then target else me;
      staffSide.role == Owner ||
      (clientSide.clientId.value in clients && clients[clientSide.clientId.value] == Some(staffSide.id))
    else
      me.role == Owner || target.role == Owner
  }

  predicate Staff(p: Profile) {
    !p.superadmin && p.clientId.None?
  }

  predicate Portal(p: Profile) {
    !p.superadmin && p.clientId.Some?
  }

  predicate SameFirm(a: Profile, b: Profile) {
    a.tenantId.Some? && a.tenantId == b.tenantId
  }

  predicate ClientToAssignedStaff(clients: ClientOwners, a: Profile, b: Profile) {
    Portal(a) && Staff(b) && SameFirm(a, b) &&
    a.clientId.value in clients && clients[a.clientId.value] == Some(b.id)
  }

  predicate ClientToOwner(a: Profile, b: Profile) {
    Portal(a) && Staff(b) && SameFirm(a, b) && b.role == Owner
  }

  predicate OwnerToStaff(a: Profile, b: Profile) {
    Staff(a) && Staff(b) && SameFirm(a, b) && a.role == Owner
  }

  predicate PlatformToOwner(a: Profile, b: Profile) {
    a.superadmin && a.clientId.None? && Staff(b) && b.role == Owner
  }

  // The documented edges, read in one direction.
  predicate MatrixEdge(clients: ClientOwners, a: Profile, b: Profile) {
    || ClientToAssignedStaff(clients, a, b)
    || ClientToOwner(a, b)
    || OwnerToStaff(a, b)
    || PlatformToOwner(a, b)
  }

  lemma CanCallIsTheMatrix(clients: ClientOwners, me: Profile, target: Profile)
    ensures CanCall(clients, me, target) <==>
              me.id != target.id && target.active &&
              (MatrixEdge(clients, me, target) || MatrixEdge(clients, target, me))
  {
  }

  lemma CanCallIsSymmetric(clients: ClientOwners, a: Profile, b: Profile)
    requires a.active && b.active
    ensures CanCall(clients, a, b) <==> CanCall(clients, b, a)
  {
    CanCallIsTheMatrix(clients, a, b);
    CanCallIsTheMatrix(clients, b, a);
  }

  // Away from the platform, an edge never leaves the firm.
  lemma EdgeStaysInFirm(clients: ClientOwners, a: Profile, b: Profile)
    requires CanCall(clients, a, b) && !a.superadmin && !b.superadmin
    ensures a.tenantId.Some? && a.tenantId == b.tenantId
  {
  }
}
