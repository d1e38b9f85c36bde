/**
 * Role lookup shared by both reconcilers and by the user seeding:
 * `roles.find(role => role.type === ...)`, the `filter(...).map(...)[0]`
 * variant, and the scanned list `roles[0].permissions.concat(roles[1].permissions)`.
 */
module Roles {

  import opened Wrappers
  import opened Policy

  /** A role as returned by the role query, with its permission records populated. */
  datatype Role = Role(id: RoleId, kind: string, permissions: seq<Permission>)

  const AuthenticatedKind := "authenticated"
  const PublicKind := "public"

  /** Reading `.id` of the undefined result of a failed `find` (a TypeError). */
  datatype RoleError = RoleNotFound(kind: string)

  /** The ids both reconcilers resolve before scanning. */
  datatype Targets = Targets(authenticatedId: RoleId, publicId: RoleId)

  /** The index of the first role of the given kind, as `Array.prototype.find` scans. */
  function FindRole(roles: seq<Role>, kind: string): (r: Option<nat>)
    ensures r.None? <==> forall i :: 0 <= i < |roles| ==> roles[i].kind != kind
    ensures r.Some? ==> r.value < |roles| && roles[r.value].kind == kind &&
                        forall j :: 0 <= j < r.value ==> roles[j].kind != kind
  {
    if roles == [] then None
    else if roles[0].kind == kind then Some(0)
    else match FindRole(roles[1..], kind)
      case None => None
      case Some(i) => Some(i + 1)
  }

  /** `roles.filter(i => i.type === kind).map(i => i.id)` */
  function IdsOfKind(roles: seq<Role>, kind: string): seq<RoleId>
  {
    if roles == [] then []
    else (if roles[0].kind == kind then [roles[0].id] else []) + IdsOfKind(roles[1..], kind)
  }

  /** Element 0 of IdsOfKind, undefined (None) when no role has that kind. */
  function FirstIdOfKind(roles: seq<Role>, kind: string): Option<RoleId>
  {
    var ids := IdsOfKind(roles, kind);
    if ids == [] then None else Some(ids[0])
  }

  /** The user seeding's filter-map-first lookup finds the same role as `find`. */
  lemma {:induction false} FirstIdOfKindIsFind(roles: seq<Role>, kind: string)
    ensures FirstIdOfKind(roles, kind) ==
      match FindRole(roles, kind)
      case None => None
      case Some(i) => Some(roles[i].id)
  {
    if roles != [] && roles[0].kind != kind {
      FirstIdOfKindIsFind(roles[1..], kind);
    }
  }

  /**
   * Resolution of the authenticated id, then the public id; the first missing
   * one aborts the reconciler.
   */
  function ResolveTargets(roles: seq<Role>): (r: Result<Targets, RoleError>)
    ensures r.Failure? <==> FindRole(roles, AuthenticatedKind).None? || FindRole(roles, PublicKind).None?
    ensures r.Failure? ==> r.error == RoleNotFound(
      if FindRole(roles, AuthenticatedKind).None? then AuthenticatedKind else PublicKind)
    ensures r.Success? ==> |roles| >= 2
  {
    match FindRole(roles, AuthenticatedKind)
    case None => Failure(RoleNotFound(AuthenticatedKind))
    case Some(a) =>
      match FindRole(roles, PublicKind)
      case None => Failure(RoleNotFound(PublicKind))
      case Some(b) =>
        assert a != b by { assert roles[a].kind != roles[b].kind; }
        Success(Targets(roles[a].id, roles[b].id))
  }

  /** Each resolved id is the id of the first role of its kind. */
  lemma ResolveTargetsFirstMatch(roles: seq<Role>)
    requires ResolveTargets(roles).Success?
    ensures exists i :: (0 <= i < |roles| && roles[i].kind == AuthenticatedKind &&
      roles[i].id == ResolveTargets(roles).value.authenticatedId &&
      forall j :: 0 <= j < i ==> roles[j].kind != AuthenticatedKind)
    ensures exists i :: (0 <= i < |roles| && roles[i].kind == PublicKind &&
      roles[i].id == ResolveTargets(roles).value.publicId &&
      forall j :: 0 <= j < i ==> roles[j].kind != PublicKind)
  {
  }

  /**
   * When the service's role list has the same authenticated roles, in the same
   * order, as the role query, seed users are stamped with the id the
   * reconcilers resolved.
   */
  lemma StampIsResolvedId(queryRoles: seq<Role>, serviceRoles: seq<Role>)
    requires ResolveTargets(queryRoles).Success?
    requires IdsOfKind(serviceRoles, AuthenticatedKind) == IdsOfKind(queryRoles, AuthenticatedKind)
    ensures FirstIdOfKind(serviceRoles, AuthenticatedKind) == Some(ResolveTargets(queryRoles).value.authenticatedId)
  {
    FirstIdOfKindIsFind(queryRoles, AuthenticatedKind);
  }

  /** `roles[0].permissions.concat(roles[1].permissions)` */
  function Scanned(roles: seq<Role>): seq<Permission>
    requires |roles| >= 2
  {
    roles[0].permissions + roles[1].permissions
  }

  /** The roles with their scanned permission records replaced by `ps`, position by position. */
  function WithScanned(roles: seq<Role>, ps: seq<Permission>): (r: seq<Role>)
    requires |roles| >= 2 && |ps| == |Scanned(roles)|
    ensures |r| == |roles| && Scanned(r) == ps
  {
    var n := |roles[0].permissions|;
    roles[0 := roles[0].(permissions := ps[..n])][1 := roles[1].(permissions := ps[n..])]
  }

  /** A write-back keeps every role's id and kind, and every role after the second. */
  lemma WithScannedFrame(roles: seq<Role>, ps: seq<Permission>)
    requires |roles| >= 2 && |ps| == |Scanned(roles)|
    ensures forall i :: 0 <= i < |roles| ==>
      WithScanned(roles, ps)[i].id == roles[i].id && WithScanned(roles, ps)[i].kind == roles[i].kind
    ensures WithScanned(roles, ps)[2..] == roles[2..]
    ensures |WithScanned(roles, ps)[0].permissions| == |roles[0].permissions|
  {
  }

  /** Writing back the scanned records unchanged leaves the roles unchanged. */
  lemma WithScannedSame(roles: seq<Role>)
    requires |roles| >= 2
    ensures WithScanned(roles, Scanned(roles)) == roles
  {
    var n := |roles[0].permissions|;
    assert Scanned(roles)[..n] == roles[0].permissions;
    assert Scanned(roles)[n..] == roles[1].permissions;
  }

  /** A second write-back replaces the first. */
  lemma WithScannedTwice(roles: seq<Role>, ps: seq<Permission>, qs: seq<Permission>)
    requires |roles| >= 2 && |ps| == |qs| == |Scanned(roles)|
    ensures WithScanned(WithScanned(roles, ps), qs) == WithScanned(roles, qs)
  {
  }

  /** Changing permission records keeps the ids and kinds, so the same targets are resolved. */
  lemma FindRoleKeptByWriteBack(roles: seq<Role>, ps: seq<Permission>, kind: string)
    requires |roles| >= 2 && |ps| == |Scanned(roles)|
    ensures FindRole(WithScanned(roles, ps), kind) == FindRole(roles, kind)
  {
    WithScannedFrame(roles, ps);
  }

  lemma ResolveKeptByWriteBack(roles: seq<Role>, ps: seq<Permission>)
    requires |roles| >= 2 && |ps| == |Scanned(roles)|
    ensures ResolveTargets(WithScanned(roles, ps)) == ResolveTargets(roles)
  {
    FindRoleKeptByWriteBack(roles, ps, AuthenticatedKind);
    FindRoleKeptByWriteBack(roles, ps, PublicKind);
  }
}
