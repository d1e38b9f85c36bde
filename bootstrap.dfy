/**
 * The bootstrap function of config/functions/bootstrap.js over an in-memory
 * stand-in for Strapi: the role query (roles with their permission records),
 * the permission update, and the plugin store entry `initHasRun` kept per
 * environment.
 */
module Bootstrap {

  import opened Wrappers
  import opened Policy
  import opened Roles
  import opened Reconciler

  /** A user of the seed data; only the role it is stamped with is modelled. */
  datatype SeedUser = SeedUser(username: string, role: Option<RoleId>)

  /** The stages the orchestrator starts, in the order it starts them. */
  datatype Step = CollectionPermissions | UsersPermissions | InsertAllItems | InsertStatuses

  /** `!initHasRun`, where an absent entry reads as undefined (falsy). */
  predicate FirstRun(initHasRun: map<string, bool>, environment: string)
  {
    !(environment in initHasRun && initHasRun[environment])
  }

  /** The seeding branch on NODE_ENV (None when the variable is unset). */
  function SeedSteps(nodeEnv: Option<string>): seq<Step>
  {
    if nodeEnv == Some("test") then [InsertAllItems]
    else if nodeEnv == Some("development") then [InsertStatuses]
    else []
  }

  function UsersOf(t: Targets): Reconciliation
  {
    UsersReconciliation(t.authenticatedId, t.publicId)
  }

  function CollectionOf(t: Targets): Reconciliation
  {
    CollectionReconciliation(t.authenticatedId, t.publicId)
  }

  /**
   * The role stamping of insertAllItems: every seed user gets the id of the
   * first authenticated role in `serviceRoles`, the list returned by the
   * plugin's `getRoles()` service (a separate call from the role query).
   */
  method StampUserRoles(serviceRoles: seq<Role>, users: array<SeedUser>)
    modifies users
    ensures forall i :: 0 <= i < users.Length ==>
      users[i] == old(users[i]).(role := FirstIdOfKind(serviceRoles, AuthenticatedKind))
  {
    var id := FirstIdOfKind(serviceRoles, AuthenticatedKind);
    var i := 0;
    while i < users.Length
      invariant 0 <= i <= users.Length
      invariant forall k :: 0 <= k < i ==> users[k] == old(users[k]).(role := id)
      invariant forall k :: i <= k < users.Length ==> users[k] == old(users[k])
    {
      users[i] := users[i].(role := id);
      i := i + 1;
    }
  }

  class Strapi {
    /** The result of the role query, each role with its permission records. */
    var roles: seq<Role>
    /** The `initHasRun` entry of the "setup" store, one per environment. */
    var initHasRun: map<string, bool>

    constructor (roles: seq<Role>, initHasRun: map<string, bool>)
      ensures this.roles == roles && this.initHasRun == initHasRun
    {
      this.roles := roles;
      this.initHasRun := initHasRun;
    }

    /** isFirstRun: read the flag, set it to true whatever it was, answer its negation. */
    method IsFirstRun(environment: string) returns (first: bool)
      modifies this`initHasRun
      ensures first == FirstRun(old(initHasRun), environment)
      ensures initHasRun == old(initHasRun)[environment := true]
      ensures !FirstRun(initHasRun, environment)
    {
      var hasRun := environment in initHasRun && initHasRun[environment];
      initHasRun := initHasRun[environment := true];
      first := !hasRun;
    }

    /** The permission update by id, which addresses the k-th scanned record. */
    method UpdatePermission(k: nat, p: Permission)
      requires |roles| >= 2 && k < |Scanned(roles)|
      modifies this`roles
      ensures roles == WithScanned(old(roles), Scanned(old(roles))[k := p])
    {
      var n := |roles[0].permissions|;
      if k < n {
        roles := roles[0 := roles[0].(permissions := roles[0].permissions[k := p])];
      } else {
        roles := roles[1 := roles[1].(permissions := roles[1].permissions[k - n := p])];
      }
      assert Scanned(roles) == Scanned(old(roles))[k := p];
    }

    /**
     * The `forEach` of both reconcilers: every scanned record the decision
     * selects is set to enabled and written back.
     */
    method EnableSelected(r: Reconciliation)
      requires |roles| >= 2
      modifies this`roles
      ensures roles == Reconciled(old(roles), r)
    {
      var permissions := Scanned(roles);
      ghost var scanned := permissions;
      WithScannedSame(roles);
      var i := 0;
      while i < |permissions|
        invariant 0 <= i <= |permissions| == |scanned|
        invariant |old(roles)| >= 2 && |scanned| == |Scanned(old(roles))|
        invariant roles == WithScanned(old(roles), permissions)
        invariant forall k :: 0 <= k < i ==> permissions[k] == Reconcile(scanned, r)[k]
        invariant forall k :: i <= k < |permissions| ==> permissions[k] == scanned[k]
      {
        var permission := permissions[i];
        if ToEnable(r, permission) {
          permission := permission.(enabled := true);
          permissions := permissions[i := permission];
          UpdatePermission(i, permission);
          WithScannedTwice(old(roles), permissions[i := scanned[i]], permissions);
        }
        i := i + 1;
      }
      assert permissions == Reconcile(scanned, r);
    }

    /** setUsersPermissions */
    method SetUsersPermissions() returns (o: Outcome<RoleError>)
      modifies this`roles
      ensures o.Fail? <==> ResolveTargets(old(roles)).Failure?
      ensures o.Fail? ==> o.error == ResolveTargets(old(roles)).error && roles == old(roles)
      ensures o.Pass? ==> roles == Reconciled(old(roles), UsersOf(ResolveTargets(old(roles)).value))
    {
      var targets := ResolveTargets(roles);
      if targets.Failure? {
        return Fail(targets.error);
      }
      EnableSelected(UsersOf(targets.value));
      o := Pass;
    }

    /** setCollectionPermissions */
    method SetCollectionPermissions() returns (o: Outcome<RoleError>)
      modifies this`roles
      ensures o.Fail? <==> ResolveTargets(old(roles)).Failure?
      ensures o.Fail? ==> o.error == ResolveTargets(old(roles)).error && roles == old(roles)
      ensures o.Pass? ==> roles == Reconciled(old(roles), CollectionOf(ResolveTargets(old(roles)).value))
    {
      var targets := ResolveTargets(roles);
      if targets.Failure? {
        return Fail(targets.error);
      }
      EnableSelected(CollectionOf(targets.value));
      o := Pass;
    }

    /**
     * The two awaited reconciliations of the first-run branch, collection
     * permissions first; a rejection of the first skips the second.
     */
    method SetPermissions() returns (steps: seq<Step>, o: Outcome<RoleError>)
      modifies this`roles
      ensures match ResolveTargets(old(roles))
        case Failure(e) =>
          steps == [CollectionPermissions] && o == Fail(e) && roles == old(roles)
        case Success(t) =>
          steps == [CollectionPermissions, UsersPermissions] && o == Pass &&
          roles == Reconciled(Reconciled(old(roles), CollectionOf(t)), UsersOf(t))
    {
      ghost var t := ResolveTargets(roles);
      steps := [CollectionPermissions];
      o := SetCollectionPermissions();
      if o.Pass? {
        ReconciledKeepsTargets(old(roles), CollectionOf(t.value));
        steps := steps + [UsersPermissions];
        o := SetUsersPermissions();
      }
    }

    /**
     * The first-run branch of the exported bootstrap: the reconciliations,
     * then seeding by NODE_ENV unless a reconciliation rejected.
     */
    method Initialize(nodeEnv: Option<string>, serviceRoles: seq<Role>, users: array<SeedUser>)
      returns (steps: seq<Step>, o: Outcome<RoleError>)
      modifies this`roles, users
      ensures match ResolveTargets(old(roles))
        case Failure(e) =>
          steps == [CollectionPermissions] && o == Fail(e) &&
          roles == old(roles) && users[..] == old(users[..])
        case Success(t) =>
          steps == [CollectionPermissions, UsersPermissions] + SeedSteps(nodeEnv) && o == Pass &&
          roles == Reconciled(Reconciled(old(roles), CollectionOf(t)), UsersOf(t)) &&
          (nodeEnv == Some("test") ==> forall i :: 0 <= i < users.Length ==>
            users[i] == old(users[i]).(role := FirstIdOfKind(serviceRoles, AuthenticatedKind))) &&
          (nodeEnv != Some("test") ==> users[..] == old(users[..]))
    {
      ghost var t := ResolveTargets(roles);
      steps, o := SetPermissions();
      if o.Pass? {
        if nodeEnv == Some("test") {
          steps := steps + [InsertAllItems];
          StampUserRoles(serviceRoles, users);
        } else if nodeEnv == Some("development") {
          steps := steps + [InsertStatuses];
        }
      }
    }

    /** The exported bootstrap: nothing but the gate runs unless it answers first run. */
    method Bootstrap(environment: string, nodeEnv: Option<string>, serviceRoles: seq<Role>, users: array<SeedUser>)
      returns (steps: seq<Step>, o: Outcome<RoleError>)
      modifies this, users
      ensures initHasRun == old(initHasRun)[environment := true]
      ensures !FirstRun(old(initHasRun), environment) ==>
        steps == [] && o == Pass && roles == old(roles) && users[..] == old(users[..])
      ensures FirstRun(old(initHasRun), environment) ==>
        match ResolveTargets(old(roles))
        case Failure(e) =>
          steps == [CollectionPermissions] && o == Fail(e) &&
          roles == old(roles) && users[..] == old(users[..])
        case Success(t) =>
          steps == [CollectionPermissions, UsersPermissions] + SeedSteps(nodeEnv) && o == Pass &&
          roles == Reconciled(Reconciled(old(roles), CollectionOf(t)), UsersOf(t)) &&
          (nodeEnv == Some("test") ==> forall i :: 0 <= i < users.Length ==>
            users[i] == old(users[i]).(role := FirstIdOfKind(serviceRoles, AuthenticatedKind))) &&
          (nodeEnv != Some("test") ==> users[..] == old(users[..]))
    {
      var shouldInit := IsFirstRun(environment);
      if shouldInit {
        steps, o := Initialize(nodeEnv, serviceRoles, users);
      } else {
        steps, o := [], Pass;
      }
    }
  }
}
