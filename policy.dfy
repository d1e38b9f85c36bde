/**
 * The fixed permission tables of the bootstrap function and the per-record
 * decision each reconciler takes (config/functions/bootstrap.js).
 */
module Policy {

  import opened Wrappers

  type RoleId = int

  /**
   * A permission record of the users-permissions plugin: `kind` is the
   * record's `type` field ("application" for collection endpoints,
   * the plugin name for its own endpoints).
   */
  datatype Permission = Permission(
    id: int,
    role: RoleId,
    kind: string,
    controller: string,
    action: string,
    enabled: bool)

  const ApplicationKind := "application"
  const AuthController := "auth"
  const UserController := "user"

  // Tables of setUsersPermissions, one list per controller and role.
  const PublicAuthActions: seq<string> :=
    ["callback", "connect", "emailconfirmation", "forgotpassword", "register"]
  const PublicUserActions: seq<string> := ["find", "findone", "me"]
  const AuthenticatedAuthActions: seq<string> :=
    ["callback", "connect", "forgotpassword", "register", "resetpassword"]
  const AuthenticatedUserActions: seq<string> := ["find", "findone", "me", "update"]

  // Tables of setCollectionPermissions, keyed by controller.
  const PublicCollectionTable: map<string, seq<string>> := map[
    "user-story-notification" := ["count", "find", "findone"],
    "user-story-comment" := ["count", "find", "findone"],
    "user-story-status" := ["count", "find", "findone"],
    "user-story-policy" := ["count", "find", "findone"],
    "product" := ["count", "find", "findone"],
    "successes" := ["find", "findone"],
    "user-story-comment-thread" := ["count", "find", "findone"],
    "user-story" := ["count", "find", "findone"]
  ]

  const AuthenticatedCollectionTable: map<string, seq<string>> := map[
    "user-story-notification" := ["find", "findone", "update"],
    "user-story-comment" := ["find", "findone", "update", "create"],
    "user-story-status" := ["find", "findone"],
    "user-story-policy" := ["find", "findone"],
    "product" := ["find", "findone"],
    "custom" := ["checkauthor"],
    "successes" := ["find", "findone"],
    "user-story-comment-thread" := ["find", "findone"],
    "user-story" := ["count", "find", "findone", "create", "update"]
  ]

  /** `table[controller] && table[controller].includes(action)` */
  predicate Grants(table: map<string, seq<string>>, controller: string, action: string)
  {
    controller in table && action in table[controller]
  }

  /** The decision of setUsersPermissions for one record; the authenticated role is checked first. */
  predicate UserToEnable(p: Permission, authenticatedId: RoleId, publicId: RoleId)
  {
    if p.role == authenticatedId then
      if p.controller == AuthController && p.action in AuthenticatedAuthActions then true
      else p.controller == UserController && p.action in AuthenticatedUserActions
    else if p.role == publicId then
      if p.controller == AuthController && p.action in PublicAuthActions then true
      else p.controller == UserController && p.action in PublicUserActions
    else false
  }

  /**
   * The decision of setCollectionPermissions for one record: only records of
   * kind "application" are considered, and the public role is checked first.
   */
  predicate CollectionToEnable(p: Permission, authenticatedId: RoleId, publicId: RoleId)
  {
    p.kind == ApplicationKind &&
    if p.role == publicId then Grants(PublicCollectionTable, p.controller, p.action)
    else if p.role == authenticatedId then Grants(AuthenticatedCollectionTable, p.controller, p.action)
    else false
  }

  /** Which of the two reconciliations, with the role ids it resolved (authenticated first). */
  datatype Reconciliation =
    | UsersReconciliation(authenticatedId: RoleId, publicId: RoleId)
    | CollectionReconciliation(authenticatedId: RoleId, publicId: RoleId)

  predicate ToEnable(r: Reconciliation, p: Permission)
  {
    match r
    case UsersReconciliation(a, b) => UserToEnable(p, a, b)
    case CollectionReconciliation(a, b) => CollectionToEnable(p, a, b)
  }

  // ---------------------------------------------------------------------
  // The same policy stated as one table per role class, the shape of a
  // policy rule "(domain, controller) -> allowed actions".

  datatype RoleClass = Public | Authenticated

  function UsersTable(c: RoleClass): map<string, seq<string>>
  {
    match c
    case Public => map[AuthController := PublicAuthActions, UserController := PublicUserActions]
    case Authenticated => map[AuthController := AuthenticatedAuthActions, UserController := AuthenticatedUserActions]
  }

  /** The role class a role id stands for, `first` winning when both ids are equal. */
  function ClassOf(role: RoleId, first: (RoleId, RoleClass), second: (RoleId, RoleClass)): Option<RoleClass>
  {
    if role == first.0 then Some(first.1)
    else if role == second.0 then Some(second.1)
    else None
  }

  /** The user decision is: the record's role class (authenticated first) grants its controller and action. */
  lemma UserDecisionRule(p: Permission, authenticatedId: RoleId, publicId: RoleId)
    ensures UserToEnable(p, authenticatedId, publicId) <==>
      match ClassOf(p.role, (authenticatedId, Authenticated), (publicId, Public))
      case None => false
      case Some(c) => Grants(UsersTable(c), p.controller, p.action)
  {
  }

  // The collection policy written out as one (controller, action) rule per
  // allowed action, for each role class.
  const PublicCollectionRules: set<(string, string)> := {
    ("user-story-notification", "count"), ("user-story-notification", "find"),
    ("user-story-notification", "findone"), ("user-story-comment", "count"),
    ("user-story-comment", "find"), ("user-story-comment", "findone"),
    ("user-story-status", "count"), ("user-story-status", "find"),
    ("user-story-status", "findone"), ("user-story-policy", "count"),
    ("user-story-policy", "find"), ("user-story-policy", "findone"), ("product", "count"),
    ("product", "find"), ("product", "findone"), ("successes", "find"), ("successes", "findone"),
    ("user-story-comment-thread", "count"), ("user-story-comment-thread", "find"),
    ("user-story-comment-thread", "findone"), ("user-story", "count"), ("user-story", "find"),
    ("user-story", "findone")
  }

  const AuthenticatedCollectionRules: set<(string, string)> := {
    ("user-story-notification", "find"), ("user-story-notification", "findone"),
    ("user-story-notification", "update"), ("user-story-comment", "find"),
    ("user-story-comment", "findone"), ("user-story-comment", "update"),
    ("user-story-comment", "create"), ("user-story-status", "find"),
    ("user-story-status", "findone"), ("user-story-policy", "find"),
    ("user-story-policy", "findone"), ("product", "find"), ("product", "findone"),
    ("custom", "checkauthor"), ("successes", "find"), ("successes", "findone"),
    ("user-story-comment-thread", "find"), ("user-story-comment-thread", "findone"),
    ("user-story", "count"), ("user-story", "find"), ("user-story", "findone"),
    ("user-story", "create"), ("user-story", "update")
  }

  function CollectionRules(c: RoleClass): set<(string, string)>
  {
    match c
    case Public => PublicCollectionRules
    case Authenticated => AuthenticatedCollectionRules
  }

  function CollectionTable(c: RoleClass): map<string, seq<string>>
  {
    match c
    case Public => PublicCollectionTable
    case Authenticated => AuthenticatedCollectionTable
  }

  lemma PublicTableMatchesRules(controller: string, action: string)
    ensures Grants(PublicCollectionTable, controller, action) <==> (controller, action) in PublicCollectionRules
  {
    if (controller, action) in PublicCollectionRules {
      assert controller in PublicCollectionTable;
    }
  }

  lemma AuthenticatedTableMatchesRules(controller: string, action: string)
    ensures Grants(AuthenticatedCollectionTable, controller, action) <==> (controller, action) in AuthenticatedCollectionRules
  {
    if (controller, action) in AuthenticatedCollectionRules {
      assert controller in AuthenticatedCollectionTable;
    }
  }

  /** The keyed table of a role class grants exactly the rules listed for that class. */
  lemma CollectionTableMatchesRules(c: RoleClass, controller: string, action: string)
    ensures Grants(CollectionTable(c), controller, action) <==> (controller, action) in CollectionRules(c)
  {
    match c
    case Public => PublicTableMatchesRules(controller, action);
    case Authenticated => AuthenticatedTableMatchesRules(controller, action);
  }

  /**
   * The collection decision is: the record is of kind "application" and its
   * role class (public first) has a rule for its controller and action.
   */
  lemma CollectionDecisionRule(p: Permission, authenticatedId: RoleId, publicId: RoleId)
    ensures CollectionToEnable(p, authenticatedId, publicId) <==>
      p.kind == ApplicationKind &&
      exists c :: ClassOf(p.role, (publicId, Public), (authenticatedId, Authenticated)) == Some(c) &&
                  (p.controller, p.action) in CollectionRules(c)
  {
    match ClassOf(p.role, (publicId, Public), (authenticatedId, Authenticated))
    case None =>
    case Some(c) =>
      CollectionTableMatchesRules(c, p.controller, p.action);
  }

  /** setUsersPermissions applies no filter on the record's kind. */
  lemma UserDecisionIgnoresKind(p: Permission, kind: string, authenticatedId: RoleId, publicId: RoleId)
    ensures UserToEnable(p.(kind := kind), authenticatedId, publicId) == UserToEnable(p, authenticatedId, publicId)
  {
  }

  /** setCollectionPermissions never selects a record whose kind is not "application". */
  lemma CollectionOnlyApplication(p: Permission, authenticatedId: RoleId, publicId: RoleId)
    requires p.kind != ApplicationKind
    ensures !CollectionToEnable(p, authenticatedId, publicId)
  {
  }

  /** Neither decision looks at the record's current `enabled` flag. */
  lemma DecisionIgnoresEnabled(r: Reconciliation, p: Permission, e: bool)
    ensures ToEnable(r, p.(enabled := e)) == ToEnable(r, p)
  {
  }

  /**
   * No record is selected by both reconciliations: the user tables cover only
   * the controllers "auth" and "user", which the collection tables do not name.
   */
  lemma ReconciliationsDisjoint(p: Permission, authenticatedId: RoleId, publicId: RoleId)
    ensures !(UserToEnable(p, authenticatedId, publicId) && CollectionToEnable(p, authenticatedId, publicId))
  {
    if UserToEnable(p, authenticatedId, publicId) {
      assert p.controller == AuthController || p.controller == UserController;
      assert p.controller !in PublicCollectionTable && p.controller !in AuthenticatedCollectionTable;
    }
  }

  /** The kind of the users-permissions plugin's own permission records. */
  const PluginKind := "users-permissions"

  function Record(role: RoleId, kind: string, controller: string, action: string): Permission
  {
    Permission(0, role, kind, controller, action, false)
  }

  /** The user-permission cases the tables single out, for distinct role ids. */
  lemma UserPolicyCases(authenticatedId: RoleId, publicId: RoleId)
    requires authenticatedId != publicId
    ensures UserToEnable(Record(publicId, PluginKind, "auth", "emailconfirmation"), authenticatedId, publicId)
    ensures !UserToEnable(Record(publicId, PluginKind, "auth", "resetpassword"), authenticatedId, publicId)
    ensures UserToEnable(Record(authenticatedId, PluginKind, "auth", "resetpassword"), authenticatedId, publicId)
    ensures !UserToEnable(Record(authenticatedId, PluginKind, "auth", "emailconfirmation"), authenticatedId, publicId)
    ensures UserToEnable(Record(authenticatedId, PluginKind, "user", "update"), authenticatedId, publicId)
    ensures !UserToEnable(Record(publicId, PluginKind, "user", "update"), authenticatedId, publicId)
    ensures UserToEnable(Record(publicId, PluginKind, "auth", "register"), authenticatedId, publicId)
    ensures !UserToEnable(Record(publicId, PluginKind, "auth", "update"), authenticatedId, publicId)
  {
  }

  /** The collection-permission cases the tables single out, for distinct role ids. */
  lemma CollectionPolicyCases(authenticatedId: RoleId, publicId: RoleId)
    requires authenticatedId != publicId
    ensures CollectionToEnable(Record(authenticatedId, ApplicationKind, "custom", "checkauthor"), authenticatedId, publicId)
    ensures !CollectionToEnable(Record(publicId, ApplicationKind, "custom", "checkauthor"), authenticatedId, publicId)
    ensures CollectionToEnable(Record(publicId, ApplicationKind, "product", "count"), authenticatedId, publicId)
    ensures !CollectionToEnable(Record(authenticatedId, ApplicationKind, "product", "count"), authenticatedId, publicId)
    ensures !CollectionToEnable(Record(publicId, ApplicationKind, "successes", "count"), authenticatedId, publicId)
    ensures !CollectionToEnable(Record(authenticatedId, ApplicationKind, "successes", "count"), authenticatedId, publicId)
    ensures CollectionToEnable(Record(authenticatedId, ApplicationKind, "user-story", "count"), authenticatedId, publicId)
    ensures !CollectionToEnable(Record(publicId, ApplicationKind, "user-story", "create"), authenticatedId, publicId)
  {
  }
}
