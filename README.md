# Permission bootstrap of a Strapi application, in Dafny

This project models the bootstrap function of a Strapi v3 application
(`config/functions/bootstrap.js`). On the first start in an environment it
turns on a fixed whitelist of API permissions for the `public` and
`authenticated` roles, and then seeds demo data depending on `NODE_ENV`.
The model covers the parts that make decisions:

- the four policy tables, copied exactly: the user-permission tables for
  controllers `auth` and `user`, and the keyed collection tables of eight
  (public) and nine (authenticated) controllers;
- the per-record decisions of `setUsersPermissions` (authenticated role checked
  first, no filter on the record's `type`) and of `setCollectionPermissions`
  (only records of type `application`, public role checked first);
- role lookup (`roles.find` by `type`, the `filter/map/[0]` variant used when
  seeding users) and the scanned list `roles[0].permissions ++ roles[1].permissions`;
- both reconcilers, as a loop over the scanned records that writes back every
  selected record with `enabled = true`;
- the first-run gate `isFirstRun` over the `initHasRun` entry of the "setup"
  store, kept per environment;
- the exported orchestrator, and the stamping of the authenticated role id on
  every seed user.

The store is the class `Bootstrap.Strapi`. Its field `roles` is what the role
query returns, each role with its permission records. Its field `initHasRun`
maps an environment name to the stored flag. An absent entry reads as
undefined, which is falsy. Each reconciler is specified by the pure function
`Reconciler.Reconcile` on the scanned records. `Reconciler.Reconciled` gives the
role list after the result has been written back. The lemmas about these
functions give the frame, idempotence and order-independence properties.

Points where the code's behaviour is easy to misread:

- A missing `public` or `authenticated` role makes `.id` of `undefined` throw.
  The reconciler's promise then rejects. The rejection is not caught: the
  orchestrator awaits it, so nothing after it runs. Here a rejection is the
  `Fail(RoleNotFound(..))` outcome.
- The public collection table has no `custom` entry; only the authenticated
  table has one (`checkauthor`).
- Each role id comes from the FIRST role of that type. The scanned records are
  those of the roles at positions 0 and 1, whichever roles those are. On a
  fresh install these are exactly the two built-in roles.
  `Roles.ResolveTargets` shows that the `roles[1]` access cannot fail once
  both ids were found.
- The store flag is scoped by `strapi.config.environment`, while the seeding
  branch reads `process.env.NODE_ENV`. These are two separate parameters
  (`environment`, `nodeEnv`).
- The seed users are stamped from the role list of the plugin's `getRoles()`
  service, a different call from the role query the reconcilers use. It is the
  parameter `serviceRoles`. `Roles.StampIsResolvedId` shows that when that list
  has the same authenticated roles in the same order as the role query, every
  seed user gets the authenticated id the reconcilers resolved.

## Model

| member | source | states |
|---|---|---|
| `Policy.UserDecisionRule` | config/functions/bootstrap.js:44-74 | a record is selected by the user reconciler iff its role is the authenticated id and the authenticated table grants its controller/action, or its role is (only) the public id and the public table grants them |
| `Policy.CollectionTableMatchesRules` | config/functions/bootstrap.js:94-115 | the keyed table of each role class (controller key present and its list `includes` the action) grants exactly the pairs of an explicit list of 23 public and 23 authenticated (controller, action) rules |
| `Policy.CollectionDecisionRule` | config/functions/bootstrap.js:92-133 | a record is selected by the collection reconciler iff it has type `application`, its role is the public id (checked first) or the authenticated id, and the explicit rule list of that role class contains its (controller, action) |
| `Policy.UserDecisionIgnoresKind` | config/functions/bootstrap.js:60-74 | the user decision does not depend on the record's type |
| `Policy.CollectionOnlyApplication` | config/functions/bootstrap.js:92-117 | a record whose type is not `application` is never selected by the collection reconciler |
| `Policy.DecisionIgnoresEnabled` | config/functions/bootstrap.js:60-133 | neither decision depends on the record's current `enabled` flag |
| `Policy.ReconciliationsDisjoint` | config/functions/bootstrap.js:45-115 | no record is selected by both reconcilers |
| `Policy.UserPolicyCases` | config/functions/bootstrap.js:45-74 | public `auth/emailconfirmation` and `auth/register` are enabled, public `auth/resetpassword` and `auth/update` are not; authenticated `auth/resetpassword` is enabled, authenticated `auth/emailconfirmation` is not; `user/update` only for authenticated |
| `Policy.CollectionPolicyCases` | config/functions/bootstrap.js:94-133 | `custom/checkauthor` only for authenticated; `product/count` only for public; `successes/count` for neither role; authenticated `user-story/count` is enabled; public `user-story/create` is not |
| `Roles.FindRole` | config/functions/bootstrap.js:56-57 | the result is absent iff no role has the type, otherwise it is the index of the first role that has it |
| `Roles.FirstIdOfKindIsFind` | config/functions/bootstrap.js:34-35 | the seeding lookup `filter(type).map(id)[0]` yields the id of the role `find` selects, and is undefined exactly when `find` finds nothing |
| `Roles.ResolveTargets` | config/functions/bootstrap.js:55-58 | resolution fails iff a role type is missing, naming `authenticated` when that one is missing (it is looked up first) and `public` otherwise; on success there are at least two roles, so `roles[1]` exists |
| `Roles.StampIsResolvedId` | config/functions/bootstrap.js:34-38 | when the `getRoles()` list has the same authenticated role ids, in order, as the role query, the stamped role is the authenticated id the reconcilers resolved |
| `Roles.ResolveTargetsFirstMatch` | config/functions/bootstrap.js:56-57 | each resolved id is the id of the first role of its type |
| `Roles.WithScanned` | config/functions/bootstrap.js:58 | writing a list of records back to the first two roles has the same length and scans back as exactly that list |
| `Reconciler.Reconcile` | config/functions/bootstrap.js:60-81 | each selected record becomes itself with `enabled = true`, every other record is unchanged, and the order and length stay the same |
| `Reconciler.ReconcileFrame` | config/functions/bootstrap.js:75-81 | only `enabled` may change; afterwards it is true iff it was true or the record is selected; a record changes iff it is selected and was disabled, so nothing is ever disabled |
| `Reconciler.ReconcileIdempotent` | config/functions/bootstrap.js:75-80 | reconciling the output again gives the same records |
| `Reconciler.Reconciled` | config/functions/bootstrap.js:135-139 | the store after the write-back keeps its number of roles and of scanned records |
| `Reconciler.ReconciledKeepsTargets` | config/functions/bootstrap.js:86-89 | after a reconciliation the role lookup resolves the same ids, so the second reconciler targets the same roles |
| `Reconciler.ReconciledIdempotent` | config/functions/bootstrap.js:135-139 | running a reconciler on the store a second time leaves it as the first run did |
| `Reconciler.ReconcileCommute` | config/functions/bootstrap.js:160-161 | the two reconciliations give the same records in either order, so it does not matter that the collection updates are not awaited |
| `Bootstrap.Strapi.IsFirstRun` | config/functions/bootstrap.js:144-153 | answers true iff the stored flag for the environment was absent or false; sets it to true in every case and changes no other environment, so the next call answers false |
| `Bootstrap.Strapi.UpdatePermission` | config/functions/bootstrap.js:77-80 | the update replaces exactly one scanned record and nothing else in the store |
| `Bootstrap.Strapi.EnableSelected` | config/functions/bootstrap.js:60-82 | the loop leaves the store equal to `Reconciled` of the old store |
| `Bootstrap.Strapi.SetUsersPermissions` | config/functions/bootstrap.js:44-83 | rejects with the missing role type and leaves the store unchanged, or applies the user reconciliation for the resolved ids |
| `Bootstrap.Strapi.SetCollectionPermissions` | config/functions/bootstrap.js:85-142 | rejects with the missing role type and leaves the store unchanged, or applies the collection reconciliation for the resolved ids |
| `Bootstrap.StampUserRoles` | config/functions/bootstrap.js:34-40 | every seed user's role becomes the id of the first authenticated role in the `getRoles()` list (undefined when there is none); no other field changes |
| `Bootstrap.Strapi.SetPermissions` | config/functions/bootstrap.js:160-161 | collection reconciliation runs first, then user reconciliation; a rejection of the first stops the second and leaves the store unchanged |
| `Bootstrap.Strapi.Initialize` | config/functions/bootstrap.js:158-167 | after both reconciliations, `test` seeds everything and stamps every seed user with the first authenticated id of the `getRoles()` list, `development` seeds statuses only, anything else seeds nothing; a rejection skips seeding |
| `Bootstrap.Strapi.Bootstrap` | config/functions/bootstrap.js:155-169 | the flag always ends true; when it was already set, nothing else runs and nothing changes; otherwise the first-run branch runs as `Initialize` states |

## Left out

- Seeding: the load of the seed data file and the creation of products, stories, comments, statuses and users are I/O. The orchestrator records them only as the steps `InsertAllItems` / `InsertStatuses`. Of the seeding, only the role stamping of the seed users is modelled. A seed user is modelled with its username and role only.
- Concurrency: the un-awaited `async` callbacks of both `forEach` loops and the fire-and-forget `insertStatuses()` are modelled as sequential, completed steps. `Reconciler.ReconcileCommute` and `Policy.ReconciliationsDisjoint` show that the order of the two reconciliations' updates does not change the result.
- The user creation in the seeding is not awaited (its `map` callback returns nothing). It is not modelled.
- Failures of the store itself are not modelled. This covers a failing permission update (an unhandled rejection inside a callback) and a failing read or write of the `initHasRun` entry. Every update succeeds in the model.
- `Bootstrap.Strapi.UpdatePermission`: the update by `id` is modelled as a write to the scanned record itself, so permission ids are taken to be primary keys. The user reconciler writes back the whole fetched record and the collection reconciler writes only `{ enabled: true }`. Both have the same effect on a record that no one else changed since it was fetched, and concurrent writers are not modelled.
- JavaScript details: the loose `==` on role ids is plain equality on one id type. The keyed table lookup ignores keys inherited from `Object.prototype`, such as a controller named `constructor`. Records of a role's `permissions` list are taken as populated.
- Logging (`console.log`) and the environment variable read: the environment names are parameters.
