# CQRS user service: write, project, read

This project models the core of a small CQRS user-management service. The
command side (`CommandStack.user_domain`) writes a user row to a relational
store and publishes events. Projection handlers (`EventsComponent`) turn
those events into documents in a query store. The query side (`QueryStack`)
reads only those documents.

Modules:

- `Models` (models.dfy): the `PermissionsType` enum. It also holds the shapes, keys and
  field constraints of the `users` and `permissions` tables, of the
  `UsersQueryModel` view documents and of the `UsersPerPermissionsQueryModel`
  group documents, plus the request payload. A payload is a dictionary whose keys may be absent.
- `Commands` (command_stack.dfy): class `CommandStack`. It holds the `users` table, the
  `permissions` table, the session's pending row and the log of dispatched
  events. `UserDomain` performs the steps of `user_domain` in the source's
  order: build the row, add it, commit, dispatch `user_created`, look up the
  permission, then dispatch `permission_user_related`. Any failure rolls back and is
  swallowed. Each event is an immutable snapshot of the payload at dispatch time.
- `Projections` (events_component.dfy): class `EventsComponent`, holding the view and group
  collections. Its two handlers are proved equal to the functions
  `ProjectUserCreated` and `ProjectPermissionUserRelated`. Those functions
  state what a delivery does, and lemmas about them cover redelivery.
- `Queries` (query_stack.dfy): `get_user`, `get_all_users` and
  `get_users_by_permission` as pure functions over the query store.
- `Cycle` (cycle.dfy): end-to-end properties. Every dispatched event projects to the committed
  row's fields, and replaying the event log twice leaves the views as one replay did.

Where the system's design description and the code disagree, the model follows the code:

- **Permission check after commit.** The design looks up the permission before committing and rolls back on
  failure. The code commits first (service.py:79), dispatches `user_created` (line 80), and
  only then looks up the permission (lines 82-83). Its rollback (line 87)
  therefore cannot undo the row or the event. `CommandStack.UserDomain` states
  this.
- **Unknown permission names.** The model takes the database to enforce the column types declared in
  models.py (see "## Left out" for the databases that do not). On such a database, a name that no `PermissionsType` member has, such as
  `"superadmin"`, leaves no row. The cause is the `Enum` type of the `permission` column (models.py:39),
  which makes the commit fail; it is not the lookup. A valid enum value without a seeded permission
  row keeps its row.
- **Membership is not deduplicated.** The design asks for deduplicated group membership. The code appends
  without checking (service.py:120), so N deliveries of one
  `permission_user_related` event leave N entries
  (`Projections.MembershipGrowsPerDelivery`, `Projections.RedeliveryDuplicatesMembers`).
- **Page 0 and limit 0.** `get_all_users` reads page 0 as page 1 (service.py:150-151). A limit of 0 is
  taken as "no limit", so it returns the whole collection. This holds from mongoengine 0.16 on
  (see "## Left out").

## Model

| member | source | states |
|---|---|---|
| `Models.ParsePermission` | cqrs_app/models.py:26-28 | `PermissionsType` is a closed set of two members. A string parses exactly when it is the name of a member, and then to that member |
| `Models.RowValid` | cqrs_app/models.py:35-39 | A `users` row is accepted only with a name and an email of at most 200 characters and a permission that names a `PermissionsType` member |
| `Models.UsersTable` | cqrs_app/models.py:34 | The `users` table is keyed by its primary key `id`: each id holds one row, that row carries this id, and every row is valid |
| `Models.ViewValid` | cqrs_app/models.py:58-59 | A `UsersQueryModel` document has a name and an email of at most 200 characters; its required fields are present by construction |
| `Models.ViewsCollection` | cqrs_app/models.py:57 | The view collection is keyed by `id`: each id holds one document, that document carries this id, and every document is valid |
| `Models.GroupsCollection` | cqrs_app/models.py:66-68 | The group collection is keyed by `permission`: one document per permission string, carrying that string, whose embedded snapshots are valid and all filed under that permission |
| `Commands.BuildRow` | cqrs_app/service.py:71-77 | The row is built exactly when all of `id`, `name`, `email`, `description` and `permission` are present, and then carries the payload's values. Otherwise it fails with `KeyError` on a required key |
| `Commands.LookupPermission` | cqrs_app/service.py:82-83 | Finds a description exactly when some permission row has that name, and returns that row's description. Otherwise it fails with `PermissionNotFound` |
| `Commands.SeededLookupSucceeds` | cqrs_app/dbmigrate.py:16-23 | With the two seeded permission rows, every name the enum column admits resolves to its seeded description |
| `Commands.CommandStack.Valid` | cqrs_app/service.py:78-85 | The service's invariant: the `users` table is well keyed, and every event in the log names a committed row carrying exactly the event payload's fields. Events are published only after their row is committed |
| `Commands.CommandStack.constructor` | cqrs_app/dbmigrate.py:11-25 | A fresh service has an empty `users` table, the given permission rows, no pending row and no events |
| `Commands.CommandStack.Add` | cqrs_app/service.py:78 | `db.add` makes the row pending and commits nothing |
| `Commands.CommandStack.Commit` | cqrs_app/service.py:79 | A pending row is committed exactly when its id is new and its columns are valid (name and email at most 200 characters, permission an enum member). The table stays keyed by id. A refused row stays pending and the table is unchanged |
| `Commands.CommandStack.Rollback` | cqrs_app/service.py:87 | Rollback discards only the pending row; committed rows are untouched |
| `Commands.CommandStack.Dispatch` | cqrs_app/service.py:80-85 | Appends an immutable snapshot of the payload to the event log. It may only publish a payload whose row is committed with the same fields |
| `Commands.CommandStack.UserDomain` | cqrs_app/service.py:69-88 | A missing key or a refused commit leaves the table and the log unchanged. An event is logged exactly when the row commits. A commit adds exactly one row, under the payload's id, and logs `user_created` with the payload first. Without a matching permission row, the row and that event remain and nothing more is logged. With one, `permission_user_related` follows immediately, carrying the payload plus that row's description |
| `Projections.ViewOf` | cqrs_app/service.py:97-103 | A view document is saved only if `id`, `name`, `email`, `description` and `permission` are all present and name and email are at most 200 characters. It then equals the payload's fields. A missing `id` or `name` is a `KeyError`; anything else is a validation error |
| `Projections.ProjectUserCreated` | cqrs_app/service.py:95-105 | A valid payload is upserted under its id. Every other view is kept, and an invalid payload changes nothing. The collection stays keyed by id with valid views |
| `Projections.EventsComponent.constructor` | cqrs_app/models.py:56-68 | The query store starts with no views and no groups |
| `Projections.EventsComponent.UserCreatedNormalizeDb` | cqrs_app/service.py:95-105 | The view collection becomes `ProjectUserCreated` of the old one. Every failure is logged, never raised |
| `Projections.ProjectPermissionUserRelated` | cqrs_app/service.py:108-131 | An existing group gets the snapshot appended last and keeps its description. A missing group is created with `permission_description` and the one snapshot. Nothing is saved when the snapshot is invalid, or when the group is missing and no description is carried. Other groups are unchanged, and each member stays filed under its own permission |
| `Projections.EventsComponent.PermissionUserRelatedNormalizeDb` | cqrs_app/service.py:108-131 | The group collection becomes `ProjectPermissionUserRelated` of the old one. A missing `id`, `name` or `permission`, or a failed save of an existing group, escapes the handler. A missing description when creating a group is logged |
| `Projections.UserCreatedIdempotent` | cqrs_app/service.py:96-103 | Delivering the same `user_created` event twice gives the same view map as delivering it once |
| `Projections.UserCreatedRedelivery` | cqrs_app/service.py:96-103 | Any number n >= 1 of deliveries of one `user_created` event gives the view map of a single delivery |
| `Projections.RedeliverToExistingGroup` | cqrs_app/service.py:117-121 | n deliveries to an existing group append n copies of the snapshot after its old members and keep its description |
| `Projections.MembershipGrowsPerDelivery` | cqrs_app/service.py:116-129 | n deliveries of one `permission_user_related` event append n copies of the snapshot to its group's list, after the old members. The group's description stays as it was, or is the carried one if the group was created |
| `Projections.RedeliveryTouchesOneGroup` | cqrs_app/service.py:116-129 | No number of deliveries of one `permission_user_related` event changes any other group |
| `Projections.RedeliveryDuplicatesMembers` | cqrs_app/service.py:117-121 | n deliveries of one `permission_user_related` event add exactly n entries for its user to its group. In an empty store that leaves n entries, not one |
| `Queries.GetUser` | cqrs_app/service.py:138-145 | Returns the stored view exactly when the id is present, and that view has this id. Otherwise it returns `NotFound`. It changes nothing |
| `Queries.GetUsersByPermission` | cqrs_app/service.py:159-168 | Returns the group document exactly when one exists for the permission. Every member listed belongs to that permission. Otherwise it returns `NotFound` |
| `Queries.GetAllUsers` | cqrs_app/service.py:148-156 | Returns the views from the offset on, in collection order. There are at most `limit` of them, and none when the offset is past the end. A limit of 0 returns the whole collection |
| `Queries.PageZeroIsFirstPage` | cqrs_app/service.py:150-151 | Page 0 and page 1 return the same views |
| `Queries.PageOfIndex` | cqrs_app/service.py:152-153 | The i-th view of the collection appears on page i/limit+1, at position i mod limit |
| `Queries.PagesCoverCollection` | cqrs_app/service.py:152-153 | Reading pages 1..n in turn yields exactly the first n*limit views of the collection, in order, with no gaps or repeats |
| `Cycle.ReadAfterProjection` | cqrs_app/service.py:71-103 | A payload whose row is committed always passes the view's validation. Once projected, `get_user` of its id returns the row's fields. Before projection, an id not yet stored reads as `NotFound` |
| `Cycle.RelatedEventJoinsGroup` | cqrs_app/service.py:84-129 | The `permission_user_related` event of a committed row yields a snapshot equal to the row, appended last to the group of its permission. A new group gets the carried description |
| `Cycle.LoggedEventsProject` | cqrs_app/service.py:78-103 | Every event in a valid command log belongs to a committed row, and projecting it makes `get_user` return that row |
| `Cycle.ReplayViewsAt` | cqrs_app/service.py:94-105 | After replaying a log, each id holds the view of the latest valid `user_created` event for it, or else its previous view |
| `Cycle.ReplayTwiceIsReplayOnce` | cqrs_app/service.py:94-105 | Redelivering a whole log after it was applied leaves the view collection unchanged |

## Left out

- The HTTP front end (`ApiService`): routing, JSON parsing, status codes and the `Location` header. The `uuid1` id is generated there, so the model takes `id` as part of the payload.
- The RPC and event transport: `EventDispatcher`, `RpcProxy`, `event_handler` and `ClusterRpcProxy`. Dispatching is an append to the command side's event log. Delivery is an explicit handler call, and redelivery is repeated calls. The broker never refuses a dispatch in this model.
- `logging.error` calls. Only the fact that an exception is swallowed (or escapes) is kept.
- JSON serialisation (`to_json`, `json.dumps({'error': e})`). Read errors are the abstract result `NotFound`.
- Mongo's natural order. `Queries.GetAllUsers` takes the view collection as a given sequence and is not tied to the keyed view map.
- `created_at` clock defaults and the `connect(...)` call.
- Payload values are modelled only as present or absent strings. A key whose JSON value is null, a number or an object is not modelled.
- Store failures other than the modelled constraints: an unreachable database and failed Mongo writes.
- Schema defects that would stop the service before any request is handled. These are the foreign key to a table named `pemissions`, the indexes on columns that do not exist, the import of `UsersStruct` (not defined in models.py), and `UsersQueryModel` used as an embedded document type. The snapshot embedded in a group is modelled with the `UsersQueryModel` fields and constraints.
- Concurrency across requests and handlers. Each operation runs alone.
- `Commands.CommandStack.Commit`: the session is modelled with at most one pending row, the only case `user_domain` produces.
- `Commands.CommandStack.Commit` (with `Models.RowValid`): the refusal of names and emails over 200 characters and of permission strings outside the enum assumes a database that refuses every value the declared column types do not admit. SQLAlchemy does not check them itself. PostgreSQL and MySQL store a `VARCHAR(200)` value whose characters past the 200th are all spaces truncated to 200 characters instead of refusing it; the `user_created` and `permission_user_related` events still carry the untruncated value, so both projections then reject it and the user never reaches the read side. For such an input the committed row no longer carries exactly the payload's fields (`Commands.CommandStack.Valid`), and `Cycle.ReadAfterProjection`'s claim that a committed payload passes the view's validation does not hold. SQLite ignores `VARCHAR` lengths, and non-strict MySQL truncates. With SQLAlchemy 1.4 or later no CHECK constraint is created, so an unknown permission string can be stored. On such a database the row commits and `user_domain` fails later, at the permission lookup.
- `Queries.GetAllUsers`: a limit of 0 returning the whole collection assumes mongoengine 0.16 or later; earlier releases replaced a limit of 0 with 1, returning at most one view.
- `Projections.UserCreatedIdempotent`: `created_at` is not modelled. Each delivery rebuilds the document with a fresh `created_at`, so a second delivery leaves the same view only in the modelled fields.
- `Projections.UserCreatedRedelivery`: holds only in the modelled fields, because each delivery stores a new `created_at`.
- `Cycle.ReplayTwiceIsReplayOnce`: holds only in the modelled fields, because each replayed `user_created` event stores a new `created_at`.
