/**
 * The record shapes of the command store (the SQL tables `users` and
 * `permissions`) and of the query store (the documents `UsersQueryModel` and
 * `UsersPerPermissionsQueryModel`), with their keys and field constraints.
 */
module Models {
  import opened Wrappers

  /** The closed set of permission names. */
  datatype PermissionsType = Admin | User

  /** The string value each enum member is stored and looked up by. */
  function PermissionName(t: PermissionsType): string
  {
    match t
    case Admin => "admin"
    case User => "user"
  }

  /**
   * The enum member a string names. A column of type `Enum(PermissionsType)`
   * holds nothing else.
   */
  function ParsePermission(s: string): (r: Option<PermissionsType>)
    ensures r.Some? ==> PermissionName(r.value) == s
    ensures forall t :: PermissionName(t) == s ==> r == Some(t)
  {
    if s == "admin" then Some(Admin)
    else if s == "user" then Some(User)
    else None
  }

  /** `String(length=200)` on the name and email columns and fields. */
  const MaxLength := 200

  // ---------------------------------------------------------------- command side

  /** A row of the `users` table (`created_at` is a clock default and is not modelled). */
  datatype UserRow = UserRow(id: string, name: string, email: string, description: string, permission: string)

  /** What the column types demand before the database accepts a row. */
  predicate RowValid(row: UserRow)
  {
    && |row.name| <= MaxLength
    && |row.email| <= MaxLength
    && ParsePermission(row.permission).Some?
  }

  /** The `users` table, keyed by its primary key `id`: one valid row per id. */
  ghost predicate UsersTable(users: map<string, UserRow>)
  {
    forall id :: id in users ==> users[id].id == id && RowValid(users[id])
  }

  /**
   * The `permissions` table is keyed by `name` of type `PermissionsType`; as a
   * map from the enum it holds at most one description per permission.
   */
  type PermissionsTable = map<PermissionsType, string>

  /** The two rows the bootstrap script seeds. */
  const SeedPermissions: PermissionsTable :=
    map[Admin := "Admin is a super user to the app", User := "User is just a client to the app"]

  // ---------------------------------------------------------------- query side

  /**
   * A `UsersQueryModel` document. Its name, email, description and permission
   * are required, so a document exists only with all of them present.
   */
  datatype UserView = UserView(id: string, name: string, email: string, description: string, permission: string)

  /** The `max_length=200` constraints of the document. */
  predicate ViewValid(v: UserView)
  {
    |v.name| <= MaxLength && |v.email| <= MaxLength
  }

  /** The view collection, keyed by its primary key `id`. */
  ghost predicate ViewsCollection(views: map<string, UserView>)
  {
    forall id :: id in views ==> views[id].id == id && ViewValid(views[id])
  }

  /**
   * A `UsersPerPermissionsQueryModel` document: keyed by the permission string,
   * an optional description, and an ordered list of embedded user snapshots.
   */
  datatype Group = Group(permission: string, description: Option<string>, users: seq<UserView>)

  /**
   * The group collection, keyed by `permission`: one document per permission
   * string, each member a valid snapshot filed under its own permission.
   */
  ghost predicate GroupsCollection(groups: map<string, Group>)
  {
    forall k :: k in groups ==>
      && groups[k].permission == k
      && forall i :: 0 <= i < |groups[k].users| ==>
           ViewValid(groups[k].users[i]) && groups[k].users[i].permission == k
  }

  // ---------------------------------------------------------------- messages

  /**
   * The request payload `data`, a dictionary: each key may be absent. Once
   * dispatched, an event carries an immutable copy of it.
   */
  datatype Payload = Payload(
    id: Option<string>,
    name: Option<string>,
    email: Option<string>,
    description: Option<string>,
    permission: Option<string>,
    permissionDescription: Option<string>)
}
