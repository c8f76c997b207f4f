/**
 * The write path: `CommandStack.user_domain` builds a `users` row from the
 * payload, adds and commits it through a database session, dispatches
 * `user_created`, looks up the permission row and dispatches
 * `permission_user_related`. Any exception rolls the session back and is
 * logged, never raised.
 */
module Commands {
  import opened Wrappers
  import opened Models

  datatype EventKind = UserCreated | PermissionUserRelated

  /** A dispatched event: its kind and a snapshot of the payload at dispatch time. */
  datatype Event = Event(kind: EventKind, payload: Payload)

  /** The exceptions `user_domain` swallows. */
  datatype CommandError =
    | MissingKey(key: string)  // `data[key]` raised KeyError
    | CommitRejected           // the database refused the row: duplicate id or a column constraint
    | PermissionNotFound       // `.one()` found no permission row

  /** What `user_domain` did; the source returns nothing and logs the error. */
  datatype DomainOutcome = Completed | Logged(error: CommandError)

  /**
   * Evaluates the `UsersCommandModel(...)` call: every field is read with
   * `data[key]`, which raises KeyError when the key is absent.
   */
  function BuildRow(data: Payload): (r: Result<UserRow, CommandError>)
    ensures r.Ok? <==>
      data.id.Some? && data.name.Some? && data.email.Some? && data.description.Some? && data.permission.Some?
    ensures r.Ok? ==>
      && r.value.id == data.id.value
      && r.value.name == data.name.value
      && r.value.email == data.email.value
      && r.value.description == data.description.value
      && r.value.permission == data.permission.value
    ensures r.Err? ==> r.error.MissingKey? && r.error.key in ["id", "name", "email", "description", "permission"]
  {
    if data.id.None? then Err(MissingKey("id"))
    else if data.name.None? then Err(MissingKey("name"))
    else if data.email.None? then Err(MissingKey("email"))
    else if data.description.None? then Err(MissingKey("description"))
    else if data.permission.None? then Err(MissingKey("permission"))
    else Ok(UserRow(data.id.value, data.name.value, data.email.value, data.description.value, data.permission.value))
  }

  /** The table accepts a new row only under a fresh primary key and with valid columns. */
  predicate Insertable(users: map<string, UserRow>, row: UserRow)
  {
    row.id !in users && RowValid(row)
  }

  /** The payload's row gets committed: it can be built and the table accepts it. */
  predicate Commits(users: map<string, UserRow>, data: Payload)
  {
    BuildRow(data).Ok? && Insertable(users, BuildRow(data).value)
  }

  /**
   * The payload names a committed row that carries exactly its fields: what
   * every dispatched event must satisfy when events follow the commit.
   */
  ghost predicate Published(users: map<string, UserRow>, data: Payload)
  {
    BuildRow(data).Ok? && data.id.value in users && users[data.id.value] == BuildRow(data).value
  }

  /**
   * `query(PermissionsCommandModel).filter_by(name=...).one()`: the
   * description of the one permission row whose name equals the string.
   */
  function LookupPermission(permissions: PermissionsTable, name: string): (r: Result<string, CommandError>)
    ensures r.Ok? <==> exists t :: t in permissions && PermissionName(t) == name
    ensures forall t :: t in permissions && PermissionName(t) == name ==> r == Ok(permissions[t])
    ensures r.Err? ==> r.error == PermissionNotFound
  {
    match ParsePermission(name)
    case Some(t) => if t in permissions then Ok(permissions[t]) else Err(PermissionNotFound)
    case None => Err(PermissionNotFound)
  }

  /** With the seeded table every name the enum column admits has a permission row. */
  lemma SeededLookupSucceeds(name: string)
    requires ParsePermission(name).Some?
    ensures LookupPermission(SeedPermissions, name) == Ok(SeedPermissions[ParsePermission(name).value])
  {
  }

  /**
   * The command service: its session over the `users` and `permissions`
   * tables, and the log of the events it has dispatched.
   */
  class CommandStack {
    var users: map<string, UserRow>
    var permissions: PermissionsTable
    /** The row the session has added but not yet committed. */
    var pending: Option<UserRow>
    /** Every event dispatched so far, oldest first. */
    var log: seq<Event>

    /** The table is well keyed, and every logged event describes a committed row. */
    ghost predicate Valid()
      reads this
    {
      && UsersTable(users)
      && forall i :: 0 <= i < |log| ==> Published(users, log[i].payload)
    }

    /** A service over an empty `users` table and the given permission rows. */
    constructor (permissions: PermissionsTable)
      ensures Valid()
      ensures users == map[] && this.permissions == permissions && pending == None && log == []
    {
      users := map[];
      this.permissions := permissions;
      pending := None;
      log := [];
    }

    /** `db.add(row)`: the row becomes pending; nothing is committed yet. */
    method Add(row: UserRow)
      requires pending == None
      modifies this`pending
      ensures pending == Some(row)
    {
      pending := Some(row);
    }

    /**
     * `db.commit()`: the pending row becomes durable if the table accepts it;
     * otherwise the commit fails and the row stays pending until a rollback.
     */
    method Commit() returns (ok: bool)
      requires Valid()
      modifies this`users, this`pending
      ensures Valid()
      ensures old(pending) == None ==> ok && users == old(users) && pending == None
      ensures old(pending).Some? ==> ok == Insertable(old(users), old(pending).value)
      ensures old(pending).Some? && ok ==>
        users == old(users)[old(pending).value.id := old(pending).value] && pending == None
      ensures !ok ==> users == old(users) && pending == old(pending)
    {
      ok := true;
      if pending.Some? {
        var row := pending.value;
        ok := Insertable(users, row);
        if ok {
          users := users[row.id := row];
          pending := None;
        }
      }
    }

    /** `db.rollback()`: discards what is pending; committed rows stay. */
    method Rollback()
      modifies this`pending
      ensures pending == None
    {
      pending := None;
    }

    /** `self.dispatch(kind, data)`: publishes a snapshot of the payload. */
    method Dispatch(kind: EventKind, data: Payload)
      requires Valid() && Published(users, data)
      modifies this`log
      ensures Valid()
      ensures log == old(log) + [Event(kind, data)]
    {
      log := log + [Event(kind, data)];
    }

    /**
     * `user_domain(data)`. The rollback in the exception handler runs after the
     * commit, so once the row is committed a failed permission lookup undoes
     * neither the row nor the `user_created` event.
     */
    method UserDomain(data: Payload) returns (outcome: DomainOutcome)
      requires Valid() && pending == None
      modifies this
      ensures Valid() && pending == None && permissions == old(permissions)
      // a missing key: nothing stored, nothing dispatched
      ensures BuildRow(data).Err? ==>
        outcome == Logged(BuildRow(data).error) && users == old(users) && log == old(log)
      // the database refuses the row: nothing stored, nothing dispatched
      ensures BuildRow(data).Ok? && !Insertable(old(users), BuildRow(data).value) ==>
        outcome == Logged(CommitRejected) && users == old(users) && log == old(log)
      // publish-after-commit: an event is dispatched only for a committed row
      ensures |log| > |old(log)| <==> Commits(old(users), data)
      // committed: exactly one new row, and `user_created` carries the payload as received
      ensures Commits(old(users), data) ==>
        && data.id.value !in old(users)
        && users == old(users)[data.id.value := BuildRow(data).value]
        && |log| > |old(log)|
        && log[..|old(log)| + 1] == old(log) + [Event(UserCreated, data)]
      // committed, but no permission row: the row and `user_created` remain
      ensures Commits(old(users), data) && LookupPermission(old(permissions), data.permission.value).Err? ==>
        outcome == Logged(PermissionNotFound) && log == old(log) + [Event(UserCreated, data)]
      // committed and the permission exists: `permission_user_related` follows immediately
      ensures Commits(old(users), data) && LookupPermission(old(permissions), data.permission.value).Ok? ==>
        && outcome == Completed
        && log == old(log) + [Event(UserCreated, data),
                              Event(PermissionUserRelated,
                                    data.(permissionDescription :=
                                            Some(LookupPermission(old(permissions), data.permission.value).value)))]
    {
      var built := BuildRow(data);
      if built.Err? {
        Rollback();
        outcome := Logged(built.error);
        return;
      }
      var row := built.value;
      Add(row);
      var ok := Commit();
      if !ok {
        Rollback();
        outcome := Logged(CommitRejected);
        return;
      }
      Dispatch(UserCreated, data);
      var found := LookupPermission(permissions, data.permission.value);
      if found.Err? {
        Rollback();
        outcome := Logged(found.error);
        return;
      }
      // `data['permission_description'] = ...` changes the payload only for the
      // second event; the first one already holds its own snapshot
      var related := data.(permissionDescription := Some(found.value));
      Dispatch(PermissionUserRelated, related);
      outcome := Completed;
    }
  }
}
