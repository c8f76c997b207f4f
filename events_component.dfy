/**
 * The read-side projections: `EventsComponent` turns `user_created` into a
 * user view and `permission_user_related` into a membership entry of the
 * group for the user's permission.
 */
module Projections {
  import opened Wrappers
  import opened Models

  /** Why a handler saved nothing. */
  datatype HandlerError =
    | AbsentKey(key: string)  // `data[key]` raised KeyError
    | ValidationFailed        // `save()` rejected a missing required field or a too-long string

  /**
   * Whether a handler saved, caught its exception and logged it (`logging.error`), or let
   * it escape to the event framework. Either way the event is consumed.
   */
  datatype HandlerOutcome = Saved | Caught(error: HandlerError) | Escaped(error: HandlerError)

  /**
   * The `UsersQueryModel` document a payload yields, validated as `save()`
   * validates it: `id` and `name` are read with `data[key]`; email,
   * description and permission are read with `data.get` and then required.
   */
  function ViewOf(data: Payload): (r: Result<UserView, HandlerError>)
    ensures r.Ok? <==>
      && data.id.Some? && data.name.Some? && data.email.Some? && data.description.Some? && data.permission.Some?
      && |data.name.value| <= MaxLength && |data.email.value| <= MaxLength
    ensures r.Ok? ==>
      && ViewValid(r.value)
      && r.value == UserView(data.id.value, data.name.value, data.email.value, data.description.value, data.permission.value)
    ensures r.Err? && (data.id.None? || data.name.None?) ==> r.error.AbsentKey?
    ensures r.Err? && data.id.Some? && data.name.Some? ==> r.error == ValidationFailed
  {
    if data.id.None? then Err(AbsentKey("id"))
    else if data.name.None? then Err(AbsentKey("name"))
    else if data.email.None? || data.description.None? || data.permission.None? then Err(ValidationFailed)
    else
      var v := UserView(data.id.value, data.name.value, data.email.value, data.description.value, data.permission.value);
      if ViewValid(v) then Ok(v) else Err(ValidationFailed)
  }

  /**
   * The view collection after `user_created_normalize_db(data)`: `save()`
   * replaces whatever document has the same primary key.
   */
  function ProjectUserCreated(views: map<string, UserView>, data: Payload): (r: map<string, UserView>)
    ensures ViewOf(data).Err? ==> r == views
    ensures ViewOf(data).Ok? ==>
      r.Keys == views.Keys + {data.id.value} && r[data.id.value] == ViewOf(data).value
    ensures forall id :: id in views && (ViewOf(data).Err? || id != data.id.value) ==> id in r && r[id] == views[id]
    ensures ViewsCollection(views) ==> ViewsCollection(r)
  {
    match ViewOf(data)
    case Ok(v) => views[v.id := v]
    case Err(_) => views
  }

  /**
   * The group collection after `permission_user_related_normalize_db(data)`:
   * the snapshot is appended to the existing group for its permission, or a
   * new group is created from `permission_description`. No check is made for
   * an entry with the same user id.
   */
  function ProjectPermissionUserRelated(groups: map<string, Group>, data: Payload): (r: map<string, Group>)
    // an invalid snapshot is never saved
    ensures ViewOf(data).Err? ==> r == groups
    // an existing group: the snapshot goes at the end, the description stays
    ensures ViewOf(data).Ok? && data.permission.value in groups ==>
      var k := data.permission.value;
      && r.Keys == groups.Keys
      && r[k].users == groups[k].users + [ViewOf(data).value]
      && r[k].description == groups[k].description
      && r[k].permission == groups[k].permission
    // no group yet: one is created with the carried description and the snapshot
    ensures ViewOf(data).Ok? && data.permission.value !in groups && data.permissionDescription.Some? ==>
      var k := data.permission.value;
      r.Keys == groups.Keys + {k} && r[k] == Group(k, data.permissionDescription, [ViewOf(data).value])
    // no group and no description: nothing is saved
    ensures ViewOf(data).Ok? && data.permission.value !in groups && data.permissionDescription.None? ==>
      r == groups
    // every other group is untouched
    ensures forall k :: k in groups && (ViewOf(data).Err? || k != data.permission.value) ==>
      k in r && r[k] == groups[k]
    ensures GroupsCollection(groups) ==> GroupsCollection(r)
  {
    match ViewOf(data)
    case Err(_) => groups
    case Ok(v) =>
      if v.permission in groups then
        groups[v.permission := groups[v.permission].(users := groups[v.permission].users + [v])]
      else if data.permissionDescription.Some? then
        groups[v.permission := Group(v.permission, data.permissionDescription, [v])]
      else
        groups
  }

  /**
   * The event handlers and the query store they write: the view collection
   * and the group collection.
   */
  class EventsComponent {
    var views: map<string, UserView>
    var groups: map<string, Group>

    ghost predicate Valid()
      reads this
    {
      ViewsCollection(views) && GroupsCollection(groups)
    }

    constructor ()
      ensures Valid() && views == map[] && groups == map[]
    {
      views := map[];
      groups := map[];
    }

    /** `user_created_normalize_db(data)`: every exception is caught and logged. */
    method UserCreatedNormalizeDb(data: Payload) returns (outcome: HandlerOutcome)
      requires Valid()
      modifies this`views
      ensures Valid()
      ensures views == ProjectUserCreated(old(views), data)
      ensures outcome == if ViewOf(data).Ok? then Saved else Caught(ViewOf(data).error)
    {
      var doc := ViewOf(data);
      if doc.Err? {
        outcome := Caught(doc.error);
        return;
      }
      views := views[doc.value.id := doc.value];
      outcome := Saved;
    }

    /**
     * `permission_user_related_normalize_db(data)`. The snapshot's `data[key]`
     * reads happen before the `try`, and a failed `save()` of an existing group
     * is not a `DoesNotExist`: both escape the handler. Only the branch that
     * creates a group catches and logs.
     */
    method PermissionUserRelatedNormalizeDb(data: Payload) returns (outcome: HandlerOutcome)
      requires Valid()
      modifies this`groups
      ensures Valid()
      ensures groups == ProjectPermissionUserRelated(old(groups), data)
      ensures outcome == Saved <==> old(groups) != groups || (ViewOf(data).Ok? && data.permission.value in old(groups))
      ensures outcome.Escaped? <==>
        || data.id.None? || data.name.None? || data.permission.None?
        || (data.permission.value in old(groups) && ViewOf(data).Err?)
      ensures data.id.Some? && data.name.Some? && data.permission.Some? && data.permission.value !in old(groups)
              && data.permissionDescription.None? ==>
        outcome == Caught(AbsentKey("permission_description"))
    {
      if data.id.None? {
        return Escaped(AbsentKey("id"));
      }
      if data.name.None? {
        return Escaped(AbsentKey("name"));
      }
      if data.permission.None? {
        return Escaped(AbsentKey("permission"));
      }
      var key := data.permission.value;
      var snapshot := ViewOf(data);
      if key in groups {
        if snapshot.Err? {
          return Escaped(snapshot.error);
        }
        var up := groups[key];
        up := up.(users := up.users + [snapshot.value]);
        groups := groups[key := up];
        outcome := Saved;
      } else {
        if data.permissionDescription.None? {
          return Caught(AbsentKey("permission_description"));
        }
        if snapshot.Err? {
          return Caught(snapshot.error);
        }
        groups := groups[key := Group(key, data.permissionDescription, [snapshot.value])];
        outcome := Saved;
      }
    }
  }

  // ---------------------------------------------------------------- redelivery

  /** The view collection after the same `user_created` event is delivered `n` times. */
  function RedeliverUserCreated(views: map<string, UserView>, data: Payload, n: nat): map<string, UserView>
  {
    if n == 0 then views else ProjectUserCreated(RedeliverUserCreated(views, data, n - 1), data)
  }

  /** Delivering `user_created` a second time changes nothing. */
  lemma UserCreatedIdempotent(views: map<string, UserView>, data: Payload)
    ensures ProjectUserCreated(ProjectUserCreated(views, data), data) == ProjectUserCreated(views, data)
  {
  }

  /** Any number of deliveries of `user_created`, at least one, gives the view map of one. */
  lemma {:induction false} UserCreatedRedelivery(views: map<string, UserView>, data: Payload, n: nat)
    requires n >= 1
    ensures RedeliverUserCreated(views, data, n) == ProjectUserCreated(views, data)
  {
    if n > 1 {
      UserCreatedRedelivery(views, data, n - 1);
      UserCreatedIdempotent(views, data);
    }
  }

  /** The number of entries in a membership list that belong to user `id`. */
  function Count(users: seq<UserView>, id: string): (c: nat)
    ensures c <= |users|
  {
    if users == [] then 0
    else Count(users[..|users| - 1], id) + (if users[|users| - 1].id == id then 1 else 0)
  }

  /** Counting distributes over concatenation. */
  lemma {:induction false} CountConcat(a: seq<UserView>, b: seq<UserView>, id: string)
    ensures Count(a + b, id) == Count(a, id) + Count(b, id)
  {
    if b == [] {
      assert a + b == a;
    } else {
      CountConcat(a, b[..|b| - 1], id);
      assert (a + b)[..|a + b| - 1] == a + b[..|b| - 1];
    }
  }

  /** The group collection after the same `permission_user_related` event is delivered `n` times. */
  function RedeliverPermissionUserRelated(groups: map<string, Group>, data: Payload, n: nat): map<string, Group>
    decreases n
  {
    if n == 0 then groups else RedeliverPermissionUserRelated(ProjectPermissionUserRelated(groups, data), data, n - 1)
  }

  /** `n` copies of one snapshot. */
  function Repeat(v: UserView, n: nat): (r: seq<UserView>)
    ensures |r| == n
  {
    if n == 0 then [] else [v] + Repeat(v, n - 1)
  }

  lemma {:induction false} CountRepeat(v: UserView, n: nat)
    ensures Count(Repeat(v, n), v.id) == n
  {
    if n > 0 {
      CountRepeat(v, n - 1);
      CountConcat([v], Repeat(v, n - 1), v.id);
      assert [v][..0] == [];
    }
  }

  /** One delivery to an existing group: the snapshot is appended, the description kept. */
  lemma JoinExistingGroup(groups: map<string, Group>, data: Payload)
    requires ViewOf(data).Ok? && data.permission.value in groups
    ensures var k := data.permission.value;
            var r := ProjectPermissionUserRelated(groups, data);
            k in r && r[k].users == groups[k].users + [ViewOf(data).value] && r[k].description == groups[k].description
  {
  }

  lemma RepeatStep(before: seq<UserView>, v: UserView, n: nat)
    requires n > 0
    ensures (before + [v]) + Repeat(v, n - 1) == before + Repeat(v, n)
  {
  }

  lemma {:induction false} RedeliverToExistingGroup(groups: map<string, Group>, data: Payload, n: nat)
    requires ViewOf(data).Ok? && data.permission.value in groups
    ensures var k := data.permission.value;
            var r := RedeliverPermissionUserRelated(groups, data, n);
            && k in r
            && r[k].users == groups[k].users + Repeat(ViewOf(data).value, n)
            && r[k].description == groups[k].description
    decreases n
  {
    var k := data.permission.value;
    var v := ViewOf(data).value;
    if n == 0 {
      assert groups[k].users + [] == groups[k].users;
    } else {
      var next := ProjectPermissionUserRelated(groups, data);
      JoinExistingGroup(groups, data);
      RedeliverToExistingGroup(next, data, n - 1);
      RepeatStep(groups[k].users, v, n);
    }
  }

  /**
   * Membership is not deduplicated: `n` deliveries of one event append `n`
   * copies of the snapshot to its group and leave the description alone.
   */
  lemma MembershipGrowsPerDelivery(groups: map<string, Group>, data: Payload, n: nat)
    requires ViewOf(data).Ok?
    requires data.permission.value in groups || (data.permissionDescription.Some? && n >= 1)
    ensures var k := data.permission.value;
            var r := RedeliverPermissionUserRelated(groups, data, n);
            && k in r
            && r[k].users == (if k in groups then groups[k].users else []) + Repeat(ViewOf(data).value, n)
            && r[k].description == (if k in groups then groups[k].description else data.permissionDescription)
  {
    var k := data.permission.value;
    var v := ViewOf(data).value;
    if k in groups {
      RedeliverToExistingGroup(groups, data, n);
    } else {
      var next := ProjectPermissionUserRelated(groups, data);
      assert next[k] == Group(k, data.permissionDescription, [v]);
      RedeliverToExistingGroup(next, data, n - 1);
      assert [] + Repeat(v, n) == [v] + Repeat(v, n - 1);
    }
  }

  /** However often one `permission_user_related` event is delivered, no other group changes. */
  lemma {:induction false} RedeliveryTouchesOneGroup(groups: map<string, Group>, data: Payload, n: nat, k: string)
    requires ViewOf(data).Err? || k != data.permission.value
    ensures var r := RedeliverPermissionUserRelated(groups, data, n);
            (k in r <==> k in groups) && (k in groups ==> r[k] == groups[k])
    decreases n
  {
    if n > 0 {
      RedeliveryTouchesOneGroup(ProjectPermissionUserRelated(groups, data), data, n - 1, k);
    }
  }

  /**
   * Redelivering one `permission_user_related` event `n` times adds `n`
   * entries for its user to the group: to an empty store, `n` entries, not one.
   */
  lemma RedeliveryDuplicatesMembers(groups: map<string, Group>, data: Payload, n: nat)
    requires ViewOf(data).Ok?
    requires data.permission.value in groups || (data.permissionDescription.Some? && n >= 1)
    ensures var k := data.permission.value;
            var r := RedeliverPermissionUserRelated(groups, data, n);
            k in r && Count(r[k].users, data.id.value) ==
              (if k in groups then Count(groups[k].users, data.id.value) else 0) + n
  {
    var k := data.permission.value;
    var v := ViewOf(data).value;
    MembershipGrowsPerDelivery(groups, data, n);
    CountConcat(if k in groups then groups[k].users else [], Repeat(v, n), v.id);
    CountRepeat(v, n);
  }
}
