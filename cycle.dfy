/**
 * The write/project/read cycle end to end: what an event dispatched by the
 * command side becomes on the query side, and what replaying the event log
 * does to the view collection.
 */
module Cycle {
  import opened Wrappers
  import opened Models
  import opened Commands
  import opened Projections
  import opened Queries

  /** The view a committed row should be read back as. */
  function RowView(row: UserRow): UserView
  {
    UserView(row.id, row.name, row.email, row.description, row.permission)
  }

  /**
   * The column constraints of the `users` table imply the document's: a
   * dispatched event never fails projection, and once it is projected
   * `get_user` returns the committed row's fields. Before that, `get_user`
   * of an id never seen reports `NotFound`.
   */
  lemma ReadAfterProjection(users: map<string, UserRow>, views: map<string, UserView>, data: Payload)
    requires UsersTable(users) && Published(users, data)
    ensures ViewOf(data).Ok?
    ensures GetUser(ProjectUserCreated(views, data), data.id.value) == Ok(RowView(users[data.id.value]))
    ensures data.id.value !in views ==> GetUser(views, data.id.value) == Err(NotFound)
  {
  }

  /**
   * The `permission_user_related` event of a committed row always yields a
   * snapshot equal to the row, appended last to the group of its permission.
   */
  lemma RelatedEventJoinsGroup(users: map<string, UserRow>, groups: map<string, Group>, data: Payload, description: string)
    requires UsersTable(users) && Published(users, data)
    ensures var related := data.(permissionDescription := Some(description));
            var k := data.permission.value;
            var r := ProjectPermissionUserRelated(groups, related);
            && k in r
            && |r[k].users| > 0
            && r[k].users[|r[k].users| - 1] == RowView(users[data.id.value])
            && r[k].description == (if k in groups then groups[k].description else Some(description))
  {
  }

  /** Every event in a valid command log projects to its row's view. */
  lemma LoggedEventsProject(stack: CommandStack, i: nat, views: map<string, UserView>)
    requires stack.Valid() && i < |stack.log|
    ensures var data := stack.log[i].payload;
            && data.id.value in stack.users
            && GetUser(ProjectUserCreated(views, data), data.id.value) == Ok(RowView(stack.users[data.id.value]))
  {
    ReadAfterProjection(stack.users, views, stack.log[i].payload);
  }

  // ---------------------------------------------------------------- replay

  /** The view collection after the `user_created` events of a log are delivered in order. */
  function ReplayViews(views: map<string, UserView>, log: seq<Event>): map<string, UserView>
  {
    if log == [] then views
    else
      var prev := ReplayViews(views, log[..|log| - 1]);
      var e := log[|log| - 1];
      if e.kind == UserCreated then ProjectUserCreated(prev, e.payload) else prev
  }

  /** The view the latest valid `user_created` event for `id` in the log carries, if any. */
  function LatestView(log: seq<Event>, id: string): (r: Option<UserView>)
    ensures r.Some? ==> r.value.id == id
  {
    if log == [] then None
    else
      var e := log[|log| - 1];
      if e.kind == UserCreated && ViewOf(e.payload).Ok? && ViewOf(e.payload).value.id == id
      then Some(ViewOf(e.payload).value)
      else LatestView(log[..|log| - 1], id)
  }

  /** After a replay each id holds the latest view the log carries for it, or else its old view. */
  lemma {:induction false} ReplayViewsAt(views: map<string, UserView>, log: seq<Event>, id: string)
    ensures var r := ReplayViews(views, log);
            && (id in r <==> LatestView(log, id).Some? || id in views)
            && (id in r ==> r[id] == if LatestView(log, id).Some? then LatestView(log, id).value else views[id])
  {
    if log != [] {
      ReplayViewsAt(views, log[..|log| - 1], id);
    }
  }

  /**
   * Redelivering a whole log after it was already applied leaves the view
   * collection as one delivery left it.
   */
  lemma ReplayTwiceIsReplayOnce(views: map<string, UserView>, log: seq<Event>)
    ensures ReplayViews(ReplayViews(views, log), log) == ReplayViews(views, log)
  {
    var once := ReplayViews(views, log);
    var twice := ReplayViews(once, log);
    forall id | true
      ensures (id in twice <==> id in once) && (id in once ==> twice[id] == once[id])
    {
      ReplayViewsAt(views, log, id);
      ReplayViewsAt(once, log, id);
    }
  }
}
