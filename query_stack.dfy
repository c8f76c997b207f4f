/**
 * The read path: `QueryStack` answers from the query store only, by primary
 * key or by an offset/limit window over the view collection.
 */
module Queries {
  import opened Wrappers
  import opened Models

  /** `DoesNotExist` (or any other error) on a read. */
  datatype QueryError = NotFound

  /** `get_user(id)`: the stored view with that id. */
  function GetUser(views: map<string, UserView>, id: string): (r: Result<UserView, QueryError>)
    ensures r.Ok? <==> id in views
    ensures r.Ok? ==> r.value == views[id]
    ensures ViewsCollection(views) && r.Ok? ==> r.value.id == id && ViewValid(r.value)
  {
    if id in views then Ok(views[id]) else Err(NotFound)
  }

  /** `get_users_by_permission(permission)`: the group document for that permission. */
  function GetUsersByPermission(groups: map<string, Group>, permission: string): (r: Result<Group, QueryError>)
    ensures r.Ok? <==> permission in groups
    ensures r.Ok? ==> r.value == groups[permission]
    ensures GroupsCollection(groups) && r.Ok? ==>
      && r.value.permission == permission
      && forall i :: 0 <= i < |r.value.users| ==> r.value.users[i].permission == permission
  {
    if permission in groups then Ok(groups[permission]) else Err(NotFound)
  }

  /** The first index of a page: page 0 is read as page 1. */
  function Offset(page: nat, limit: nat): nat
  {
    ((if page == 0 then 1 else page) - 1) * limit
  }

  function Min(a: int, b: int): int
  {
    if a <= b then a else b
  }

  /** `skip(offset).limit(limit)`: the views from `offset` on, at most `limit` of them; `limit(0)` sets no limit. */
  function Window(collection: seq<UserView>, offset: nat, limit: nat): seq<UserView>
  {
    if offset >= |collection| then []
    else if limit == 0 then collection[offset..]
    else collection[offset..Min(offset + limit, |collection|)]
  }

  /**
   * `get_all_users(page, limit)` over the view collection in its natural
   * order, given here as a sequence.
   */
  function GetAllUsers(collection: seq<UserView>, page: nat, limit: nat): (r: seq<UserView>)
    ensures limit == 0 ==> r == collection
    ensures limit > 0 ==> |r| == if Offset(page, limit) >= |collection| then 0
                                 else Min(limit, |collection| - Offset(page, limit))
    ensures forall i :: 0 <= i < |r| ==>
      Offset(page, limit) + i < |collection| && r[i] == collection[Offset(page, limit) + i]
  {
    Window(collection, Offset(page, limit), limit)
  }

  /** Page 0 and page 1 are the same page. */
  lemma PageZeroIsFirstPage(collection: seq<UserView>, limit: nat)
    ensures GetAllUsers(collection, 0, limit) == GetAllUsers(collection, 1, limit)
  {
  }

  /** Every element lies on page `i / limit + 1`, at position `i % limit`. */
  lemma PageOfIndex(collection: seq<UserView>, limit: nat, i: nat)
    requires limit > 0 && i < |collection|
    ensures var p := GetAllUsers(collection, i / limit + 1, limit);
            i % limit < |p| && p[i % limit] == collection[i]
  {
    var q, m := i / limit, i % limit;
    assert i == q * limit + m;
    assert Offset(q + 1, limit) == q * limit;
  }

  /** Pages 1 to `n`, read one after another. */
  function Pages(collection: seq<UserView>, limit: nat, n: nat): seq<UserView>
  {
    if n == 0 then [] else Pages(collection, limit, n - 1) + GetAllUsers(collection, n, limit)
  }

  lemma MulStep(n: nat, limit: nat)
    requires n > 0
    ensures n * limit == (n - 1) * limit + limit
  {
  }

  /** The views before `offset`, followed by the window at `offset`, are the views before its end. */
  lemma WindowExtends(collection: seq<UserView>, offset: nat, limit: nat)
    requires limit > 0
    ensures collection[..Min(offset, |collection|)] + Window(collection, offset, limit)
            == collection[..Min(offset + limit, |collection|)]
  {
    if offset < |collection| {
      var end := Min(offset + limit, |collection|);
      assert collection[..offset] + collection[offset..end] == collection[..end];
    }
  }

  /** Reading pages 1, 2, ..., `n` in turn yields the collection's first `n * limit` views, in order. */
  lemma {:induction false} PagesCoverCollection(collection: seq<UserView>, limit: nat, n: nat)
    requires limit > 0
    ensures Pages(collection, limit, n) == collection[..Min(n * limit, |collection|)]
  {
    if n > 0 {
      PagesCoverCollection(collection, limit, n - 1);
      var start := (n - 1) * limit;
      MulStep(n, limit);
      assert Offset(n, limit) == start;
      assert GetAllUsers(collection, n, limit) == Window(collection, start, limit);
      WindowExtends(collection, start, limit);
    }
  }
}
