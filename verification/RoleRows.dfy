/**
 Listing a tenant's roles: the query returns one row per role and permission (a
 LEFT JOIN, so a role without permissions still has one row) and a loop folds
 them into roles, extending the last role in place.
 */
module RoleRows {
  import opened Wrappers

  type Uuid = nat

  /** The columns of `roles`. */
  datatype Head = Head(id: Uuid, tenant: Uuid, name: string)

  datatype Row = Row(head: Head, permission: Option<string>)

  datatype ListedRole = ListedRole(head: Head, permissions: seq<string>)

  /** The effect of one row on the roles gathered so far. */
  function Add(roles: seq<ListedRole>, row: Row): seq<ListedRole> {
    var n := |roles|;
    var added := if row.permission.Some? then [row.permission.value] else [];
    if n > 0 && roles[n - 1].head.id == row.head.id
    then roles[n - 1 := roles[n - 1].(permissions := roles[n - 1].permissions + added)]
    else roles + [ListedRole(row.head, added)]
  }

  function Collapse(rows: seq<Row>): seq<ListedRole> {
    if rows == [] then [] else Add(Collapse(rows[..|rows| - 1]), rows[|rows| - 1])
  }

  /** The rows of the LEFT JOIN for one role, and for several in order. */
  function RowsOf(r: ListedRole): seq<Row> {
    if r.permissions == [] then [Row(r.head, None)]
    else seq(|r.permissions|, i requires 0 <= i < |r.permissions| => Row(r.head, Some(r.permissions[i])))
  }

  function Flatten(roles: seq<ListedRole>): seq<Row> {
    if roles == [] then [] else Flatten(roles[..|roles| - 1]) + RowsOf(roles[|roles| - 1])
  }

  ghost predicate IdsDistinct(roles: seq<ListedRole>) {
    forall i, j :: 0 <= i < j < |roles| ==> roles[i].head.id != roles[j].head.id
  }

  /** Rows of one role are contiguous, agree on the role, and a row without permission is alone. */
  ghost predicate LeftJoined(rows: seq<Row>) {
    && (forall i, j, k :: 0 <= i < j < k < |rows| && rows[i].head.id == rows[k].head.id ==>
          rows[j].head.id == rows[i].head.id)
    && (forall i, j :: 0 <= i < j < |rows| && rows[i].head.id == rows[j].head.id ==>
          rows[i].head == rows[j].head && rows[i].permission.Some? && rows[j].permission.Some?)
  }

  // ── Rows to roles and back ───────────────────────────────────────────────

  /** Flattened roles end with the last row of the last role. */
  lemma {:induction false} LastRow(roles: seq<ListedRole>)
    requires roles != []
    ensures var r, rows := roles[|roles| - 1], Flatten(roles);
            && rows != [] && rows[|rows| - 1].head == r.head
            && (rows[|rows| - 1].permission.None? <==> r.permissions == [])
  {
  }

  lemma {:induction false} MembersOf(roles: seq<ListedRole>, k: nat)
    requires k < |roles|
    ensures exists i :: 0 <= i < |Flatten(roles)| && Flatten(roles)[i].head == roles[k].head
    decreases |roles|
  {
    var front := roles[..|roles| - 1];
    if k == |roles| - 1 {
      LastRow(roles);
    } else {
      MembersOf(front, k);
      var i :| 0 <= i < |Flatten(front)| && Flatten(front)[i].head == front[k].head;
      assert Flatten(roles)[i] == Flatten(front)[i];
    }
  }

  lemma {:induction false} FrontJoined(rows: seq<Row>)
    requires LeftJoined(rows) && rows != []
    ensures LeftJoined(rows[..|rows| - 1])
  {
  }

  /** Extending the last role appends its row. */
  lemma {:induction false} FlattenExtends(roles: seq<ListedRole>, row: Row)
    requires roles != []
    requires var r := roles[|roles| - 1]; r.head == row.head && r.permissions != [] && row.permission.Some?
    ensures Flatten(Add(roles, row)) == Flatten(roles) + [row]
  {
    var n := |roles|;
    var r' := Add(roles, row)[n - 1];
    assert Add(roles, row)[..n - 1] == roles[..n - 1];
    assert RowsOf(r') == RowsOf(roles[n - 1]) + [row];
  }

  lemma {:induction false} FlattenPushes(roles: seq<ListedRole>, row: Row)
    requires roles == [] || roles[|roles| - 1].head.id != row.head.id
    ensures Flatten(Add(roles, row)) == Flatten(roles) + [row]
  {
    assert Add(roles, row)[..|roles|] == roles;
    assert RowsOf(Add(roles, row)[|roles|]) == [row];
  }

  lemma {:induction false} AddDistinct(roles: seq<ListedRole>, row: Row)
    requires IdsDistinct(roles)
    requires || (roles != [] && roles[|roles| - 1].head.id == row.head.id)
             || (forall k :: 0 <= k < |roles| ==> roles[k].head.id != row.head.id)
    ensures IdsDistinct(Add(roles, row))
  {
  }

  /** A row of a new role belongs to none of the roles before it. */
  lemma {:induction false} NewRoleIsNew(rows: seq<Row>, roles: seq<ListedRole>, row: Row, k: nat)
    requires LeftJoined(rows + [row]) && Flatten(roles) == rows && k < |roles|
    requires roles[|roles| - 1].head.id != row.head.id
    ensures roles[k].head.id != row.head.id
  {
    hide Flatten;
    MembersOf(roles, k);
    var i :| 0 <= i < |rows| && rows[i].head == roles[k].head;
    LastRow(roles);
    var all := rows + [row];
    assert all[i] == rows[i] && all[|rows| - 1] == rows[|rows| - 1] && all[|rows|] == row;
  }

  /** A row that continues the last role extends it. */
  lemma {:induction false} SameRoleExtends(rows: seq<Row>, roles: seq<ListedRole>, row: Row)
    requires LeftJoined(rows + [row]) && Flatten(roles) == rows && roles != []
    requires roles[|roles| - 1].head.id == row.head.id
    ensures Flatten(Add(roles, row)) == rows + [row]
  {
    hide Flatten, Add;
    LastRow(roles);
    var all := rows + [row];
    assert all[|rows| - 1] == rows[|rows| - 1] && all[|rows|] == row;
    FlattenExtends(roles, row);
  }

  lemma {:induction false} AddFlattens(rows: seq<Row>, roles: seq<ListedRole>, row: Row)
    requires LeftJoined(rows + [row]) && Flatten(roles) == rows && IdsDistinct(roles)
    ensures Flatten(Add(roles, row)) == rows + [row] && IdsDistinct(Add(roles, row))
  {
    hide Flatten, Add, LeftJoined;
    if roles != [] && roles[|roles| - 1].head.id == row.head.id {
      SameRoleExtends(rows, roles, row);
    } else {
      FlattenPushes(roles, row);
      forall k | 0 <= k < |roles|
        ensures roles[k].head.id != row.head.id
      {
        NewRoleIsNew(rows, roles, row, k);
      }
    }
    AddDistinct(roles, row);
  }

  /** The loop loses nothing and lists each role once, roles without permissions included. */
  lemma {:induction false} CollapseThenFlatten(rows: seq<Row>)
    requires LeftJoined(rows)
    ensures Flatten(Collapse(rows)) == rows
    ensures IdsDistinct(Collapse(rows))
  {
    hide Flatten, Add, LeftJoined, IdsDistinct, Collapse;
    if rows == [] {
      CollapseNothing();
    } else {
      var front, row := rows[..|rows| - 1], rows[|rows| - 1];
      FrontJoined(rows);
      CollapseThenFlatten(front);
      CollapseLast(front, row);
      assert rows == front + [row];
      AddFlattens(front, Collapse(front), row);
    }
  }

  lemma {:induction false} CollapseNothing()
    ensures Collapse([]) == [] && Flatten([]) == [] && IdsDistinct([])
  {
  }

  lemma {:induction false} CollapseLast(rows: seq<Row>, row: Row)
    ensures Collapse(rows + [row]) == Add(Collapse(rows), row)
  {
    assert (rows + [row])[..|rows|] == rows;
  }

  lemma {:induction false} CollapseRowsOf(rows: seq<Row>, r: ListedRole, n: nat)
    requires 1 <= n <= |RowsOf(r)|
    requires Collapse(rows) == [] || Collapse(rows)[|Collapse(rows)| - 1].head.id != r.head.id
    ensures Collapse(rows + RowsOf(r)[..n])
         == Collapse(rows) + [if r.permissions == [] then r else r.(permissions := r.permissions[..n])]
  {
    hide Collapse, Add, RowsOf;
    var front := rows + RowsOf(r)[..n - 1];
    assert rows + RowsOf(r)[..n] == front + [RowsOf(r)[n - 1]];
    CollapseLast(front, RowsOf(r)[n - 1]);
    if n == 1 {
      assert front == rows;
      AddFirst(Collapse(rows), r);
    } else {
      CollapseRowsOf(rows, r, n - 1);
      AddNext(Collapse(rows), r, n);
    }
  }

  /** A role's first row starts a new role. */
  lemma {:induction false} AddFirst(roles: seq<ListedRole>, r: ListedRole)
    requires roles == [] || roles[|roles| - 1].head.id != r.head.id
    ensures Add(roles, RowsOf(r)[0])
         == roles + [if r.permissions == [] then r else r.(permissions := r.permissions[..1])]
  {
    assert r.permissions != [] ==> r.permissions[..1] == [r.permissions[0]];
  }

  /** A later row extends it. */
  lemma {:induction false} AddNext(roles: seq<ListedRole>, r: ListedRole, n: nat)
    requires 2 <= n <= |RowsOf(r)|
    ensures n <= |r.permissions|
    ensures Add(roles + [r.(permissions := r.permissions[..n - 1])], RowsOf(r)[n - 1])
         == roles + [r.(permissions := r.permissions[..n])]
  {
    assert r.permissions[..n] == r.permissions[..n - 1] + [r.permissions[n - 1]];
  }

  lemma {:induction false} CollapseOneRole(rows: seq<Row>, r: ListedRole)
    requires Collapse(rows) == [] || Collapse(rows)[|Collapse(rows)| - 1].head.id != r.head.id
    ensures Collapse(rows + RowsOf(r)) == Collapse(rows) + [r]
  {
    hide Collapse;
    CollapseRowsOf(rows, r, |RowsOf(r)|);
    assert RowsOf(r)[..|RowsOf(r)|] == RowsOf(r);
    assert r.permissions != [] ==> r.permissions[..|RowsOf(r)|] == r.permissions;
  }

  /** The query's rows for any list of distinct roles collapse to exactly those roles. */
  lemma {:induction false} FlattenThenCollapse(roles: seq<ListedRole>)
    requires IdsDistinct(roles)
    ensures Collapse(Flatten(roles)) == roles
  {
    if roles == [] {
      assert Collapse([]) == [];
    } else {
      hide Collapse, RowsOf;
      var front, r := roles[..|roles| - 1], roles[|roles| - 1];
      FlattenThenCollapse(front);
      CollapseOneRole(Flatten(front), r);
      assert roles == front + [r];
    }
  }

  /** Pushing an empty role when needed and then extending the last one is what a row does. */
  lemma {:induction false} AddInTwoSteps(roles: seq<ListedRole>, row: Row)
    ensures var pushed := if roles == [] || roles[|roles| - 1].head.id != row.head.id
                          then roles + [ListedRole(row.head, [])] else roles;
            var n := |pushed|;
            Add(roles, row) == if row.permission.None? then pushed
                               else pushed[n - 1 := pushed[n - 1].(
                                           permissions := pushed[n - 1].permissions + [row.permission.value])]
  {
    if roles != [] {
      assert roles[|roles| - 1].permissions + [] == roles[|roles| - 1].permissions;
    }
    if row.permission.Some? {
      assert [] + [row.permission.value] == [row.permission.value];
    }
  }

  /** The loop of `list_roles`. */
  method ListRoles(rows: seq<Row>) returns (roles: seq<ListedRole>)
    ensures roles == Collapse(rows)
    ensures LeftJoined(rows) ==> Flatten(roles) == rows && IdsDistinct(roles)
  {
    roles := [];
    for i := 0 to |rows|
      invariant roles == Collapse(rows[..i])
    {
      assert rows[..i + 1][..i] == rows[..i];
      var row := rows[i];
      ghost var before := roles;
      if roles == [] || roles[|roles| - 1].head.id != row.head.id {
        roles := roles + [ListedRole(row.head, [])];
      }
      if row.permission.Some? {
        var last := roles[|roles| - 1];
        roles := roles[|roles| - 1 := last.(permissions := last.permissions + [row.permission.value])];
      }
      AddInTwoSteps(before, row);
    }
    assert rows[..|rows|] == rows;
    if LeftJoined(rows) {
      CollapseThenFlatten(rows);
    }
  }

  // ── Granting from the listing ────────────────────────────────────────────

  datatype GrantError = UnknownRole | Forbidden

  ghost predicate NamesUnique(rows: seq<Row>) {
    forall i, j :: 0 <= i < j < |rows| && rows[i].head.name == rows[j].head.name ==> rows[i].head == rows[j].head
  }

  /** The verdict read straight off the joined rows. */
  ghost predicate IsVerdict(r: Result<(), GrantError>, rows: seq<Row>, name: string, granter: seq<string>) {
    var known := exists row :: row in rows && row.head.name == name;
    var covered := forall row :: row in rows && row.head.name == name && row.permission.Some? ==>
                     row.permission.value in granter;
    match r
    case Success(_) => known && covered
    case Failure(UnknownRole) => !known
    case Failure(Forbidden) => known && !covered
  }

  lemma {:induction false} RowsOfMembers(r: ListedRole, row: Row)
    ensures row in RowsOf(r) <==>
              row.head == r.head
              && (if row.permission.Some? then row.permission.value in r.permissions else r.permissions == [])
  {
    if row.head == r.head && row.permission.Some? && row.permission.value in r.permissions {
      var i :| 0 <= i < |r.permissions| && r.permissions[i] == row.permission.value;
      assert RowsOf(r)[i] == row;
    }
  }

  lemma {:induction false} FlattenMembers(roles: seq<ListedRole>, row: Row)
    ensures row in Flatten(roles) <==> exists k :: 0 <= k < |roles| && row in RowsOf(roles[k])
  {
    if roles != [] {
      var front := roles[..|roles| - 1];
      FlattenMembers(front, row);
      if k :| 0 <= k < |roles| && row in RowsOf(roles[k]) {
        assert k < |front| ==> front[k] == roles[k];
      }
    }
  }

  /** The first role of that name carries every permission of every row of that name. */
  lemma {:induction false} FoundRole(rows: seq<Row>, roles: seq<ListedRole>, k: nat, name: string, row: Row)
    requires Flatten(roles) == rows && IdsDistinct(roles) && NamesUnique(rows)
    requires k < |roles| && roles[k].head.name == name
    ensures row in rows && row.head.name == name <==> row in RowsOf(roles[k])
  {
    hide Flatten, RowsOf;
    FlattenMembers(roles, row);
    RowsOfMembers(roles[k], row);
    if row in rows && row.head.name == name {
      var j :| 0 <= j < |roles| && row in RowsOf(roles[j]);
      RowsOfMembers(roles[j], row);
      MembersOf(roles, k);
      var i :| 0 <= i < |rows| && rows[i].head == roles[k].head;
      var i' :| 0 <= i' < |rows| && rows[i'] == row;
      assert rows[i].head == rows[i'].head;
      assert j == k;
    }
  }

  /** `ensure_can_grant`: find the role in the listing, collect what the granter lacks. */
  method EnsureCanGrant(rows: seq<Row>, name: string, granter: seq<string>) returns (r: Result<(), GrantError>)
    requires LeftJoined(rows) && NamesUnique(rows)
    ensures IsVerdict(r, rows, name, granter)
  {
    hide Flatten, Collapse, LeftJoined;
    var roles := ListRoles(rows);
    var k := 0;
    while k < |roles| && roles[k].head.name != name
      invariant 0 <= k <= |roles|
      invariant forall j :: 0 <= j < k ==> roles[j].head.name != name
    {
      k := k + 1;
    }
    forall row
      ensures row in rows <==> exists j :: 0 <= j < |roles| && row in RowsOf(roles[j])
    {
      FlattenMembers(roles, row);
    }
    if k == |roles| {
      forall j, row | 0 <= j < |roles| && row in RowsOf(roles[j])
        ensures row.head == roles[j].head
      {
        RowsOfMembers(roles[j], row);
      }
      return Failure(UnknownRole);
    }
    var role := roles[k];
    forall row
      ensures row in rows && row.head.name == name <==> row in RowsOf(role)
    {
      FoundRole(rows, roles, k, name, row);
    }
    forall row
      ensures row in RowsOf(role) && row.permission.Some? <==>
              row.head == role.head && row.permission.Some? && row.permission.value in role.permissions
    {
      RowsOfMembers(role, row);
    }
    assert RowsOf(role)[0] in RowsOf(role);
    if exists p :: p in role.permissions && p !in granter {
      ghost var p :| p in role.permissions && p !in granter;
      assert Row(role.head, Some(p)) in RowsOf(role);
      return Failure(Forbidden);
    }
    return Success(());
  }
}
