/** The role operations of listmonk's core: fetching, creating, updating and deleting
    user roles and list roles, and upserting a list role's list permissions. Each
    operation receives the store's reply to every statement it may issue and returns
    what the Go method returns (its output value and its error) together with the
    statements it issued, in order. */
module Roles {
  import opened Wrappers
  import opened Models
  import opened Store
  import opened Permissions

  const StatusBadRequest: int := 400
  const StatusInternalServerError: int := 500

  /** The message an error carries, by its translation key. */
  datatype Message = ErrorFetching | ErrorCreating | ErrorUpdating | ErrorDeleting | NotFound | CantDeleteRole

  /** An HTTP error as the core hands it to the API layer. */
  datatype HttpError = HttpError(status: int, message: Message)

  /** What an operation returns (`out`, nil or an error) and the statements it issued. */
  datatype Run<T> = Run(out: T, err: Option<HttpError>, calls: seq<Stmt>)

  /** The error the delete paths report for a failed delete: "role in use" when the
      users-to-roles foreign key refused it, a generic server error otherwise. */
  function DeleteError(e: StoreError): HttpError {
    if e.DriverError? && e.constraint == UsersRoleFkey then HttpError(StatusBadRequest, CantDeleteRole)
    else HttpError(StatusInternalServerError, ErrorDeleting)
  }

  // ---------------------------------------------------------------------------
  // Fetching

  /** GetRoles: all user roles, or a server error when the fetch fails. */
  function GetRoles(fetched: Reply<seq<Role>>): (run: Run<seq<Role>>)
    ensures run.calls == [GetUserRolesStmt]
    ensures run.err.None? <==> fetched.Ok?
    ensures fetched.Ok? ==> run.out == fetched.row
    ensures fetched.Err? ==> run.out == [] && run.err == Some(HttpError(StatusInternalServerError, ErrorFetching))
  {
    match fetched
    case Ok(rows) => Run(rows, None, [GetUserRolesStmt])
    case Err(_) => Run([], Some(HttpError(StatusInternalServerError, ErrorFetching)), [GetUserRolesStmt])
  }

  /** A role whose serialised permissions are present but do not decode. */
  predicate DecodeFails(r: ListRole, decode: Bytes -> Option<seq<ListPermission>>) {
    r.listsRaw.Some? && decode(r.listsRaw.value).None?
  }

  /** One fetched list role after its nested permissions have been decoded in place. */
  function Decoded(r: ListRole, decode: Bytes -> Option<seq<ListPermission>>): (d: ListRole)
    ensures d.id == r.id && d.name == r.name && d.listsRaw == r.listsRaw
    ensures r.listsRaw.None? || DecodeFails(r, decode) ==> d == r
    ensures r.listsRaw.Some? && !DecodeFails(r, decode) ==> Some(d.lists) == decode(r.listsRaw.value)
  {
    match r.listsRaw
    case None => r
    case Some(raw) =>
      match decode(raw)
      case Some(lists) => r.(lists := lists)
      case None => r
  }

  /** The IDs of the roles whose permissions fail to decode, in fetch order: what
      GetListRoles writes to the log. */
  function FailedIDs(rows: seq<ListRole>, decode: Bytes -> Option<seq<ListPermission>>): (ids: seq<int>)
    ensures |ids| <= |rows|
  {
    if rows == [] then []
    else
      var last := rows[|rows| - 1];
      FailedIDs(rows[..|rows| - 1], decode) + (if DecodeFails(last, decode) then [last.id] else [])
  }

  /** A role ID is logged exactly when some fetched role with that ID fails to decode. */
  lemma {:induction false} FailedIDsAreDecodeFailures(rows: seq<ListRole>, decode: Bytes -> Option<seq<ListPermission>>, x: int)
    ensures x in FailedIDs(rows, decode) <==>
            exists i :: 0 <= i < |rows| && DecodeFails(rows[i], decode) && rows[i].id == x
  {
    if rows != [] {
      var init := rows[..|rows| - 1];
      FailedIDsAreDecodeFailures(init, decode, x);
      if x in FailedIDs(init, decode) {
        var i :| 0 <= i < |init| && DecodeFails(init[i], decode) && init[i].id == x;
        assert rows[i] == init[i];
      }
      if i :| 0 <= i < |rows| && DecodeFails(rows[i], decode) && rows[i].id == x {
        if i < |init| {
          assert init[i] == rows[i];
        }
      }
    }
  }

  /** GetListRoles: fetches all list roles, then decodes each role's nested list
      permissions in place. Only the fetch can fail the call; a role whose
      permissions do not decode is logged (`warnings`) and returned as fetched.
      `calls` is the one statement issued. */
  method GetListRoles(fetched: Reply<seq<ListRole>>, decode: Bytes -> Option<seq<ListPermission>>)
    returns (roles: seq<ListRole>, err: Option<HttpError>, warnings: seq<int>, calls: seq<Stmt>)
    ensures calls == [GetListRolesStmt]
    ensures err.None? <==> fetched.Ok?
    ensures fetched.Err? ==> roles == [] && warnings == [] &&
                             err == Some(HttpError(StatusInternalServerError, ErrorFetching))
    ensures fetched.Ok? ==> |roles| == |fetched.row|
    ensures fetched.Ok? ==> forall i :: 0 <= i < |roles| ==> roles[i] == Decoded(fetched.row[i], decode)
    ensures fetched.Ok? ==> warnings == FailedIDs(fetched.row, decode)
  {
    calls := [GetListRolesStmt];
    if fetched.Err? {
      return [], Some(HttpError(StatusInternalServerError, ErrorFetching)), [], calls;
    }
    var rows := fetched.row;
    var out := new ListRole[|rows|](i requires 0 <= i < |rows| => rows[i]);
    warnings := [];
    for n := 0 to out.Length
      invariant forall i :: 0 <= i < n ==> out[i] == Decoded(rows[i], decode)
      invariant forall i :: n <= i < out.Length ==> out[i] == rows[i]
      invariant warnings == FailedIDs(rows[..n], decode)
    {
      assert rows[..n + 1][..n] == rows[..n];
      var r := out[n];
      if r.listsRaw.None? {
        continue;
      }
      match decode(r.listsRaw.value) {
        case Some(lists) =>
          out[n] := r.(lists := lists);
        case None =>
          warnings := warnings + [r.id];
      }
    }
    assert rows[..out.Length] == rows;
    roles, err := out[..], None;
  }

  // ---------------------------------------------------------------------------
  // Creating

  /** CreateRole: inserts a role of type user carrying the caller's permissions. */
  function CreateRole(r: Role, created: Reply<Role>): (run: Run<Role>)
    ensures run.calls == [CreateRoleStmt(r.name, User, r.permissions)]
    ensures run.err.None? <==> created.Ok?
    ensures created.Ok? ==> run.out == created.row
    ensures created.Err? ==> run.out == ZeroRole &&
                             run.err == Some(HttpError(StatusInternalServerError, ErrorCreating))
  {
    var stmt := CreateRoleStmt(r.name, User, r.permissions);
    match created
    case Ok(row) => Run(row, None, [stmt])
    case Err(_) => Run(ZeroRole, Some(HttpError(StatusInternalServerError, ErrorCreating)), [stmt])
  }

  /** What UpsertListPermissions does with the store's reply `exec` to its statement. */
  function UpsertOutcome(roleID: int, lp: seq<ListPermission>, exec: Reply<()>): Run<()> {
    var pl := ListPayload(lp);
    var stmt := UpsertListPermissionsStmt(roleID, pl.listIDs, pl.listPerms);
    if exec.Ok? then Run((), None, [stmt])
    else Run((), Some(HttpError(StatusInternalServerError, ErrorCreating)), [stmt])
  }

  /** UpsertListPermissions: sends the desired list permissions `lp` of role `roleID`
      as one bulk upsert statement, whose two parallel arrays are built
      here: entries granting nothing are skipped, and every permission row is padded
      or cut to exactly PermSlots slots. */
  method UpsertListPermissions(roleID: int, lp: seq<ListPermission>, exec: Reply<()>)
    returns (stmt: Stmt, err: Option<HttpError>)
    ensures stmt.UpsertListPermissionsStmt? && stmt.roleID == roleID
    ensures stmt.listIDs == ListPayload(lp).listIDs && stmt.listPerms == ListPayload(lp).listPerms
    ensures |stmt.listIDs| == |stmt.listPerms| == CountGranted(lp)
    ensures forall i :: 0 <= i < |stmt.listPerms| ==> |stmt.listPerms[i]| == PermSlots
    ensures err.None? <==> exec.Ok?
    ensures err.Some? ==> err.value == HttpError(StatusInternalServerError, ErrorCreating)
    ensures Run((), err, [stmt]) == UpsertOutcome(roleID, lp, exec)
  {
    var listIDs: seq<int> := [];
    var listPerms: seq<seq<string>> := [];
    for i := 0 to |lp|
      invariant Payload(listIDs, listPerms) == ListPayload(lp[..i])
    {
      assert lp[..i + 1][..i] == lp[..i];
      var p := lp[i];
      if |p.permissions| == 0 {
        continue;
      }
      listIDs := listIDs + [p.id];

      var perms := new string[PermSlots](_ => "");
      var n := if |p.permissions| < perms.Length then |p.permissions| else perms.Length;
      for k := 0 to n
        invariant forall j :: 0 <= j < k ==> perms[j] == p.permissions[j]
        invariant forall j :: k <= j < perms.Length ==> perms[j] == ""
      {
        perms[k] := p.permissions[k];
      }
      assert perms[..] == PadPermissions(p.permissions);
      listPerms := listPerms + [perms[..]];
    }
    assert lp[..|lp|] == lp;
    stmt := UpsertListPermissionsStmt(roleID, listIDs, listPerms);
    err := if exec.Ok? then None else Some(HttpError(StatusInternalServerError, ErrorCreating));
  }

  /** CreateListRole: inserts a role of type list with an empty base permission array,
      then, only if that succeeded, upserts the caller's list permissions under the ID
      the store assigned. An upsert failure is reported, but the created role is
      still returned: the role row stays without permissions. */
  function CreateListRole(r: ListRole, created: Reply<ListRole>, upserted: Reply<()>): (run: Run<ListRole>)
    ensures |run.calls| >= 1 && run.calls[0] == CreateRoleStmt(r.name, List, [])
    ensures created.Err? ==> |run.calls| == 1 && run.out == ZeroListRole &&
                             run.err == Some(HttpError(StatusInternalServerError, ErrorCreating))
    ensures created.Ok? ==> run.out == created.row && |run.calls| == 2 &&
                            run.calls[1] == UpsertListPermissionsStmt(created.row.id,
                              ListPayload(r.lists).listIDs, ListPayload(r.lists).listPerms)
    ensures run.err.None? <==> created.Ok? && upserted.Ok?
    ensures run.err.Some? ==> run.err.value == HttpError(StatusInternalServerError, ErrorCreating)
  {
    var stmt := CreateRoleStmt(r.name, List, []);
    match created
    case Err(_) => Run(ZeroListRole, Some(HttpError(StatusInternalServerError, ErrorCreating)), [stmt])
    case Ok(row) =>
      var up := UpsertOutcome(row.id, r.lists, upserted);
      var err := if up.err.Some? then Some(HttpError(StatusInternalServerError, ErrorCreating)) else None;
      Run(row, err, [stmt] + up.calls)
  }

  /** Both list-role writers end in exactly what UpsertListPermissions does, under the
      ID the store returned, and succeed exactly when it does. */
  lemma ListRoleWritesEndInUpsert(r: ListRole, id: int, reply: Reply<ListRole>, upserted: Reply<()>)
    requires reply.Ok?
    ensures CreateListRole(r, reply, upserted).calls[1..] == UpsertOutcome(reply.row.id, r.lists, upserted).calls
    ensures CreateListRole(r, reply, upserted).err.None? <==> UpsertOutcome(reply.row.id, r.lists, upserted).err.None?
    ensures reply.row.id != 0 ==>
              UpdateListRole(id, r, reply, upserted).calls[1..] == UpsertOutcome(reply.row.id, r.lists, upserted).calls &&
              (UpdateListRole(id, r, reply, upserted).err.None? <==> UpsertOutcome(reply.row.id, r.lists, upserted).err.None?)
  {
  }

  // ---------------------------------------------------------------------------
  // Updating

  /** UpdateUserRole: sends a role's new name and permission set. A row returned with
      ID 0 means no role has that ID: a 400 not-found error. */
  function UpdateUserRole(id: int, r: Role, updated: Reply<Role>): (run: Run<Role>)
    ensures run.calls == [UpdateRoleStmt(id, r.name, r.permissions)]
    ensures run.err == Some(HttpError(StatusBadRequest, NotFound)) <==> updated.Ok? && updated.row.id == 0
    ensures run.err.None? <==> updated.Ok? && updated.row.id != 0
    ensures updated.Ok? ==> run.out == updated.row
    ensures updated.Err? ==> run.out == ZeroRole &&
                             run.err == Some(HttpError(StatusInternalServerError, ErrorUpdating))
  {
    var stmt := UpdateRoleStmt(id, r.name, r.permissions);
    match updated
    case Err(_) => Run(ZeroRole, Some(HttpError(StatusInternalServerError, ErrorUpdating)), [stmt])
    case Ok(row) =>
      if row.id == 0 then Run(row, Some(HttpError(StatusBadRequest, NotFound)), [stmt])
      else Run(row, None, [stmt])
  }

  /** UpdateListRole: renames a list role (its base permission array is sent empty),
      then, only if the role exists, upserts its list permissions. */
  function UpdateListRole(id: int, r: ListRole, updated: Reply<ListRole>, upserted: Reply<()>): (run: Run<ListRole>)
    ensures |run.calls| >= 1 && run.calls[0] == UpdateRoleStmt(id, r.name, [])
    ensures run.err == Some(HttpError(StatusBadRequest, NotFound)) <==> updated.Ok? && updated.row.id == 0
    ensures |run.calls| == 2 <==> updated.Ok? && updated.row.id != 0
    ensures |run.calls| == 2 ==> run.calls[1] == UpsertListPermissionsStmt(updated.row.id,
                                   ListPayload(r.lists).listIDs, ListPayload(r.lists).listPerms)
    ensures updated.Err? || updated.row.id == 0 ==> run.calls == [UpdateRoleStmt(id, r.name, [])]
    ensures updated.Ok? && updated.row.id != 0 ==>
              run.calls == [UpdateRoleStmt(id, r.name, []),
                            UpsertListPermissionsStmt(updated.row.id,
                              ListPayload(r.lists).listIDs, ListPayload(r.lists).listPerms)]
    ensures run.err.None? <==> updated.Ok? && updated.row.id != 0 && upserted.Ok?
    ensures updated.Ok? && updated.row.id != 0 && upserted.Err? ==>
              run.err == Some(HttpError(StatusInternalServerError, ErrorCreating))
    ensures updated.Ok? ==> run.out == updated.row
    ensures updated.Err? ==> run.out == ZeroListRole &&
                             run.err == Some(HttpError(StatusInternalServerError, ErrorUpdating))
  {
    var stmt := UpdateRoleStmt(id, r.name, []);
    match updated
    case Err(_) => Run(ZeroListRole, Some(HttpError(StatusInternalServerError, ErrorUpdating)), [stmt])
    case Ok(row) =>
      if row.id == 0 then Run(row, Some(HttpError(StatusBadRequest, NotFound)), [stmt])
      else
        var up := UpsertOutcome(row.id, r.lists, upserted);
        var err := if up.err.Some? then Some(HttpError(StatusInternalServerError, ErrorCreating)) else None;
        Run(row, err, [stmt] + up.calls)
  }

  /** No update issues a statement that sets a role's type: only creation does. This
      holds by the shape of `Stmt`, where only CreateRoleStmt carries a type; it is
      stated to record that the update traces above never include a creation. */
  lemma UpdatesNeverSetType(id: int, u: Role, ur: Reply<Role>, l: ListRole, lr: Reply<ListRole>, up: Reply<()>)
    ensures forall c :: c in UpdateUserRole(id, u, ur).calls ==> !c.CreateRoleStmt?
    ensures forall c :: c in UpdateListRole(id, l, lr, up).calls ==> !c.CreateRoleStmt?
  {
  }

  // ---------------------------------------------------------------------------
  // Deleting

  /** DeleteListPermission: removes one list permission of a role. */
  function DeleteListPermission(roleID: int, listID: int, deleted: Reply<()>): (run: Run<()>)
    ensures run.calls == [DeleteListPermissionStmt(roleID, listID)]
    ensures run.err.None? <==> deleted.Ok?
    ensures deleted.Err? && deleted.error == DriverError(UsersRoleFkey) ==>
              run.err == Some(HttpError(StatusBadRequest, CantDeleteRole))
    ensures deleted.Err? && deleted.error != DriverError(UsersRoleFkey) ==>
              run.err == Some(HttpError(StatusInternalServerError, ErrorDeleting))
  {
    var stmt := DeleteListPermissionStmt(roleID, listID);
    match deleted
    case Ok(_) => Run((), None, [stmt])
    case Err(e) => Run((), Some(DeleteError(e)), [stmt])
  }

  /** DeleteRole: deletes a role; storage refuses while users still reference it,
      which is reported as a 400 "role in use" rather than a server error. */
  function DeleteRole(id: int, deleted: Reply<()>): (run: Run<()>)
    ensures run.calls == [DeleteRoleStmt(id)]
    ensures run.err.None? <==> deleted.Ok?
    ensures deleted.Err? && deleted.error == DriverError(UsersRoleFkey) ==>
              run.err == Some(HttpError(StatusBadRequest, CantDeleteRole))
    ensures deleted.Err? && deleted.error != DriverError(UsersRoleFkey) ==>
              run.err == Some(HttpError(StatusInternalServerError, ErrorDeleting))
  {
    var stmt := DeleteRoleStmt(id);
    match deleted
    case Ok(_) => Run((), None, [stmt])
    case Err(e) => Run((), Some(DeleteError(e)), [stmt])
  }

  /** The two delete paths apply the same referential guard to the same store reply. */
  lemma DeletePathsAgree(id: int, roleID: int, listID: int, deleted: Reply<()>)
    ensures DeleteRole(id, deleted).err == DeleteListPermission(roleID, listID, deleted).err
  {
  }
}
