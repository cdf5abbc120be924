/** The storage boundary: the prepared statements the core issues and the replies it
    can get back. The database itself is an oracle: every reply is a parameter. */
module Store {
  import opened Models

  /** The name of the foreign key from users to roles. */
  const UsersRoleFkey: string := "users_role_id_fkey"

  /** A failed statement: a Postgres driver error, which names the violated
      constraint ("" when none), or any other error (connection, scan, ...). */
  datatype StoreError = DriverError(constraint: string) | OtherError

  /** The reply to one statement: the row(s) scanned, or the error. */
  datatype Reply<T> = Ok(row: T) | Err(error: StoreError)

  /** One prepared statement as issued, with its bound arguments. */
  datatype Stmt =
    | GetUserRolesStmt
    | GetListRolesStmt
    | CreateRoleStmt(name: string, roleType: RoleType, permissions: seq<string>)
    | UpdateRoleStmt(id: int, name: string, permissions: seq<string>)
    | UpsertListPermissionsStmt(roleID: int, listIDs: seq<int>, listPerms: seq<seq<string>>)
    | DeleteListPermissionStmt(roleID: int, listID: int)
    | DeleteRoleStmt(id: int)
}
