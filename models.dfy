/** The role entities the core reads and writes (listmonk's models package). */
module Models {
  import opened Wrappers

  /** One byte of a raw JSON message. */
  newtype byte = x: int | 0 <= x < 256

  /** The raw, still-encoded nested list permissions of a list role. */
  type Bytes = seq<byte>

  /** The role type column: "user" or "list"; Unset is Go's zero value "". */
  datatype RoleType = Unset | User | List

  /** A global (feature-permission) role. */
  datatype Role = Role(id: int, roleType: RoleType, name: string, permissions: seq<string>)

  /** One list a list role grants access to, with the permissions granted on it
      (drawn from "list:get" and "list:manage"). */
  datatype ListPermission = ListPermission(id: int, name: string, permissions: seq<string>)

  /** A list-scoped role. `listsRaw` is the serialised permission collection as the
      store returns it (None for SQL NULL); `lists` is its decoded form, which the
      store never fills in itself. */
  datatype ListRole = ListRole(id: int, name: string, lists: seq<ListPermission>, listsRaw: Option<Bytes>)

  /** What a `var out models.Role` holds before anything is scanned into it. */
  const ZeroRole: Role := Role(0, Unset, "", [])

  /** What a `var out models.ListRole` holds before anything is scanned into it. */
  const ZeroListRole: ListRole := ListRole(0, "", [], None)
}
