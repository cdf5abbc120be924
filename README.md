# listmonk roles core, modelled in Dafny

This project models the role logic of listmonk's core (`internal/core/roles.go`).
listmonk has two kinds of role. A *user role* carries global feature permissions.
A *list role* carries, per mailing list, a subset of {`list:get`, `list:manage`}.
The core fetches, creates, updates and deletes roles through prepared SQL statements.
It also sends a list role's desired list permissions to the store as one bulk upsert.

The database is an oracle. Each operation receives the store's reply to every statement it may issue (`Store.Reply`).
The straight-line operations return a `Roles.Run`: the value the Go method returns, its error (nil or an HTTP status with a message key), and the statements it issued, in order, with their bound arguments (`Store.Stmt`).
The two methods return the same parts as separate out-parameters.
`GetListRoles` returns the roles, the error, the logged role IDs and its one statement.
`UpsertListPermissions` returns its one statement and the error.
Properties such as "the upsert is issued only after the not-found check" are therefore statements about that trace.

Modules:

- `Wrappers`: `Option`.
- `Models`: `Role`, `ListRole`, `ListPermission`, `RoleType`, and the zero values a Go `var out` starts from.
- `Store`: the statements, the replies, and driver errors with the name of the violated constraint.
- `Permissions`: the specification of the bulk-upsert payload and what is proved about it.
  The payload is two parallel arrays, list IDs and fixed-width permission rows.
- `Roles`: the nine role operations of `Core`.
  `UpsertListPermissions` and `GetListRoles` are methods with loops, as in Go.
  The straight-line operations are functions of the store replies.
  `CreateListRole` and `UpdateListRole` are functions, so they reach the upsert through `UpsertOutcome`.
  `UpsertOutcome` is the function that the `UpsertListPermissions` method is proved equal to.

Two details of the code are worth knowing:

- A role whose nested permissions fail to decode keeps the `Lists` value the fetch left (`Roles.Decoded`).
  That value is empty only because the fetch never fills `Lists`.
- `UpdateListRole` reports a failed permission upsert with the "error creating" message, not "error updating".

## Model

| member | source | states |
|---|---|---|
| `Permissions.PadPermissions` | internal/core/roles.go:89-91 | every permission row has exactly 2 slots; slot k holds the k-th permission when there is one and `""` otherwise |
| `Permissions.CountGranted` | internal/core/roles.go:80-85 | the number of entries that grant at least one permission, at most the number of entries |
| `Permissions.ListPayload` | internal/core/roles.go:80-92 | the two arrays have equal length, equal to the number of entries with non-empty permissions, and every row has width 2 |
| `Permissions.PayloadEntryAt` | internal/core/roles.go:80-91 | order is preserved: a granting entry with i granting entries before it lands at position i of both arrays, as its ID and its padded row |
| `Permissions.PayloadSourceOf` | internal/core/roles.go:80-91 | conversely, every position i of the arrays holds the ID and padded row of the granting entry with i granting entries before it |
| `Permissions.PayloadConcat` | internal/core/roles.go:80-92 | the payload of a concatenation of desired states is the concatenation of their payloads |
| `Permissions.EmptyEntryContributesNothing` | internal/core/roles.go:81-83 | inserting an entry with no permissions anywhere in the input leaves both arrays unchanged |
| `Permissions.EmptyPayloadIffNothingGranted` | internal/core/roles.go:80-94 | the upsert is sent empty arrays exactly when no entry grants anything |
| `Permissions.PadKeepsLeadingPermissions` | internal/core/roles.go:89-90 | permissions beyond the second are not copied; one or two permissions are kept in order |
| `Permissions.EditorsPayloads` | internal/core/roles.go:80-92 | view+manage on list 3 with nothing on list 7 sends one row `[list:get, list:manage]` for list 3; view only sends `[list:get, ""]` |
| `Roles.UpsertListPermissions` | internal/core/roles.go:75-100 | the loop builds exactly `ListPayload` of the input (equal lengths, the granting count, width 2, order kept) and binds it with the role ID; a store error gives a 500 |
| `Roles.GetRoles` | internal/core/roles.go:13-21 | returns the fetched user roles, or nil and a 500 when the fetch fails |
| `Roles.Decoded` | internal/core/roles.go:32-40 | decoding writes only `Lists`; a role with no raw permissions or a failed decode is left as fetched; otherwise `Lists` is the decoded value |
| `Roles.FailedIDs` | internal/core/roles.go:37-39 | the log has no more lines than there are fetched roles |
| `Roles.FailedIDsAreDecodeFailures` | internal/core/roles.go:33-39 | a role ID is logged exactly when a fetched role with that ID has raw permissions that fail to decode |
| `Roles.GetListRoles` | internal/core/roles.go:24-43 | issues only the list-roles fetch; fails only if the fetch fails; otherwise returns every fetched role, in order, each one decoded independently, and logs exactly the decode failures |
| `Roles.CreateRole` | internal/core/roles.go:46-55 | inserts with type `user` and the caller's name and permissions; returns the stored row, or the zero role and a 500 |
| `Roles.CreateListRole` | internal/core/roles.go:58-72 | inserts with type `list` and an empty base permission array; upserts under the returned ID only after a successful insert; succeeds only if both steps succeed; returns the created row even when the upsert fails |
| `Roles.ListRoleWritesEndInUpsert` | internal/core/roles.go:66-69 | after the base row is written, create and update of a list role issue exactly the upsert's statement and succeed exactly when it does (update: lines 144-147) |
| `Roles.UpdateUserRole` | internal/core/roles.go:116-129 | a 400 not-found exactly when the store succeeds with ID 0; success exactly when it returns a non-zero ID; a store error gives a 500 |
| `Roles.UpdateListRole` | internal/core/roles.go:132-150 | sends an empty base permission array; a 400 not-found exactly when the store returns ID 0; on not-found or a store error only the update is issued; otherwise exactly the update then the upsert under the found ID; an upsert failure gives a 500 "error creating"; success needs both steps |
| `Roles.UpdatesNeverSetType` | internal/core/roles.go:116-150 | neither update path issues a statement that sets a role's type: no update statement carries a type |
| `Roles.DeleteListPermission` | internal/core/roles.go:103-113 | nil on success; a failure that violates `users_role_id_fkey` gives a 400 "cannot delete role"; every other failure gives a 500 "error deleting" |
| `Roles.DeleteRole` | internal/core/roles.go:153-163 | nil on success; a failure that violates `users_role_id_fkey` gives a 400 "cannot delete role"; every other failure gives a 500 "error deleting" |
| `Roles.DeletePathsAgree` | internal/core/roles.go:154-159 | both delete paths report the same error for the same store reply (also lines 104-109) |

## Left out

- The SQL behind the prepared statements is not part of this model. That includes whether the upsert removes rows missing from its input (full replace) and whether it is atomic, name uniqueness, and foreign-key enforcement. Replies are free parameters, so every property holds for every reply the database could give.
- Array marshalling by the Postgres driver is left out. Statements carry Dafny sequences.
- Driver error types are reduced to "driver error with a constraint name" or "other error". The driver's message text (`pqErrMsg`) is left out.
- `json.Unmarshal` is an opaque decoder parameter that either succeeds or fails. Go's decoder can partly fill `Lists` before it reports a type error. The model leaves `Lists` untouched on failure.
- Localised message text and its name placeholders (role, user role, list role) are left out. An error is a status code plus a message key.
- The log sink is left out. The log line for a failed decode is modelled as the role ID returned in `warnings`.
- Roles.CreateRole, Roles.CreateListRole, Roles.UpdateUserRole, Roles.UpdateListRole: on a store error they return the zero role. A fetch whose scan fails part-way can leave `out` partly filled in Go; that partial value is not modelled.
- Role timestamps are left out. Go's distinction between a nil slice and an empty slice is also left out.
- Concurrency and atomicity of the bulk statement belong to the storage layer and are left out.
- The role lifecycle (created, updated, deleted) is not modelled as state. It would need the table semantics that are left out above.
