/** The signed-in user record kept by the session store (src/store/authSlice.ts:3-10). */
module Users {
  import opened Wrappers

  datatype Role = ADMIN | MANAGER | STAFF

  datatype Status = ACTIVE | INACTIVE

  /** `_id` is called `id` here; `token` is the opaque bearer credential. */
  datatype User = User(id: string, name: string, email: string, role: Role, status: Status, token: string)

  function RoleName(r: Role): string
  {
    match r
    case ADMIN => "ADMIN"
    case MANAGER => "MANAGER"
    case STAFF => "STAFF"
  }

  function StatusName(s: Status): string
  {
    match s
    case ACTIVE => "ACTIVE"
    case INACTIVE => "INACTIVE"
  }

  /** Reads a role tag back; only the three exact upper-case names are roles. */
  function RoleFromName(s: string): (r: Option<Role>)
    ensures r.Some? ==> RoleName(r.value) == s
    ensures forall x: Role :: RoleName(x) == s ==> r == Some(x)
  {
    if s == "ADMIN" then Some(ADMIN)
    else if s == "MANAGER" then Some(MANAGER)
    else if s == "STAFF" then Some(STAFF)
    else None
  }

  function StatusFromName(s: string): (r: Option<Status>)
    ensures r.Some? ==> StatusName(r.value) == s
    ensures forall x: Status :: StatusName(x) == s ==> r == Some(x)
  {
    if s == "ACTIVE" then Some(ACTIVE)
    else if s == "INACTIVE" then Some(INACTIVE)
    else None
  }
}
