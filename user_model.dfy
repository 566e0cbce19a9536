/** The User document: a staff account with a role from a closed set, a
    unique contact number, a PIN hash, an active flag and an access token. */
module UserModel {
  import opened Common

  datatype Role = Admin | Catcher | Vet | Caretaker

  /** The role names the validator accepts. */
  const RoleNames: seq<string> := ["admin", "catcher", "vet", "caretaker"]

  function RoleName(r: Role): string
  {
    match r
    case Admin => "admin"
    case Catcher => "catcher"
    case Vet => "vet"
    case Caretaker => "caretaker"
  }

  /** The role validator `roles.includes(value)`: a name is accepted exactly
      when it is one of the four, and it then names that role. */
  function ParseRole(name: string): (r: Option<Role>)
    ensures r.Some? <==> name in RoleNames
    ensures r.Some? ==> RoleName(r.value) == name
  {
    if name == "admin" then Some(Admin)
    else if name == "catcher" then Some(Catcher)
    else if name == "vet" then Some(Vet)
    else if name == "caretaker" then Some(Caretaker)
    else None
  }

  lemma RoleNamesRoundTrip(r: Role)
    ensures ParseRole(RoleName(r)) == Some(r)
  {
  }

  datatype User = User(
    id: Id,
    name: string,
    contactNumber: string,
    password: string,
    isActive: bool,
    role: Role,
    accessToken: Option<string>)

  /** A Mongoose `required` string: present and not empty. */
  predicate Required(s: Option<string>)
  {
    s.Some? && s.value != ""
  }

  /** Builds and validates a user document from the given values: `name` and
      `contactNumber` are required, `isActive` defaults to false, `role`
      defaults to catcher and must otherwise be one of the four names. */
  function MakeUser(id: Id, name: Option<string>, contactNumber: Option<string>, password: string,
                    isActive: Option<bool>, role: Option<string>): (r: Option<User>)
    ensures r.Some? <==> Required(name) && Required(contactNumber) && (role.None? || role.value in RoleNames)
    ensures r.Some? ==>
      && r.value.id == id && r.value.name == name.value
      && r.value.contactNumber == contactNumber.value && r.value.password == password
      && r.value.isActive == (isActive == Some(true))
      && (role.None? ==> r.value.role == Catcher)
      && (role.Some? ==> RoleName(r.value.role) == role.value)
      && r.value.accessToken.None?
  {
    if !Required(name) || !Required(contactNumber) then None
    else
      var parsed := if role.None? then Some(Catcher) else ParseRole(role.value);
      if parsed.None? then None
      else Some(User(id, name.value, contactNumber.value, password,
                     if isActive.Some? then isActive.value else false, parsed.value, None))
  }
}
