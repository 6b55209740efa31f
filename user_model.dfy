/** The User document (models/User.js) and the table-wide uniqueness of
    e-mail addresses that its unique index enforces. */
module UserModel {
  import opened Common
  import opened Schema

  datatype Role = OrganizerRole | UserRole | AdminRole

  /** The string the schema's `enum` lists for each role. */
  function RoleName(r: Role): string
  {
    match r
    case OrganizerRole => "organizer"
    case UserRole => "user"
    case AdminRole => "admin"
  }

  /** The `enum` check on the `role` path. */
  function ParseRole(s: string): (r: Option<Role>)
    ensures r.Some? ==> RoleName(r.value) == s
  {
    if s == "organizer" then Some(OrganizerRole)
    else if s == "user" then Some(UserRole)
    else if s == "admin" then Some(AdminRole)
    else None
  }

  /** Every role name reads back as its role, and no two roles share a name. */
  lemma RoleNameRoundTrip(r: Role)
    ensures ParseRole(RoleName(r)) == Some(r)
  {
  }

  /** `password` holds whatever the sign-up stored: the bcrypt hash. */
  datatype User = User(id: ObjectId, name: string, email: string, password: string, role: Role)

  /** A user as `select('-password')` returns it. */
  datatype PublicUser = PublicUser(id: ObjectId, name: string, email: string, role: Role)

  function WithoutPassword(u: User): PublicUser
  {
    PublicUser(u.id, u.name, u.email, u.role)
  }

  predicate ValidUser(u: User)
  {
    u.name != "" && u.email != "" && u.password != ""
  }

  /** The unique index on `email`. */
  ghost predicate EmailsUnique(users: seq<User>)
  {
    forall i, j :: 0 <= i < j < |users| ==> users[i].email != users[j].email
  }

  /** The validation issues of a new user, in schema order; an absent role
      takes the default `user` and passes. */
  function UserIssues(name: string, email: string, password: string, role: Option<string>): seq<Issue>
  {
    RequiredString("name", Some(name))
    + RequiredString("email", Some(email))
    + RequiredString("password", Some(password))
    + (if role.Some? && ParseRole(role.value).None? then [NotInEnum("role")] else [])
  }

  /** `User.create({name, email, password, role})` under the identifier
      `id`. */
  function CreateUser(id: ObjectId, name: string, email: string, password: string, role: Option<string>): Result<User, seq<Issue>>
  {
    var issues := UserIssues(name, email, password, role);
    if issues != [] then Err(issues)
    else Ok(User(id, name, email, password,
                 match role case Some(s) => ParseRole(s).value case None => UserRole))
  }

  /** Creation succeeds exactly when name, e-mail and password are non-empty
      and the role, if given, is one of the three names; the stored user
      keeps every value, and its role is `user` when none was given. */
  lemma CreateUserSpec(id: ObjectId, name: string, email: string, password: string, role: Option<string>)
    ensures CreateUser(id, name, email, password, role).Ok? <==>
      name != "" && email != "" && password != "" && (role.Some? ==> role.value in {"organizer", "user", "admin"})
    ensures CreateUser(id, name, email, password, role).Ok? ==>
      var u := CreateUser(id, name, email, password, role).value;
      && ValidUser(u) && u.id == id && u.name == name && u.email == email && u.password == password
      && RoleName(u.role) == (if role.Some? then role.value else "user")
  {
  }
}
