/** controllers/authController.js: registration and login over the users
    collection. bcrypt's `hash` and `compare` and jsonwebtoken's `sign` are
    parameters; the cost factor, the secret and the expiry they receive are
    not modelled. A password is `None` when the body has none, which makes
    bcrypt throw. */
module AuthController {
  import opened Common
  import opened Http
  import opened UserModel
  import opened Store

  datatype AuthBody = Msg(message: string) | LoggedIn(message: string, token: string)

  /** Why `signUp` stores nothing: the address is taken (400), or something
      threw (500). */
  datatype SignUpFailure = AlreadyExists | Failed

  /** The user `signUp` stores under identifier `id`. */
  function NewUser(users: seq<User>, id: ObjectId, hash: string -> string, name: string, email: string,
                   password: Option<string>, role: Option<string>): (r: Result<User, SignUpFailure>)
    ensures (r == Err(AlreadyExists)) <==> exists i :: 0 <= i < |users| && users[i].email == email
    ensures r.Ok? <==>
      && (forall i :: 0 <= i < |users| ==> users[i].email != email)
      && password.Some? && name != "" && email != "" && hash(password.value) != ""
      && (role.Some? ==> role.value in {"organizer", "user", "admin"})
    ensures r.Ok? ==>
      && ValidUser(r.value) && r.value.id == id && r.value.name == name && r.value.email == email
      && r.value.password == hash(password.value)
      && RoleName(r.value.role) == (if role.Some? then role.value else "user")
  {
    if FindUserByEmail(users, email).Some? then Err(AlreadyExists)
    else if password.None? then Err(Failed)
    else
      CreateUserSpec(id, name, email, hash(password.value), role);
      match CreateUser(id, name, email, hash(password.value), role)
      case Ok(u) => Ok(u)
      case Err(_) => Err(Failed)
  }

  /** A user `signUp` stores keeps e-mail addresses pairwise distinct. */
  lemma SignUpKeepsEmailsUnique(users: seq<User>, id: ObjectId, hash: string -> string, name: string, email: string,
                                password: Option<string>, role: Option<string>)
    requires EmailsUnique(users)
    requires NewUser(users, id, hash, name, email, password, role).Ok?
    ensures EmailsUnique(users + [NewUser(users, id, hash, name, email, password, role).value])
  {
    var u := NewUser(users, id, hash, name, email, password, role).value;
    var grown := users + [u];
    forall i, j | 0 <= i < j < |grown| ensures grown[i].email != grown[j].email {
      if j == |users| {
        assert grown[i] == users[i];
      } else {
        assert grown[i] == users[i] && grown[j] == users[j];
      }
    }
  }

  /** `signUp`: 400 and nothing stored when the address is taken; otherwise
      the user with the hashed password is stored and the answer is 201
      with a message only (no token, no user); 500 and nothing stored when
      hashing or validation throws. */
  method SignUp(db: Database, hash: string -> string, name: string, email: string,
                password: Option<string>, role: Option<string>) returns (r: Response<AuthBody>)
    requires db.Valid()
    modifies db
    ensures db.Valid()
    ensures db.events == old(db.events) && db.bookings == old(db.bookings)
    ensures match NewUser(old(db.users), old(db.nextId), hash, name, email, password, role)
      case Ok(u) => r == Response(201, Msg("User created successfully")) && db.users == old(db.users) + [u]
      case Err(AlreadyExists) => r == Response(400, Msg("User already exists")) && db.users == old(db.users)
      case Err(Failed) => r == Response(500, Msg(SomethingWentWrong)) && db.users == old(db.users)
  {
    var id := db.NewId();
    var made := NewUser(db.users, id, hash, name, email, password, role);
    match made
    case Ok(u) =>
      db.InsertUser(u);
      r := Response(201, Msg("User created successfully"));
    case Err(AlreadyExists) =>
      r := Response(400, Msg("User already exists"));
    case Err(Failed) =>
      r := Response(500, Msg(SomethingWentWrong));
  }

  /** `signIn`: 404 for an unknown address. Otherwise the first user with
      that address is checked: 500 when no password was sent (bcrypt
      throws), 400 when `compare` rejects the password, and 200 with a
      token signed over that user's id and address when it accepts. */
  function SignIn(users: seq<User>, compare: (string, string) -> bool, sign: (ObjectId, string) -> string,
                  email: string, password: Option<string>): (r: Response<AuthBody>)
    ensures r.status == 404 <==> forall i :: 0 <= i < |users| ==> users[i].email != email
    ensures r.status == 404 ==> r.body == Msg("User not found")
    ensures r.status == 400 ==> r.body == Msg("Invalid credentials")
    ensures r.body.LoggedIn? <==> r.status == 200
    ensures r.status == 200 ==>
      exists u :: u in users && u.email == email && password.Some? && compare(password.value, u.password)
               && r.body == LoggedIn("Login successful", sign(u.id, u.email))
    ensures r.status in {200, 400, 404, 500}
    ensures forall i :: 0 <= i < |users| && users[i].email == email && FirstWithEmail(users, email, i) ==>
      && (password.None? ==> r == Response(500, Msg(SomethingWentWrong)))
      && (password.Some? && !compare(password.value, users[i].password) ==> r == Response(400, Msg("Invalid credentials")))
      && (password.Some? && compare(password.value, users[i].password) ==>
            r == Response(200, LoggedIn("Login successful", sign(users[i].id, users[i].email))))
  {
    match FindUserByEmail(users, email)
    case None => Response(404, Msg("User not found"))
    case Some(u) =>
      if password.None? then Response(500, Msg(SomethingWentWrong))
      else if !compare(password.value, u.password) then Response(400, Msg("Invalid credentials"))
      else Response(200, LoggedIn("Login successful", sign(u.id, u.email)))
  }

  /** With a `compare` that accepts a password against its own hash, a user
      who has just signed up can sign in with the same address and password,
      and receives the token signed over their new id. */
  lemma SignUpThenSignIn(users: seq<User>, id: ObjectId, hash: string -> string, compare: (string, string) -> bool,
                         sign: (ObjectId, string) -> string, name: string, email: string, password: Option<string>,
                         role: Option<string>)
    requires forall p :: compare(p, hash(p))
    requires NewUser(users, id, hash, name, email, password, role).Ok?
    ensures SignIn(users + [NewUser(users, id, hash, name, email, password, role).value], compare, sign, email, password)
         == Response(200, LoggedIn("Login successful", sign(id, email)))
  {
    var u := NewUser(users, id, hash, name, email, password, role).value;
    FindUserByEmailAfterInsert(users, u, email);
  }
}
