/** The API server's account rules (src/app.py): the validation chain shared
    by `/register` and `/login`, the `users` table and registration, the
    credential check and token issue of login, and the `/protected` reply.
    bcrypt and the JWT library are abstract pairs of functions. */
module Server {
  import opened Wrappers

  /** `request.get_json(silent=True)`: None when the body is not JSON,
      otherwise its members. Only string-valued members are modelled. */
  type RequestBody = Option<map<string, string>>

  datatype Credentials = Credentials(email: string, password: string)

  /** A row of `users`; its unique `email` column is the key of the table. */
  datatype UserRow = UserRow(id: nat, password: string, isActive: bool)

  /** What a successful login sends beside `msg`: the token and `{email, id}`. */
  datatype Grant = Grant(token: string, email: string, id: nat)

  /** A JSON reply: its HTTP status, its `msg`, and for a login its grant. */
  datatype Response = Response(status: nat, msg: string, grant: Option<Grant>)

  /** `bcrypt.generate_password_hash` (with its random salt as an input)
      and `bcrypt.check_password_hash`. */
  datatype Bcrypt = Bcrypt(hash: (string, string) -> string, check: (string, string) -> bool)

  /** The only property of bcrypt the model relies on. */
  ghost predicate BcryptLaw(b: Bcrypt) {
    forall password, salt :: b.check(b.hash(password, salt), password)
  }

  /** `create_access_token(identity=...)` and the identity `get_jwt_identity`
      reads back from a token that `@jwt_required()` accepted. */
  datatype Jwt = Jwt(create: string -> string, identity: string -> Option<string>)

  /** The only property of the JWT library the model relies on. */
  ghost predicate JwtLaw(j: Jwt) {
    forall email :: j.identity(j.create(email)) == Some(email)
  }

  const MissingBody: string := "Debes enviar información al body"
  const MissingEmail: string := "El campo email es obligatorio"
  const MissingPassword: string := "El campo password es obligatorio"
  const EmailTaken: string := "El email ya está registrado"
  const BadCredentials: string := "Usuario o contraseña errónea"
  const LoginOk: string := "ok"

  /** The 201 text of `/register`, naming the new user's email. */
  function CreatedText(email: string): (r: string)
    ensures |r| == |email| + 15 && r[8..8 + |email|] == email
  {
    "Usuario " + email + " creado"
  }

  /** The `/protected` text, ending with the token's identity. */
  function ProtectedText(identity: string): (r: string)
    ensures |identity| <= |r| && r[|r| - |identity|..] == identity
  {
    "Accediste a tu información privada " + identity
  }

  /** The early returns both handlers start with, in their order: no body,
      then no `email`, then no `password`, each a 400 with its own `msg`. */
  function Validate(body: RequestBody): (r: Result<Credentials, Response>)
    ensures r.Ok? <==> body.Some? && "email" in body.value && "password" in body.value
    ensures r.Ok? ==> r.value == Credentials(body.value["email"], body.value["password"])
    ensures r.Err? ==> r.error.status == 400 && r.error.grant.None?
    ensures body.None? ==> r.Err? && r.error.msg == MissingBody
    ensures body.Some? && "email" !in body.value ==> r.Err? && r.error.msg == MissingEmail
    ensures body.Some? && "email" in body.value && "password" !in body.value ==>
      r.Err? && r.error.msg == MissingPassword
  {
    if body.None? then Err(Response(400, MissingBody, None))
    else if "email" !in body.value then Err(Response(400, MissingEmail, None))
    else if "password" !in body.value then Err(Response(400, MissingPassword, None))
    else Ok(Credentials(body.value["email"], body.value["password"]))
  }

  /** The three validation failures are told apart by their text. */
  lemma ValidationMessagesDiffer()
    ensures MissingBody != MissingEmail && MissingBody != MissingPassword
    ensures MissingEmail != MissingPassword
  {
  }

  /** The `/login` handler: succeeds, with a token for the stored email and
      the row's id, exactly when the credentials pass validation, the email
      has a row and bcrypt accepts the password; otherwise a 400. */
  function Login(users: map<string, UserRow>, body: RequestBody, b: Bcrypt, j: Jwt): (r: Response)
    ensures r.grant.Some? <==> r.status == 200
    ensures r.status == 200 || r.status == 400
    ensures Validate(body).Err? ==> r == Validate(body).error
    ensures r.status == 200 <==>
      && Validate(body).Ok?
      && Validate(body).value.email in users
      && b.check(users[Validate(body).value.email].password, Validate(body).value.password)
    ensures r.status == 200 ==>
      var email := Validate(body).value.email;
      r == Response(200, LoginOk, Some(Grant(j.create(email), email, users[email].id)))
  {
    match Validate(body)
    case Err(e) => e
    case Ok(creds) =>
      if creds.email !in users then Response(400, BadCredentials, None)
      else
        var row := users[creds.email];
        if !b.check(row.password, creds.password) then Response(400, BadCredentials, None)
        else Response(200, LoginOk, Some(Grant(j.create(creds.email), creds.email, row.id)))
  }

  /** An unknown email and a wrong password get the identical reply. */
  lemma LoginFailuresLookAlike(users: map<string, UserRow>, body: RequestBody, b: Bcrypt, j: Jwt)
    requires Validate(body).Ok?
    ensures Validate(body).value.email !in users ==>
      Login(users, body, b, j) == Response(400, BadCredentials, None)
    ensures Validate(body).value.email in users
            && !b.check(users[Validate(body).value.email].password, Validate(body).value.password) ==>
      Login(users, body, b, j) == Response(400, BadCredentials, None)
  {
  }

  /** The `/protected` handler once `@jwt_required()` has accepted the token:
      always status 400, naming the token's identity. */
  function Protected(identity: string): (r: Response)
    ensures r.status == 400 && r.grant.None?
    ensures r.msg == ProtectedText(identity)
  {
    Response(400, ProtectedText(identity), None)
  }

  /** The token a login issues names the logged-in email at `/protected`. */
  lemma ProtectedNamesLoginEmail(users: map<string, UserRow>, body: RequestBody, b: Bcrypt, j: Jwt)
    requires JwtLaw(j)
    requires Login(users, body, b, j).status == 200
    ensures j.identity(Login(users, body, b, j).grant.value.token).Some?
    ensures var token := Login(users, body, b, j).grant.value.token;
      Protected(j.identity(token).value).msg == ProtectedText(Validate(body).value.email)
  {
  }

  /** The `users` table, with the next id the autoincrement key will assign. */
  class UserTable {
    var users: map<string, UserRow>
    var nextId: nat

    /** Ids are positive, below `nextId` and unique; every row is active. */
    ghost predicate Valid()
      reads this
    {
      && 1 <= nextId
      && (forall e :: e in users ==> 1 <= users[e].id < nextId && users[e].isActive)
      && (forall e, f :: e in users && f in users && users[e].id == users[f].id ==> e == f)
    }

    constructor ()
      ensures Valid() && users == map[] && nextId == 1
    {
      users, nextId := map[], 1;
    }

    /** The `/register` handler: the validation chain, then a 400 for a
        taken email, then one new active row holding the password's hash. */
    method Register(body: RequestBody, salt: string, b: Bcrypt) returns (r: Response)
      requires Valid()
      modifies this
      ensures Valid()
      ensures r.grant.None?
      ensures Validate(body).Err? ==>
        r == Validate(body).error && users == old(users) && nextId == old(nextId)
      ensures Validate(body).Ok? && Validate(body).value.email in old(users) ==>
        r == Response(400, EmailTaken, None) && users == old(users) && nextId == old(nextId)
      ensures Validate(body).Ok? && Validate(body).value.email !in old(users) ==>
        var creds := Validate(body).value;
        && r == Response(201, CreatedText(creds.email), None)
        && users == old(users)[creds.email := UserRow(old(nextId), b.hash(creds.password, salt), true)]
        && |users| == |old(users)| + 1
        && nextId == old(nextId) + 1
    {
      var v := Validate(body);
      if v.Err? {
        return v.error;
      }
      var creds := v.value;
      if creds.email in users {
        return Response(400, EmailTaken, None);
      }
      var row := UserRow(nextId, b.hash(creds.password, salt), true);
      users := users[creds.email := row];
      nextId := nextId + 1;
      r := Response(201, CreatedText(creds.email), None);
    }
  }

  /** Registering an email and then logging in with the same password
      succeeds, with a token for that email and the id the row was given. */
  lemma RegisterThenLogin(users: map<string, UserRow>, id: nat, body: RequestBody,
                          salt: string, b: Bcrypt, j: Jwt)
    requires BcryptLaw(b)
    requires Validate(body).Ok? && Validate(body).value.email !in users
    ensures var creds := Validate(body).value;
      Login(users[creds.email := UserRow(id, b.hash(creds.password, salt), true)], body, b, j)
      == Response(200, LoginOk, Some(Grant(j.create(creds.email), creds.email, id)))
  {
  }
}
