/**
 * The /users router: register, login, and reading and updating the profile
 * of the user the token names. `verifyToken` is not part of this model: a
 * protected handler receives the `userId` it sets on the request.
 */
module AuthRoutes {
  import opened Wrappers
  import opened External
  import opened Strings
  import opened UserSchema
  import opened Database
  import opened Http

  /** `expiresIn: "24h"`, in the seconds of the token's `iat` and `exp` claims. */
  const TokenLifetime := 24 * 60 * 60

  const MissingFields := "Please provide all required fields"
  const AuthenticationFailed := "Authentication failed! Usernamer or Password doesn't match."

  /** The validators of POST /register and PUT /me, in the order they are declared. */
  function ProfileValidation(libs: Libraries, username: string, password: string, email: string): (errs: seq<string>)
    ensures errs == [] <==> username != "" && password != "" && libs.isEmail(email)
    ensures |errs| <= 3
  {
    (if username == "" then ["Username is required"] else []) +
    (if password == "" then ["Password is required"] else []) +
    (if libs.isEmail(email) then [] else ["Email is invalid"])
  }

  /** The validators of POST /login. */
  function LoginValidation(username: string, password: string): (errs: seq<string>)
    ensures errs == [] <==> username != "" && password != ""
  {
    (if username == "" then ["Username is required"] else []) +
    (if password == "" then ["Password is required"] else [])
  }

  /** POST /users/register */
  method Register(db: Store, libs: Libraries, salt: nat, username: string, password: string, email: string)
    returns (resp: Response)
    requires db.Valid()
    modifies db
    ensures db.Valid()
    ensures db.tasks == old(db.tasks) && db.categories == old(db.categories)
    ensures
      var errs := ProfileValidation(libs, username, password, email);
      var name, mail := Normalize(username), Normalize(email);
      var id := NewObjectId(old(db.users).Keys);
      if errs != [] then
        resp == Response(400, Errors(errs)) && db.users == old(db.users)
      else if old(db.HasUsername(name)) then
        resp == Response(400, Error("Username already exists")) && db.users == old(db.users)
      else if old(db.HasEmail(mail)) then
        resp == Response(400, Error("Email already exists")) && db.users == old(db.users)
      else if username == "" || password == "" || email == "" then
        resp == Response(400, Error(MissingFields)) && db.users == old(db.users)
      else if !ValidForSave(libs, name, mail, password) then
        resp == ServerError && db.users == old(db.users)
      else
        && resp == Response(201, Message("User registered successfully"))
        && id !in old(db.users)
        && db.users == old(db.users)[id := User(id, name, mail, libs.bcryptHash(password, SaltRounds, salt), [], [])]
    ensures libs.RejectsEmpty() ==> resp.body != Error(MissingFields)
  {
    var errs := ProfileValidation(libs, username, password, email);
    if errs != [] {
      return Response(400, Errors(errs));
    }
    // Mongoose runs the lowercase and trim setters on query filters as well.
    var existing := db.FindUserByUsername(Normalize(username));
    if existing.Some? {
      return Response(400, Error("Username already exists"));
    }
    var existingEmail := db.FindUserByEmail(Normalize(email));
    if existingEmail.Some? {
      return Response(400, Error("Email already exists"));
    }
    if username == "" || password == "" || email == "" {
      return Response(400, Error(MissingFields));
    }
    var user := new UserDocument(username, email, password);
    user.id := NewObjectId(db.users.Keys);
    // user.save(): validation first, then the pre-save hook, then the insert
    if !ValidForSave(libs, user.username, user.email, user.password) {
      return ServerError;
    }
    user.PreSave(libs, salt);
    var ok := db.InsertUser(user.Record());
    if !ok {
      return ServerError;
    }
    user.MarkSaved();
    resp := Response(201, Message("User registered successfully"));
  }

  /**
   * POST /users/login. An unknown username and a wrong password get the
   * same 401 reply; a successful login changes nothing and returns a token
   * for the user's id that expires 24 hours after it is issued.
   */
  method Login(db: Store, libs: Libraries, secret: string, now: nat, username: string, password: string)
    returns (resp: Response)
    requires UniqueUsers(db.users)
    ensures
      var errs := LoginValidation(username, password);
      var name := Normalize(username);
      if errs != [] then
        resp == Response(400, Errors(errs))
      else if !db.HasUsername(name) || !ComparePassword(libs, db.UserNamed(name), password) then
        resp == Response(401, Error(AuthenticationFailed))
      else if secret == "" then
        resp == ServerError
      else
        resp == Response(200, TokenIssued(Token(db.UserNamed(name).id, now / 1000, now / 1000 + TokenLifetime)))
  {
    var errs := LoginValidation(username, password);
    if errs != [] {
      return Response(400, Errors(errs));
    }
    if username == "" || password == "" {
      return Response(400, Error(MissingFields));
    }
    var name := Normalize(username);
    var user := db.FindUserByUsername(name);
    if user.None? {
      return Response(401, Error(AuthenticationFailed));
    }
    assert user.value == db.UserNamed(name);
    var passwordMatch := ComparePassword(libs, user.value, password);
    if !passwordMatch {
      return Response(401, Error(AuthenticationFailed));
    }
    // jwt.sign throws when the secret is missing or empty
    if secret == "" {
      return ServerError;
    }
    var iat := now / 1000;
    resp := Response(200, TokenIssued(Token(user.value.id, iat, iat + TokenLifetime)));
  }

  /**
   * GET /users/me as written: `res.json(user)` sends the whole stored
   * document, the password hash included, or null; always 200.
   */
  method GetMe(db: Store, userId: ObjectId) returns (resp: Response)
    requires UniqueUsers(db.users)
    ensures resp.status == 200 && resp.body.Profile?
    ensures resp.body.user.Some? <==> userId in db.users
    ensures resp.body.user.Some? ==> resp.body.user.value == db.users[userId]
  {
    var user := db.FindUserById(userId);
    resp := Response(200, Profile(user));
  }

  /** GET /users/me as the profile is meant to be: the stored user without its password hash. */
  method GetMeWithoutPassword(db: Store, userId: ObjectId) returns (resp: Response)
    requires UniqueUsers(db.users)
    ensures resp.status == 200 && resp.body.PublicProfile?
    ensures resp.body.profile.Some? <==> userId in db.users
    ensures resp.body.profile.Some? ==>
      var p, u := resp.body.profile.value, db.users[userId];
      p.id == userId && p.username == u.username && p.email == u.email &&
      p.categories == u.categories && p.tasks == u.tasks
  {
    var user := db.FindUserById(userId);
    if user.None? {
      return Response(200, PublicProfile(None));
    }
    resp := Response(200, PublicProfile(Some(Public(user.value))));
  }

  /**
   * PUT /users/me. The handler reads `existing`, a name it never declares,
   * so every request that passes the two lookups throws a ReferenceError
   * and ends in a 500: the update is never reached and the method needs no
   * `modifies` clause. The caller's own username or email counts as taken.
   */
  method UpdateMe(db: Store, libs: Libraries, userId: ObjectId, username: string, email: string, password: string)
    returns (resp: Response)
    requires UniqueUsers(db.users)
    ensures
      var errs := ProfileValidation(libs, username, password, email);
      if errs != [] then
        resp == Response(400, Errors(errs))
      else if db.HasUsername(Normalize(username)) then
        resp == Response(400, Error("Username already exists"))
      else if db.HasEmail(Normalize(email)) then
        resp == Response(400, Error("Email already exists"))
      else
        resp == ServerError
  {
    var errs := ProfileValidation(libs, username, password, email);
    if errs != [] {
      return Response(400, Errors(errs));
    }
    var exist := db.FindUserByUsername(Normalize(username));
    if exist.Some? {
      return Response(400, Error("Username already exists"));
    }
    var existMail := db.FindUserByEmail(Normalize(email));
    if existMail.Some? {
      return Response(400, Error("Email already exists"));
    }
    // `if (existing)`: ReferenceError, caught and passed to next
    resp := ServerError;
  }

  /** A user registered on an empty store can then log in with the same credentials. */
  method RegisterThenLogin(libs: Libraries, salt: nat, secret: string, now: nat,
                           username: string, password: string, email: string)
    returns (registered: Response, loggedIn: Response)
    requires libs.isEmail(email) && ValidForSave(libs, Normalize(username), Normalize(email), password)
    requires libs.bcryptCompare(password, libs.bcryptHash(password, SaltRounds, salt))
    requires secret != ""
    ensures registered == Response(201, Message("User registered successfully"))
    ensures loggedIn.status == 200 && loggedIn.body.TokenIssued?
  {
    var db := new Store();
    assert username != "" by { assert Normalize("") == ""; }
    assert email != "" by { assert Normalize("") == ""; }
    registered := Register(db, libs, salt, username, password, email);
    loggedIn := Login(db, libs, secret, now, username, password);
  }
}
